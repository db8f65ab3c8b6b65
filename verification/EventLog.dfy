/** The event daemon: a bounded log of messages, followers that are pushed every message of
    their channels, and pollers that wait for the next one. */
module EventLog {
  import opened Basics
  import opened Options

  datatype Message = Message(id: int, channel: string, body: string)

  /** The log and the id of the last message posted. */
  datatype Daemon = Daemon(log: seq<Message>, lastId: int, maxQueue: nat)

  function Next(d: Daemon, channel: string, body: string): Message {
    Message(d.lastId + 1, channel, body)
  }

  function Push(log: seq<Message>, m: Message, maxQueue: nat): seq<Message> {
    var pushed := log + [m];
    if |pushed| > maxQueue then pushed[1..] else pushed
  }

  function PostTo(d: Daemon, channel: string, body: string): Daemon {
    Daemon(Push(d.log, Next(d, channel, body), d.maxQueue), d.lastId + 1, d.maxQueue)
  }

  // ---------- one follower ----------

  /** A socket: the filter is None until the first valid set-filter; `sent` is what went out. */
  datatype Follower = Follower(lastMsg: int, filter: Option<set<string>>, sent: seq<Message>)

  function Got(f: Follower, m: Message): Follower
    requires f.filter.Some?
  {
    f.(sent := if m.channel in f.filter.value then f.sent + [m] else f.sent, lastMsg := m.id)
  }

  function CatchUp(f: Follower, log: seq<Message>): (g: Follower)
    requires f.filter.Some?
    ensures g.filter == f.filter
    decreases |log|
  {
    if log == [] then f
    else CatchUp(if log[0].id > f.lastMsg then Got(f, log[0]) else f, log[1..])
  }

  datatype Action = Post(channel: string, body: string) | StartMsg(start: int) | SetFilter(filter: set<string>)

  /** The daemon, one follower, and everything ever posted. */
  datatype World = World(daemon: Daemon, follower: Follower, posted: seq<Message>)

  function Act(w: World, a: Action): World {
    match a
    case Post(channel, body) =>
      var m := Next(w.daemon, channel, body);
      World(PostTo(w.daemon, channel, body),
            if w.follower.filter.Some? then Got(w.follower, m) else w.follower,
            w.posted + [m])
    case StartMsg(start) => w.(follower := w.follower.(lastMsg := start))
    case SetFilter(filter) => w.(follower := CatchUp(w.follower.(filter := Some(filter)), w.daemon.log))
  }

  function Run(w: World, acts: seq<Action>): World
    decreases |acts|
  {
    if acts == [] then w else Run(Act(w, acts[0]), acts[1..])
  }

  function Start(firstId: int, maxQueue: nat): World {
    World(Daemon([], firstId, maxQueue), Follower(0, None, []), [])
  }

  // ---------- the log ----------

  /** The log holds the last min(maxQueue, posted) messages, and ids are consecutive. */
  ghost predicate LogOk(w: World, firstId: int) {
    && HoldsLast(w.daemon.log, w.posted, Min(w.daemon.maxQueue, |w.posted|))
    && w.daemon.lastId == firstId + |w.posted|
    && Consecutive(w.posted, firstId)
  }

  /** The log is the last n of these messages. */
  ghost predicate HoldsLast(log: seq<Message>, ms: seq<Message>, n: nat)
    requires n <= |ms|
  {
    |log| == n && forall i :: 0 <= i < n ==> log[i] == ms[|ms| - n + i]
  }

  ghost predicate Consecutive(ms: seq<Message>, firstId: int) {
    forall i :: 0 <= i < |ms| ==> ms[i].id == firstId + 1 + i
  }

  function LastOf(ms: seq<Message>, n: nat): seq<Message>
    requires n <= |ms|
  {
    ms[|ms| - n..]
  }

  lemma ActKeepsLog(w: World, a: Action, firstId: int)
    requires LogOk(w, firstId) && w.daemon.maxQueue > 0
    ensures LogOk(Act(w, a), firstId)
  {
  }

  lemma {:induction false} RunKeepsLog(w: World, acts: seq<Action>, firstId: int)
    requires LogOk(w, firstId) && w.daemon.maxQueue > 0
    ensures LogOk(Run(w, acts), firstId) && Run(w, acts).daemon.maxQueue == w.daemon.maxQueue
    decreases |acts|
  {
    if acts != [] {
      ActKeepsLog(w, acts[0], firstId);
      RunKeepsLog(Act(w, acts[0]), acts[1..], firstId);
    }
  }

  // ---------- what a follower is sent ----------

  ghost predicate Increasing(ms: seq<Message>) {
    forall i, j :: 0 <= i < j < |ms| ==> ms[i].id < ms[j].id
  }

  /** The messages after `start` on the given channels, in order. */
  function Matching(ms: seq<Message>, start: int, channels: set<string>): seq<Message> {
    if ms == [] then [] else Matching(ms[..|ms| - 1], start, channels) + IfMatching(ms[|ms| - 1], start, channels)
  }

  function IfMatching(m: Message, start: int, channels: set<string>): seq<Message> {
    if m.id > start && m.channel in channels then [m] else []
  }

  lemma {:induction false} MatchingFirst(ms: seq<Message>, start: int, channels: set<string>)
    requires ms != []
    ensures Matching(ms, start, channels) == IfMatching(ms[0], start, channels) + Matching(ms[1..], start, channels)
    decreases |ms|
  {
    if |ms| == 1 {
      assert ms[..0] == [] && ms[1..] == [];
    } else {
      var init, rest := ms[..|ms| - 1], ms[1..];
      MatchingFirst(init, start, channels);
      assert rest[..|rest| - 1] == init[1..] && init[0] == ms[0] && rest[|rest| - 1] == ms[|ms| - 1];
      Associate(IfMatching(ms[0], start, channels), Matching(init[1..], start, channels),
                IfMatching(ms[|ms| - 1], start, channels));
    }
  }

  /** Splitting what was posted at any point splits the matches. */
  lemma {:induction false} MatchingConcat(a: seq<Message>, b: seq<Message>, last: int, channels: set<string>)
    ensures Matching(a + b, last, channels) == Matching(a, last, channels) + Matching(b, last, channels)
    decreases |b|
  {
    if b == [] {
      assert a + b == a;
    } else {
      var init := b[..|b| - 1];
      assert (a + b)[..|a + b| - 1] == a + init;
      MatchingConcat(a, init, last, channels);
      Associate(Matching(a, last, channels), Matching(init, last, channels), IfMatching(b[|b| - 1], last, channels));
    }
  }

  lemma SplitLast(ms: seq<Message>, n: nat)
    requires n <= |ms|
    ensures ms == ms[..|ms| - n] + LastOf(ms, n)
    ensures Increasing(ms) ==> Increasing(LastOf(ms, n))
  {
  }

  /** Where every id exceeds both starts the start makes no difference. */
  lemma {:induction false} MatchingStart(ms: seq<Message>, s: int, t: int, channels: set<string>)
    requires forall i :: 0 <= i < |ms| ==> ms[i].id > s && ms[i].id > t
    ensures Matching(ms, s, channels) == Matching(ms, t, channels)
    decreases |ms|
  {
    if ms != [] { MatchingStart(ms[..|ms| - 1], s, t, channels); }
  }

  lemma {:induction false} MatchingNone(ms: seq<Message>, start: int, channels: set<string>)
    requires forall i :: 0 <= i < |ms| ==> ms[i].id <= start
    ensures Matching(ms, start, channels) == []
    decreases |ms|
  {
    if ms != [] { MatchingNone(ms[..|ms| - 1], start, channels); }
  }

  lemma RestAfterFirst(f: Follower, log: seq<Message>)
    requires f.filter.Some? && log != [] && Increasing(log) && log[0].id > f.lastMsg
    ensures var ch, g := f.filter.value, Got(f, log[0]);
      g.sent + Matching(log[1..], g.lastMsg, ch)
        == f.sent + (IfMatching(log[0], f.lastMsg, ch) + Matching(log[1..], f.lastMsg, ch))
  {
    var ch := f.filter.value;
    MatchingStart(log[1..], f.lastMsg, log[0].id, ch);
    Associate(f.sent, IfMatching(log[0], f.lastMsg, ch), Matching(log[1..], f.lastMsg, ch));
    assert Got(f, log[0]).sent == f.sent + IfMatching(log[0], f.lastMsg, ch);
  }

  /** Catching up sends exactly the retained messages after the last one seen. */
  lemma {:induction false} CatchUpSends(f: Follower, log: seq<Message>)
    requires f.filter.Some? && Increasing(log)
    ensures var g := CatchUp(f, log);
      && g.sent == f.sent + Matching(log, f.lastMsg, f.filter.value)
      && g.lastMsg >= f.lastMsg
      && (forall i :: 0 <= i < |log| ==> log[i].id <= g.lastMsg)
    decreases |log|
  {
    if log != [] {
      MatchingFirst(log, f.lastMsg, f.filter.value);
      if log[0].id > f.lastMsg {
        CatchUpSends(Got(f, log[0]), log[1..]);
        RestAfterFirst(f, log);
      } else {
        CatchUpSends(f, log[1..]);
      }
    }
  }

  /** The follower has seen all that is retained, so catching up again would send nothing. */
  ghost predicate Synced(w: World) {
    w.follower.filter.Some? && forall i :: 0 <= i < |w.daemon.log| ==> w.daemon.log[i].id <= w.follower.lastMsg
  }

  function After(d: Daemon, a: Action): Daemon {
    if a.Post? then PostTo(d, a.channel, a.body) else d
  }

  function FilterAfter(filter: set<string>, a: Action): set<string> {
    if a.SetFilter? then a.filter else filter
  }

  /** What one action after the subscription brings: a post on a channel of the filter in force. */
  function Brings(d: Daemon, filter: set<string>, a: Action): seq<Message> {
    if a.Post? && a.channel in filter then [Next(d, a.channel, a.body)] else []
  }

  function Later(d: Daemon, filter: set<string>, acts: seq<Action>): seq<Message>
    decreases |acts|
  {
    if acts == [] then []
    else Brings(d, filter, acts[0]) + Later(After(d, acts[0]), FilterAfter(filter, acts[0]), acts[1..])
  }

  predicate NoStart(acts: seq<Action>) {
    forall i :: 0 <= i < |acts| ==> !acts[i].StartMsg?
  }

  predicate NoFilter(acts: seq<Action>) {
    forall i :: 0 <= i < |acts| ==> !acts[i].SetFilter?
  }

  lemma LogIncreasing(w: World, firstId: int)
    requires LogOk(w, firstId)
    ensures Increasing(w.daemon.log)
    ensures forall i :: 0 <= i < |w.daemon.log| ==> w.daemon.log[i].id <= w.daemon.lastId
  {
  }

  lemma SyncedPost(w: World, a: Action, firstId: int)
    requires LogOk(w, firstId) && w.daemon.maxQueue > 0 && Synced(w) && a.Post?
    ensures var v := Act(w, a);
      Synced(v) && v.follower.sent == w.follower.sent + Brings(w.daemon, w.follower.filter.value, a)
  {
  }

  lemma SyncedFilter(w: World, a: Action, firstId: int)
    requires LogOk(w, firstId) && Synced(w) && a.SetFilter?
    ensures var v := Act(w, a); Synced(v) && v.follower.sent == w.follower.sent
  {
    Subscribe(w, a.filter, firstId);
    MatchingNone(w.daemon.log, w.follower.lastMsg, a.filter);
  }

  /** One action of a follower that has seen all that is retained. */
  lemma SyncedStep(w: World, a: Action, firstId: int)
    requires LogOk(w, firstId) && w.daemon.maxQueue > 0 && Synced(w) && !a.StartMsg?
    ensures var v := Act(w, a);
      && LogOk(v, firstId) && v.daemon == After(w.daemon, a) && v.daemon.maxQueue > 0 && Synced(v)
      && v.follower.filter.value == FilterAfter(w.follower.filter.value, a)
      && v.follower.sent == w.follower.sent + Brings(w.daemon, w.follower.filter.value, a)
  {
    ActKeepsLog(w, a, firstId);
    if a.Post? { SyncedPost(w, a, firstId); } else { SyncedFilter(w, a, firstId); }
  }

  lemma {:induction false} SyncedRun(w: World, acts: seq<Action>, firstId: int)
    requires LogOk(w, firstId) && w.daemon.maxQueue > 0 && Synced(w) && NoStart(acts)
    ensures Run(w, acts).follower.sent == w.follower.sent + Later(w.daemon, w.follower.filter.value, acts)
    decreases |acts|
  {
    if acts != [] {
      var filter := w.follower.filter.value;
      SyncedStep(w, acts[0], firstId);
      SyncedRun(Act(w, acts[0]), acts[1..], firstId);
      Associate(w.follower.sent, Brings(w.daemon, filter, acts[0]),
                Later(After(w.daemon, acts[0]), FilterAfter(filter, acts[0]), acts[1..]));
    }
  }

  lemma {:induction false} BeforeFilter(w: World, acts: seq<Action>)
    requires w.follower.filter.None? && NoFilter(acts)
    ensures Run(w, acts).follower.filter.None? && Run(w, acts).follower.sent == w.follower.sent
    decreases |acts|
  {
    if acts != [] { BeforeFilter(Act(w, acts[0]), acts[1..]); }
  }

  lemma {:induction false} RunConcat(w: World, before: seq<Action>, after: seq<Action>)
    ensures Run(w, before + after) == Run(Run(w, before), after)
    decreases |before|
  {
    if before == [] {
      assert before + after == after;
    } else {
      assert (before + after)[1..] == before[1..] + after;
      RunConcat(Act(w, before[0]), before[1..], after);
    }
  }

  /** Exactly-once ordered delivery.  A follower that names its start (or not) and then sets a
      filter is sent the matching messages after the start still retained at that moment, then
      every later matching post, and setting other filters later never repeats one. */
  lemma Delivery(firstId: int, maxQueue: nat, before: seq<Action>, filter: set<string>, after: seq<Action>)
    requires maxQueue > 0 && NoFilter(before) && NoStart(after)
    ensures var w := Run(Start(firstId, maxQueue), before);
      Run(Start(firstId, maxQueue), before + [SetFilter(filter)] + after).follower.sent
        == Matching(w.daemon.log, w.follower.lastMsg, filter) + Later(w.daemon, filter, after)
  {
    var s := Start(firstId, maxQueue);
    var w := Run(s, before);
    StartOk(firstId, maxQueue);
    RunKeepsLog(s, before, firstId);
    BeforeFilter(s, before);
    RunMiddle(s, before, SetFilter(filter), after);
    DeliveryFrom(w, filter, after, firstId);
  }

  /** The start is the one the follower last named before it set a filter, 0 when it named none. */
  lemma NamedStart(firstId: int, maxQueue: nat, before: seq<Action>, start: int, between: seq<Action>)
    requires NoFilter(before) && NoFilter(between) && NoStart(between)
    ensures Run(Start(firstId, maxQueue), before + [StartMsg(start)] + between).follower == Follower(start, None, [])
    ensures Run(Start(firstId, maxQueue), between).follower == Follower(0, None, [])
  {
    var s := Start(firstId, maxQueue);
    BeforeFilter(s, before);
    RunMiddle(s, before, StartMsg(start), between);
    OnlyPosts(Act(Run(s, before), StartMsg(start)), between);
    OnlyPosts(s, between);
  }

  lemma {:induction false} OnlyPosts(w: World, acts: seq<Action>)
    requires w.follower.filter.None? && NoFilter(acts) && NoStart(acts)
    ensures Run(w, acts).follower == w.follower
    decreases |acts|
  {
    if acts != [] { OnlyPosts(Act(w, acts[0]), acts[1..]); }
  }

  lemma StartOk(firstId: int, maxQueue: nat)
    ensures LogOk(Start(firstId, maxQueue), firstId)
  {
  }

  lemma DeliveryFrom(w: World, filter: set<string>, after: seq<Action>, firstId: int)
    requires LogOk(w, firstId) && w.daemon.maxQueue > 0 && NoStart(after) && w.follower.sent == []
    ensures Run(Act(w, SetFilter(filter)), after).follower.sent
              == Matching(w.daemon.log, w.follower.lastMsg, filter) + Later(w.daemon, filter, after)
  {
    Subscribe(w, filter, firstId);
    var caught := Matching(w.daemon.log, w.follower.lastMsg, filter);
    assert [] + caught == caught;
    SyncedRun(Act(w, SetFilter(filter)), after, firstId);
  }

  /** Any set-filter sends exactly the retained messages after the last one seen; so a new
      start-msg followed by set-filter sends those after the new start, old ones included. */
  lemma Subscribe(w: World, filter: set<string>, firstId: int)
    requires LogOk(w, firstId)
    ensures var v := Act(w, SetFilter(filter));
      && Synced(v) && LogOk(v, firstId) && v.daemon == w.daemon && v.follower.filter == Some(filter)
      && v.follower.sent == w.follower.sent + Matching(w.daemon.log, w.follower.lastMsg, filter)
  {
    LogIncreasing(w, firstId);
    CatchUpSends(w.follower.(filter := Some(filter)), w.daemon.log);
  }

  lemma RunMiddle(w: World, before: seq<Action>, a: Action, after: seq<Action>)
    ensures Run(w, before + [a] + after) == Run(Act(Run(w, before), a), after)
  {
    assert before + [a] + after == before + ([a] + after);
    RunConcat(w, before, [a] + after);
    assert ([a] + after)[1..] == after;
  }

  /** The messages a stretch of actions posts. */
  function PostedBy(d: Daemon, acts: seq<Action>): seq<Message>
    decreases |acts|
  {
    if acts == [] then []
    else (if acts[0].Post? then [Next(d, acts[0].channel, acts[0].body)] else [])
         + PostedBy(After(d, acts[0]), acts[1..])
  }

  lemma {:induction false} PostedByIds(d: Daemon, acts: seq<Action>)
    ensures forall m :: m in PostedBy(d, acts) ==> m.id > d.lastId
    decreases |acts|
  {
    if acts != [] { PostedByIds(After(d, acts[0]), acts[1..]); }
  }

  lemma {:induction false} RunPosts(w: World, acts: seq<Action>)
    ensures Run(w, acts).posted == w.posted + PostedBy(w.daemon, acts)
    decreases |acts|
  {
    if acts == [] {
      assert w.posted + [] == w.posted;
    } else {
      RunPosts(Act(w, acts[0]), acts[1..]);
      var one := if acts[0].Post? then [Next(w.daemon, acts[0].channel, acts[0].body)] else [];
      Associate(w.posted, one, PostedBy(After(w.daemon, acts[0]), acts[1..]));
    }
  }

  /** The posts among the actions, in order. */
  function PostsAmong(acts: seq<Action>): (posts: seq<Action>)
    ensures forall p :: p in posts ==> p.Post?
  {
    if acts == [] then [] else (if acts[0].Post? then [acts[0]] else []) + PostsAmong(acts[1..])
  }

  /** Every post is posted once, in order, with its own channel and body and the next id, and
      nothing else is. */
  lemma {:induction false} PostedExactly(w: World, acts: seq<Action>)
    ensures var z, posts := Run(w, acts), PostsAmong(acts);
      && |z.posted| == |w.posted| + |posts| && w.posted <= z.posted
      && z.daemon.lastId == w.daemon.lastId + |posts|
      && (forall i :: 0 <= i < |posts| ==>
            z.posted[|w.posted| + i] == Message(w.daemon.lastId + 1 + i, posts[i].channel, posts[i].body))
    decreases |acts|
  {
    if acts != [] {
      var v := Act(w, acts[0]);
      PostedExactly(v, acts[1..]);
      if acts[0].Post? {
        var z, posts := Run(w, acts), PostsAmong(acts);
        assert z.posted[|w.posted|] == v.posted[|w.posted|];
        forall i | 0 < i < |posts|
          ensures z.posted[|w.posted| + i] == Message(w.daemon.lastId + 1 + i, posts[i].channel, posts[i].body)
        {
          assert posts[i] == PostsAmong(acts[1..])[i - 1];
          assert z.posted[|v.posted| + (i - 1)].id == v.daemon.lastId + 1 + (i - 1);
        }
      }
    }
  }

  /** Under one filter the later deliveries are all later posts on its channels. */
  lemma {:induction false} LaterIsPosted(d: Daemon, filter: set<string>, acts: seq<Action>)
    requires NoFilter(acts)
    ensures Later(d, filter, acts) == Matching(PostedBy(d, acts), d.lastId, filter)
    decreases |acts|
  {
    if acts != [] {
      var e, rest := After(d, acts[0]), acts[1..];
      LaterIsPosted(e, filter, rest);
      PostedByIds(e, rest);
      MatchingStart(PostedBy(e, rest), e.lastId, d.lastId, filter);
      if acts[0].Post? {
        assert PostedBy(d, acts)[1..] == PostedBy(e, rest);
        MatchingFirst(PostedBy(d, acts), d.lastId, filter);
      } else {
        assert PostedBy(d, acts) == PostedBy(e, rest);
      }
    }
  }

  /** The whole of a subscription under one filter, over what was posted: the matching messages
      after the start still retained at that moment, then all matching posts made afterwards. */
  lemma DeliveryOfPosts(firstId: int, maxQueue: nat, before: seq<Action>, filter: set<string>, after: seq<Action>)
    requires maxQueue > 0 && NoFilter(before) && NoStart(after) && NoFilter(after)
    ensures var w, z := Run(Start(firstId, maxQueue), before),
                        Run(Start(firstId, maxQueue), before + [SetFilter(filter)] + after);
      && w.posted <= z.posted
      && z.follower.sent == Matching(w.daemon.log, w.follower.lastMsg, filter)
                            + Matching(z.posted[|w.posted|..], w.daemon.lastId, filter)
  {
    DeliveryParts(firstId, maxQueue, before, filter, after);
  }

  /** What was posted and is no longer in the log. */
  function Evicted(w: World): seq<Message> {
    if |w.daemon.log| <= |w.posted| then w.posted[..|w.posted| - |w.daemon.log|] else []
  }

  /** So a follower is sent every matching message after its start, past and future, and no other,
      exactly when none of them had been evicted when it subscribed and none of the matching posts
      made afterwards is below the start, which only a start in the future can bring about. */
  lemma DeliveryComplete(firstId: int, maxQueue: nat, before: seq<Action>, filter: set<string>, after: seq<Action>)
    requires maxQueue > 0 && NoFilter(before) && NoStart(after) && NoFilter(after)
    ensures var w, z := Run(Start(firstId, maxQueue), before),
                        Run(Start(firstId, maxQueue), before + [SetFilter(filter)] + after);
      var start := w.follower.lastMsg;
      && z.posted == w.posted + PostedBy(w.daemon, after)
      && (z.follower.sent == Matching(z.posted, start, filter) <==>
            && Matching(Evicted(w), start, filter) == []
            && forall m :: m in PostedBy(w.daemon, after) && m.channel in filter ==> m.id > start)
  {
    var w := Run(Start(firstId, maxQueue), before);
    DeliveryParts(firstId, maxQueue, before, filter, after);
    if w.follower.lastMsg <= w.daemon.lastId {
      CompleteExact(w, PostedBy(w.daemon, after), w.follower.lastMsg, filter);
    } else {
      FutureStart(w, PostedBy(w.daemon, after), w.follower.lastMsg, filter);
    }
  }

  /** The state before the subscription, and what the run ends with. */
  lemma DeliveryParts(firstId: int, maxQueue: nat, before: seq<Action>, filter: set<string>, after: seq<Action>)
    requires maxQueue > 0 && NoFilter(before) && NoStart(after) && NoFilter(after)
    ensures var w, z := Run(Start(firstId, maxQueue), before),
                        Run(Start(firstId, maxQueue), before + [SetFilter(filter)] + after);
      && |w.daemon.log| <= |w.posted| && w.daemon.log == LastOf(w.posted, |w.daemon.log|)
      && (forall i :: 0 <= i < |w.posted| ==> w.posted[i].id <= w.daemon.lastId)
      && (forall m :: m in PostedBy(w.daemon, after) ==> m.id > w.daemon.lastId)
      && z.posted == w.posted + PostedBy(w.daemon, after)
      && z.follower.sent == Matching(w.daemon.log, w.follower.lastMsg, filter)
                            + Matching(PostedBy(w.daemon, after), w.daemon.lastId, filter)
  {
    var w := Run(Start(firstId, maxQueue), before);
    Delivery(firstId, maxQueue, before, filter, after);
    LaterIsPosted(w.daemon, filter, after);
    RunLog(firstId, maxQueue, before);
    PostsAfterwards(Start(firstId, maxQueue), before, filter, after);
    PostedByIds(w.daemon, after);
  }

  lemma RunLog(firstId: int, maxQueue: nat, acts: seq<Action>)
    requires maxQueue > 0
    ensures var w := Run(Start(firstId, maxQueue), acts);
      && |w.daemon.log| <= |w.posted| && w.daemon.log == LastOf(w.posted, |w.daemon.log|)
      && (forall i :: 0 <= i < |w.posted| ==> w.posted[i].id <= w.daemon.lastId)
  {
    StartOk(firstId, maxQueue);
    RunKeepsLog(Start(firstId, maxQueue), acts, firstId);
    LogIsEnd(Run(Start(firstId, maxQueue), acts), firstId);
  }

  lemma LogIsEnd(w: World, firstId: int)
    requires LogOk(w, firstId)
    ensures |w.daemon.log| <= |w.posted| && w.daemon.log == LastOf(w.posted, |w.daemon.log|)
    ensures forall i :: 0 <= i < |w.posted| ==> w.posted[i].id <= w.daemon.lastId
  {
  }

  lemma PostsAfterwards(s: World, before: seq<Action>, filter: set<string>, after: seq<Action>)
    ensures var w := Run(s, before);
      Run(s, before + [SetFilter(filter)] + after).posted == w.posted + PostedBy(w.daemon, after)
  {
    RunMiddle(s, before, SetFilter(filter), after);
    RunPosts(Act(Run(s, before), SetFilter(filter)), after);
  }

  lemma CompleteExact(w: World, later: seq<Message>, start: int, filter: set<string>)
    requires |w.daemon.log| <= |w.posted| && w.daemon.log == LastOf(w.posted, |w.daemon.log|)
    requires start <= w.daemon.lastId && forall m :: m in later ==> m.id > w.daemon.lastId
    ensures Matching(w.daemon.log, start, filter) + Matching(later, w.daemon.lastId, filter)
              == Matching(w.posted + later, start, filter)
            <==> Matching(Evicted(w), start, filter) == []
  {
    MatchingStart(later, w.daemon.lastId, start, filter);
    MatchingConcat(w.posted, later, start, filter);
    SplitLast(w.posted, |w.daemon.log|);
    MatchingConcat(Evicted(w), w.daemon.log, start, filter);
    MissingPart(Matching(Evicted(w), start, filter), Matching(w.daemon.log, start, filter),
                Matching(later, start, filter));
  }

  /** A start in the future: nothing posted so far is above it. */
  lemma FutureStart(w: World, later: seq<Message>, start: int, filter: set<string>)
    requires |w.daemon.log| <= |w.posted| && w.daemon.log == LastOf(w.posted, |w.daemon.log|)
    requires forall i :: 0 <= i < |w.posted| ==> w.posted[i].id <= w.daemon.lastId
    requires w.daemon.lastId < start && forall m :: m in later ==> m.id > w.daemon.lastId
    ensures Matching(Evicted(w), start, filter) == []
    ensures Matching(w.daemon.log, start, filter) + Matching(later, w.daemon.lastId, filter)
              == Matching(w.posted + later, start, filter)
            <==> forall m :: m in later && m.channel in filter ==> m.id > start
  {
    NothingAbove(w, start, filter);
    MatchingConcat(w.posted, later, start, filter);
    HigherStart(later, w.daemon.lastId, start, filter);
    Empty(Matching(later, w.daemon.lastId, filter));
    Empty(Matching(later, start, filter));
  }

  lemma NothingAbove(w: World, start: int, filter: set<string>)
    requires |w.daemon.log| <= |w.posted| && w.daemon.log == LastOf(w.posted, |w.daemon.log|)
    requires forall i :: 0 <= i < |w.posted| ==> w.posted[i].id <= start
    ensures Matching(w.posted, start, filter) == [] && Matching(w.daemon.log, start, filter) == []
    ensures Matching(Evicted(w), start, filter) == []
  {
    MatchingNone(w.posted, start, filter);
    MatchingNone(w.daemon.log, start, filter);
    MatchingNone(Evicted(w), start, filter);
  }

  /** Raising the start loses exactly the matching messages in between. */
  lemma HigherStart(ms: seq<Message>, s: int, t: int, channels: set<string>)
    requires s <= t && forall m :: m in ms ==> m.id > s
    ensures Matching(ms, s, channels) == Matching(ms, t, channels) <==>
              forall m :: m in ms && m.channel in channels ==> m.id > t
  {
    MatchingMembers(ms, s, channels);
    MatchingMembers(ms, t, channels);
    if forall m :: m in ms && m.channel in channels ==> m.id > t { SameMatching(ms, s, t, channels); }
    else {
      var m :| m in ms && m.channel in channels && m.id <= t;
      assert m in Matching(ms, s, channels) && m !in Matching(ms, t, channels);
    }
  }

  lemma {:induction false} SameMatching(ms: seq<Message>, s: int, t: int, channels: set<string>)
    requires forall m :: m in ms && m.channel in channels ==> m.id > s && m.id > t
    ensures Matching(ms, s, channels) == Matching(ms, t, channels)
    decreases |ms|
  {
    if ms != [] {
      assert ms[|ms| - 1] in ms;
      SameMatching(ms[..|ms| - 1], s, t, channels);
    }
  }

  lemma MissingPart(gone: seq<Message>, kept: seq<Message>, later: seq<Message>)
    ensures kept + later == (gone + kept) + later <==> gone == []
  {
    if gone == [] {
      assert gone + kept == kept;
    } else {
      assert |kept + later| < |(gone + kept) + later|;
    }
  }

  // ---------- in strictly increasing order ----------

  lemma {:induction false} MatchingMembers(ms: seq<Message>, start: int, channels: set<string>)
    ensures forall m :: m in Matching(ms, start, channels) <==> m in ms && m.id > start && m.channel in channels
    decreases |ms|
  {
    if ms != [] {
      MatchingMembers(ms[..|ms| - 1], start, channels);
      assert ms == ms[..|ms| - 1] + [ms[|ms| - 1]];
    }
  }

  lemma {:induction false} MatchingIncreasing(ms: seq<Message>, start: int, channels: set<string>)
    requires Increasing(ms)
    ensures Increasing(Matching(ms, start, channels))
    decreases |ms|
  {
    if ms != [] {
      var init, last := ms[..|ms| - 1], ms[|ms| - 1];
      MatchingIncreasing(init, start, channels);
      MatchingMembers(init, start, channels);
      forall m | m in Matching(init, start, channels) ensures m.id < last.id {
        var i :| 0 <= i < |init| && init[i] == m;
        assert ms[i] == m;
      }
    }
  }

  lemma {:induction false} LaterIncreasing(d: Daemon, filter: set<string>, acts: seq<Action>)
    ensures Increasing(Later(d, filter, acts)) && forall m :: m in Later(d, filter, acts) ==> m.id > d.lastId
    decreases |acts|
  {
    if acts != [] { LaterIncreasing(After(d, acts[0]), FilterAfter(filter, acts[0]), acts[1..]); }
  }

  lemma IncreasingJoin(a: seq<Message>, b: seq<Message>, bound: int)
    requires Increasing(a) && Increasing(b)
    requires (forall m :: m in a ==> m.id <= bound) && (forall m :: m in b ==> bound < m.id)
    ensures Increasing(a + b)
  {
  }

  /** No message comes twice and none out of order. */
  lemma DeliveryIncreasing(firstId: int, maxQueue: nat, before: seq<Action>, filter: set<string>, after: seq<Action>)
    requires maxQueue > 0 && NoFilter(before) && NoStart(after)
    ensures Increasing(Run(Start(firstId, maxQueue), before + [SetFilter(filter)] + after).follower.sent)
  {
    Delivery(firstId, maxQueue, before, filter, after);
    var w := Run(Start(firstId, maxQueue), before);
    StartOk(firstId, maxQueue);
    RunKeepsLog(Start(firstId, maxQueue), before, firstId);
    PartsIncreasing(w, firstId, filter, after);
  }

  lemma PartsIncreasing(w: World, firstId: int, filter: set<string>, after: seq<Action>)
    requires LogOk(w, firstId)
    ensures Increasing(Matching(w.daemon.log, w.follower.lastMsg, filter) + Later(w.daemon, filter, after))
  {
    LogIncreasing(w, firstId);
    MatchingIncreasing(w.daemon.log, w.follower.lastMsg, filter);
    MatchingMembers(w.daemon.log, w.follower.lastMsg, filter);
    LaterIncreasing(w.daemon, filter, after);
    IncreasingJoin(Matching(w.daemon.log, w.follower.lastMsg, filter), Later(w.daemon, filter, after), w.daemon.lastId);
  }

  // ---------- further start-msg commands ----------

  /** A set-filter that sends something not above the last message sent: a retained message on its
      channels is above the follower's start and not above that message. */
  ghost predicate GoesBack(w: World, a: Action) {
    && a.SetFilter? && w.follower.sent != []
    && exists i :: 0 <= i < |w.daemon.log| && w.daemon.log[i].channel in a.filter
                   && w.follower.lastMsg < w.daemon.log[i].id <= w.follower.sent[|w.follower.sent| - 1].id
  }

  ghost predicate NeverGoesBack(w: World, acts: seq<Action>)
    decreases |acts|
  {
    acts == [] || (!GoesBack(w, acts[0]) && NeverGoesBack(Act(w, acts[0]), acts[1..]))
  }

  /** Everything sent has been posted before. */
  ghost predicate SentBefore(w: World) {
    forall m :: m in w.follower.sent ==> m.id <= w.daemon.lastId
  }

  lemma SentGrows(w: World, a: Action, firstId: int)
    requires LogOk(w, firstId) && w.daemon.maxQueue > 0 && SentBefore(w)
    ensures SentBefore(Act(w, a)) && w.follower.sent <= Act(w, a).follower.sent
    ensures Increasing(w.follower.sent) ==> (Increasing(Act(w, a).follower.sent) <==> !GoesBack(w, a))
  {
    match a
    case Post(_, _) =>
    case StartMsg(_) =>
    case SetFilter(filter) =>
      Subscribe(w, filter, firstId);
      LogIncreasing(w, firstId);
      CaughtUpBack(w, filter);
  }

  /** Catching up continues the order exactly when it does not go back. */
  lemma CaughtUpBack(w: World, filter: set<string>)
    requires Increasing(w.daemon.log)
    ensures var caught := Matching(w.daemon.log, w.follower.lastMsg, filter);
      && (forall m :: m in caught ==> m in w.daemon.log)
      && (Increasing(w.follower.sent) ==>
            (Increasing(w.follower.sent + caught) <==> !GoesBack(w, SetFilter(filter))))
  {
    var sent, caught := w.follower.sent, Matching(w.daemon.log, w.follower.lastMsg, filter);
    MatchingMembers(w.daemon.log, w.follower.lastMsg, filter);
    MatchingIncreasing(w.daemon.log, w.follower.lastMsg, filter);
    if sent != [] && Increasing(sent) {
      AppendIncreasing(sent, caught);
      if m :| m in caught && m.id <= sent[|sent| - 1].id { assert GoesBack(w, SetFilter(filter)); }
    } else if sent == [] {
      assert sent + caught == caught;
    }
  }

  lemma AppendIncreasing(a: seq<Message>, b: seq<Message>)
    requires a != [] && Increasing(a) && Increasing(b)
    ensures Increasing(a + b) <==> forall m :: m in b ==> a[|a| - 1].id < m.id
  {
    if Increasing(a + b) {
      forall m | m in b ensures a[|a| - 1].id < m.id {
        var i :| 0 <= i < |b| && b[i] == m;
        assert (a + b)[|a| - 1] == a[|a| - 1] && (a + b)[|a| + i] == m;
      }
    }
  }

  lemma {:induction false} SentIsPrefix(w: World, acts: seq<Action>, firstId: int)
    requires LogOk(w, firstId) && w.daemon.maxQueue > 0 && SentBefore(w)
    ensures w.follower.sent <= Run(w, acts).follower.sent
    decreases |acts|
  {
    if acts != [] {
      SentGrows(w, acts[0], firstId);
      ActKeepsLog(w, acts[0], firstId);
      SentIsPrefix(Act(w, acts[0]), acts[1..], firstId);
    }
  }

  lemma {:induction false} IncreasingExact(w: World, acts: seq<Action>, firstId: int)
    requires LogOk(w, firstId) && w.daemon.maxQueue > 0 && SentBefore(w) && Increasing(w.follower.sent)
    ensures Increasing(Run(w, acts).follower.sent) <==> NeverGoesBack(w, acts)
    decreases |acts|
  {
    if acts != [] {
      var v := Act(w, acts[0]);
      SentGrows(w, acts[0], firstId);
      ActKeepsLog(w, acts[0], firstId);
      if GoesBack(w, acts[0]) {
        SentIsPrefix(v, acts[1..], firstId);
        PrefixIncreasing(v.follower.sent, Run(v, acts[1..]).follower.sent);
      } else {
        IncreasingExact(v, acts[1..], firstId);
      }
    }
  }

  lemma PrefixIncreasing(a: seq<Message>, b: seq<Message>)
    requires a <= b
    ensures Increasing(b) ==> Increasing(a)
  {
  }

  /** Over every run, with any start-msg and set-filter commands at any time: no message comes twice
      and none out of order exactly when no set-filter goes back. */
  lemma WholeDeliveryIncreasing(firstId: int, maxQueue: nat, acts: seq<Action>)
    requires maxQueue > 0
    ensures Increasing(Run(Start(firstId, maxQueue), acts).follower.sent) <==>
              NeverGoesBack(Start(firstId, maxQueue), acts)
  {
    StartOk(firstId, maxQueue);
    IncreasingExact(Start(firstId, maxQueue), acts, firstId);
  }

  lemma RunStep(w: World, a: Action, rest: seq<Action>)
    ensures Run(w, [a] + rest) == Run(Act(w, a), rest)
  {
    assert ([a] + rest)[1..] == rest;
  }

  /** A second start-msg that goes back: the only message is sent twice. */
  lemma RestartWitness(firstId: int, maxQueue: nat, filter: set<string>, channel: string) returns (acts: seq<Action>)
    requires firstId >= 0 && maxQueue > 0 && channel in filter
    ensures var m := Message(firstId + 1, channel, "");
      Run(Start(firstId, maxQueue), acts).follower.sent == [m, m]
  {
    var m := Message(firstId + 1, channel, "");
    var w1 := World(Daemon([], firstId, maxQueue), Follower(0, Some(filter), []), []);
    var w2 := World(Daemon([m], firstId + 1, maxQueue), Follower(m.id, Some(filter), [m]), [m]);
    var w3 := w2.(follower := w2.follower.(lastMsg := 0));
    var subscribe, post, restart := SetFilter(filter), Post(channel, ""), StartMsg(0);
    acts := [subscribe] + ([post] + ([restart] + ([subscribe] + [])));
    RunStep(Start(firstId, maxQueue), subscribe, [post] + ([restart] + ([subscribe] + [])));
    RunStep(w1, post, [restart] + ([subscribe] + []));
    RunStep(w2, restart, [subscribe] + []);
    RunStep(w3, subscribe, []);
    assert Act(Start(firstId, maxQueue), subscribe) == w1;
    assert Act(w1, post) == w2 && Act(w2, restart) == w3;
    CatchUpOne(w3.follower, m);
    assert Run(Act(w3, subscribe), []) == Act(w3, subscribe);
    assert Act(w3, subscribe).follower.sent == [m] + [m];
  }

  lemma CatchUpOne(f: Follower, m: Message)
    requires f.filter.Some? && m.id > f.lastMsg && m.channel in f.filter.value
    ensures CatchUp(f, [m]).sent == f.sent + [m]
  {
    assert [m][1..] == [];
  }
}
