/** The long-polling client: each request names the last id seen and is answered with the next
    message of its channels, at once from the log or later by a post. */
module EventPoll {
  import opened Basics
  import opened Options
  import opened EventLog

  /** The client with at most one request outstanding; `received` is what it has been given. */
  datatype Poller = Poller(last: int, channels: set<string>, waiting: bool, received: seq<Message>)

  datatype System = System(daemon: Daemon, poller: Poller, posted: seq<Message>)

  function Give(p: Poller, m: Message): Poller {
    p.(last := m.id, waiting := false, received := p.received + [m])
  }

  /** The first retained message after the last id on one of the channels. */
  function FirstUnread(log: seq<Message>, last: int, channels: set<string>): Option<Message>
    decreases |log|
  {
    if log == [] then None
    else if log[0].id > last && log[0].channel in channels then Some(log[0])
    else FirstUnread(log[1..], last, channels)
  }

  datatype PollAction = Posted(channel: string, body: string) | Request | Timeout

  function PollStep(s: System, a: PollAction): System {
    match a
    case Posted(channel, body) =>
      var m := Next(s.daemon, channel, body);
      System(PostTo(s.daemon, channel, body),
             if s.poller.waiting && m.channel in s.poller.channels then Give(s.poller, m) else s.poller,
             s.posted + [m])
    case Request =>
      if s.poller.waiting then s
      else
        var first := FirstUnread(s.daemon.log, s.poller.last, s.poller.channels);
        s.(poller := if first.Some? then Give(s.poller, first.value) else s.poller.(waiting := true))
    case Timeout => s.(poller := s.poller.(waiting := false))
  }

  function Unread(s: System): seq<Message> {
    Matching(s.posted, s.poller.last, s.poller.channels)
  }

  function Retained(s: System): seq<Message> {
    Matching(s.daemon.log, s.poller.last, s.poller.channels)
  }

  /** Nothing unread has been evicted from the log. */
  ghost predicate NothingLost(s: System) {
    Unread(s) == Retained(s)
  }

  /** The log is the end of what was posted, in increasing order. */
  ghost predicate Logged(d: Daemon, posted: seq<Message>) {
    && d.maxQueue > 0
    && Increasing(posted)
    && (forall i :: 0 <= i < |posted| ==> posted[i].id <= d.lastId)
    && d.log == LastOf(posted, Min(d.maxQueue, |posted|))
  }

  /** Nothing is assumed of the id the client names. */
  ghost predicate PollOk(s: System) {
    Logged(s.daemon, s.posted)
  }

  lemma {:induction false} FirstIsHead(log: seq<Message>, last: int, channels: set<string>)
    requires Increasing(log)
    ensures var first := FirstUnread(log, last, channels);
      && (first.None? <==> Matching(log, last, channels) == [])
      && (first.Some? ==> Matching(log, last, channels) == [first.value] + Matching(log, first.value.id, channels))
    decreases |log|
  {
    if log != [] {
      MatchingFirst(log, last, channels);
      if log[0].id > last && log[0].channel in channels {
        MatchingFirst(log, log[0].id, channels);
        MatchingStart(log[1..], last, log[0].id, channels);
        Empty(Matching(log[1..], log[0].id, channels));
      } else {
        FirstIsHead(log[1..], last, channels);
        Empty(Matching(log[1..], last, channels));
        var first := FirstUnread(log, last, channels);
        if first.Some? {
          FirstIsMember(log[1..], last, channels);
          MatchingFirst(log, first.value.id, channels);
          Empty(Matching(log[1..], first.value.id, channels));
        }
      }
    }
  }

  lemma {:induction false} FirstIsMember(log: seq<Message>, last: int, channels: set<string>)
    requires FirstUnread(log, last, channels).Some?
    ensures FirstUnread(log, last, channels).value in log && FirstUnread(log, last, channels).value.id > last
    decreases |log|
  {
    if !(log[0].id > last && log[0].channel in channels) { FirstIsMember(log[1..], last, channels); }
  }

  lemma PostedAppend(ms: seq<Message>, m: Message, last: int, channels: set<string>)
    ensures Matching(ms + [m], last, channels) == Matching(ms, last, channels) + IfMatching(m, last, channels)
  {
  }

  // ---------- conservation ----------

  /** What the client has been given followed by what it has not yet read. */
  function Whole(s: System): seq<Message> {
    s.poller.received + Unread(s)
  }

  /** The message a step answers the client with. */
  function Answer(s: System, a: PollAction): Option<Message> {
    match a
    case Posted(channel, body) =>
      if s.poller.waiting && channel in s.poller.channels then Some(Next(s.daemon, channel, body)) else None
    case Request =>
      if s.poller.waiting then None else FirstUnread(s.daemon.log, s.poller.last, s.poller.channels)
    case Timeout => None
  }

  /** The message of the client's channels a step posts. */
  function Brought(s: System, a: PollAction): seq<Message> {
    if a.Posted? && a.channel in s.poller.channels then [Next(s.daemon, a.channel, a.body)] else []
  }

  /** No answer is given past an unread message (none with a smaller id exists), and no matching
      message is posted unnoticed below the id the client names, which takes an id in the future. */
  ghost predicate SkipsNone(s: System, a: PollAction) {
    match Answer(s, a)
    case Some(m) => forall x :: x in Unread(s) ==> x.id >= m.id
    case None => Brought(s, a) != [] ==> s.poller.last <= s.daemon.lastId
  }

  /** A step keeps the whole sequence, extended by what it posts, exactly when it skips no unread
      message; otherwise the sequence gets shorter, for good. */
  lemma StepExact(s: System, a: PollAction)
    requires PollOk(s)
    ensures PollOk(PollStep(s, a)) && PollStep(s, a).poller.channels == s.poller.channels
    ensures Whole(PollStep(s, a)) == Whole(s) + Brought(s, a) <==> SkipsNone(s, a)
    ensures !SkipsNone(s, a) ==> |Whole(PollStep(s, a))| < |Whole(s)| + |Brought(s, a)|
  {
    if a.Posted? {
      PostKeepsOk(s, a);
      PostExact(s, a);
    } else {
      Empty(Whole(s));
      if Answer(s, a).Some? { AnsweredFromLog(s); } else { Unanswered(s, a); }
    }
  }

  lemma PostExact(s: System, a: PollAction)
    requires PollOk(s) && a.Posted?
    ensures Whole(PollStep(s, a)) == Whole(s) + Brought(s, a) <==> SkipsNone(s, a)
    ensures !SkipsNone(s, a) ==> |Whole(PollStep(s, a))| < |Whole(s)| + |Brought(s, a)|
  {
    if Answer(s, a).Some? { AnsweredByPost(s, a); } else { PostedUnanswered(s, a); }
  }

  lemma Unanswered(s: System, a: PollAction)
    requires PollOk(s) && !a.Posted? && Answer(s, a).None?
    ensures PollOk(PollStep(s, a)) && Whole(PollStep(s, a)) == Whole(s)
  {
  }

  lemma PostKeepsOk(s: System, a: PollAction)
    requires PollOk(s) && a.Posted?
    ensures PollOk(PollStep(s, a))
  {
  }

  lemma PostedUnanswered(s: System, a: PollAction)
    requires PollOk(s) && a.Posted? && Answer(s, a).None?
    ensures Whole(PollStep(s, a)) == Whole(s) + Brought(s, a) <==> SkipsNone(s, a)
    ensures !SkipsNone(s, a) ==> |Whole(PollStep(s, a))| < |Whole(s)| + |Brought(s, a)|
  {
    var m := Next(s.daemon, a.channel, a.body);
    PostedAppend(s.posted, m, s.poller.last, s.poller.channels);
    Associate(s.poller.received, Unread(s), IfMatching(m, s.poller.last, s.poller.channels));
  }

  /** An answer by a post loses all that was still unread, which a waiting client has only when it
      had been evicted before the request. */
  lemma AnsweredByPost(s: System, a: PollAction)
    requires PollOk(s) && a.Posted? && Answer(s, a).Some?
    ensures Whole(PollStep(s, a)) == Whole(s) + Brought(s, a) <==> Unread(s) == []
    ensures SkipsNone(s, a) <==> Unread(s) == []
    ensures |Whole(PollStep(s, a))| == |Whole(s)| + |Brought(s, a)| - |Unread(s)|
  {
    var m := Next(s.daemon, a.channel, a.body);
    PostedAppend(s.posted, m, m.id, s.poller.channels);
    MatchingNone(s.posted, m.id, s.poller.channels);
    Empty(s.poller.received + [m]);
    MatchingMembers(s.posted, s.poller.last, s.poller.channels);
    Empty(s.poller.received);
    if Unread(s) != [] { assert Unread(s)[0] in Unread(s); }
  }

  /** The unread messages no longer in the log. */
  function GoneUnread(s: System): seq<Message>
    requires |s.daemon.log| <= |s.posted|
  {
    Matching(s.posted[..|s.posted| - |s.daemon.log|], s.poller.last, s.poller.channels)
  }

  /** An answer from the log loses the unread messages evicted before it. */
  lemma AnsweredFromLog(s: System)
    requires PollOk(s) && Answer(s, Request).Some?
    ensures PollOk(PollStep(s, Request))
    ensures Whole(PollStep(s, Request)) == Whole(s) <==> NothingLost(s)
    ensures SkipsNone(s, Request) <==> NothingLost(s)
    ensures !NothingLost(s) ==> |Whole(PollStep(s, Request))| < |Whole(s)|
  {
    var m := Answer(s, Request).value;
    var rest := Matching(s.posted, m.id, s.poller.channels);
    LogIsSuffix(s);
    UnreadAfter(s, m);
    PrefixExact(s.poller.received, GoneUnread(s), m, rest, Retained(s));
    GoneBefore(s, m);
    MatchingMembers(s.posted, m.id, s.poller.channels);
    FirstOfThree(GoneUnread(s), m, rest);
  }

  lemma FirstOfThree(gone: seq<Message>, m: Message, rest: seq<Message>)
    requires (forall x :: x in gone ==> x.id < m.id) && (forall x :: x in rest ==> m.id < x.id)
    ensures (forall x :: x in gone + ([m] + rest) ==> x.id >= m.id) <==> gone == []
  {
    if gone != [] { assert gone[0] in gone + ([m] + rest); }
  }

  lemma GoneBefore(s: System, m: Message)
    requires PollOk(s) && m in s.daemon.log
    ensures forall x :: x in GoneUnread(s) ==> x.id < m.id
  {
    var k := |s.posted| - |s.daemon.log|;
    var i :| 0 <= i < |s.daemon.log| && s.daemon.log[i] == m;
    assert s.posted[k + i] == m;
    PrefixBefore(s.posted, k, k + i);
    MatchingMembers(s.posted[..k], s.poller.last, s.poller.channels);
  }

  lemma PrefixBefore(ms: seq<Message>, k: nat, i: nat)
    requires Increasing(ms) && k <= i < |ms|
    ensures forall x :: x in ms[..k] ==> x.id < ms[i].id
  {
  }

  lemma PrefixExact(r: seq<Message>, gone: seq<Message>, m: Message, rest: seq<Message>, kept: seq<Message>)
    requires kept == [m] + rest
    ensures (r + [m]) + rest == r + (gone + kept) <==> gone == []
    ensures gone + kept == kept <==> gone == []
    ensures |(r + [m]) + rest| == |r + (gone + kept)| - |gone|
  {
    if gone == [] {
      Empty(kept);
      assert (r + [m]) + rest == r + ([m] + rest);
    }
  }

  /** The retained messages are the last matches. */
  lemma LogIsSuffix(s: System)
    requires PollOk(s)
    ensures Increasing(s.daemon.log)
    ensures var k := |s.posted| - |s.daemon.log|;
      Unread(s) == Matching(s.posted[..k], s.poller.last, s.poller.channels) + Retained(s)
  {
    var k := |s.posted| - |s.daemon.log|;
    SplitLast(s.posted, |s.daemon.log|);
    MatchingConcat(s.posted[..k], s.daemon.log, s.poller.last, s.poller.channels);
  }

  /** Once m of the log has been read, what is left unread is what the log retains after m. */
  lemma UnreadAfter(s: System, m: Message)
    requires PollOk(s) && FirstUnread(s.daemon.log, s.poller.last, s.poller.channels) == Some(m)
    ensures m in s.daemon.log && m in s.posted && s.poller.last < m.id
    ensures Retained(s) == [m] + Matching(s.posted, m.id, s.poller.channels)
  {
    LogIsSuffix(s);
    FirstIsHead(s.daemon.log, s.poller.last, s.poller.channels);
    FirstIsMember(s.daemon.log, s.poller.last, s.poller.channels);
    var k := |s.posted| - |s.daemon.log|;
    SplitLast(s.posted, |s.daemon.log|);
    AfterMember(s.posted[..k], s.daemon.log, s.posted, m, s.poller.channels);
  }

  lemma AfterMember(a: seq<Message>, log: seq<Message>, ms: seq<Message>, m: Message, channels: set<string>)
    requires Increasing(ms) && ms == a + log && m in log
    ensures m in ms && Matching(ms, m.id, channels) == Matching(log, m.id, channels)
  {
    var i :| 0 <= i < |log| && log[i] == m;
    assert ms[|a| + i] == m;
    forall k | 0 <= k < |a| ensures a[k].id <= m.id { assert ms[k] == a[k]; }
    MatchingConcat(a, log, m.id, channels);
    MatchingNone(a, m.id, channels);
    Empty(Matching(log, m.id, channels));
  }

  // ---------- runs ----------

  function PollRun(s: System, acts: seq<PollAction>): System
    decreases |acts|
  {
    if acts == [] then s else PollRun(PollStep(s, acts[0]), acts[1..])
  }

  /** No answer of the run skips an unread message. */
  ghost predicate SkipsNoneEver(s: System, acts: seq<PollAction>)
    decreases |acts|
  {
    acts == [] || (SkipsNone(s, acts[0]) && SkipsNoneEver(PollStep(s, acts[0]), acts[1..]))
  }

  function PostedLater(d: Daemon, acts: seq<PollAction>): seq<Message>
    decreases |acts|
  {
    if acts == [] then []
    else match acts[0]
      case Posted(channel, body) => [Next(d, channel, body)] + PostedLater(PostTo(d, channel, body), acts[1..])
      case _ => PostedLater(d, acts[1..])
  }

  lemma {:induction false} PostedLaterIds(d: Daemon, acts: seq<PollAction>)
    ensures forall i :: 0 <= i < |PostedLater(d, acts)| ==> PostedLater(d, acts)[i].id > d.lastId
    decreases |acts|
  {
    if acts != [] {
      if acts[0].Posted? { PostedLaterIds(PostTo(d, acts[0].channel, acts[0].body), acts[1..]); }
      else { PostedLaterIds(d, acts[1..]); }
    }
  }

  /** The messages of the client's channels posted during the run. */
  function Due(s: System, acts: seq<PollAction>): seq<Message> {
    Matching(PostedLater(s.daemon, acts), s.daemon.lastId, s.poller.channels)
  }

  lemma DueStep(s: System, acts: seq<PollAction>)
    requires acts != []
    ensures Due(s, acts) == Brought(s, acts[0]) + Due(PollStep(s, acts[0]), acts[1..])
  {
    var t, ch := PollStep(s, acts[0]), s.poller.channels;
    if acts[0].Posted? {
      var m := Next(s.daemon, acts[0].channel, acts[0].body);
      var rest := PostedLater(t.daemon, acts[1..]);
      PostedLaterIds(t.daemon, acts[1..]);
      assert ([m] + rest)[1..] == rest;
      MatchingFirst([m] + rest, s.daemon.lastId, ch);
      MatchingStart(rest, s.daemon.lastId, t.daemon.lastId, ch);
    } else {
      Empty(Due(t, acts[1..]));
    }
  }

  /** No run lengthens the whole sequence by more than what it posts. */
  lemma {:induction false} NeverMore(s: System, acts: seq<PollAction>)
    requires PollOk(s)
    ensures |Whole(PollRun(s, acts))| <= |Whole(s)| + |Due(s, acts)|
    decreases |acts|
  {
    if acts != [] {
      StepExact(s, acts[0]);
      DueStep(s, acts);
      NeverMore(PollStep(s, acts[0]), acts[1..]);
    }
  }

  /** A polling client is given every matching message once and in order (what it has been given
      and what is still unread are together the initial ones followed by all posted during the
      run) exactly when no answer is given while an unread message with a smaller id exists and
      nothing for it is posted unnoticed below an id in the future. */
  lemma {:induction false} PollDelivery(s: System, acts: seq<PollAction>)
    requires PollOk(s)
    ensures Whole(PollRun(s, acts)) == Whole(s) + Due(s, acts) <==> SkipsNoneEver(s, acts)
    decreases |acts|
  {
    if acts == [] {
      Empty(Whole(s));
    } else {
      var t := PollStep(s, acts[0]);
      StepExact(s, acts[0]);
      DueStep(s, acts);
      if SkipsNone(s, acts[0]) {
        PollDelivery(t, acts[1..]);
        Associate(Whole(s), Brought(s, acts[0]), Due(t, acts[1..]));
      } else {
        NeverMore(t, acts[1..]);
      }
    }
  }

  /** At every request of the run nothing unread has been evicted. */
  ghost predicate KeepsUp(s: System, acts: seq<PollAction>)
    decreases |acts|
  {
    acts == [] || ((acts[0].Request? ==> NothingLost(s)) && KeepsUp(PollStep(s, acts[0]), acts[1..]))
  }

  /** A client that starts with nothing unread while it waits and keeps up skips nothing. */
  lemma {:induction false} KeepingUpSkipsNone(s: System, acts: seq<PollAction>)
    requires PollOk(s) && s.poller.last <= s.daemon.lastId
    requires (s.poller.waiting ==> Unread(s) == []) && KeepsUp(s, acts)
    ensures SkipsNoneEver(s, acts)
    decreases |acts|
  {
    if acts != [] {
      var t := PollStep(s, acts[0]);
      StepExact(s, acts[0]);
      WaitingHasRead(s, acts[0]);
      KeepingUpSkipsNone(t, acts[1..]);
    }
  }

  lemma WaitingHasRead(s: System, a: PollAction)
    requires PollOk(s) && s.poller.last <= s.daemon.lastId
    requires (s.poller.waiting ==> Unread(s) == []) && (a.Request? ==> NothingLost(s))
    ensures PollStep(s, a).poller.last <= PollStep(s, a).daemon.lastId
    ensures SkipsNone(s, a) && (PollStep(s, a).poller.waiting ==> Unread(PollStep(s, a)) == [])
  {
    if a.Posted? {
      PostedAppend(s.posted, Next(s.daemon, a.channel, a.body), s.poller.last, s.poller.channels);
    } else if a.Request? && !s.poller.waiting {
      if Answer(s, a).Some? { AnswerIsPosted(s); AnsweredFromLog(s); } else { NothingToRead(s); }
    }
  }

  lemma AnswerIsPosted(s: System)
    requires PollOk(s) && Answer(s, Request).Some?
    ensures Answer(s, Request).value.id <= s.daemon.lastId
  {
    UnreadAfter(s, Answer(s, Request).value);
  }

  lemma NothingToRead(s: System)
    requires PollOk(s) && NothingLost(s) && !s.poller.waiting && Answer(s, Request).None?
    ensures Unread(s) == []
  {
    LogIsSuffix(s);
    FirstIsHead(s.daemon.log, s.poller.last, s.poller.channels);
  }

  // ---------- a message skipped ----------

  lemma SkipLater(s: System, a: PollAction, rest: seq<PollAction>)
    requires !SkipsNoneEver(PollStep(s, a), rest)
    ensures !SkipsNoneEver(s, [a] + rest)
  {
    assert ([a] + rest)[1..] == rest;
  }

  lemma SkipNow(s: System, a: PollAction)
    requires !SkipsNone(s, a)
    ensures !SkipsNoneEver(s, [a])
  {
  }

  /** A waiting client whose first message was evicted, and a post of its channel. */
  lemma SkippedWhenUnread(s: System, one: Message, a: PollAction)
    requires s.poller.waiting && a.Posted? && a.channel in s.poller.channels
    requires one in s.posted && s.poller.last < one.id <= s.daemon.lastId && one.channel in s.poller.channels
    ensures !SkipsNone(s, a)
  {
    MatchingMembers(s.posted, s.poller.last, s.poller.channels);
    assert one in Unread(s) && one.id < Answer(s, a).value.id;
  }

  /** Nothing posted yet, and a client that has read nothing. */
  function Fresh(maxQueue: nat, channels: set<string>): System {
    System(Daemon([], 0, maxQueue), Poller(0, channels, false, []), [])
  }

  lemma FreshOk(maxQueue: nat, channels: set<string>)
    requires maxQueue > 0
    ensures PollOk(Fresh(maxQueue, channels))
  {
  }

  /** From the start: the client is given exactly what was posted on its channels, read or still
      unread, exactly when no answer skips an unread message. */
  lemma WholePollDelivery(maxQueue: nat, channels: set<string>, acts: seq<PollAction>)
    requires maxQueue > 0
    ensures var s := Fresh(maxQueue, channels); Whole(PollRun(s, acts)) == Due(s, acts) <==> SkipsNoneEver(s, acts)
  {
    var s := Fresh(maxQueue, channels);
    FreshOk(maxQueue, channels);
    PollDelivery(s, acts);
    assert Whole(s) == [];
    Empty(Due(s, acts));
  }

  /** The log holds one message; the client follows "a".  Its first message is evicted before it
      asks, so it waits with a message unread, and the next post of "a" answers past it. */
  lemma SkippedWitness() returns (acts: seq<PollAction>)
    ensures !SkipsNoneEver(Fresh(1, {"a"}), acts)
  {
    acts := [Posted("a", "")] + ([Posted("b", "")] + ([Request] + [Posted("a", "")]));
    var s := Fresh(1, {"a"});
    var one, two := Message(1, "a", ""), Message(2, "b", "");
    var s1 := System(Daemon([one], 1, 1), s.poller, [one]);
    var s2 := System(Daemon([two], 2, 1), s.poller, [one, two]);
    var s3 := s2.(poller := s2.poller.(waiting := true));
    assert PollStep(s, Posted("a", "")) == s1;
    assert PollStep(s1, Posted("b", "")) == s2 by { assert [one, two][1..] == [two]; }
    SkippedWhenUnread(s3, one, Posted("a", ""));
    SkipNow(s3, Posted("a", ""));
    NothingFor(two, 0, {"a"});
    assert PollStep(s2, Request) == s3;
    SkipLater(s2, Request, [Posted("a", "")]);
    SkipLater(s1, Posted("b", ""), [Request] + [Posted("a", "")]);
    SkipLater(s, Posted("a", ""), [Posted("b", "")] + ([Request] + [Posted("a", "")]));
  }

  lemma NothingFor(m: Message, last: int, channels: set<string>)
    requires m.channel !in channels
    ensures FirstUnread([m], last, channels) == None
  {
    assert [m][1..] == [];
  }
}
