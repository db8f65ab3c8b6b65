/** The limiter on test-case events: per submission a counter and the time of its last reset. */
module RateLimiter {
  import opened Options

  const UPDATE_RATE_LIMIT: nat := 5
  const UPDATE_RATE_TIME: real := 0.5

  datatype Counter = Counter(updates: nat, reset: real)

  /** One packet and the two readings of the clock its handling may take: one to check the window
      of the submission, one to open a new window. */
  datatype Packet = Packet(id: int, check: real, open: real)

  /** The packet falls into the window of the counter. */
  predicate InWindow(c: Option<Counter>, p: Packet) {
    c.Some? && p.check - c.value.reset <= UPDATE_RATE_TIME
  }

  /** The new counter of the submission. */
  function Step(c: Option<Counter>, p: Packet): Counter {
    if InWindow(c, p) then Counter(c.value.updates + 1, c.value.reset) else Counter(1, p.open)
  }

  predicate Posted(c: Option<Counter>, p: Packet) {
    InWindow(c, p) ==> c.value.updates < UPDATE_RATE_LIMIT
  }

  /** When the decision is made: the last reading taken. */
  function Reading(c: Option<Counter>, p: Packet): real {
    if InWindow(c, p) then p.check else p.open
  }

  function Lookup(counters: map<int, Counter>, id: int): Option<Counter> {
    if id in counters then Some(counters[id]) else None
  }

  function Next(counters: map<int, Counter>, p: Packet): map<int, Counter> {
    counters[p.id := Step(Lookup(counters, p.id), p)]
  }

  class Limiter {
    var counters: map<int, Counter>

    constructor ()
      ensures counters == map[]
    {
      counters := map[];
    }

    /** The part of the packet handler that decides whether to post; `check` and `open` are its
        readings of the clock. */
    method OnTestCase(id: int, check: real, open: real) returns (doPost: bool)
      modifies this
      ensures counters == Next(old(counters), Packet(id, check, open))
      ensures doPost == Posted(Lookup(old(counters), id), Packet(id, check, open))
    {
      doPost := true;
      if id in counters {
        var cnt, reset := counters[id].updates, counters[id].reset;
        cnt := cnt + 1;
        if check - reset > UPDATE_RATE_TIME {
          counters := counters - {id};
        } else {
          counters := counters[id := Counter(cnt, reset)];
          if cnt > UPDATE_RATE_LIMIT { doPost := false; }
        }
      }
      if id !in counters { counters := counters[id := Counter(1, open)]; }
    }
  }

  // ---------- runs ----------

  /** The clock never runs backwards, within a packet or from one to the next. */
  predicate Clocked(ps: seq<Packet>) {
    && (forall i :: 0 <= i < |ps| ==> ps[i].check <= ps[i].open)
    && (forall i, j :: 0 <= i < j < |ps| ==> ps[i].open <= ps[j].check)
  }

  /** One if the packet is a post of this submission decided within the closed interval of length
      UPDATE_RATE_TIME from a. */
  function Counted(counters: map<int, Counter>, p: Packet, id: int, a: real): nat {
    var c := Lookup(counters, p.id);
    if p.id == id && Posted(c, p) && a <= Reading(c, p) <= a + UPDATE_RATE_TIME then 1 else 0
  }

  function PostsWithin(counters: map<int, Counter>, ps: seq<Packet>, id: int, a: real): nat
    decreases |ps|
  {
    if ps == [] then 0 else Counted(counters, ps[0], id, a) + PostsWithin(Next(counters, ps[0]), ps[1..], id, a)
  }

  /** What is left, once the clock has reached a, when the counter of the submission stands at
      c: the rest of a window opened within the interval, and one further window when the
      current one was opened before the interval. */
  function Allowance(c: Option<Counter>, a: real): nat {
    if c.None? then UPDATE_RATE_LIMIT
    else
      var left := if c.value.updates >= UPDATE_RATE_LIMIT then 0 else UPDATE_RATE_LIMIT - c.value.updates;
      if c.value.reset < a then left + UPDATE_RATE_LIMIT else left
  }

  /** Every window was opened by an earlier packet. */
  ghost predicate Past(counters: map<int, Counter>, ps: seq<Packet>) {
    forall id, i :: id in counters && 0 <= i < |ps| ==> counters[id].updates >= 1 && counters[id].reset <= ps[i].check
  }

  lemma PastKept(counters: map<int, Counter>, ps: seq<Packet>)
    requires ps != [] && Clocked(ps) && Past(counters, ps)
    ensures Clocked(ps[1..]) && Past(Next(counters, ps[0]), ps[1..])
  {
  }

  /** What one packet of the submission takes from the allowance. */
  lemma OnePacket(counters: map<int, Counter>, p: Packet, a: real)
    requires p.check <= p.open && a <= Reading(Lookup(counters, p.id), p) <= a + UPDATE_RATE_TIME
    ensures Counted(counters, p, p.id, a) + Allowance(Some(Step(Lookup(counters, p.id), p)), a)
            <= Allowance(Lookup(counters, p.id), a)
  {
  }

  lemma {:induction false} WithinAllowance(counters: map<int, Counter>, ps: seq<Packet>, id: int, a: real)
    requires Clocked(ps) && Past(counters, ps)
    requires ps != [] ==> Reading(Lookup(counters, ps[0].id), ps[0]) >= a
    ensures PostsWithin(counters, ps, id, a) <= Allowance(Lookup(counters, id), a)
    decreases |ps|
  {
    if ps != [] {
      var p, rest := ps[0], ps[1..];
      PastKept(counters, ps);
      if p.id == id && Reading(Lookup(counters, id), p) > a + UPDATE_RATE_TIME {
        NothingLater(Next(counters, p), rest, id, a);
      } else {
        if p.id == id { OnePacket(counters, p, a); }
        WithinAllowance(Next(counters, p), rest, id, a);
      }
    }
  }

  /** Packets before the interval count for nothing; after them a window has been used at least
      once, so at most 2 * UPDATE_RATE_LIMIT - 1 posts are left. */
  lemma {:induction false} BeforeInterval(counters: map<int, Counter>, ps: seq<Packet>, id: int, a: real)
    requires Clocked(ps) && Past(counters, ps)
    ensures PostsWithin(counters, ps, id, a) <= 2 * UPDATE_RATE_LIMIT - 1
    decreases |ps|
  {
    if ps != [] {
      if Reading(Lookup(counters, ps[0].id), ps[0]) < a {
        PastKept(counters, ps);
        BeforeInterval(Next(counters, ps[0]), ps[1..], id, a);
      } else {
        WithinAllowance(counters, ps, id, a);
      }
    }
  }

  /** Once the clock has passed the interval nothing more counts. */
  lemma {:induction false} NothingLater(counters: map<int, Counter>, ps: seq<Packet>, id: int, a: real)
    requires Clocked(ps) && forall i :: 0 <= i < |ps| ==> ps[i].check > a + UPDATE_RATE_TIME
    ensures PostsWithin(counters, ps, id, a) == 0
    decreases |ps|
  {
    if ps != [] { NothingLater(Next(counters, ps[0]), ps[1..], id, a); }
  }

  /** Over any run with nondecreasing clock readings no submission is posted more than
      2 * UPDATE_RATE_LIMIT - 1 times within any closed interval of length UPDATE_RATE_TIME. */
  lemma RateBound(ps: seq<Packet>, id: int, a: real)
    requires Clocked(ps)
    ensures PostsWithin(map[], ps, id, a) <= 2 * UPDATE_RATE_LIMIT - 1
  {
    BeforeInterval(map[], ps, id, a);
  }

  // ---------- the first packet of each window ----------

  /** The counters after a run. */
  function After(counters: map<int, Counter>, ps: seq<Packet>): map<int, Counter>
    decreases |ps|
  {
    if ps == [] then counters else After(Next(counters, ps[0]), ps[1..])
  }

  /** Which packets of a run are posted. */
  function Posts(counters: map<int, Counter>, ps: seq<Packet>): (posts: seq<bool>)
    ensures |posts| == |ps|
    decreases |ps|
  {
    if ps == [] then [] else [Posted(Lookup(counters, ps[0].id), ps[0])] + Posts(Next(counters, ps[0]), ps[1..])
  }

  lemma {:induction false} PostsAt(counters: map<int, Counter>, ps: seq<Packet>, i: nat)
    requires i < |ps|
    ensures Posts(counters, ps)[i] == Posted(Lookup(After(counters, ps[..i]), ps[i].id), ps[i])
    decreases i
  {
    if i > 0 {
      PostsAt(Next(counters, ps[0]), ps[1..], i - 1);
      assert ps[..i][1..] == ps[1..][..i - 1];
    } else {
      assert ps[..0] == [];
    }
  }

  /** A packet that opens a window, being the first of its submission or coming more than
      UPDATE_RATE_TIME after the window's start, is always posted, and a packet within a window
      is posted exactly while the limit is not reached. */
  lemma PostedExactly(ps: seq<Packet>, i: nat)
    requires i < |ps|
    ensures var c := Lookup(After(map[], ps[..i]), ps[i].id);
      Posts(map[], ps)[i] <==>
        (c.None? || ps[i].check - c.value.reset > UPDATE_RATE_TIME || c.value.updates < UPDATE_RATE_LIMIT)
  {
    PostsAt(map[], ps, i);
  }

  // ---------- what a counter says ----------

  /** The packets of the submission. */
  function Received(ps: seq<Packet>, id: int): nat {
    if ps == [] then 0 else Received(ps[..|ps| - 1], id) + (if ps[|ps| - 1].id == id then 1 else 0)
  }

  /** Packet k opened the window, all later ones of the submission fell into it, and the counter
      holds their number and the reading with which it was opened. */
  ghost predicate OpenedBy(ps: seq<Packet>, id: int, c: Counter, k: int) {
    && 0 <= k < |ps| && ps[k].id == id
    && c == Counter(Received(ps[k..], id), ps[k].open)
    && (forall i :: k < i < |ps| && ps[i].id == id ==> ps[i].check - ps[k].open <= UPDATE_RATE_TIME)
  }

  lemma {:induction false} AfterLast(counters: map<int, Counter>, ps: seq<Packet>, p: Packet)
    ensures After(counters, ps + [p]) == Next(After(counters, ps), p)
    decreases |ps|
  {
    if ps == [] {
      assert [p][1..] == [];
    } else {
      assert (ps + [p])[1..] == ps[1..] + [p];
      AfterLast(Next(counters, ps[0]), ps[1..], p);
    }
  }

  /** After any run there is a counter for exactly the submissions that sent a packet, and it counts
      the packets of the current window from the one that opened it. */
  lemma {:induction false} CounterMeans(ps: seq<Packet>, id: int)
    ensures var c := Lookup(After(map[], ps), id);
      && (c.None? <==> forall i :: 0 <= i < |ps| ==> ps[i].id != id)
      && (c.Some? ==> exists k :: OpenedBy(ps, id, c.value, k))
    decreases |ps|
  {
    if ps != [] {
      var init, p := ps[..|ps| - 1], ps[|ps| - 1];
      assert ps == init + [p];
      CounterMeans(init, id);
      AfterLast(map[], init, p);
      var c := Lookup(After(map[], init), id);
      if p.id == id && !InWindow(c, p) {
        assert ps[|init|..] == [p] && [p][..0] == [];
        assert OpenedBy(ps, id, Counter(1, p.open), |init|);
      } else if c.Some? {
        var k :| OpenedBy(init, id, c.value, k);
        assert ps[k..][..|ps[k..]| - 1] == init[k..];
        assert OpenedBy(ps, id, if p.id == id then Step(c, p) else c.value, k);
      }
    }
  }

  // ---------- the bound is attained ----------

  /** n packets of submission 1, all read at one time. */
  function Burst(n: nat, now: real): (ps: seq<Packet>)
    ensures |ps| == n && forall i :: 0 <= i < n ==> ps[i] == Packet(1, now, now)
  {
    seq(n, _ => Packet(1, now, now))
  }

  function Only(updates: nat, reset: real): map<int, Counter> {
    map[1 := Counter(updates, reset)]
  }

  lemma OneMore(updates: nat, reset: real, now: real, a: real)
    requires updates < UPDATE_RATE_LIMIT && now - reset <= UPDATE_RATE_TIME && a <= now <= a + UPDATE_RATE_TIME
    ensures var p := Packet(1, now, now);
      Next(Only(updates, reset), p) == Only(updates + 1, reset) && Counted(Only(updates, reset), p, 1, a) == 1
  {
  }

  /** Packets of one window within the limit and the interval all count. */
  lemma {:induction false} BurstPosts(updates: nat, reset: real, n: nat, now: real, rest: seq<Packet>, a: real)
    requires updates + n <= UPDATE_RATE_LIMIT && now - reset <= UPDATE_RATE_TIME && a <= now <= a + UPDATE_RATE_TIME
    ensures PostsWithin(Only(updates, reset), Burst(n, now) + rest, 1, a) ==
              n + PostsWithin(Only(updates + n, reset), rest, 1, a)
    decreases n
  {
    if n == 0 {
      assert Burst(0, now) + rest == rest;
    } else {
      var ps := Burst(n, now) + rest;
      assert ps[1..] == Burst(n - 1, now) + rest;
      OneMore(updates, reset, now, a);
      BurstPosts(updates + 1, reset, n - 1, now, rest, a);
    }
  }

  /** A packet that opens a window and counts exactly when it is within the interval. */
  lemma OpeningPost(counters: map<int, Counter>, now: real, rest: seq<Packet>, a: real)
    requires counters.Keys <= {1} && (1 in counters ==> now - counters[1].reset > UPDATE_RATE_TIME)
    ensures PostsWithin(counters, [Packet(1, now, now)] + rest, 1, a) ==
              (if a <= now <= a + UPDATE_RATE_TIME then 1 else 0) + PostsWithin(Only(1, now), rest, 1, a)
  {
    var p := Packet(1, now, now);
    assert ([p] + rest)[1..] == rest;
    assert Next(counters, p) == Only(1, now);
  }

  /** A packet at t0, four more in its window at t1, five of the next window at t2. */
  function TwoWindows(t0: real, t1: real, t2: real): (ps: seq<Packet>)
    ensures |ps| == 2 * UPDATE_RATE_LIMIT
    ensures forall i :: 0 <= i < |ps| ==>
              ps[i].check == ps[i].open == if i == 0 then t0 else if i < UPDATE_RATE_LIMIT then t1 else t2
  {
    [Packet(1, t0, t0)] +
    (Burst(UPDATE_RATE_LIMIT - 1, t1) + ([Packet(1, t2, t2)] + (Burst(UPDATE_RATE_LIMIT - 1, t2) + [])))
  }

  lemma TwoWindowsPosts(t0: real, t1: real, t2: real, a: real)
    requires t0 < a <= t1 <= t0 + UPDATE_RATE_TIME < t2 <= a + UPDATE_RATE_TIME
    ensures PostsWithin(map[], TwoWindows(t0, t1, t2), 1, a) == 2 * UPDATE_RATE_LIMIT - 1
  {
    var last := Burst(UPDATE_RATE_LIMIT - 1, t2) + [];
    var second := [Packet(1, t2, t2)] + last;
    OpeningPost(map[], t0, Burst(UPDATE_RATE_LIMIT - 1, t1) + second, a);
    BurstPosts(1, t0, UPDATE_RATE_LIMIT - 1, t1, second, a);
    OpeningPost(Only(UPDATE_RATE_LIMIT, t0), t2, last, a);
    BurstPosts(1, t2, UPDATE_RATE_LIMIT - 1, t2, [], a);
  }

  /** The first packet of a window before the interval and all other posts within it. */
  lemma RateBoundTight() returns (ps: seq<Packet>, a: real)
    ensures Clocked(ps) && PostsWithin(map[], ps, 1, a) == 2 * UPDATE_RATE_LIMIT - 1
  {
    var t0, t1, t2 := 0.0, 0.4, 0.6;
    ps, a := TwoWindows(t0, t1, t2), 0.2;
    TwoWindowsPosts(t0, t1, t2, a);
  }
}
