/** The submission queue of the judge bridge: one linked list in which four priority markers
    separate the bands.  A submission of priority p is inserted just before marker p, so the
    band of priority p is what stands between marker p-1 and marker p. */
module MarkerQueue {

  const PRIORITIES: nat := 4
  const REJUDGE_PRIORITY: nat := 2

  /** `target` is the requested judge name; "" stands for "any judge" (None or ''). */
  datatype Submission = Submission(id: int, problem: string, language: string, source: string, target: string)

  datatype Entry = Marker(priority: nat) | Job(sub: Submission)

  /** What the bridge knows of one judge.  `working` is the id being graded, 0 when idle;
      `raises` says that handing it a submission would raise. */
  datatype JudgeInfo = JudgeInfo(
    name: string, tier: nat, problems: set<string>, executors: set<string>,
    disabled: bool, working: int, load: real, raises: bool)

  predicate CanJudge(info: JudgeInfo, sub: Submission) {
    && sub.problem in info.problems
    && sub.language in info.executors
    && ((sub.target == "" && !info.disabled) || info.name == sub.target)
  }

  /** What scanning the queue for a free judge yields. */
  datatype Pick = NoPick | Picked(sub: Submission, priority: nat)

  const EMPTY_QUEUE: seq<Entry> := [Marker(0), Marker(1), Marker(2), Marker(3)]

  // ---------- operations of the list ----------

  /** Insert a submission just before the marker of its priority. */
  function InsertBefore(q: seq<Entry>, p: nat, sub: Submission): seq<Entry> {
    if q == [] then [Job(sub)]
    else if q[0] == Marker(p) then [Job(sub)] + q
    else [q[0]] + InsertBefore(q[1..], p, sub)
  }

  /** Unlink one node. */
  function Unlink(q: seq<Entry>, e: Entry): seq<Entry> {
    if q == [] then []
    else if q[0] == e then q[1..]
    else [q[0]] + Unlink(q[1..], e)
  }

  /** Walk the nodes: `cur` is the priority of the band being walked. */
  function Scan(q: seq<Entry>, cur: nat, info: JudgeInfo, reserve: bool): Pick {
    if q == [] then NoPick
    else match q[0]
      case Marker(m) => Scan(q[1..], m + 1, info, reserve)
      case Job(sub) =>
        if cur >= REJUDGE_PRIORITY && reserve then NoPick
        else if CanJudge(info, sub) then Picked(sub, cur)
        else Scan(q[1..], cur, info, reserve)
  }

  // ---------- the four bands ----------

  /** The submissions of band p, in list order, when the walk starts in band `cur`. */
  function Band(q: seq<Entry>, cur: nat, p: nat): seq<Submission> {
    if q == [] then []
    else match q[0]
      case Marker(m) => Band(q[1..], m + 1, p)
      case Job(sub) => (if cur == p then [sub] else []) + Band(q[1..], cur, p)
  }

  /** The markers cur, ..., 3 stand in this order and nothing follows the last one. */
  predicate InOrder(q: seq<Entry>, cur: nat) {
    if q == [] then cur == PRIORITIES
    else match q[0]
      case Marker(m) => m == cur && cur < PRIORITIES && InOrder(q[1..], cur + 1)
      case Job(_) => cur < PRIORITIES && InOrder(q[1..], cur)
  }

  predicate UniqueIds(q: seq<Entry>) {
    forall i, j :: 0 <= i < j < |q| && q[i].Job? && q[j].Job? ==> q[i].sub.id != q[j].sub.id
  }

  /** The node map knows exactly the queued submissions, by id. */
  ghost predicate NodesMatch(q: seq<Entry>, nodes: map<int, Entry>) {
    && (forall e :: e in q && e.Job? ==> e.sub.id in nodes && nodes[e.sub.id] == e)
    && (forall id :: id in nodes ==> nodes[id] in q && nodes[id].Job? && nodes[id].sub.id == id)
  }

  /** What every operation of the list keeps. */
  ghost predicate Shape(q: seq<Entry>, nodes: map<int, Entry>) {
    InOrder(q, 0) && UniqueIds(q) && NodesMatch(q, nodes)
  }

  function Without(f: seq<Submission>, x: Submission): seq<Submission> {
    if f == [] then [] else if f[0] == x then f[1..] else [f[0]] + Without(f[1..], x)
  }

  // ---------- insertion ----------

  lemma {:induction false} InsertInOrder(q: seq<Entry>, cur: nat, p: nat, sub: Submission)
    requires InOrder(q, cur) && cur <= p < PRIORITIES
    ensures InOrder(InsertBefore(q, p, sub), cur)
  {
    if q != [] && q[0] != Marker(p) {
      InsertInOrder(q[1..], if q[0].Marker? then cur + 1 else cur, p, sub);
    } else {
      assert InsertBefore(q, p, sub)[1..] == q;
    }
  }

  /** Queueing appends to the band of the given priority and leaves the three others alone. */
  lemma {:induction false} InsertBand(q: seq<Entry>, cur: nat, p: nat, sub: Submission, b: nat)
    requires InOrder(q, cur) && cur <= p < PRIORITIES
    ensures Band(InsertBefore(q, p, sub), cur, b) == Band(q, cur, b) + (if b == p then [sub] else [])
  {
    var r := InsertBefore(q, p, sub);
    if q[0] == Marker(p) {
      assert r[1..] == q;
      BandBelow(q[1..], p + 1, p);
      if b == p { assert Band(q, cur, b) == []; }
    } else {
      assert r[1..] == InsertBefore(q[1..], p, sub);
      InsertBand(q[1..], if q[0].Marker? then cur + 1 else cur, p, sub, b);
    }
  }

  /** Once the walk has passed marker p, band p holds nothing more. */
  lemma {:induction false} BandBelow(q: seq<Entry>, cur: nat, p: nat)
    requires InOrder(q, cur) && p < cur
    ensures Band(q, cur, p) == []
  {
    if q != [] { BandBelow(q[1..], if q[0].Marker? then cur + 1 else cur, p); }
  }

  lemma {:induction false} InsertMembers(q: seq<Entry>, p: nat, sub: Submission)
    ensures forall e :: e in InsertBefore(q, p, sub) <==> e in q || e == Job(sub)
  {
    if q != [] && q[0] != Marker(p) { InsertMembers(q[1..], p, sub); }
  }

  lemma {:induction false} InsertUnique(q: seq<Entry>, p: nat, sub: Submission)
    requires UniqueIds(q)
    requires forall e :: e in q && e.Job? ==> e.sub.id != sub.id
    ensures UniqueIds(InsertBefore(q, p, sub))
  {
    if q != [] && q[0] != Marker(p) {
      InsertUnique(q[1..], p, sub);
      InsertMembers(q[1..], p, sub);
      UniqueCons(q[0], InsertBefore(q[1..], p, sub));
    }
  }

  lemma UniqueCons(e: Entry, q: seq<Entry>)
    requires UniqueIds(q)
    requires forall x :: x in q && x.Job? && e.Job? ==> x.sub.id != e.sub.id
    ensures UniqueIds([e] + q)
  {
  }

  // ---------- unlinking ----------

  lemma {:induction false} UnlinkMembers(q: seq<Entry>, e: Entry)
    requires UniqueIds(q) && e.Job?
    ensures forall x :: x in Unlink(q, e) <==> x in q && x != e
  {
    if q != [] && q[0] != e { UnlinkMembers(q[1..], e); }
    if q != [] && q[0] == e {
      forall x | x in q[1..] ensures x != e { var i :| 0 <= i < |q[1..]| && q[1..][i] == x; assert q[i+1] == x; }
    }
  }

  lemma {:induction false} UnlinkUnique(q: seq<Entry>, e: Entry)
    requires UniqueIds(q) && e.Job?
    ensures UniqueIds(Unlink(q, e))
  {
    if q != [] && q[0] != e {
      UnlinkUnique(q[1..], e);
      UnlinkMembers(q[1..], e);
      forall x | x in Unlink(q[1..], e) && x.Job? && q[0].Job? ensures x.sub.id != q[0].sub.id {
        var i :| 0 <= i < |q[1..]| && q[1..][i] == x;
        assert q[i+1] == x;
      }
      UniqueCons(q[0], Unlink(q[1..], e));
    }
  }

  lemma {:induction false} UnlinkInOrder(q: seq<Entry>, cur: nat, e: Entry)
    requires InOrder(q, cur) && e.Job?
    ensures InOrder(Unlink(q, e), cur)
  {
    if q != [] && q[0] != e {
      UnlinkInOrder(q[1..], if q[0].Marker? then cur + 1 else cur, e);
    }
  }

  /** Unlinking removes the submission from its own band and leaves the others alone. */
  lemma {:induction false} UnlinkBand(q: seq<Entry>, cur: nat, sub: Submission, b: nat)
    requires InOrder(q, cur) && UniqueIds(q)
    ensures Band(Unlink(q, Job(sub)), cur, b) == Without(Band(q, cur, b), sub)
  {
    if q != [] {
      var next := if q[0].Marker? then cur + 1 else cur;
      if q[0] == Job(sub) {
        if cur != b {
          BandMembers(q[1..], cur, b);
          forall i | 0 <= i < |q[1..]| ensures q[1..][i] != Job(sub) { assert q[i+1] == q[1..][i]; }
          WithoutAbsent(Band(q[1..], cur, b), sub);
          assert Band(q, cur, b) == Band(q[1..], cur, b);
        }
      } else {
        assert Unlink(q, Job(sub))[1..] == Unlink(q[1..], Job(sub));
        UnlinkBand(q[1..], next, sub, b);
        if q[0].Job? && cur == b {
          assert Band(q, cur, b)[1..] == Band(q[1..], cur, b);
        } else {
          assert Band(q, cur, b) == Band(q[1..], next, b);
        }
      }
    }
  }

  lemma {:induction false} WithoutAbsent(f: seq<Submission>, x: Submission)
    requires x !in f
    ensures Without(f, x) == f
  {
    if f != [] { WithoutAbsent(f[1..], x); }
  }

  /** Every member of a band is a queued job. */
  lemma {:induction false} BandMembers(q: seq<Entry>, cur: nat, b: nat)
    ensures forall x :: x in Band(q, cur, b) ==> Job(x) in q
  {
    if q != [] {
      match q[0]
      case Marker(m) => BandMembers(q[1..], m + 1, b);
      case Job(_) => BandMembers(q[1..], cur, b);
    }
  }

  lemma {:induction false} WithoutMembers(f: seq<Submission>, x: Submission)
    ensures forall y :: y in Without(f, x) ==> y in f
  {
    if f != [] && f[0] != x { WithoutMembers(f[1..], x); }
  }

  // ---------- the shape is kept ----------

  lemma InsertKeepsShape(q: seq<Entry>, nodes: map<int, Entry>, p: nat, sub: Submission)
    requires Shape(q, nodes) && p < PRIORITIES && sub.id !in nodes
    ensures Shape(InsertBefore(q, p, sub), nodes[sub.id := Job(sub)])
  {
    InsertInOrder(q, 0, p, sub);
    InsertUnique(q, p, sub);
    InsertMembers(q, p, sub);
  }

  lemma UnlinkKeepsShape(q: seq<Entry>, nodes: map<int, Entry>, sub: Submission)
    requires Shape(q, nodes) && Job(sub) in q
    ensures Shape(Unlink(q, Job(sub)), nodes - {sub.id})
  {
    UnlinkInOrder(q, 0, Job(sub));
    UnlinkUnique(q, Job(sub));
    UnlinkMembers(q, Job(sub));
  }

  // ---------- scanning ----------

  /** The pick is the least (priority, arrival) submission the judge can take, and a rejudge
      only when no judge has to be reserved.  No pick means that nothing eligible is queued
      in the bands the reservation rule leaves open. */
  ghost predicate IsLeastPick(q: seq<Entry>, cur: nat, info: JudgeInfo, reserve: bool, pick: Pick) {
    match pick
    case NoPick =>
      forall p: nat, x :: p < (if reserve then REJUDGE_PRIORITY else PRIORITIES) && x in Band(q, cur, p) ==>
        !CanJudge(info, x)
    case Picked(sub, prio) =>
      && prio < PRIORITIES
      && (prio >= REJUDGE_PRIORITY ==> !reserve)
      && CanJudge(info, sub)
      && (forall p: nat, x :: p < prio && x in Band(q, cur, p) ==> !CanJudge(info, x))
      && IsFirst(Band(q, cur, prio), info, sub)
  }

  /** `sub` is the earliest member of the band that the judge can take. */
  ghost predicate IsFirst(band: seq<Submission>, info: JudgeInfo, sub: Submission) {
    exists i :: 0 <= i < |band| && band[i] == sub && forall k :: 0 <= k < i ==> !CanJudge(info, band[k])
  }

  lemma {:induction false} ScanIsLeast(q: seq<Entry>, cur: nat, info: JudgeInfo, reserve: bool)
    requires InOrder(q, cur)
    ensures IsLeastPick(q, cur, info, reserve, Scan(q, cur, info, reserve))
    ensures var pick := Scan(q, cur, info, reserve); pick.Picked? ==> Job(pick.sub) in q
  {
    if q == [] {
    } else if q[0].Marker? {
      ScanIsLeast(q[1..], cur + 1, info, reserve);
      assert forall p: nat :: Band(q, cur, p) == Band(q[1..], cur + 1, p);
    } else {
      var sub := q[0].sub;
      if cur >= REJUDGE_PRIORITY && reserve {
        forall p: nat | p < REJUDGE_PRIORITY ensures Band(q, cur, p) == [] { BandBelow(q, cur, p); }
      } else if CanJudge(info, sub) {
        forall p: nat | p < cur ensures Band(q, cur, p) == [] { BandBelow(q, cur, p); }
        assert Band(q, cur, cur)[0] == sub;
      } else {
        ScanIsLeast(q[1..], cur, info, reserve);
        ScanStep(q, cur, info, reserve, Scan(q[1..], cur, info, reserve));
      }
    }
  }

  /** Putting an ineligible job in front keeps the least pick. */
  lemma ScanStep(q: seq<Entry>, cur: nat, info: JudgeInfo, reserve: bool, pick: Pick)
    requires q != [] && q[0].Job? && !CanJudge(info, q[0].sub)
    requires IsLeastPick(q[1..], cur, info, reserve, pick)
    ensures IsLeastPick(q, cur, info, reserve, pick)
  {
    assert forall p: nat ::
      Band(q, cur, p) == if p == cur then [q[0].sub] + Band(q[1..], cur, p) else Band(q[1..], cur, p);
    if pick.Picked? && pick.priority == cur { FirstStep(q[0].sub, Band(q[1..], cur, cur), info, pick.sub); }
  }

  lemma FirstStep(head: Submission, band: seq<Submission>, info: JudgeInfo, sub: Submission)
    requires !CanJudge(info, head) && IsFirst(band, info, sub)
    ensures IsFirst([head] + band, info, sub)
  {
    var i :| 0 <= i < |band| && band[i] == sub && forall k :: 0 <= k < i ==> !CanJudge(info, band[k]);
    assert ([head] + band)[i + 1] == sub;
  }
}
