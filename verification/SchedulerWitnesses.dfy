/** Short runs from the empty list in which the conditions of the exact theorems fail, so that
    each of them really can: what the code does then is no longer what the invariants say. */
module SchedulerWitnesses {
  import opened Options
  import opened MarkerQueue
  import opened Scheduler
  import opened SchedulerSafety
  import opened WorkConservation
  import opened LoneJudge
  import opened ReservedJudge

  const SUB := Submission(1, "p", "c", "", "")
  const REJUDGE := Submission(2, "p", "c", "", "")

  /** An idle judge of tier 0 that can judge both submissions. */
  function Able(name: string, raises: bool): JudgeInfo {
    JudgeInfo(name, 0, {"p"}, {"c"}, false, 0, 0.0, raises)
  }

  // ---------- the states passed through ----------

  lemma MinTierZero(judges: Judges, j: Judge)
    requires j in judges && judges[j].tier == 0 && !judges[j].disabled
    ensures MinTier(judges) == Some(0)
  {
    EnabledIsInTier(judges, j);
  }

  lemma NothingQueued(info: JudgeInfo, reserve: bool)
    ensures Scan(EMPTY_QUEUE, 0, info, reserve) == NoPick
  {
    InitialInv();
    ScanIsLeast(EMPTY_QUEUE, 0, info, reserve);
    assert forall e :: e in EMPTY_QUEUE ==> e.Marker?;
  }

  /** Registering on an empty queue only adds the judge. */
  lemma RegisterIdle(s: State, j: Judge, info: JudgeInfo, order: seq<Judge>)
    requires s.queue == EMPTY_QUEUE && j !in s.judges && (s.minTier == None || s.minTier == Some(0))
    requires info.tier == 0 && !info.disabled && info.working == 0
    ensures Register(s, j, info, order) == s.(judges := s.judges[j := info], minTier := Some(0))
  {
    MinTierZero(s.judges[j := info], j);
    var t := s.(judges := s.judges[j := info], minTier := Some(0));
    assert UpdateMinTier(s.(judges := s.judges[j := info]), order) == t;
    NothingQueued(info, ShouldReserve(t.judges, t.minTier));
  }

  function One(j: Judge, info: JudgeInfo): State {
    Initial().(judges := map[j := info], minTier := Some(0))
  }

  /** A list with one judge, reached by registering it. */
  lemma RegisterFirst(j: Judge, info: JudgeInfo)
    requires info.tier == 0 && !info.disabled && info.working == 0 && info.name != ""
    ensures Apply(Initial(), ARegister(j, info, [j])) == One(j, info) && Safe(One(j, info))
    ensures !info.raises ==> Legal(Initial(), ARegister(j, info, [j])) && Inv(One(j, info))
  {
    RegisterIdle(Initial(), j, info, [j]);
    assert Initial().judges[j := info] == map[j := info];
    MinTierZero(map[j := info], j);
    InitialInv();
  }

  // ---------- a handover that raises ----------

  function QueuedFirst(): State {
    Enqueue(Initial(), SUB, 0)
  }

  lemma QueuedFirstReached(j: Judge)
    ensures Apply(Initial(), ASubmit(SUB, 0, j)) == QueuedFirst() && Inv(QueuedFirst())
    ensures QueuedFirst().queue == [Job(SUB)] + EMPTY_QUEUE
  {
    InitialInv();
    assert Usable(Initial(), SUB, 0) == {};
    SubmitKeeps(Initial(), SUB, 0, j);
  }

  /** A judge that raises is registered while a submission waits for it: the state in which it is
      offered work is safe, the one after the offer is not. */
  lemma HandleFreeWitness(j: Judge)
    ensures var s := Apply(Initial(), ASubmit(SUB, 0, j));
      var t := WithRaising(s, j);
      && Inv(s) && Safe(t) && !Safe(HandleFree(t, j))
      && Apply(s, ARegister(j, Able("a", true), [j])) == HandleFree(t, j)
  {
    QueuedFirstReached(j);
    RegisterRaising(QueuedFirst(), j);
  }

  function WithRaising(s: State, j: Judge): State {
    s.(judges := s.judges[j := Able("a", true)], minTier := Some(0))
  }

  lemma RegisterRaising(s: State, j: Judge)
    requires Inv(s) && s.judges == map[] && s.queue != [] && s.queue[0] == Job(SUB)
    ensures Safe(WithRaising(s, j)) && !Safe(HandleFree(WithRaising(s, j), j))
    ensures Register(s, j, Able("a", true), [j]) == HandleFree(WithRaising(s, j), j)
  {
    var info := Able("a", true);
    var t := WithRaising(s, j);
    assert EnabledTiers(s.judges) == {};
    MinTierZero(t.judges, j);
    assert Running(s.submissionMap, t.judges);
    FirstIsPicked(t.queue, SUB, info, ShouldReserve(t.judges, t.minTier));
    assert HandleFree(t, j) == Failed(t, SUB.id, j);
    assert SUB.id in HandleFree(t, j).submissionMap;
  }

  lemma FirstIsPicked(q: seq<Entry>, sub: Submission, info: JudgeInfo, reserve: bool)
    requires q != [] && q[0] == Job(sub) && CanJudge(info, sub)
    ensures Scan(q, 0, info, reserve) == Picked(sub, 0)
  {
  }

  /** A judge that raises is given a new submission. */
  lemma SubmitWitness(j: Judge)
    ensures var s := Apply(Initial(), ARegister(j, Able("a", true), [j]));
      Safe(s) && !Safe(Apply(s, ASubmit(SUB, 0, j)))
  {
    var s := One(j, Able("a", true));
    RegisterFirst(j, Able("a", true));
    assert Usable(s, SUB, 0) == {j};
    SubmitExact(s, SUB, 0, j);
  }

  // ---------- reports and flags ----------

  function Two(j: Judge, k: Judge): State {
    Initial().(judges := map[j := Able("a", false), k := Able("b", false)], minTier := Some(0))
  }

  function RegisterBoth(j: Judge, k: Judge): seq<Action> {
    [ARegister(j, Able("a", false), [j]), ARegister(k, Able("b", false), [j, k])]
  }

  lemma TwoReached(j: Judge, k: Judge)
    requires j != k
    ensures LegalRun(Initial(), RegisterBoth(j, k)) && Run(Initial(), RegisterBoth(j, k)) == Two(j, k)
    ensures BothIdle(Two(j, k), j, k)
  {
    var s := One(j, Able("a", false));
    var a, b := ARegister(j, Able("a", false), [j]), ARegister(k, Able("b", false), [j, k]);
    RegisterFirst(j, Able("a", false));
    RegisterSecond(j, k);
    StepKeeps(s, b);
    TwoSteps(Initial(), a, b);
  }

  lemma RegisterSecond(j: Judge, k: Judge)
    requires j != k
    ensures var s, b := One(j, Able("a", false)), ARegister(k, Able("b", false), [j, k]);
      Legal(s, b) && Apply(s, b) == Two(j, k) && CurrentTier(Two(j, k).judges, Some(0)) == {j, k}
  {
    var s := One(j, Able("a", false));
    RegisterIdle(s, k, Able("b", false), [j, k]);
    assert s.judges[k := Able("b", false)] == Two(j, k).judges;
    MinTierZero(Two(j, k).judges, j);
    assert (set x | x in [j, k]) == CurrentTier(Two(j, k).judges, Some(0)) == {j, k};
  }

  /** Handing over at once to one of several usable judges, none of which has reported a load. */
  lemma HandedOver(s: State, sub: Submission, k: Judge)
    requires Inv(s) && sub.id > 0 && sub.id !in Known(s) && k in Usable(s, sub, 0)
    requires forall j :: j in s.judges ==> s.judges[j].load == 0.0
    ensures var t := Apply(s, ASubmit(sub, 0, k));
      && Legal(s, ASubmit(sub, 0, k)) && Inv(t)
      && t.queue == s.queue && t.nodeMap == s.nodeMap && t.minTier == s.minTier
      && t.submissionMap == s.submissionMap[sub.id := k]
      && t.judges == s.judges[k := s.judges[k].(working := sub.id)]
  {
    SubmitKeeps(s, sub, 0, k);
  }

  /** Nobody is usable, so the submission is queued. */
  lemma HeldBack(s: State, sub: Submission, prio: nat, k: Judge)
    requires Inv(s) && sub.id > 0 && prio < PRIORITIES && sub.id !in Known(s) && Usable(s, sub, prio) == {}
    ensures var t := Apply(s, ASubmit(sub, prio, k));
      Legal(s, ASubmit(sub, prio, k)) && Inv(t) && t == Enqueue(s, sub, prio)
  {
    SubmitKeeps(s, sub, prio, k);
  }

  /** Two idle judges and nothing else. */
  ghost predicate BothIdle(s: State, j: Judge, k: Judge) {
    && Inv(s) && s.queue == EMPTY_QUEUE && s.nodeMap == map[] && s.submissionMap == map[] && s.minTier == Some(0)
    && s.judges.Keys == {j, k} && s.judges[j] == Able("a", false) && s.judges[k] == Able("b", false)
  }

  lemma BothUsable(s: State, j: Judge, k: Judge)
    requires j != k && BothIdle(s, j, k)
    ensures Usable(s, SUB, 0) == {j, k} && SUB.id !in Known(s)
  {
    assert Candidates(s, SUB) == {j, k};
    assert Available(s, SUB) == {j, k};
  }

  /** The first judge is idle, the second one is grading, nothing is queued. */
  ghost predicate SecondGrading(s: State, j: Judge, k: Judge) {
    && Inv(s) && s.queue == EMPTY_QUEUE && s.nodeMap == map[] && s.submissionMap == map[SUB.id := k]
    && s.minTier == Some(0) && s.judges.Keys == {j, k}
    && s.judges[j] == Able("a", false) && s.judges[k] == Able("b", false).(working := SUB.id)
  }

  lemma SubmitToSecond(s: State, j: Judge, k: Judge)
    requires j != k && BothIdle(s, j, k)
    ensures Legal(s, ASubmit(SUB, 0, k)) && SecondGrading(Apply(s, ASubmit(SUB, 0, k)), j, k)
  {
    BothUsable(s, j, k);
    HandedOver(s, SUB, k);
  }

  /** One judge reports the submission the other one is grading. */
  lemma ReportWitness(j: Judge, k: Judge)
    requires j != k
    ensures var s := Apply(Run(Initial(), RegisterBoth(j, k)), ASubmit(SUB, 0, k));
      Inv(s) && j in s.judges && !Safe(Apply(s, AFree(j, SUB.id)))
  {
    TwoReached(j, k);
    SubmitToSecond(Two(j, k), j, k);
    ReportExact(Apply(Two(j, k), ASubmit(SUB, 0, k)), j, Able("a", false), SUB.id);
  }

  /** The only judge turns out to be stored as disabled. */
  lemma ConnectedWitness(j: Judge)
    ensures var s := Apply(Initial(), ARegister(j, Able("a", false), [j])); Inv(s) && !Safe(Connected(s, j, true))
  {
    RegisterFirst(j, Able("a", false));
    ConnectedExact(One(j, Able("a", false)), j, true);
  }

  // ---------- a judge that was thrown out ----------

  /** The first judge is listed and can judge nothing; the second one raises. */
  ghost predicate OneRaising(s: State, j: Judge, k: Judge) {
    && Safe(s) && s.queue == EMPTY_QUEUE && s.nodeMap == map[] && s.submissionMap == map[] && s.minTier == Some(0)
    && s.judges.Keys == {j, k} && s.judges[j] == Able("a", false).(problems := {}) && s.judges[k] == Able("b", true)
  }

  function RegisterRaisingSecond(j: Judge, k: Judge): State {
    Register(Register(Initial(), j, Able("a", false).(problems := {}), [j]), k, Able("b", true), [j, k])
  }

  lemma OneRaisingReached(j: Judge, k: Judge)
    requires j != k
    ensures OneRaising(RegisterRaisingSecond(j, k), j, k)
  {
    var a, b := Able("a", false).(problems := {}), Able("b", true);
    RegisterFirst(j, a);
    RegisterIdle(One(j, a), k, b, [j, k]);
    var s := RegisterRaisingSecond(j, k);
    MinTierZero(s.judges, j);
    assert s.judges == map[j := a, k := b];
    assert Running(s.submissionMap, s.judges);
  }

  /** The raising judge is handed a submission, another one is queued, and the judge, thrown out by
      now, reports the first one: it is given the second one although it is not listed. */
  lemma ThrownOutWitness(j: Judge, k: Judge)
    requires j != k
    ensures var s := RegisterRaisingSecond(j, k);
      var t := Report(Submit(Submit(s, SUB, 0, k), REJUDGE, 0, k), k, Able("b", false), SUB.id);
      Safe(s) && k !in t.judges && t.submissionMap == map[REJUDGE.id := k] && !Safe(t)
  {
    OneRaisingReached(j, k);
    ThrownOutRest(RegisterRaisingSecond(j, k), j, k);
  }

  lemma ThrownOutRest(s: State, j: Judge, k: Judge)
    requires j != k && OneRaising(s, j, k)
    ensures var t := Report(Submit(Submit(s, SUB, 0, k), REJUDGE, 0, k), k, Able("b", false), SUB.id);
      k !in t.judges && t.submissionMap == map[REJUDGE.id := k] && !Safe(t)
  {
    var t := Submit(s, SUB, 0, k);
    RaisesOnFirst(s, j, k);
    assert Usable(t, REJUDGE, 0) == {};
    QueuedInFront(REJUDGE);
    var r := Freed(Enqueue(t, REJUDGE, 0), k, SUB.id);
    assert r.submissionMap == map[] && r.queue[0] == Job(REJUDGE);
    FirstIsPicked(r.queue, REJUDGE, Able("b", false), ShouldReserve(r.judges, r.minTier));
  }

  lemma RaisesOnFirst(s: State, j: Judge, k: Judge)
    requires j != k && OneRaising(s, j, k)
    ensures var t := Submit(s, SUB, 0, k);
      && t.judges == map[j := s.judges[j]] && t.submissionMap == map[SUB.id := k]
      && t.queue == EMPTY_QUEUE && t.nodeMap == map[] && t.minTier == Some(0)
  {
    assert Candidates(s, SUB) == {k};
    assert Available(s, SUB) == {k};
  }

  lemma QueuedInFront(sub: Submission)
    ensures InsertBefore(EMPTY_QUEUE, 0, sub) == [Job(sub)] + EMPTY_QUEUE
  {
  }

  // ---------- a stale tier ----------

  /** The only judge is found stored as disabled, so the tier is stale, and two submissions are
      queued. */
  function StaleTier(k: Judge): State {
    var s := Connected(Apply(Initial(), ARegister(k, Able("a", false), [k])), k, true);
    Submit(Submit(s, SUB, 0, k), REJUDGE, 0, k)
  }

  lemma StaleTierReached(k: Judge)
    ensures k in Apply(Initial(), ARegister(k, Able("a", false), [k])).judges
    ensures var s := StaleTier(k);
      && s.queue == [Job(SUB), Job(REJUDGE)] + EMPTY_QUEUE && s.submissionMap == map[]
      && s.nodeMap == map[SUB.id := Job(SUB), REJUDGE.id := Job(REJUDGE)]
      && s.judges.Keys == {k} && s.judges[k].disabled && s.minTier == Some(0)
  {
    RegisterFirst(k, Able("a", false));
    var s := Connected(One(k, Able("a", false)), k, true);
    assert Usable(s, SUB, 0) == {};
    var t := Enqueue(s, SUB, 0);
    assert Usable(t, REJUDGE, 0) == {};
    QueuedInFront(SUB);
    assert t.queue[1..] == EMPTY_QUEUE;
    QueuedInFront(REJUDGE);
  }

  /** A judge of a higher tier registers and is given both. */
  lemma RegisterWitness(j: Judge, k: Judge)
    requires j != k
    ensures k in Apply(Initial(), ARegister(k, Able("a", false), [k])).judges
    ensures var t := Register(StaleTier(k), j, Able("b", false).(tier := 1), [j]);
      && t.submissionMap == map[SUB.id := j, REJUDGE.id := j]
      && j in t.judges && t.judges[j].working == REJUDGE.id && !Safe(t)
  {
    StaleTierReached(k);
    RegisterStale(StaleTier(k), j, k);
  }

  lemma RegisterStale(s: State, j: Judge, k: Judge)
    requires j != k && s.queue == [Job(SUB), Job(REJUDGE)] + EMPTY_QUEUE && s.submissionMap == map[]
    requires s.judges.Keys == {k} && s.judges[k].disabled && s.minTier == Some(0)
    ensures var t := Register(s, j, Able("b", false).(tier := 1), [j]);
      && t.submissionMap == map[SUB.id := j, REJUDGE.id := j]
      && j in t.judges && t.judges[j].working == REJUDGE.id && !Safe(t)
  {
    TwoOffers(s, j, Able("b", false).(tier := 1), SUB, REJUDGE, EMPTY_QUEUE);
  }

  /** The only enabled judge, of a tier above the stale one, takes the first two jobs at once. */
  lemma TwoOffers(s: State, j: Judge, info: JudgeInfo, a: Submission, b: Submission, rest: seq<Entry>)
    requires s.queue == [Job(a), Job(b)] + rest && a.id != b.id
    requires s.minTier.Some? && s.minTier.value < info.tier
    requires info.working == 0 && !info.disabled && !info.raises && CanJudge(info, a) && CanJudge(info, b)
    requires forall k :: k in s.judges && k != j ==> s.judges[k].disabled
    ensures var t := Register(s, j, info, [j]);
      && t.submissionMap == s.submissionMap[a.id := j][b.id := j]
      && j in t.judges && t.judges[j].working == b.id && !Running(t.submissionMap, t.judges)
  {
    var t := s.(judges := s.judges[j := info], minTier := Some(info.tier));
    TakesFirst(t, j, a);
    var u := HandleFree(t, j);
    assert u.queue == [Job(b)] + rest;
    TakesFirst(u, j, b);
    RisesTo(s, j, info);
    assert Register(s, j, info, [j]) == HandleFree(u, j);
    assert HandleFree(u, j).submissionMap[a.id] == j;
  }

  /** The tier rises to that of the only enabled judge, which is offered work. */
  lemma RisesTo(s: State, j: Judge, info: JudgeInfo)
    requires s.minTier.Some? && s.minTier.value < info.tier && info.working == 0 && !info.disabled
    requires forall k :: k in s.judges && k != j ==> s.judges[k].disabled
    ensures var after := s.judges[j := info];
      UpdateMinTier(s.(judges := after), [j]) == HandleFree(s.(judges := after, minTier := Some(info.tier)), j)
  {
    var t := s.(judges := s.judges[j := info], minTier := Some(info.tier));
    OnlyEnabled(t.judges, j);
    assert [j][1..] == [];
    assert FreeAll(t, [j]) == FreeAll(HandleFree(t, j), []);
  }

  lemma OnlyEnabled(judges: Judges, j: Judge)
    requires j in judges && !judges[j].disabled && forall k :: k in judges && k != j ==> judges[k].disabled
    ensures MinTier(judges) == Some(judges[j].tier)
  {
    EnabledIsInTier(judges, j);
    var m := MinWitness(judges);
  }

  /** The first job of the queue is handed to a judge that can judge it. */
  lemma TakesFirst(s: State, j: Judge, sub: Submission)
    requires s.queue != [] && s.queue[0] == Job(sub)
    requires j in s.judges && CanJudge(s.judges[j], sub) && !s.judges[j].raises
    requires s.minTier.Some? && s.judges[j].tier <= s.minTier.value
    ensures var t := HandleFree(s, j);
      && t.queue == s.queue[1..] && t.submissionMap == s.submissionMap[sub.id := j] && t.minTier == s.minTier
      && t.judges == s.judges[j := s.judges[j].(working := sub.id)]
  {
    FirstIsPicked(s.queue, sub, s.judges[j], ShouldReserve(s.judges, s.minTier));
  }

  // ---------- switching ----------

  function Off(j: Judge): Judges {
    map[j := Able("a", false).(disabled := true)]
  }

  lemma SwitchOnlyJudge(j: Judge)
    ensures var on := map[j := Able("a", false)];
      && SetDisabled(on, "a", true) == Off(j) && SetDisabled(Off(j), "a", false) == on
      && MinTier(on) == Some(0) && MinTier(Off(j)) == None && CurrentTier(on, Some(0)) == {j}
  {
    MinTierZero(map[j := Able("a", false)], j);
    assert EnabledTiers(Off(j)) == {};
  }

  /** A submission arrives while the only judge is disabled; re-enabling the judge leaves it idle
      beside that submission. */
  lemma EnableWitness(j: Judge)
    ensures var acts := [ARegister(j, Able("a", false), [j]), ADisable("a", true, []),
                         ASubmit(SUB, 0, j), ADisable("a", false, [j])];
      LegalRun(Initial(), acts) && !Conserving(Run(Initial(), acts)) && !Lone(Run(Initial(), acts))
  {
    var s0 := One(j, Able("a", false));
    var s1 := s0.(judges := Off(j), minTier := None);
    var s2 := Enqueue(s1, SUB, 0);
    var s3 := s2.(judges := s0.judges, minTier := Some(0));
    var a0, a1 := ARegister(j, Able("a", false), [j]), ADisable("a", true, []);
    var a2, a3 := ASubmit(SUB, 0, j), ADisable("a", false, [j]);
    RegisterFirst(j, Able("a", false));
    SwitchOnlyJudge(j);
    assert Legal(s0, a1) && Apply(s0, a1) == s1 by { assert CurrentTier(Off(j), None) == {}; }
    assert Legal(s1, a2) && Apply(s1, a2) == s2 by { assert Usable(s1, SUB, 0) == {}; }
    assert Legal(s2, a3) && Apply(s2, a3) == s3;
    ThreeSteps(s0, a1, a2, a3);
    FourSteps(Initial(), a0, a1, a2, a3);
    IdleBeside(s3, s1.queue, SUB, 0, j);
  }

  /** The only judge of the tier is idle and can judge what was just queued. */
  lemma IdleBeside(s: State, before: seq<Entry>, sub: Submission, p: nat, j: Judge)
    requires InOrder(before, 0) && p < PRIORITIES && s.queue == InsertBefore(before, p, sub)
    requires CurrentTier(s.judges, s.minTier) == {j} && j in s.judges
    requires s.judges[j].working == 0 && CanJudge(s.judges[j], sub)
    ensures !Lone(s) && (p < REJUDGE_PRIORITY ==> !Conserving(s))
  {
    InsertBand(before, 0, p, sub, p);
    assert sub in Band(s.queue, 0, p);
    assert j in CurrentTier(s.judges, s.minTier);
    assert !FullyBusy(s, j) && (p < REJUDGE_PRIORITY ==> !Busy(s, j));
  }

  /** The idle one of two judges is reserved, so a rejudge is queued. */
  lemma RejudgeWaits(s: State, j: Judge, k: Judge)
    requires j != k && SecondGrading(s, j, k)
    ensures var a := ASubmit(REJUDGE, REJUDGE_PRIORITY, j);
      Legal(s, a) && Apply(s, a) == Enqueue(s, REJUDGE, REJUDGE_PRIORITY)
  {
    assert Candidates(s, REJUDGE) == {j, k};
    assert Available(s, REJUDGE) == {j};
    HeldBack(s, REJUDGE, REJUDGE_PRIORITY, j);
  }

  /** Disabling the second judge leaves the first one alone in the tier and dispatches nothing. */
  lemma SwitchSecond(s: State, j: Judge, k: Judge)
    requires j != k && s.judges.Keys == {j, k} && s.minTier == Some(0)
    requires s.judges[j] == Able("a", false) && s.judges[k].name == "b"
    ensures var a := ADisable("b", true, [j]);
      && Legal(s, a) && Apply(s, a).queue == s.queue && Apply(s, a).minTier == Some(0)
      && CurrentTier(Apply(s, a).judges, Some(0)) == {j} && Apply(s, a).judges[j] == s.judges[j]
  {
    MinTierZero(SetDisabled(s.judges, "b", true), j);
  }

  /** A rejudge arrives while one of two judges is grading and the other is reserved; disabling the
      grading one leaves the other alone in the tier, idle beside the rejudge. */
  lemma DisableWitness(j: Judge, k: Judge)
    requires j != k
    ensures var acts := [ASubmit(SUB, 0, k), ASubmit(REJUDGE, REJUDGE_PRIORITY, j), ADisable("b", true, [j])];
      var s := Run(Initial(), RegisterBoth(j, k));
      LegalRun(s, acts) && !Lone(Run(s, acts))
  {
    TwoReached(j, k);
    SubmitToSecond(Two(j, k), j, k);
    var s1 := Apply(Two(j, k), ASubmit(SUB, 0, k));
    DisableRest(s1, j, k);
    ThreeSteps(Two(j, k), ASubmit(SUB, 0, k), ASubmit(REJUDGE, REJUDGE_PRIORITY, j), ADisable("b", true, [j]));
  }

  lemma DisableRest(s: State, j: Judge, k: Judge)
    requires j != k && SecondGrading(s, j, k)
    ensures var a, b := ASubmit(REJUDGE, REJUDGE_PRIORITY, j), ADisable("b", true, [j]);
      Legal(s, a) && Legal(Apply(s, a), b) && !Lone(Apply(Apply(s, a), b))
  {
    var t := Enqueue(s, REJUDGE, REJUDGE_PRIORITY);
    RejudgeWaits(s, j, k);
    SwitchSecond(t, j, k);
    IdleBeside(Apply(t, ADisable("b", true, [j])), s.queue, REJUDGE, REJUDGE_PRIORITY, j);
  }

  // ---------- two free judges ----------

  const OTHER := Submission(3, "q", "c", "", "")

  /** Two judges for the one problem and a third for the other one; the first and the third may be
      grading. */
  ghost predicate Trio(s: State, a: Judge, b: Judge, c: Judge, first: int, third: int) {
    && Inv(s) && s.queue == EMPTY_QUEUE && s.nodeMap == map[] && s.minTier == Some(0)
    && s.submissionMap.Keys <= {SUB.id, OTHER.id} && (third == 0 ==> OTHER.id !in s.submissionMap)
    && (first == 0 ==> SUB.id !in s.submissionMap)
    && s.judges.Keys == {a, b, c} && s.judges[a] == Able("a", false).(working := first)
    && s.judges[b] == Able("b", false) && s.judges[c] == Able("c", false).(problems := {"q"}, working := third)
  }

  function RegisterThird(a: Judge, b: Judge, c: Judge): Action {
    ARegister(c, Able("c", false).(problems := {"q"}), [a, b, c])
  }

  lemma AllThree(judges: Judges, a: Judge, b: Judge, c: Judge)
    requires a != b && a != c && b != c && judges.Keys == {a, b, c}
    requires forall j :: j in judges ==> judges[j].tier == 0 && !judges[j].disabled
    ensures MinTier(judges) == Some(0) && Enumerates([a, b, c], judges)
  {
    MinTierZero(judges, a);
    assert (set x | x in [a, b, c]) == {a, b, c};
    assert CurrentTier(judges, Some(0)) == {a, b, c};
  }

  lemma TrioReached(a: Judge, b: Judge, c: Judge)
    requires a != b && a != c && b != c
    ensures var s := Two(a, b);
      Legal(s, RegisterThird(a, b, c)) && Trio(Apply(s, RegisterThird(a, b, c)), a, b, c, 0, 0)
  {
    TwoReached(a, b);
    ThirdRegistered(Two(a, b), a, b, c);
  }

  lemma ThirdRegistered(s: State, a: Judge, b: Judge, c: Judge)
    requires a != b && a != c && b != c && BothIdle(s, a, b)
    ensures Legal(s, RegisterThird(a, b, c)) && Trio(Apply(s, RegisterThird(a, b, c)), a, b, c, 0, 0)
  {
    var info := Able("c", false).(problems := {"q"});
    RegisterIdle(s, c, info, [a, b, c]);
    AllThree(s.judges[c := info], a, b, c);
    StepKeeps(s, RegisterThird(a, b, c));
  }

  lemma TrioUsable(s: State, a: Judge, b: Judge, c: Judge, first: int)
    requires a != b && a != c && b != c && Trio(s, a, b, c, first, 0)
    ensures first == 0 ==> Usable(s, SUB, 0) == {a, b} && SUB.id !in Known(s)
    ensures Usable(s, OTHER, 0) == {c} && OTHER.id !in Known(s)
  {
    if first == 0 {
      assert Candidates(s, SUB) == {a, b};
      assert Available(s, SUB) == {a, b};
    }
    assert Candidates(s, OTHER) == {c};
    assert Available(s, OTHER) == {c};
  }

  lemma TrioFirst(s: State, a: Judge, b: Judge, c: Judge)
    requires a != b && a != c && b != c && Trio(s, a, b, c, 0, 0)
    ensures Legal(s, ASubmit(SUB, 0, a)) && Trio(Apply(s, ASubmit(SUB, 0, a)), a, b, c, SUB.id, 0)
  {
    TrioUsable(s, a, b, c, 0);
    HandedOver(s, SUB, a);
  }

  lemma TrioThird(s: State, a: Judge, b: Judge, c: Judge)
    requires a != b && a != c && b != c && Trio(s, a, b, c, SUB.id, 0)
    ensures Legal(s, ASubmit(OTHER, 0, c)) && Trio(Apply(s, ASubmit(OTHER, 0, c)), a, b, c, SUB.id, OTHER.id)
  {
    TrioUsable(s, a, b, c, SUB.id);
    HandedOver(s, OTHER, c);
  }

  /** A rejudge is held back from the second judge, the only free one of two candidates. */
  lemma TrioRejudge(s: State, a: Judge, b: Judge, c: Judge)
    requires a != b && a != c && b != c && Trio(s, a, b, c, SUB.id, OTHER.id)
    ensures var act := ASubmit(REJUDGE, REJUDGE_PRIORITY, b);
      Legal(s, act) && Apply(s, act) == Enqueue(s, REJUDGE, REJUDGE_PRIORITY) && Inv(Apply(s, act))
  {
    assert Candidates(s, REJUDGE) == {a, b};
    assert Available(s, REJUDGE) == {b};
    HeldBack(s, REJUDGE, REJUDGE_PRIORITY, b);
  }

  /** The third judge becomes free and finds nothing; the second one stays idle beside the rejudge
      although it is no longer the last free judge. */
  lemma TrioFreed(s: State, a: Judge, b: Judge, c: Judge)
    requires a != b && a != c && b != c && Trio(s, a, b, c, SUB.id, OTHER.id)
    ensures var t := Enqueue(s, REJUDGE, REJUDGE_PRIORITY);
      Inv(t) && Legal(t, AFree(c, OTHER.id)) && !Spread(Apply(t, AFree(c, OTHER.id)))
  {
    TrioRejudge(s, a, b, c);
    assert FreeInTier(s) == {b};
    StaysIdle(Enqueue(s, REJUDGE, REJUDGE_PRIORITY), b, c);
  }

  lemma StaysIdle(t: State, b: Judge, c: Judge)
    requires Inv(t) && FreeInTier(t) == {b} && t.queue == InsertBefore(EMPTY_QUEUE, REJUDGE_PRIORITY, REJUDGE)
    requires b in t.judges && CanJudge(t.judges[b], REJUDGE)
    requires InTier(t.judges, t.minTier, c) && t.judges[c].working == OTHER.id
    requires REJUDGE.problem !in t.judges[c].problems
    ensures Legal(t, AFree(c, OTHER.id)) && !Spread(Apply(t, AFree(c, OTHER.id)))
  {
    OnlyRejudge(t, c);
    FreeSpreadExact(t, c, OTHER.id);
    InitialInv();
    InsertBand(EMPTY_QUEUE, 0, REJUDGE_PRIORITY, REJUDGE, REJUDGE_PRIORITY);
    assert REJUDGE in Band(t.queue, 0, REJUDGE_PRIORITY);
    assert b in FreeInTier(t) && !FullyServed(t.queue, t.judges[b]);
  }

  /** Nothing but the rejudge is queued, and the third judge cannot judge it. */
  lemma OnlyRejudge(t: State, c: Judge)
    requires t.queue == InsertBefore(EMPTY_QUEUE, REJUDGE_PRIORITY, REJUDGE)
    requires c in t.judges && REJUDGE.problem !in t.judges[c].problems
    ensures NextFor(Freed(t, c, OTHER.id), Freed(t, c, OTHER.id).judges[c]).NoPick?
  {
    var r := Freed(t, c, OTHER.id);
    InitialInv();
    InsertInOrder(EMPTY_QUEUE, 0, REJUDGE_PRIORITY, REJUDGE);
    InsertMembers(EMPTY_QUEUE, REJUDGE_PRIORITY, REJUDGE);
    ScanIsLeast(t.queue, 0, r.judges[c], ShouldReserve(r.judges, r.minTier));
  }

  /** The whole run, from the empty list. */
  lemma FreeSpreadWitness(a: Judge, b: Judge, c: Judge)
    requires a != b && a != c && b != c
    ensures var s := Run(Initial(), RegisterBoth(a, b));
      var acts := [RegisterThird(a, b, c)] + ([ASubmit(SUB, 0, a)] + ([ASubmit(OTHER, 0, c)]
                  + ([ASubmit(REJUDGE, REJUDGE_PRIORITY, b)] + [AFree(c, OTHER.id)])));
      LegalRun(s, acts) && !Spread(Run(s, acts))
  {
    var s0 := Two(a, b);
    TwoReached(a, b);
    TrioReached(a, b, c);
    var s1 := Apply(s0, RegisterThird(a, b, c));
    TrioFirst(s1, a, b, c);
    var s2 := Apply(s1, ASubmit(SUB, 0, a));
    TrioThird(s2, a, b, c);
    var s3 := Apply(s2, ASubmit(OTHER, 0, c));
    TrioRejudge(s3, a, b, c);
    TrioFreed(s3, a, b, c);
    var s4 := Enqueue(s3, REJUDGE, REJUDGE_PRIORITY);
    var d, e := [ASubmit(REJUDGE, REJUDGE_PRIORITY, b)], [AFree(c, OTHER.id)];
    OneStep(s4, AFree(c, OTHER.id));
    NextStep(s3, ASubmit(REJUDGE, REJUDGE_PRIORITY, b), e);
    NextStep(s2, ASubmit(OTHER, 0, c), d + e);
    NextStep(s1, ASubmit(SUB, 0, a), [ASubmit(OTHER, 0, c)] + (d + e));
    NextStep(s0, RegisterThird(a, b, c), [ASubmit(SUB, 0, a)] + ([ASubmit(OTHER, 0, c)] + (d + e)));
  }


  // ---------- short runs ----------

  lemma OneStep(s: State, a: Action)
    ensures Run(s, [a]) == Apply(s, a) && (LegalRun(s, [a]) <==> Legal(s, a))
  {
    assert [a][1..] == [];
    assert Run(s, [a]) == Run(Apply(s, a), []);
  }

  lemma NextStep(s: State, a: Action, rest: seq<Action>)
    ensures Run(s, [a] + rest) == Run(Apply(s, a), rest)
    ensures LegalRun(s, [a] + rest) <==> Legal(s, a) && LegalRun(Apply(s, a), rest)
  {
    assert ([a] + rest)[1..] == rest;
  }

  lemma TwoSteps(s: State, a: Action, b: Action)
    ensures Run(s, [a, b]) == Apply(Apply(s, a), b)
    ensures LegalRun(s, [a, b]) <==> Legal(s, a) && Legal(Apply(s, a), b)
  {
    OneStep(Apply(s, a), b);
    NextStep(s, a, [b]);
    assert [a] + [b] == [a, b];
  }

  lemma ThreeSteps(s: State, a: Action, b: Action, c: Action)
    ensures Run(s, [a, b, c]) == Apply(Apply(Apply(s, a), b), c)
    ensures LegalRun(s, [a, b, c]) <==> Legal(s, a) && Legal(Apply(s, a), b) && Legal(Apply(Apply(s, a), b), c)
  {
    TwoSteps(Apply(s, a), b, c);
    NextStep(s, a, [b, c]);
    assert [a] + [b, c] == [a, b, c];
  }

  lemma FourSteps(s: State, a: Action, b: Action, c: Action, d: Action)
    ensures Run(s, [a, b, c, d]) == Apply(Apply(Apply(Apply(s, a), b), c), d)
    ensures LegalRun(s, [a, b, c, d]) <==> Legal(s, a) && LegalRun(Apply(s, a), [b, c, d])
  {
    ThreeSteps(Apply(s, a), b, c, d);
    NextStep(s, a, [b, c, d]);
    assert [a] + [b, c, d] == [a, b, c, d];
  }
}
