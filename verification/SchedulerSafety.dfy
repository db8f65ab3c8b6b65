/** What every step of the judge list keeps, and what follows for every run. */
module SchedulerSafety {
  import opened Options
  import opened MarkerQueue
  import opened Scheduler

  // ---------- the invariant ----------

  /** `submission_map[id]` is j exactly when the registered judge j is working on id. */
  ghost predicate Running(running: map<int, Judge>, judges: Judges) {
    && 0 !in running
    && (forall id :: id in running ==> running[id] in judges && judges[running[id]].working == id)
    && (forall j :: j in judges && judges[j].working != 0 ==>
          judges[j].working in running && running[judges[j].working] == j)
  }

  ghost predicate Named(judges: Judges) {
    forall j :: j in judges ==> judges[j].name != ""
  }

  /** Handing over a submission raises at no registered judge. */
  ghost predicate Quiet(judges: Judges) {
    forall j :: j in judges ==> !judges[j].raises
  }

  function Accepts(log: seq<Event>, id: int): nat {
    if log == [] then 0
    else Accepts(log[..|log| - 1], id) + (if log[|log| - 1].Accepted? && log[|log| - 1].id == id then 1 else 0)
  }

  predicate IsEnd(e: Event, id: int) {
    match e
    case Finished(x) => x == id
    case Aborted(x) => x == id
    case Dropped(x) => x == id
    case _ => false
  }

  function Ends(log: seq<Event>, id: int): nat {
    if log == [] then 0 else Ends(log[..|log| - 1], id) + (if IsEnd(log[|log| - 1], id) then 1 else 0)
  }

  /** Every acceptance of an id has ended as exactly one of finished, aborted or dropped, except
      one that is now queued or running. */
  ghost predicate Balanced(s: State) {
    forall id :: Accepts(s.log, id) == Ends(s.log, id) + (if id in s.nodeMap || id in s.submissionMap then 1 else 0)
  }

  /** A submission goes only to a judge that can judge it, an untargeted one only to an enabled
      judge of the minimum tier; a rejudge never takes the last free one of several rivals. */
  predicate SafeEvent(e: Event) {
    e.Dispatched? ==>
      && e.able
      && (e.sub.target == "" ==> e.inTier)
      && (e.prio >= REJUDGE_PRIORITY ==> e.rivals <= 1 || e.spare >= 1)
  }

  ghost predicate SafeLog(log: seq<Event>) {
    forall e :: e in log ==> SafeEvent(e)
  }

  ghost predicate Core(s: State) {
    && Shape(s.queue, s.nodeMap)
    && 0 !in s.nodeMap
    && s.nodeMap.Keys !! s.submissionMap.Keys
    && Running(s.submissionMap, s.judges)
    && Named(s.judges)
    && Balanced(s)
  }

  /** The global invariant: the core, the cached minimum tier, and the safety of every dispatch. */
  ghost predicate Safe(s: State) {
    Core(s) && s.minTier == MinTier(s.judges) && SafeLog(s.log)
  }

  ghost predicate Inv(s: State) {
    Safe(s) && Quiet(s.judges)
  }

  // ---------- counting ----------

  lemma AppendAll(log: seq<Event>, e: Event)
    ensures forall id :: Accepts(log + [e], id) == Accepts(log, id) + (if e.Accepted? && e.id == id then 1 else 0)
    ensures forall id :: Ends(log + [e], id) == Ends(log, id) + (if IsEnd(e, id) then 1 else 0)
  {
  }

  /** A new id is accepted and is then queued or running. */
  lemma BeginBalanced(s: State, t: State, id: int, prio: nat)
    requires Balanced(s) && t.log == s.log + [Accepted(id, prio)] && id !in Known(s)
    requires Known(t) == Known(s) + {id}
    ensures Balanced(t)
  {
    AppendAll(s.log, Accepted(id, prio));
    SameKnown(s, t, {}, {id});
  }

  /** A queued or running id ends. */
  lemma EndBalanced(s: State, t: State, id: int, e: Event)
    requires Balanced(s) && t.log == s.log + [e] && IsEnd(e, id) && id in Known(s)
    requires Known(t) == Known(s) - {id}
    ensures Balanced(t)
  {
    AppendAll(s.log, e);
    SameKnown(s, t, {id}, {});
  }

  /** An id moves from the queue to a judge. */
  lemma MoveBalanced(s: State, t: State, e: Event)
    requires Balanced(s) && t.log == s.log + [e] && e.Dispatched? && Known(t) == Known(s)
    ensures Balanced(t)
  {
    AppendAll(s.log, e);
    SameKnown(s, t, {}, {});
  }

  lemma SameKnown(s: State, t: State, gone: set<int>, come: set<int>)
    requires Known(t) == Known(s) - gone + come
    ensures forall x :: x in t.nodeMap || x in t.submissionMap <==>
              x in come || (x !in gone && (x in s.nodeMap || x in s.submissionMap))
  {
    forall x ensures x in t.nodeMap || x in t.submissionMap <==>
               x in come || (x !in gone && (x in s.nodeMap || x in s.submissionMap))
    {
      assert x in Known(t) <==> x in t.nodeMap || x in t.submissionMap;
      assert x in Known(s) <==> x in s.nodeMap || x in s.submissionMap;
    }
  }

  // ---------- tiers ----------

  /** Only `working` may differ: neither the tiers nor who is enabled change. */
  ghost predicate SameTiers(a: Judges, b: Judges) {
    && a.Keys == b.Keys
    && forall j :: j in a ==>
          b[j].tier == a[j].tier && b[j].disabled == a[j].disabled && b[j].raises == a[j].raises
  }

  lemma SameTiersSameMin(a: Judges, b: Judges)
    requires SameTiers(a, b)
    ensures MinTier(a) == MinTier(b)
    ensures forall t :: CurrentTier(a, t) == CurrentTier(b, t)
  {
    assert EnabledTiers(a) == EnabledTiers(b) by {
      forall j | j in a && !a[j].disabled ensures a[j].tier in EnabledTiers(b) { assert j in b && !b[j].disabled; }
      forall j | j in b && !b[j].disabled ensures b[j].tier in EnabledTiers(a) { assert j in a && !a[j].disabled; }
    }
  }

  /** An enabled judge that passes the tier test stands in the minimum tier. */
  lemma EnabledIsInTier(judges: Judges, j: Judge)
    requires j in judges && !judges[j].disabled
    ensures MinTier(judges).Some? && MinTier(judges).value <= judges[j].tier
    ensures judges[j].tier <= MinTier(judges).value ==> j in CurrentTier(judges, MinTier(judges))
  {
    assert judges[j].tier in EnabledTiers(judges);
  }

  // ---------- starting a submission ----------

  lemma StartKeepsRunning(s: State, id: int, j: Judge)
    requires Running(s.submissionMap, s.judges) && Named(s.judges)
    requires j in s.judges && s.judges[j].working == 0 && id != 0 && id !in s.submissionMap
    ensures var t := Started(s, id, j);
      Running(t.submissionMap, t.judges) && Named(t.judges) && SameTiers(s.judges, t.judges)
  {
  }

  /** Taking j out of the free rivals costs at most one. */
  lemma SpareAfter(judges: Judges, among: set<Judge>, j: Judge, id: int)
    requires j in judges && judges[j].working == 0 && id != 0
    ensures var after := judges[j := judges[j].(working := id)];
      |Free(after, among)| == |Free(judges, among)| - (if j in among then 1 else 0)
  {
    var after := judges[j := judges[j].(working := id)];
    assert Free(after, among) == Free(judges, among) - {j};
    if j in among { assert j in Free(judges, among); }
    else { assert Free(judges, among) - {j} == Free(judges, among); }
  }

  lemma DispatchQueuedKeeps(s: State, sub: Submission, prio: nat, j: Judge)
    requires Core(s) && j in s.judges && s.judges[j].working == 0 && Job(sub) in s.queue
    ensures var t := DispatchQueued(s, sub, prio, j); Core(t) && SameTiers(s.judges, t.judges)
  {
    var t := DispatchQueued(s, sub, prio, j);
    UnlinkKeepsShape(s.queue, s.nodeMap, sub);
    assert sub.id in s.nodeMap;
    StartKeepsRunning(s, sub.id, j);
    assert Known(t) == Known(s);
    MoveBalanced(s, t, t.log[|s.log|]);
  }

  lemma HandleFreeKeeps(s: State, j: Judge)
    requires Safe(s) && j in s.judges && s.judges[j].working == 0 && !s.judges[j].raises
    ensures var t := HandleFree(s, j); Safe(t) && SameTiers(s.judges, t.judges) && t.minTier == s.minTier
  {
    var t := HandleFree(s, j);
    var info := s.judges[j];
    var reserve := ShouldReserve(s.judges, s.minTier);
    var pick := Scan(s.queue, 0, info, reserve);
    ScanIsLeast(s.queue, 0, info, reserve);
    if t != s {
      DispatchQueuedKeeps(s, pick.sub, pick.priority, j);
      SameTiersSameMin(s.judges, t.judges);
      DispatchQueuedSafe(s, pick.sub, pick.priority, j);
    }
  }

  lemma DispatchQueuedSafe(s: State, sub: Submission, prio: nat, j: Judge)
    requires s.minTier == MinTier(s.judges) && SafeLog(s.log) && Named(s.judges)
    requires j in s.judges && s.judges[j].working == 0 && sub.id != 0
    requires s.minTier.Some? && s.judges[j].tier <= s.minTier.value
    requires CanJudge(s.judges[j], sub)
    requires prio >= REJUDGE_PRIORITY ==> !ShouldReserve(s.judges, s.minTier)
    ensures SafeLog(DispatchQueued(s, sub, prio, j).log)
  {
    var tier := CurrentTier(s.judges, s.minTier);
    if sub.target == "" { EnabledIsInTier(s.judges, j); }
    SpareAfter(s.judges, tier, j, sub.id);
    assert SafeEvent(DispatchQueued(s, sub, prio, j).log[|s.log|]);
  }

  lemma {:induction false} FreeAllKeeps(s: State, order: seq<Judge>)
    requires Inv(s)
    ensures var t := FreeAll(s, order); Inv(t) && SameTiers(s.judges, t.judges) && t.minTier == s.minTier
    decreases |order|
  {
    if order != [] {
      var j := order[0];
      if j in s.judges && s.judges[j].working == 0 {
        HandleFreeKeeps(s, j);
        FreeAllKeeps(HandleFree(s, j), order[1..]);
      } else {
        FreeAllKeeps(s, order[1..]);
      }
    }
  }

  lemma UpdateMinTierKeeps(s: State, order: seq<Judge>)
    requires Core(s) && SafeLog(s.log) && Quiet(s.judges)
    ensures var t := UpdateMinTier(s, order); Inv(t) && SameTiers(s.judges, t.judges)
  {
    FreeAllKeeps(s.(minTier := MinTier(s.judges)), order);
  }

  // ---------- each public method ----------

  lemma SubmitKeeps(s: State, sub: Submission, prio: nat, choice: Judge)
    requires Safe(s) && sub.id > 0 && prio < PRIORITIES
    requires sub.id !in Known(s) && choice in Usable(s, sub, prio) ==> !s.judges[choice].raises
    ensures var t := Submit(s, sub, prio, choice); Safe(t) && (Quiet(s.judges) ==> Quiet(t.judges))
  {
    if sub.id in Known(s) {
    } else if choice in Usable(s, sub, prio) {
      DispatchDirectKeeps(s, sub, prio, choice);
    } else {
      EnqueueKeeps(s, sub, prio);
    }
  }

  lemma EnqueueKeeps(s: State, sub: Submission, prio: nat)
    requires Safe(s) && sub.id > 0 && prio < PRIORITIES && sub.id !in Known(s)
    ensures Safe(Enqueue(s, sub, prio))
  {
    InsertKeepsShape(s.queue, s.nodeMap, prio, sub);
    BeginBalanced(s, Enqueue(s, sub, prio), sub.id, prio);
  }

  lemma DispatchDirectKeeps(s: State, sub: Submission, prio: nat, j: Judge)
    requires Safe(s) && sub.id > 0 && sub.id !in Known(s) && j in Usable(s, sub, prio) && !s.judges[j].raises
    ensures var t := DispatchDirect(s, sub, prio, j); Safe(t) && SameTiers(s.judges, t.judges)
  {
    var t := DispatchDirect(s, sub, prio, j);
    StartKeepsRunning(s, sub.id, j);
    SameTiersSameMin(s.judges, t.judges);
    DispatchDirectSafe(s, sub, prio, j);
    var started := t.(log := s.log + [Accepted(sub.id, prio)]);
    BeginBalanced(s, started, sub.id, prio);
    MoveBalanced(started, t, t.log[|started.log|]);
  }

  lemma DispatchDirectSafe(s: State, sub: Submission, prio: nat, j: Judge)
    requires SafeLog(s.log) && sub.id > 0 && j in Usable(s, sub, prio) && !s.judges[j].raises
    ensures var log := DispatchDirect(s, sub, prio, j).log;
      |log| == |s.log| + 2 && log == s.log + [Accepted(sub.id, prio)] + [log[|s.log| + 1]] && SafeLog(log)
  {
    var candidates := Candidates(s, sub);
    SpareAfter(s.judges, candidates, j, sub.id);
    if prio >= REJUDGE_PRIORITY && |candidates| > 1 {
      assert |Available(s, sub)| != 1;
      assert j in Available(s, sub);
    }
    assert SafeEvent(DispatchDirect(s, sub, prio, j).log[|s.log| + 1]);
  }

  lemma FreedKeeps(s: State, j: Judge, id: int)
    requires Inv(s) && j in s.judges && id != 0 && s.judges[j].working == id
    ensures var t := Freed(s, j, id); Inv(t) && SameTiers(s.judges, t.judges)
  {
    var t := Freed(s, j, id);
    SameTiersSameMin(s.judges, t.judges);
    FreedRunning(s, j, id);
    assert Known(t) == Known(s) - {id};
    EndBalanced(s, t, id, Finished(id));
  }

  lemma FreedRunning(s: State, j: Judge, id: int)
    requires Running(s.submissionMap, s.judges) && j in s.judges && id != 0 && s.judges[j].working == id
    ensures var t := Freed(s, j, id); Running(t.submissionMap, t.judges)
  {
  }

  lemma FreeKeeps(s: State, j: Judge, id: int)
    requires Inv(s) && j in s.judges && id != 0 && s.judges[j].working == id
    ensures Inv(OnJudgeFree(s, j, id))
  {
    FreedKeeps(s, j, id);
    HandleFreeKeeps(Freed(s, j, id), j);
  }

  lemma RegisterKeeps(s: State, j: Judge, info: JudgeInfo, order: seq<Judge>)
    requires Inv(s) && j !in s.judges && info.working == 0 && !info.raises && info.name != ""
    requires !info.disabled
    ensures Inv(Register(s, j, info, order))
  {
    var r := s.(judges := s.judges[j := info]);
    UpdateMinTierKeeps(r, order);
    var t := UpdateMinTier(r, order);
    if s.minTier.Some? { EnabledTiersAdd(s.judges, j, info); }
    assert t == r.(minTier := MinTier(r.judges));
    HandleFreeKeeps(t, j);
  }

  /** Registering never raises the minimum tier. */
  lemma EnabledTiersAdd(judges: Judges, j: Judge, info: JudgeInfo)
    requires j !in judges && !info.disabled && MinTier(judges).Some?
    ensures MinTier(judges[j := info]).Some? && MinTier(judges[j := info]).value <= MinTier(judges).value
  {
    var after := judges[j := info];
    var k :| k in judges && !judges[k].disabled && judges[k].tier == MinTier(judges).value;
    assert after[k].tier in EnabledTiers(after);
  }

  lemma DropKeeps(s: State, j: Judge, current: int)
    requires Core(s)
    requires current == (if j in s.judges then s.judges[j].working else 0)
    ensures Core(Drop(s, j, current)) && (SafeLog(s.log) ==> SafeLog(Drop(s, j, current).log))
  {
  }

  lemma RemoveKeeps(s: State, j: Judge, current: int, order: seq<Judge>)
    requires Inv(s)
    requires current == (if j in s.judges then s.judges[j].working else 0)
    ensures Inv(Remove(s, j, current, order))
  {
    var r := Drop(s, j, current);
    DropKeeps(s, j, current);
    UpdateMinTierKeeps(r, order);
    ServeLastKeeps(UpdateMinTier(r, order));
  }

  lemma ServeLastKeeps(s: State)
    requires Inv(s)
    ensures Inv(ServeLast(s))
  {
    var tier := CurrentTier(s.judges, s.minTier);
    if |tier| == 1 && s.judges[TheOnly(tier)].working == 0 { HandleFreeKeeps(s, TheOnly(tier)); }
  }

  lemma DisableKeeps(s: State, name: string, disabled: bool, order: seq<Judge>)
    requires Inv(s)
    ensures Inv(UpdateDisable(s, name, disabled, order))
  {
    UpdateMinTierKeeps(s.(judges := SetDisabled(s.judges, name, disabled)), order);
  }

  lemma WithProblemsKeeps(s: State, j: Judge, problems: set<string>)
    requires Inv(s) && j in s.judges
    ensures var t := WithProblems(s, j, problems); Inv(t) && SameTiers(s.judges, t.judges)
  {
    SameTiersSameMin(s.judges, WithProblems(s, j, problems).judges);
  }

  lemma ProblemsKeep(s: State, j: Judge, problems: set<string>)
    requires Inv(s) && j in s.judges
    ensures Inv(SupportedProblems(s, j, problems))
  {
    WithProblemsKeeps(s, j, problems);
    if s.judges[j].working == 0 { HandleFreeKeeps(WithProblems(s, j, problems), j); }
  }

  lemma AbortKeeps(s: State, id: int)
    requires Inv(s)
    ensures Inv(Abort(s, id)) && (id !in s.submissionMap ==> id !in Known(Abort(s, id)))
  {
    if id !in s.submissionMap && id in s.nodeMap {
      UnlinkKeepsShape(s.queue, s.nodeMap, s.nodeMap[id].sub);
      EndBalanced(s, Abort(s, id), id, Aborted(id));
    }
  }

  lemma LoadKeeps(s: State, j: Judge, load: real)
    requires Inv(s) && j in s.judges
    ensures Inv(ReportLoad(s, j, load))
  {
    SameTiersSameMin(s.judges, ReportLoad(s, j, load).judges);
  }

  lemma StepKeeps(s: State, a: Action)
    requires Inv(s) && Legal(s, a)
    ensures Inv(Apply(s, a))
  {
    match a
    case ASubmit(sub, prio, choice) => SubmitKeeps(s, sub, prio, choice);
    case AFree(j, id) => FreeKeeps(s, j, id);
    case ARegister(j, info, order) => RegisterKeeps(s, j, info, order);
    case ARemove(j, current, order) => RemoveKeeps(s, j, current, order);
    case ADisable(name, disabled, order) => DisableKeeps(s, name, disabled, order);
    case AProblems(j, problems) => ProblemsKeep(s, j, problems);
    case AAbort(id) => AbortKeeps(s, id);
    case ALoad(j, load) => LoadKeeps(s, j, load);
  }

  lemma InitialInv()
    ensures Inv(Initial())
  {
  }

  // ---------- the assumptions are needed, exactly ----------

  /** A call that raises leaves the submission map pointing at a judge that was thrown out, so
      the invariant survives exactly when no such call is made. */
  lemma HandleFreeExact(s: State, j: Judge)
    requires Safe(s) && j in s.judges && s.judges[j].working == 0
    ensures Safe(HandleFree(s, j)) <==> (NextFor(s, s.judges[j]).Picked? ==> !s.judges[j].raises)
  {
    if !s.judges[j].raises {
      HandleFreeKeeps(s, j);
    } else if NextFor(s, s.judges[j]).Picked? {
      var t := HandleFree(s, j);
      assert t.submissionMap[NextFor(s, s.judges[j]).sub.id] == j && j !in t.judges;
    }
  }

  lemma SubmitExact(s: State, sub: Submission, prio: nat, choice: Judge)
    requires Safe(s) && sub.id > 0 && prio < PRIORITIES
    ensures Safe(Submit(s, sub, prio, choice)) <==>
              (sub.id !in Known(s) && choice in Usable(s, sub, prio) ==> !s.judges[choice].raises)
  {
    if sub.id !in Known(s) && choice in Usable(s, sub, prio) && s.judges[choice].raises {
      var t := Submit(s, sub, prio, choice);
      assert t.submissionMap[sub.id] == choice && choice !in t.judges;
    } else {
      SubmitKeeps(s, sub, prio, choice);
    }
  }

  /** A report frees the right judge exactly when the id is unknown or runs on the reporter; the
      reporter may be any connection, listed or not. */
  lemma ReportExact(s: State, j: Judge, info: JudgeInfo, id: int)
    requires Inv(s) && (j in s.judges ==> info == s.judges[j])
    ensures Safe(Report(s, j, info, id)) <==> (id in s.submissionMap ==> s.submissionMap[id] == j)
  {
    if id in s.submissionMap {
      if s.submissionMap[id] == j { FreeKeeps(s, j, id); } else { StrayReport(s, j, info, id); }
    }
  }

  /** A judge that never was listed or was thrown out: any report of a known id is a stray one. */
  lemma ReportUnlistedExact(s: State, j: Judge, info: JudgeInfo, id: int)
    requires Safe(s) && j !in s.judges
    ensures Safe(Report(s, j, info, id)) <==> id !in s.submissionMap
  {
    if id in s.submissionMap { StrayReport(s, j, info, id); }
  }

  /** The judge that is grading the id goes on with it, but nothing maps the id to it any more. */
  lemma StrayReport(s: State, j: Judge, info: JudgeInfo, id: int)
    requires Safe(s) && id in s.submissionMap && s.submissionMap[id] != j
    ensures !Safe(Report(s, j, info, id))
  {
    var k, r := s.submissionMap[id], Freed(s, j, id);
    OfferToOther(r, j, info.(working := 0), k);
    OfferedNew(r, j, info.(working := 0), id);
    assert r.judges[k] == s.judges[k] && s.judges[k].working == id;
  }

  /** Offering work to one judge leaves the record of the others alone. */
  lemma OfferToOther(s: State, j: Judge, info: JudgeInfo, k: Judge)
    requires k in s.judges && k != j
    ensures k in Offer(s, j, info).judges && Offer(s, j, info).judges[k] == s.judges[k]
  {
  }

  /** Only a queued id can become running. */
  lemma OfferedNew(s: State, j: Judge, info: JudgeInfo, id: int)
    requires Shape(s.queue, s.nodeMap) && id !in s.nodeMap && id !in s.submissionMap
    ensures id !in Offer(s, j, info).submissionMap
  {
    var it := if j in s.judges then s.judges[j] else info;
    ScanIsLeast(s.queue, 0, it, ShouldReserve(s.judges, s.minTier));
  }

  /** A judge that was thrown out when a direct handover raised and that reports all the same: the
      report sets the map right exactly when throwing it out did not change the minimum tier and
      nothing is queued that it would be given next. */
  lemma ReportAfterRaise(s: State, sub: Submission, prio: nat, j: Judge, info: JudgeInfo)
    requires Safe(s) && sub.id > 0 && sub.id !in Known(s) && j in Usable(s, sub, prio) && s.judges[j].raises
    ensures var t := Submit(s, sub, prio, j);
      Safe(Report(t, j, info, sub.id)) <==>
        MinTier(s.judges - {j}) == s.minTier && NextFor(Freed(t, j, sub.id), info.(working := 0)).NoPick?
  {
    var t := Submit(s, sub, prio, j);
    var r := Freed(t, j, sub.id);
    RaiseAndReport(s, sub, prio, j);
    if NextFor(r, info.(working := 0)).Picked? { UnlistedGiven(r, j, info.(working := 0)); }
  }

  /** After raise and report the submission is accounted for as accepted and finished. */
  lemma RaiseAndReport(s: State, sub: Submission, prio: nat, j: Judge)
    requires Safe(s) && sub.id > 0 && sub.id !in Known(s) && j in Usable(s, sub, prio) && s.judges[j].raises
    ensures var r := Freed(Submit(s, sub, prio, j), j, sub.id);
      && j !in r.judges && r.judges == s.judges - {j} && r.minTier == s.minTier
      && Core(r) && SafeLog(r.log)
  {
    var t := Submit(s, sub, prio, j);
    var r := Freed(t, j, sub.id);
    assert s.judges[j].working == 0;
    assert r.submissionMap == s.submissionMap;
    BeginBalanced(s, t, sub.id, prio);
    assert Known(r) == Known(t) - {sub.id};
    EndBalanced(t, r, sub.id, Finished(sub.id));
  }

  /** Work given to an unlisted judge is never accounted for. */
  lemma UnlistedGiven(s: State, j: Judge, info: JudgeInfo)
    requires j !in s.judges && Running(s.submissionMap, s.judges)
    ensures var t := HandleGone(s, j, info); Running(t.submissionMap, t.judges) <==> NextFor(s, info).NoPick?
  {
    if NextFor(s, info).Picked? {
      assert HandleGone(s, j, info).submissionMap[NextFor(s, info).sub.id] == j;
    }
  }

  /** After a handover from the queue that raised, no report of the thrown-out judge sets things
      right: the submission is still queued but counts as finished, or is handed to the unlisted
      judge once more. */
  lemma ReportAfterQueuedRaise(s: State, j: Judge, info: JudgeInfo)
    requires Safe(s) && j in s.judges && s.judges[j].raises && NextFor(s, s.judges[j]).Picked?
    ensures var id := NextFor(s, s.judges[j]).sub.id; !Safe(Report(HandleFree(s, j), j, info, id))
  {
    var sub := NextFor(s, s.judges[j]).sub;
    var t := Failed(s, sub.id, j);
    var r := Freed(t, j, sub.id);
    ScanIsLeast(s.queue, 0, s.judges[j], ShouldReserve(s.judges, s.minTier));
    assert Job(sub) in s.queue && sub.id in s.nodeMap && sub.id !in s.submissionMap;
    AppendAll(s.log, Finished(sub.id));
    assert !Balanced(r) by { assert sub.id in r.nodeMap && Accepts(r.log, sub.id) == Ends(r.log, sub.id); }
    if NextFor(r, info.(working := 0)).Picked? {
      var next := NextFor(r, info.(working := 0)).sub;
      assert HandleGone(r, j, info.(working := 0)).submissionMap[next.id] == j;
    }
  }

  /** The handshake sets the stored flag after registering, without looking at the tier again. */
  function Connected(s: State, j: Judge, disabled: bool): State
    requires j in s.judges
  {
    s.(judges := s.judges[j := s.judges[j].(disabled := disabled)])
  }

  /** That is harmless exactly when the flag does not change, when some other enabled judge of
      no higher tier is left, or when the enabled judge's tier is not below the cached one. */
  lemma ConnectedExact(s: State, j: Judge, disabled: bool)
    requires Safe(s) && j in s.judges
    ensures Safe(Connected(s, j, disabled)) <==>
      || disabled == s.judges[j].disabled
      || (disabled && exists k ::
            k in s.judges && k != j && !s.judges[k].disabled && s.judges[k].tier <= s.judges[j].tier)
      || (!disabled && s.minTier.Some? && s.minTier.value <= s.judges[j].tier)
  {
    var t := Connected(s, j, disabled);
    assert Running(t.submissionMap, t.judges);
    assert Safe(t) <==> MinTier(t.judges) == MinTier(s.judges);
    if disabled == s.judges[j].disabled {
      assert t.judges == s.judges;
    } else if disabled {
      FlaggedExact(s.judges, t.judges, j);
    } else {
      UnflaggedExact(s.judges, t.judges, j);
    }
  }

  /** j is switched off and nothing else changes. */
  lemma FlaggedExact(before: Judges, after: Judges, j: Judge)
    requires j in before && !before[j].disabled && after == before[j := before[j].(disabled := true)]
    ensures MinTier(after) == MinTier(before) <==>
              exists k :: k in before && k != j && !before[k].disabled && before[k].tier <= before[j].tier
  {
    EnabledIsInTier(before, j);
    var m := MinWitness(before);
    if k :| k in before && k != j && !before[k].disabled && before[k].tier <= before[j].tier {
      EnabledIsInTier(before, k);
      BelowNobody(before, after, j);
      SameMin(before, after, if m == j then k else m);
    } else if MinTier(after) == MinTier(before) {
      var n := MinWitness(after);
    }
  }

  /** j is switched on and nothing else changes. */
  lemma UnflaggedExact(before: Judges, after: Judges, j: Judge)
    requires j in before && before[j].disabled && after == before[j := before[j].(disabled := false)]
    ensures MinTier(after) == MinTier(before) <==> MinTier(before).Some? && MinTier(before).value <= before[j].tier
  {
    EnabledIsInTier(after, j);
    if MinTier(before).Some? && MinTier(before).value <= before[j].tier {
      var m := MinWitness(before);
      BelowNobody(before, after, j);
      SameMin(before, after, m);
    }
  }

  /** Registering from any state, a stale tier included: the offer during the tier change and the
      one afterwards may both find work for the new judge, which then holds two submissions.  So
      the invariant is restored exactly when the first gives it nothing or the second finds
      nothing; the first gives it something only when a stale tier rises. */
  lemma RegisterExact(s: State, j: Judge, info: JudgeInfo, order: seq<Judge>)
    requires Core(s) && SafeLog(s.log) && Quiet(s.judges)
    requires j !in s.judges && info.working == 0 && !info.raises && info.name != ""
    ensures var r := s.(judges := s.judges[j := info]);
      var t := UpdateMinTier(r, order);
      && j in t.judges
      && (Safe(Register(s, j, info, order)) <==> t.judges[j].working == 0 || NextFor(t, t.judges[j]).NoPick?)
      && (t.judges[j].working != 0 ==>
            s.minTier.Some? && MinTier(r.judges).Some? && s.minTier.value < MinTier(r.judges).value)
  {
    var r := s.(judges := s.judges[j := info]);
    var t := UpdateMinTier(r, order);
    UpdateMinTierKeeps(r, order);
    if t.judges[j].working == 0 { HandleFreeKeeps(t, j); }
    else if NextFor(t, t.judges[j]).Picked? { SecondOffer(t, j); }
  }

  /** A judge that is grading and is given something else is recorded with both. */
  lemma SecondOffer(s: State, j: Judge)
    requires Inv(s) && j in s.judges && s.judges[j].working != 0 && NextFor(s, s.judges[j]).Picked?
    ensures var t, first, second := HandleFree(s, j), s.judges[j].working, NextFor(s, s.judges[j]).sub.id;
      && first != second && first in t.submissionMap && second in t.submissionMap
      && t.submissionMap[first] == t.submissionMap[second] == j && t.judges[j].working == second && !Safe(t)
  {
    ScanIsLeast(s.queue, 0, s.judges[j], ShouldReserve(s.judges, s.minTier));
  }

  /** Nobody enabled afterwards, save j itself, is below the old minimum. */
  lemma BelowNobody(before: Judges, after: Judges, j: Judge)
    requires MinTier(before).Some?
    requires forall n :: n in after && n != j ==> n in before && after[n] == before[n]
    ensures forall n :: n in after && n != j && !after[n].disabled ==> MinTier(before).value <= after[n].tier
  {
    forall n | n in after && n != j && !after[n].disabled ensures MinTier(before).value <= after[n].tier {
      EnabledIsInTier(before, n);
    }
  }

  lemma MinWitness(judges: Judges) returns (m: Judge)
    requires MinTier(judges).Some?
    ensures m in judges && !judges[m].disabled && judges[m].tier == MinTier(judges).value
  {
    assert MinTier(judges).value in EnabledTiers(judges);
    m :| m in judges && !judges[m].disabled && judges[m].tier == MinTier(judges).value;
  }

  /** The minimum is kept when its witness stays enabled and nobody enabled is below it. */
  lemma SameMin(before: Judges, after: Judges, w: Judge)
    requires w in before && w in after && !after[w].disabled
    requires MinTier(before) == Some(after[w].tier)
    requires forall n :: n in after && !after[n].disabled ==> after[w].tier <= after[n].tier
    ensures MinTier(after) == MinTier(before)
  {
    EnabledIsInTier(after, w);
    var n := MinWitness(after);
  }

  /** Every run of legal steps keeps the invariant. */
  lemma {:induction false} RunKeeps(s: State, acts: seq<Action>)
    requires Inv(s) && LegalRun(s, acts)
    ensures Inv(Run(s, acts))
    decreases |acts|
  {
    if acts != [] {
      StepKeeps(s, acts[0]);
      RunKeeps(Apply(s, acts[0]), acts[1..]);
    }
  }

  /** What the invariant means to a caller, for every run from the empty list. */
  lemma RunFacts(acts: seq<Action>, id: int, j: Judge)
    requires LegalRun(Initial(), acts)
    ensures var s := Run(Initial(), acts);
      && (id in s.nodeMap <==> exists x :: Job(x) in s.queue && x.id == id)
      && !(id in s.nodeMap && id in s.submissionMap)
      && (id in s.submissionMap && s.submissionMap[id] == j <==> id != 0 && j in s.judges && s.judges[j].working == id)
      && (Accepts(s.log, id) == Ends(s.log, id) + (if id in s.nodeMap || id in s.submissionMap then 1 else 0))
      && s.minTier == MinTier(s.judges)
      && (forall e :: e in s.log ==> SafeEvent(e))
  {
    InitialInv();
    RunKeeps(Initial(), acts);
    var s := Run(Initial(), acts);
    if id in s.nodeMap { assert Job(s.nodeMap[id].sub) in s.queue; }
    assert Accepts(s.log, id) == Ends(s.log, id) + (if id in s.nodeMap || id in s.submissionMap then 1 else 0);
  }
}
