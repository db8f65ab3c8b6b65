/** No free enabled judge of the minimum tier stands idle beside a queued priority-0 or
    priority-1 submission it can judge, in every run that re-enables no judge. */
module WorkConservation {
  import opened Options
  import opened MarkerQueue
  import opened Scheduler
  import opened SchedulerSafety

  /** Nothing of the two ordinary bands is waiting for this judge. */
  ghost predicate Served(q: seq<Entry>, info: JudgeInfo) {
    forall p: nat, x :: p < REJUDGE_PRIORITY && x in Band(q, 0, p) ==> !CanJudge(info, x)
  }

  ghost predicate Busy(s: State, j: Judge)
    requires j in s.judges
  {
    s.judges[j].working != 0 || Served(s.queue, s.judges[j])
  }

  ghost predicate Conserving(s: State) {
    forall j :: j in s.judges && InTier(s.judges, s.minTier, j) ==> Busy(s, j)
  }

  /** The ordinary bands only lose members. */
  ghost predicate Shrinks(q: seq<Entry>, r: seq<Entry>) {
    forall p: nat, x :: x in Band(r, 0, p) ==> x in Band(q, 0, p)
  }

  lemma UnlinkShrinks(q: seq<Entry>, sub: Submission)
    requires InOrder(q, 0) && UniqueIds(q)
    ensures Shrinks(q, Unlink(q, Job(sub)))
  {
    forall p: nat, x | x in Band(Unlink(q, Job(sub)), 0, p) ensures x in Band(q, 0, p) {
      UnlinkBand(q, 0, sub, p);
      WithoutMembers(Band(q, 0, p), sub);
    }
  }

  /** The judge that was offered work is grading, or nothing ordinary is left for it. */
  lemma OfferedIsBusy(s: State, j: Judge)
    requires Inv(s) && j in s.judges && s.judges[j].working == 0 && InTier(s.judges, s.minTier, j)
    ensures j in HandleFree(s, j).judges && Busy(HandleFree(s, j), j)
  {
    ScanIsLeast(s.queue, 0, s.judges[j], ShouldReserve(s.judges, s.minTier));
  }

  /** Offering work serves the judge itself and harms nobody else. */
  lemma HandleFreeServes(s: State, j: Judge)
    requires Inv(s) && j in s.judges && s.judges[j].working == 0
    ensures var t := HandleFree(s, j);
      && Inv(t) && t.minTier == s.minTier && SameTiers(s.judges, t.judges)
      && Shrinks(s.queue, t.queue)
      && (forall k :: k in s.judges && k != j ==> t.judges[k] == s.judges[k])
      && (InTier(s.judges, s.minTier, j) ==> Busy(t, j))
  {
    HandleFreeKeeps(s, j);
    if InTier(s.judges, s.minTier, j) { OfferedIsBusy(s, j); }
    var pick := NextFor(s, s.judges[j]);
    if pick.Picked? { UnlinkShrinks(s.queue, pick.sub); }
  }

  lemma {:induction false} FreeAllServes(s: State, order: seq<Judge>)
    requires Inv(s)
    ensures var t := FreeAll(s, order);
      && Inv(t) && t.minTier == s.minTier && SameTiers(s.judges, t.judges)
      && (forall k :: k in s.judges && (Busy(s, k) || (k in order && InTier(s.judges, s.minTier, k))) ==> Busy(t, k))
    decreases |order|
  {
    if order != [] {
      var j := order[0];
      if j in s.judges && s.judges[j].working == 0 {
        HandleFreeServes(s, j);
        var r := HandleFree(s, j);
        FreeAllServes(r, order[1..]);
        forall k | k in s.judges && (Busy(s, k) || (k in order && InTier(s.judges, s.minTier, k)))
          ensures Busy(FreeAll(s, order), k)
        {
          if k != j && k in order { assert k in order[1..]; }
        }
      } else {
        FreeAllServes(s, order[1..]);
      }
    }
  }

  /** Every judge enabled afterwards was there before, as it is now. */
  ghost predicate Narrowed(before: Judges, after: Judges) {
    forall j :: j in after && !after[j].disabled ==> j in before && before[j] == after[j]
  }

  /** Recomputing the tier after judges left or were disabled: the tier can only rise, and then
      every idle judge of the new tier is offered work. */
  lemma UpdateMinTierServes(s: State, before: Judges, order: seq<Judge>)
    requires Core(s) && SafeLog(s.log) && Quiet(s.judges)
    requires s.minTier == MinTier(before) && Narrowed(before, s.judges)
    requires Conserving(s.(judges := before))
    requires Enumerates(order, s.judges)
    ensures Conserving(UpdateMinTier(s, order))
  {
    var t := s.(minTier := MinTier(s.judges));
    forall j | j in t.judges && InTier(t.judges, t.minTier, j)
      ensures s.minTier.Some? && s.minTier.value <= t.minTier.value
    {
      EnabledIsInTier(before, j);
    }
    if s.minTier.Some? && t.minTier.Some? && t.minTier.value > s.minTier.value {
      FreeAllServes(t, order);
      var u := FreeAll(t, order);
      SameTiersSameMin(t.judges, u.judges);
      forall j | j in u.judges && InTier(u.judges, u.minTier, j) ensures Busy(u, j) {
        assert j in CurrentTier(t.judges, t.minTier);
        assert j in order;
      }
    } else {
      forall j | j in t.judges && InTier(t.judges, t.minTier, j) ensures Busy(t, j) {
        assert InTier(before, s.minTier, j);
        assert Busy(s.(judges := before), j);
      }
    }
  }

  /** One judge being offered work completes the picture when everybody else is busy. */
  lemma HandleFreeCompletes(s: State, j: Judge)
    requires Inv(s) && j in s.judges && s.judges[j].working == 0
    requires forall k :: k in s.judges && k != j && InTier(s.judges, s.minTier, k) ==> Busy(s, k)
    ensures Conserving(HandleFree(s, j))
  {
    HandleFreeServes(s, j);
    SameTiersSameMin(s.judges, HandleFree(s, j).judges);
  }

  // ---------- each public method ----------

  lemma SubmitConserves(s: State, sub: Submission, prio: nat, choice: Judge)
    requires Inv(s) && Conserving(s) && Legal(s, ASubmit(sub, prio, choice))
    ensures Conserving(Submit(s, sub, prio, choice))
  {
    if sub.id in Known(s) {
    } else if choice in Usable(s, sub, prio) {
      var t := DispatchDirect(s, sub, prio, choice);
      forall j | j in t.judges && InTier(t.judges, t.minTier, j) ensures Busy(t, j) {
        assert j == choice || Busy(s, j);
      }
    } else {
      assert Usable(s, sub, prio) == {};
      EnqueueConserves(s, sub, prio);
    }
  }

  /** A submission is queued only when no free judge of the tier can take it, rejudges aside. */
  lemma EnqueueConserves(s: State, sub: Submission, prio: nat)
    requires Inv(s) && Conserving(s) && prio < PRIORITIES && Usable(s, sub, prio) == {}
    ensures Conserving(Enqueue(s, sub, prio))
  {
    var t := Enqueue(s, sub, prio);
    forall j | j in t.judges && InTier(t.judges, t.minTier, j) ensures Busy(t, j) {
      assert Busy(s, j);
      forall b: nat, x | s.judges[j].working == 0 && b < REJUDGE_PRIORITY && x in Band(t.queue, 0, b)
        ensures !CanJudge(t.judges[j], x)
      {
        InsertBand(s.queue, 0, prio, sub, b);
        if b == prio { assert j !in Available(s, sub); }
      }
    }
  }

  lemma FreeConserves(s: State, j: Judge, id: int)
    requires Inv(s) && Conserving(s) && Legal(s, AFree(j, id))
    ensures Conserving(OnJudgeFree(s, j, id))
  {
    var t := Freed(s, j, id);
    FreedKeeps(s, j, id);
    SameTiersSameMin(s.judges, t.judges);
    forall k | k in t.judges && k != j && InTier(t.judges, t.minTier, k) ensures Busy(t, k) { assert Busy(s, k); }
    HandleFreeCompletes(t, j);
  }

  lemma RegisterConserves(s: State, j: Judge, info: JudgeInfo, order: seq<Judge>)
    requires Inv(s) && Conserving(s) && Legal(s, ARegister(j, info, order))
    ensures Conserving(Register(s, j, info, order))
  {
    var r := s.(judges := s.judges[j := info]);
    if s.minTier.Some? { EnabledTiersAdd(s.judges, j, info); }
    var t := r.(minTier := MinTier(r.judges));
    assert t == UpdateMinTier(r, order);
    forall k | k in t.judges && k != j && InTier(t.judges, t.minTier, k) ensures Busy(t, k) {
      EnabledIsInTier(s.judges, k);
      assert Busy(s, k);
    }
    HandleFreeCompletes(t, j);
  }

  lemma ServeLastConserves(s: State)
    requires Inv(s) && Conserving(s)
    ensures Conserving(ServeLast(s))
  {
    var tier := CurrentTier(s.judges, s.minTier);
    if |tier| == 1 && s.judges[TheOnly(tier)].working == 0 { HandleFreeCompletes(s, TheOnly(tier)); }
  }

  lemma RemoveConserves(s: State, j: Judge, current: int, order: seq<Judge>)
    requires Inv(s) && Conserving(s) && Legal(s, ARemove(j, current, order))
    ensures Conserving(Remove(s, j, current, order))
  {
    var r := Drop(s, j, current);
    DropKeeps(s, j, current);
    forall k | k in s.judges && InTier(s.judges, s.minTier, k)
      ensures Busy(r.(judges := s.judges), k)
    {
      assert Busy(s, k);
    }
    UpdateMinTierServes(r, s.judges, order);
    UpdateMinTierKeeps(r, order);
    ServeLastConserves(UpdateMinTier(r, order));
  }

  lemma DisableConserves(s: State, name: string, order: seq<Judge>)
    requires Inv(s) && Conserving(s) && Legal(s, ADisable(name, true, order))
    ensures Conserving(UpdateDisable(s, name, true, order))
  {
    UpdateMinTierServes(s.(judges := SetDisabled(s.judges, name, true)), s.judges, order);
  }

  lemma ProblemsConserve(s: State, j: Judge, problems: set<string>)
    requires Inv(s) && Conserving(s) && j in s.judges
    ensures Conserving(SupportedProblems(s, j, problems))
  {
    var t := WithProblems(s, j, problems);
    WithProblemsKeeps(s, j, problems);
    SameTiersSameMin(s.judges, t.judges);
    forall k | k in t.judges && k != j && InTier(t.judges, t.minTier, k) ensures Busy(t, k) { assert Busy(s, k); }
    if s.judges[j].working == 0 { HandleFreeCompletes(t, j); }
  }

  lemma AbortConserves(s: State, id: int)
    requires Inv(s) && Conserving(s)
    ensures Conserving(Abort(s, id))
  {
    if id !in s.submissionMap && id in s.nodeMap {
      UnlinkShrinks(s.queue, s.nodeMap[id].sub);
      forall k | k in s.judges && InTier(s.judges, s.minTier, k) ensures Busy(Abort(s, id), k) { assert Busy(s, k); }
    }
  }

  lemma LoadConserves(s: State, j: Judge, load: real)
    requires Conserving(s) && j in s.judges
    ensures Conserving(ReportLoad(s, j, load))
  {
    var t := ReportLoad(s, j, load);
    forall k | k in t.judges && InTier(t.judges, t.minTier, k) ensures Busy(t, k) {
      assert Busy(s, k);
      forall p: nat, x | Busy(s, k) && p < REJUDGE_PRIORITY && x in Band(t.queue, 0, p) && t.judges[k].working == 0
        ensures !CanJudge(t.judges[k], x)
      { assert !CanJudge(s.judges[k], x); }
    }
  }

  // ---------- re-enabling ----------

  /** The judges that re-enabling this name wakes: disabled now, idle, and of the tier that is
      current afterwards. */
  function Woken(s: State, name: string): set<Judge> {
    var after := SetDisabled(s.judges, name, false);
    set j | j in s.judges && s.judges[j].name == name && s.judges[j].disabled && s.judges[j].working == 0 &&
            InTier(after, MinTier(after), j)
  }

  /** Re-enabling never raises the tier, so nothing is dispatched. */
  lemma EnablingDispatchesNothing(s: State, name: string, order: seq<Judge>)
    requires s.minTier == MinTier(s.judges)
    ensures var after := SetDisabled(s.judges, name, false);
      && UpdateDisable(s, name, false, order) == s.(judges := after, minTier := MinTier(after))
      && (s.minTier.Some? ==> MinTier(after).Some? && MinTier(after).value <= s.minTier.value)
  {
    var after := SetDisabled(s.judges, name, false);
    if s.minTier.Some? {
      var m := MinWitness(s.judges);
      assert !after[m].disabled && after[m].tier == s.minTier.value;
      EnabledIsInTier(after, m);
    }
  }

  /** Work is conserved exactly when no woken judge finds an
      ordinary submission it can judge; every other judge stays served. */
  lemma EnableExact(s: State, name: string, order: seq<Judge>)
    requires Inv(s) && Conserving(s) && Legal(s, ADisable(name, false, order))
    ensures Conserving(UpdateDisable(s, name, false, order)) <==>
              forall j :: j in Woken(s, name) ==> Served(s.queue, s.judges[j].(disabled := false))
  {
    var after := SetDisabled(s.judges, name, false);
    var t := s.(judges := after, minTier := MinTier(after));
    EnablingDispatchesNothing(s, name, order);
    forall j | j in after && InTier(after, t.minTier, j) && j !in Woken(s, name) ensures Busy(t, j) {
      if after[j].working == 0 {
        assert !s.judges[j].disabled && s.judges[j] == after[j];
        EnabledIsInTier(s.judges, j);
        assert Busy(s, j);
      }
    }
    forall j | j in Woken(s, name) ensures Busy(t, j) <==> Served(s.queue, s.judges[j].(disabled := false)) {
      assert after[j] == s.judges[j].(disabled := false);
    }
  }

  // ---------- whole runs ----------

  /** When a step conserves work; a caller can tell before taking it. */
  ghost predicate WorkGuard(s: State, a: Action) {
    a.ADisable? && !a.disabled ==>
      forall j :: j in Woken(s, a.name) ==> Served(s.queue, s.judges[j].(disabled := false))
  }

  lemma StepConservesExact(s: State, a: Action)
    requires Inv(s) && Conserving(s) && Legal(s, a)
    ensures Conserving(Apply(s, a)) <==> WorkGuard(s, a)
  {
    match a
    case ASubmit(sub, prio, choice) => SubmitConserves(s, sub, prio, choice);
    case AFree(j, id) => FreeConserves(s, j, id);
    case ARegister(j, info, order) => RegisterConserves(s, j, info, order);
    case ARemove(j, current, order) => RemoveConserves(s, j, current, order);
    case ADisable(name, disabled, order) =>
      if disabled { DisableConserves(s, name, order); } else { EnableExact(s, name, order); }
    case AProblems(j, problems) => ProblemsConserve(s, j, problems);
    case AAbort(id) => AbortConserves(s, id);
    case ALoad(j, load) => LoadConserves(s, j, load);
  }

  /** Work is conserved in every state of the run. */
  ghost predicate ConservingThroughout(s: State, acts: seq<Action>)
    decreases |acts|
  {
    Conserving(s) && (acts != [] ==> ConservingThroughout(Apply(s, acts[0]), acts[1..]))
  }

  ghost predicate WorkGuarded(s: State, acts: seq<Action>)
    decreases |acts|
  {
    acts != [] ==> WorkGuard(s, acts[0]) && WorkGuarded(Apply(s, acts[0]), acts[1..])
  }

  /** Work is conserved throughout a run exactly when no re-enabling step wakes a judge that
      finds ordinary work. */
  lemma {:induction false} RunConserves(s: State, acts: seq<Action>)
    requires Inv(s) && Conserving(s) && LegalRun(s, acts)
    ensures ConservingThroughout(s, acts) <==> WorkGuarded(s, acts)
    decreases |acts|
  {
    if acts != [] {
      StepKeeps(s, acts[0]);
      StepConservesExact(s, acts[0]);
      if WorkGuard(s, acts[0]) { RunConserves(Apply(s, acts[0]), acts[1..]); }
    }
  }

  predicate NoEnabling(acts: seq<Action>) {
    forall i :: 0 <= i < |acts| ==> !(acts[i].ADisable? && !acts[i].disabled)
  }

  lemma {:induction false} NoEnablingIsGuarded(s: State, acts: seq<Action>)
    requires NoEnabling(acts)
    ensures WorkGuarded(s, acts)
    decreases |acts|
  {
    if acts != [] { NoEnablingIsGuarded(Apply(s, acts[0]), acts[1..]); }
  }

  /** From the empty list; in particular over every run that re-enables no judge. */
  lemma WholeRunConserves(acts: seq<Action>)
    requires LegalRun(Initial(), acts)
    ensures ConservingThroughout(Initial(), acts) <==> WorkGuarded(Initial(), acts)
    ensures NoEnabling(acts) ==> ConservingThroughout(Initial(), acts)
  {
    InitialInv();
    RunConserves(Initial(), acts);
    if NoEnabling(acts) { NoEnablingIsGuarded(Initial(), acts); }
  }
}
