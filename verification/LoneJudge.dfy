/** The exception to reserving a judge: when a tier has a single judge, it is never idle beside
    any queued submission it can judge, rejudges included. */
module LoneJudge {
  import opened Options
  import opened MarkerQueue
  import opened Scheduler
  import opened SchedulerSafety
  import opened WorkConservation

  /** Nothing of any band is waiting for this judge. */
  ghost predicate FullyServed(q: seq<Entry>, info: JudgeInfo) {
    forall p: nat, x :: p < PRIORITIES && x in Band(q, 0, p) ==> !CanJudge(info, x)
  }

  ghost predicate FullyBusy(s: State, j: Judge)
    requires j in s.judges
  {
    s.judges[j].working != 0 || FullyServed(s.queue, s.judges[j])
  }

  ghost predicate Lone(s: State) {
    |CurrentTier(s.judges, s.minTier)| == 1 ==>
      forall j :: j in s.judges && InTier(s.judges, s.minTier, j) ==> FullyBusy(s, j)
  }

  /** A judge that is not reserved and offered work keeps nothing waiting. */
  lemma HandleFreeServesAll(s: State, j: Judge)
    requires Inv(s) && j in s.judges && s.judges[j].working == 0
    requires InTier(s.judges, s.minTier, j) && |CurrentTier(s.judges, s.minTier)| == 1
    ensures j in HandleFree(s, j).judges && FullyBusy(HandleFree(s, j), j)
  {
    HandleFreeKeeps(s, j);
    ScanIsLeast(s.queue, 0, s.judges[j], ShouldReserve(s.judges, s.minTier));
  }

  lemma HandleFreeLone(s: State, j: Judge)
    requires Inv(s) && j in s.judges && s.judges[j].working == 0
    requires |CurrentTier(s.judges, s.minTier)| == 1 ==>
      forall k :: k in s.judges && k != j && InTier(s.judges, s.minTier, k) ==> FullyBusy(s, k)
    ensures Lone(HandleFree(s, j))
  {
    var t := HandleFree(s, j);
    HandleFreeServes(s, j);
    SameTiersSameMin(s.judges, t.judges);
    if |CurrentTier(s.judges, s.minTier)| == 1 {
      if InTier(s.judges, s.minTier, j) { HandleFreeServesAll(s, j); }
      forall k | k in t.judges && k != j && InTier(t.judges, t.minTier, k) ensures FullyBusy(t, k) {
        assert InTier(s.judges, s.minTier, k);
      }
    }
  }

  lemma ServeLastLone(s: State)
    requires Inv(s)
    ensures Lone(ServeLast(s))
  {
    var tier := CurrentTier(s.judges, s.minTier);
    if |tier| == 1 {
      var j := TheOnly(tier);
      assert forall k :: k in s.judges && InTier(s.judges, s.minTier, k) ==> k in tier;
      if s.judges[j].working == 0 { HandleFreeLone(s, j); }
    }
  }

  lemma SubmitLone(s: State, sub: Submission, prio: nat, choice: Judge)
    requires Inv(s) && Lone(s) && Legal(s, ASubmit(sub, prio, choice))
    ensures Lone(Submit(s, sub, prio, choice))
  {
    if sub.id in Known(s) {
    } else if choice in Usable(s, sub, prio) {
      DispatchDirectLone(s, sub, prio, choice);
    } else {
      assert Usable(s, sub, prio) == {};
      EnqueueLone(s, sub, prio);
    }
  }

  lemma DispatchDirectLone(s: State, sub: Submission, prio: nat, choice: Judge)
    requires Inv(s) && Lone(s) && sub.id > 0 && sub.id !in Known(s) && choice in Usable(s, sub, prio)
    ensures Lone(DispatchDirect(s, sub, prio, choice))
  {
    var t := DispatchDirect(s, sub, prio, choice);
    SameTiersSameMin(s.judges, t.judges);
    forall k | k in t.judges && InTier(t.judges, t.minTier, k) && |CurrentTier(t.judges, t.minTier)| == 1
      ensures FullyBusy(t, k)
    {
      assert FullyBusy(s, k);
    }
  }

  /** A submission is queued only when the lone judge is grading or cannot judge it. */
  lemma EnqueueLone(s: State, sub: Submission, prio: nat)
    requires Inv(s) && Lone(s) && prio < PRIORITIES && Usable(s, sub, prio) == {}
    ensures Lone(Enqueue(s, sub, prio))
  {
    var t := Enqueue(s, sub, prio);
    forall j | j in t.judges && InTier(t.judges, t.minTier, j) && |CurrentTier(t.judges, t.minTier)| == 1
      ensures FullyBusy(t, j)
    {
      assert FullyBusy(s, j);
      LoneCandidates(s, sub, prio);
      forall b: nat, x | s.judges[j].working == 0 && b < PRIORITIES && x in Band(t.queue, 0, b)
        ensures !CanJudge(t.judges[j], x)
      {
        InsertBand(s.queue, 0, prio, sub, b);
        if b == prio { assert j !in Available(s, sub); }
      }
    }
  }

  /** A lone judge is never kept back. */
  lemma LoneCandidates(s: State, sub: Submission, prio: nat)
    requires |CurrentTier(s.judges, s.minTier)| == 1
    ensures Usable(s, sub, prio) == Available(s, sub)
  {
    var tier := CurrentTier(s.judges, s.minTier);
    assert Candidates(s, sub) <= tier;
    var j := TheOnly(tier);
    assert Candidates(s, sub) == {} || Candidates(s, sub) == {j};
  }

  lemma FreeLone(s: State, j: Judge, id: int)
    requires Inv(s) && Lone(s) && Legal(s, AFree(j, id))
    ensures Lone(OnJudgeFree(s, j, id))
  {
    var t := Freed(s, j, id);
    FreedKeeps(s, j, id);
    SameTiersSameMin(s.judges, t.judges);
    forall k | k in t.judges && k != j && InTier(t.judges, t.minTier, k) && |CurrentTier(t.judges, t.minTier)| == 1
      ensures FullyBusy(t, k)
    {
      assert FullyBusy(s, k);
    }
    HandleFreeLone(t, j);
  }

  lemma RegisterLone(s: State, j: Judge, info: JudgeInfo, order: seq<Judge>)
    requires Inv(s) && Lone(s) && Legal(s, ARegister(j, info, order))
    ensures Lone(Register(s, j, info, order))
  {
    var r := s.(judges := s.judges[j := info]);
    if s.minTier.Some? { EnabledTiersAdd(s.judges, j, info); }
    var t := r.(minTier := MinTier(r.judges));
    assert t == UpdateMinTier(r, order);
    forall k | k in t.judges && k != j && InTier(t.judges, t.minTier, k) && |CurrentTier(t.judges, t.minTier)| == 1
      ensures FullyBusy(t, k)
    {
      EnabledIsInTier(s.judges, k);
      var tier := CurrentTier(t.judges, t.minTier);
      assert tier == {TheOnly(tier)} && k in tier;
      assert CurrentTier(s.judges, s.minTier) == {k};
      assert FullyBusy(s, k);
    }
    HandleFreeLone(t, j);
  }

  lemma RemoveLone(s: State, j: Judge, current: int, order: seq<Judge>)
    requires Inv(s) && Legal(s, ARemove(j, current, order))
    ensures Lone(Remove(s, j, current, order))
  {
    DropKeeps(s, j, current);
    UpdateMinTierKeeps(Drop(s, j, current), order);
    ServeLastLone(UpdateMinTier(Drop(s, j, current), order));
  }

  lemma ProblemsLone(s: State, j: Judge, problems: set<string>)
    requires Inv(s) && Lone(s) && j in s.judges
    ensures Lone(SupportedProblems(s, j, problems))
  {
    var t := WithProblems(s, j, problems);
    WithProblemsKeeps(s, j, problems);
    SameTiersSameMin(s.judges, t.judges);
    forall k | k in t.judges && k != j && InTier(t.judges, t.minTier, k) && |CurrentTier(t.judges, t.minTier)| == 1
      ensures FullyBusy(t, k)
    {
      assert FullyBusy(s, k);
    }
    if s.judges[j].working == 0 { HandleFreeLone(t, j); }
  }

  lemma AbortLone(s: State, id: int)
    requires Inv(s) && Lone(s)
    ensures Lone(Abort(s, id))
  {
    if id !in s.submissionMap && id in s.nodeMap {
      UnlinkShrinks(s.queue, s.nodeMap[id].sub);
      forall k | k in s.judges && InTier(s.judges, s.minTier, k) && |CurrentTier(s.judges, s.minTier)| == 1
        ensures FullyBusy(Abort(s, id), k)
      {
        assert FullyBusy(s, k);
      }
    }
  }

  lemma LoadLone(s: State, j: Judge, load: real)
    requires Inv(s) && Lone(s) && j in s.judges
    ensures Lone(ReportLoad(s, j, load))
  {
    var t := ReportLoad(s, j, load);
    SameTiersSameMin(s.judges, t.judges);
    forall k | k in t.judges && InTier(t.judges, t.minTier, k) && |CurrentTier(t.judges, t.minTier)| == 1
      ensures FullyBusy(t, k)
    {
      assert FullyBusy(s, k);
      forall p: nat, x | FullyBusy(s, k) && p < PRIORITIES && x in Band(t.queue, 0, p) && t.judges[k].working == 0
        ensures !CanJudge(t.judges[k], x)
      { assert !CanJudge(s.judges[k], x); }
    }
  }

  // ---------- switching judges ----------

  /** Disabling serves the last judge only when the tier rises: the property survives exactly
      when the tier changes, more or fewer than one judge is left in it, or that judge finds
      nothing queued. */
  lemma DisableExact(s: State, name: string, order: seq<Judge>)
    requires Inv(s) && Legal(s, ADisable(name, true, order))
    ensures var after := SetDisabled(s.judges, name, true);
      Lone(UpdateDisable(s, name, true, order)) <==>
        MinTier(after) != s.minTier || IdleServed(s, after)
  {
    var after := SetDisabled(s.judges, name, true);
    var t := s.(judges := after, minTier := MinTier(after));
    if MinTier(after) == s.minTier {
      assert UpdateDisable(s, name, true, order) == t;
      SameTierExact(s, t);
    } else if t.minTier.Some? {
      var m := MinWitness(after);
      EnabledIsInTier(s.judges, m);
      assert UpdateDisable(s, name, true, order) == FreeAll(t, order);
      FreeAllLone(t, order);
    } else {
      assert CurrentTier(t.judges, t.minTier) == {};
    }
  }

  /** Re-enabling serves nobody: the property survives exactly when not one judge makes up the
      tier that is current afterwards, or that judge is grading or finds nothing queued. */
  lemma EnableLoneExact(s: State, name: string, order: seq<Judge>)
    requires Inv(s) && Legal(s, ADisable(name, false, order))
    ensures Lone(UpdateDisable(s, name, false, order)) <==> IdleServed(s, SetDisabled(s.judges, name, false))
  {
    var after := SetDisabled(s.judges, name, false);
    var t := s.(judges := after, minTier := MinTier(after));
    EnablingDispatchesNothing(s, name, order);
    SameTierExact(s, t);
  }

  /** With these judges, the tier does not consist of one idle judge that finds something queued. */
  ghost predicate IdleServed(s: State, after: Judges) {
    var tier := CurrentTier(after, MinTier(after));
    |tier| == 1 ==> forall j :: j in tier && after[j].working == 0 ==> FullyServed(s.queue, after[j])
  }

  lemma SameTierExact(s: State, t: State)
    requires t.queue == s.queue && t.minTier == MinTier(t.judges)
    ensures Lone(t) <==> IdleServed(s, t.judges)
  {
  }

  lemma FreeAllLone(t: State, order: seq<Judge>)
    requires Inv(t) && Enumerates(order, t.judges)
    ensures Lone(FreeAll(t, order))
  {
    var tier := CurrentTier(t.judges, t.minTier);
    FreeAllKeeps(t, order);
    SameTiersSameMin(t.judges, FreeAll(t, order).judges);
    if |tier| == 1 {
      var j := TheOnly(tier);
      assert j in tier;
      OnlyOne(order, j);
      FreeOne(t, j);
      assert forall k :: k in t.judges && InTier(t.judges, t.minTier, k) ==> k in tier;
      if t.judges[j].working == 0 { HandleFreeLone(t, j); }
    }
  }

  lemma FreeOne(t: State, j: Judge)
    requires j in t.judges
    ensures FreeAll(t, [j]) == if t.judges[j].working == 0 then HandleFree(t, j) else t
  {
  }

  lemma OnlyOne(order: seq<Judge>, j: Judge)
    requires (set k | k in order) == {j}
    requires forall i, k :: 0 <= i < k < |order| ==> order[i] != order[k]
    ensures order == [j]
  {
    var all := set k | k in order;
    assert j in all;
    assert |order| > 1 ==> order[0] != order[1];
    forall i | 0 <= i < |order| ensures order[i] == j {
      var x := order[i];
      assert x in order;
      assert x in all;
      assert x in {j};
    }
  }

  // ---------- whole runs ----------

  /** When a step keeps the property; a caller can tell before taking it. */
  ghost predicate LoneGuard(s: State, a: Action) {
    a.ADisable? ==>
      var after := SetDisabled(s.judges, a.name, a.disabled);
      (a.disabled && MinTier(after) != s.minTier) || IdleServed(s, after)
  }

  lemma StepLoneExact(s: State, a: Action)
    requires Inv(s) && Lone(s) && Legal(s, a)
    ensures Lone(Apply(s, a)) <==> LoneGuard(s, a)
  {
    match a
    case ASubmit(sub, prio, choice) => SubmitLone(s, sub, prio, choice);
    case AFree(j, id) => FreeLone(s, j, id);
    case ARegister(j, info, order) => RegisterLone(s, j, info, order);
    case ARemove(j, current, order) => RemoveLone(s, j, current, order);
    case ADisable(name, disabled, order) =>
      if disabled { DisableExact(s, name, order); } else { EnableLoneExact(s, name, order); }
    case AProblems(j, problems) => ProblemsLone(s, j, problems);
    case AAbort(id) => AbortLone(s, id);
    case ALoad(j, load) => LoadLone(s, j, load);
  }

  /** The property holds in every state of the run. */
  ghost predicate LoneThroughout(s: State, acts: seq<Action>)
    decreases |acts|
  {
    Lone(s) && (acts != [] ==> LoneThroughout(Apply(s, acts[0]), acts[1..]))
  }

  ghost predicate LoneGuarded(s: State, acts: seq<Action>)
    decreases |acts|
  {
    acts != [] ==> LoneGuard(s, acts[0]) && LoneGuarded(Apply(s, acts[0]), acts[1..])
  }

  /** Over any run the lone judge stays served in every state exactly when every switching step
      meets its condition. */
  lemma {:induction false} RunLone(s: State, acts: seq<Action>)
    requires Inv(s) && Lone(s) && LegalRun(s, acts)
    ensures LoneThroughout(s, acts) <==> LoneGuarded(s, acts)
    decreases |acts|
  {
    if acts != [] {
      StepKeeps(s, acts[0]);
      StepLoneExact(s, acts[0]);
      if LoneGuard(s, acts[0]) { RunLone(Apply(s, acts[0]), acts[1..]); }
    }
  }

  lemma WholeRunLone(acts: seq<Action>)
    requires LegalRun(Initial(), acts)
    ensures LoneThroughout(Initial(), acts) <==> LoneGuarded(Initial(), acts)
  {
    InitialInv();
    RunLone(Initial(), acts);
  }
}
