/** Rejudges in a tier with several free judges.  The reservation rule holds back the last free
    judge; while two are free no rejudge should have to wait for either, but the source looks for
    work only on behalf of the judge that has just become free. */
module ReservedJudge {
  import opened Options
  import opened MarkerQueue
  import opened Scheduler
  import opened SchedulerSafety
  import opened WorkConservation
  import opened LoneJudge

  function FreeInTier(s: State): set<Judge> {
    Free(s.judges, CurrentTier(s.judges, s.minTier))
  }

  /** With two free judges of the tier, no free one stands beside anything queued it can judge. */
  ghost predicate Spread(s: State) {
    |FreeInTier(s)| >= 2 ==> forall j :: j in FreeInTier(s) ==> FullyServed(s.queue, s.judges[j])
  }

  lemma SpreadShrinks(s: State, t: State)
    requires Spread(s) && FreeInTier(t) == FreeInTier(s) && Shrinks(s.queue, t.queue)
    requires forall j :: j in FreeInTier(s) ==> t.judges[j] == s.judges[j]
    ensures Spread(t)
  {
  }

  /** Only j differs, and of j neither the tier nor the flag: so only j's being free may change. */
  lemma OnlyOneChanged(s: State, t: State, j: Judge)
    requires s.minTier == t.minTier && SameTiers(s.judges, t.judges) && j in s.judges
    requires forall k :: k in s.judges && k != j ==> t.judges[k] == s.judges[k]
    ensures FreeInTier(t) ==
      if InTier(s.judges, s.minTier, j) && t.judges[j].working == 0 then FreeInTier(s) + {j} else FreeInTier(s) - {j}
  {
    assert forall k :: InTier(t.judges, t.minTier, k) <==> InTier(s.judges, s.minTier, k);
  }

  // ---------- a judge becomes free ----------

  lemma FreedInTier(s: State, j: Judge, id: int)
    requires Inv(s) && Legal(s, AFree(j, id))
    ensures var t := Freed(s, j, id);
      && j !in FreeInTier(s)
      && FreeInTier(t) == FreeInTier(s) + (if InTier(s.judges, s.minTier, j) then {j} else {})
      && |FreeInTier(t)| == |FreeInTier(s)| + (if InTier(s.judges, s.minTier, j) then 1 else 0)
  {
    FreedKeeps(s, j, id);
    OnlyOneChanged(s, Freed(s, j, id), j);
  }

  /** The freed judge is given something, so the free judges are those of before. */
  lemma PickedSpread(s: State, j: Judge, id: int)
    requires Inv(s) && Spread(s) && Legal(s, AFree(j, id))
    requires NextFor(Freed(s, j, id), Freed(s, j, id).judges[j]).Picked? || !InTier(s.judges, s.minTier, j)
    ensures Spread(OnJudgeFree(s, j, id))
  {
    var u := OnJudgeFree(s, j, id);
    ReportChanges(s, j, id);
    OnlyOneChanged(s, u, j);
    assert j !in FreeInTier(s);
    SpreadShrinks(s, u);
  }

  /** A report changes the record of the reporting judge only, and the queue only loses members. */
  lemma ReportChanges(s: State, j: Judge, id: int)
    requires Inv(s) && Legal(s, AFree(j, id))
    ensures var t, u := Freed(s, j, id), OnJudgeFree(s, j, id);
      && u.minTier == s.minTier && SameTiers(s.judges, u.judges) && Shrinks(s.queue, u.queue)
      && (forall k :: k in s.judges && k != j ==> u.judges[k] == s.judges[k])
      && (NextFor(t, t.judges[j]).Picked? ==> u.judges[j].working != 0)
  {
    FreedKeeps(s, j, id);
    HandleFreeServes(Freed(s, j, id), j);
    PickedIsBusy(Freed(s, j, id), j);
  }

  lemma PickedIsBusy(s: State, j: Judge)
    requires Inv(s) && j in s.judges
    ensures NextFor(s, s.judges[j]).Picked? ==> j in HandleFree(s, j).judges && HandleFree(s, j).judges[j].working != 0
  {
    ScanIsLeast(s.queue, 0, s.judges[j], ShouldReserve(s.judges, s.minTier));
  }

  /** The freed judge is given nothing: with another free one beside it, it was offered rejudges. */
  lemma UnpickedServed(s: State, j: Judge, id: int)
    requires Inv(s) && Legal(s, AFree(j, id)) && InTier(s.judges, s.minTier, j) && FreeInTier(s) != {}
    requires NextFor(Freed(s, j, id), Freed(s, j, id).judges[j]).NoPick?
    ensures FullyServed(s.queue, Freed(s, j, id).judges[j])
  {
    var t := Freed(s, j, id);
    FreedInTier(s, j, id);
    assert !ShouldReserve(t.judges, t.minTier);
    ScanIsLeast(t.queue, 0, t.judges[j], false);
  }

  /** A report keeps this exactly when the judge is not of the tier, or is given something, or was
      not joining a single free judge that has something queued to do. */
  lemma FreeSpreadExact(s: State, j: Judge, id: int)
    requires Inv(s) && Spread(s) && Legal(s, AFree(j, id))
    ensures var t := Freed(s, j, id);
      Spread(OnJudgeFree(s, j, id)) <==>
        (InTier(s.judges, s.minTier, j) && NextFor(t, t.judges[j]).NoPick? && |FreeInTier(s)| == 1 ==>
           forall k :: k in FreeInTier(s) ==> FullyServed(s.queue, s.judges[k]))
  {
    var t := Freed(s, j, id);
    if NextFor(t, t.judges[j]).Picked? || !InTier(s.judges, s.minTier, j) {
      PickedSpread(s, j, id);
    } else {
      assert OnJudgeFree(s, j, id) == t;
      FreedInTier(s, j, id);
      if FreeInTier(s) != {} { UnpickedServed(s, j, id); }
      assert forall k :: k in FreeInTier(s) ==> t.judges[k] == s.judges[k];
      if |FreeInTier(s)| == 1 { UnpickedOne(s, t, j); }
    }
  }

  /** Joining a single free judge. */
  lemma UnpickedOne(s: State, t: State, j: Judge)
    requires |FreeInTier(s)| == 1 && FreeInTier(t) == FreeInTier(s) + {j} && |FreeInTier(t)| == 2
    requires t.queue == s.queue && j in t.judges && FullyServed(s.queue, t.judges[j])
    requires forall k :: k in FreeInTier(s) ==> k in t.judges && t.judges[k] == s.judges[k]
    ensures Spread(t) <==> forall k :: k in FreeInTier(s) ==> FullyServed(s.queue, s.judges[k])
  {
    if Spread(t) {
      forall k | k in FreeInTier(s) ensures FullyServed(s.queue, s.judges[k]) { assert k in FreeInTier(t); }
    }
  }

  // ---------- a submission arrives ----------

  /** A submission keeps it exactly when it is not held back from a free judge, as the last one of
      its candidates, while another judge of the tier is free that cannot judge it. */
  lemma SubmitSpreadExact(s: State, sub: Submission, prio: nat, choice: Judge)
    requires Inv(s) && Spread(s) && Legal(s, ASubmit(sub, prio, choice))
    ensures Spread(Submit(s, sub, prio, choice)) <==>
      !(sub.id !in Known(s) && Usable(s, sub, prio) == {} && Available(s, sub) != {} && |FreeInTier(s)| >= 2)
  {
    if sub.id in Known(s) {
    } else if choice in Usable(s, sub, prio) {
      DirectSpread(s, sub, prio, choice);
    } else {
      assert Usable(s, sub, prio) == {};
      EnqueueSpread(s, sub, prio);
    }
  }

  lemma DirectSpread(s: State, sub: Submission, prio: nat, j: Judge)
    requires Inv(s) && Spread(s) && sub.id > 0 && j in Usable(s, sub, prio)
    ensures Spread(DispatchDirect(s, sub, prio, j))
  {
    var t := DispatchDirect(s, sub, prio, j);
    OnlyOneChanged(s, t, j);
    if |FreeInTier(t)| >= 2 {
      assert |FreeInTier(s)| >= 2 by { Subset(FreeInTier(t), FreeInTier(s)); }
    }
  }

  lemma {:induction false} Subset(a: set<Judge>, b: set<Judge>)
    requires a <= b
    ensures |a| <= |b|
    decreases |a|
  {
    if a != {} {
      var x :| x in a;
      Subset(a - {x}, b - {x});
    }
  }

  lemma EnqueueSpread(s: State, sub: Submission, prio: nat)
    requires Inv(s) && Spread(s) && prio < PRIORITIES
    ensures Spread(Enqueue(s, sub, prio)) <==> !(Available(s, sub) != {} && |FreeInTier(s)| >= 2)
  {
    var t := Enqueue(s, sub, prio);
    assert FreeInTier(t) == FreeInTier(s);
    forall j | j in FreeInTier(s) && FullyServed(s.queue, s.judges[j])
      ensures FullyServed(t.queue, s.judges[j]) <==> j !in Available(s, sub)
    {
      EnqueueServed(s.queue, sub, prio, s.judges[j]);
    }
    assert forall j :: j in Available(s, sub) ==> j in FreeInTier(s);
  }

  lemma EnqueueServed(q: seq<Entry>, sub: Submission, prio: nat, info: JudgeInfo)
    requires InOrder(q, 0) && prio < PRIORITIES && FullyServed(q, info)
    ensures FullyServed(InsertBefore(q, prio, sub), info) <==> !CanJudge(info, sub)
  {
    InsertBand(q, 0, prio, sub, prio);
    assert sub in Band(InsertBefore(q, prio, sub), 0, prio);
    forall p: nat, x | !CanJudge(info, sub) && p < PRIORITIES && x in Band(InsertBefore(q, prio, sub), 0, p)
      ensures !CanJudge(info, x)
    {
      InsertBand(q, 0, prio, sub, p);
    }
  }
}
