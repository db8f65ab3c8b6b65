/** The marker list refines four first-in first-out queues: in every run each band holds the
    submissions queued with its priority, in the order of their acceptance, and a judge is
    given the least (priority, arrival) submission it can take. */
module FifoRefinement {
  import opened Options
  import opened MarkerQueue
  import opened Scheduler
  import opened SchedulerSafety

  /** Position in the history of the last acceptance of an id, -1 if there is none. */
  function LastAccept(log: seq<Event>, id: int): (at: int)
    ensures -1 <= at < |log|
    ensures at >= 0 ==> log[at].Accepted? && log[at].id == id
  {
    if log == [] then -1
    else
      var last := |log| - 1;
      if log[last].Accepted? && log[last].id == id then last else LastAccept(log[..last], id)
  }

  /** A band of priority p: accepted with that priority, in order of acceptance. */
  ghost predicate Ordered(f: seq<Submission>, log: seq<Event>, p: nat) {
    && (forall x :: x in f ==> LastAccept(log, x.id) >= 0 && log[LastAccept(log, x.id)].priority == p)
    && (forall i, k :: 0 <= i < k < |f| ==> LastAccept(log, f[i].id) < LastAccept(log, f[k].id))
  }

  ghost predicate Fifo(s: State) {
    forall p: nat :: Ordered(Band(s.queue, 0, p), s.log, p)
  }

  lemma LastAcceptAppend(log: seq<Event>, e: Event, id: int)
    ensures LastAccept(log + [e], id) == if e.Accepted? && e.id == id then |log| else LastAccept(log, id)
  {
  }

  lemma OrderedAppend(f: seq<Submission>, log: seq<Event>, p: nat, e: Event)
    requires Ordered(f, log, p)
    requires e.Accepted? ==> forall x :: x in f ==> x.id != e.id
    ensures Ordered(f, log + [e], p)
  {
  }

  lemma TailOrdered(f: seq<Submission>, log: seq<Event>, p: nat)
    requires f != [] && Ordered(f, log, p)
    ensures Ordered(f[1..], log, p)
    ensures forall y :: y in f[1..] ==> LastAccept(log, f[0].id) < LastAccept(log, y.id)
  {
  }

  lemma ConsOrdered(x: Submission, f: seq<Submission>, log: seq<Event>, p: nat)
    requires Ordered(f, log, p)
    requires LastAccept(log, x.id) >= 0 && log[LastAccept(log, x.id)].priority == p
    requires forall y :: y in f ==> LastAccept(log, x.id) < LastAccept(log, y.id)
    ensures Ordered([x] + f, log, p)
  {
  }

  lemma {:induction false} WithoutOrdered(f: seq<Submission>, log: seq<Event>, p: nat, x: Submission)
    requires Ordered(f, log, p)
    ensures Ordered(Without(f, x), log, p)
  {
    if f != [] {
      TailOrdered(f, log, p);
      if f[0] != x {
        WithoutOrdered(f[1..], log, p, x);
        WithoutMembers(f[1..], x);
        ConsOrdered(f[0], Without(f[1..], x), log, p);
      }
    }
  }

  // ---------- the two ways the queue changes ----------

  /** Unlinking a submission and noting an event that accepts nothing. */
  lemma UnlinkFifo(s: State, t: State, sub: Submission, e: Event)
    requires Shape(s.queue, s.nodeMap) && Fifo(s)
    requires t.queue == Unlink(s.queue, Job(sub)) && t.log == s.log + [e] && !e.Accepted?
    ensures Fifo(t)
  {
    forall p: nat ensures Ordered(Band(t.queue, 0, p), t.log, p) {
      UnlinkBand(s.queue, 0, sub, p);
      WithoutOrdered(Band(s.queue, 0, p), s.log, p, sub);
      OrderedAppend(Without(Band(s.queue, 0, p), sub), s.log, p, e);
    }
  }

  lemma SameQueueFifo(s: State, t: State, e: Event)
    requires Shape(s.queue, s.nodeMap) && Fifo(s)
    requires t.queue == s.queue && t.log == s.log + [e]
    requires e.Accepted? ==> e.id !in s.nodeMap
    ensures Fifo(t)
  {
    forall p: nat ensures Ordered(Band(t.queue, 0, p), t.log, p) {
      BandMembers(s.queue, 0, p);
      OrderedAppend(Band(s.queue, 0, p), s.log, p, e);
    }
  }

  /** Queueing appends to exactly one queue. */
  lemma EnqueueFifo(s: State, sub: Submission, prio: nat)
    requires Shape(s.queue, s.nodeMap) && Fifo(s) && prio < PRIORITIES && sub.id !in s.nodeMap
    ensures var t := Enqueue(s, sub, prio);
      && Fifo(t)
      && (forall p: nat :: Band(t.queue, 0, p) == Band(s.queue, 0, p) + (if p == prio then [sub] else []))
  {
    var t := Enqueue(s, sub, prio);
    var e := Accepted(sub.id, prio);
    LastAcceptAppend(s.log, e, sub.id);
    forall p: nat
      ensures Ordered(Band(t.queue, 0, p), t.log, p)
      ensures Band(t.queue, 0, p) == Band(s.queue, 0, p) + (if p == prio then [sub] else [])
    {
      InsertBand(s.queue, 0, prio, sub, p);
      BandMembers(s.queue, 0, p);
      var f := Band(s.queue, 0, p);
      OrderedAppend(f, s.log, p, e);
      forall x | x in f ensures LastAccept(t.log, x.id) < |s.log| { LastAcceptAppend(s.log, e, x.id); }
    }
  }

  /** Offering work to a judge: the four queues lose exactly the least (priority, arrival)
      submission it can take, unless the reservation rule stops the walk, and that submission
      is now running on the judge. */
  lemma HandleFreeFifo(s: State, j: Judge)
    requires Inv(s) && Fifo(s) && j in s.judges && s.judges[j].working == 0
    ensures var t := HandleFree(s, j);
      var pick := NextFor(s, s.judges[j]);
      && Fifo(t)
      && (s.minTier.Some? && s.judges[j].tier <= s.minTier.value ==>
            IsLeastPick(s.queue, 0, s.judges[j], ShouldReserve(s.judges, s.minTier), pick))
      && (pick.NoPick? ==> t == s)
      && (pick.Picked? ==>
            && (forall p: nat :: Band(t.queue, 0, p) == Without(Band(s.queue, 0, p), pick.sub))
            && (forall p: nat :: pick.sub in Band(s.queue, 0, p) <==> p == pick.priority)
            && t.submissionMap == s.submissionMap[pick.sub.id := j]
            && t.nodeMap == s.nodeMap - {pick.sub.id}
            && t.judges == s.judges[j := s.judges[j].(working := pick.sub.id)])
  {
    var pick := NextFor(s, s.judges[j]);
    ScanIsLeast(s.queue, 0, s.judges[j], ShouldReserve(s.judges, s.minTier));
    if pick.Picked? {
      UnlinkFifo(s, HandleFree(s, j), pick.sub, HandleFree(s, j).log[|s.log|]);
      forall p: nat ensures Band(HandleFree(s, j).queue, 0, p) == Without(Band(s.queue, 0, p), pick.sub) {
        UnlinkBand(s.queue, 0, pick.sub, p);
      }
      assert pick.sub in Band(s.queue, 0, pick.priority);
      assert Ordered(Band(s.queue, 0, pick.priority), s.log, pick.priority);
      forall p: nat | pick.sub in Band(s.queue, 0, p) ensures p == pick.priority {
        assert Ordered(Band(s.queue, 0, p), s.log, p);
      }
    }
  }

  lemma {:induction false} FreeAllFifo(s: State, order: seq<Judge>)
    requires Inv(s) && Fifo(s)
    ensures Fifo(FreeAll(s, order))
    decreases |order|
  {
    if order != [] {
      var j := order[0];
      if j in s.judges && s.judges[j].working == 0 {
        HandleFreeFifo(s, j);
        HandleFreeKeeps(s, j);
        FreeAllFifo(HandleFree(s, j), order[1..]);
      } else {
        FreeAllFifo(s, order[1..]);
      }
    }
  }

  lemma UpdateMinTierFifo(s: State, order: seq<Judge>)
    requires Core(s) && SafeLog(s.log) && Quiet(s.judges) && Fifo(s)
    ensures Fifo(UpdateMinTier(s, order))
  {
    FreeAllFifo(s.(minTier := MinTier(s.judges)), order);
  }

  // ---------- every step, every run ----------

  lemma SubmitFifo(s: State, sub: Submission, prio: nat, choice: Judge)
    requires Inv(s) && Fifo(s) && prio < PRIORITIES
    ensures Fifo(Submit(s, sub, prio, choice))
  {
    if sub.id in Known(s) {
    } else if choice in Usable(s, sub, prio) {
      var t := Submit(s, sub, prio, choice);
      var u := s.(log := s.log + [Accepted(sub.id, prio)]);
      SameQueueFifo(s, u, Accepted(sub.id, prio));
      SameQueueFifo(u, t, t.log[|u.log|]);
    } else {
      EnqueueFifo(s, sub, prio);
    }
  }

  lemma FreeFifo(s: State, j: Judge, id: int)
    requires Inv(s) && Fifo(s) && Legal(s, AFree(j, id))
    ensures Fifo(OnJudgeFree(s, j, id))
  {
    var t := Freed(s, j, id);
    FreedKeeps(s, j, id);
    SameTiersSameMin(s.judges, t.judges);
    SameQueueFifo(s, t, Finished(id));
    HandleFreeFifo(t, j);
  }

  lemma RegisterFifo(s: State, j: Judge, info: JudgeInfo, order: seq<Judge>)
    requires Inv(s) && Fifo(s) && Legal(s, ARegister(j, info, order))
    ensures Fifo(Register(s, j, info, order))
  {
    var r := s.(judges := s.judges[j := info]);
    UpdateMinTierKeeps(r, order);
    UpdateMinTierFifo(r, order);
    if s.minTier.Some? { EnabledTiersAdd(s.judges, j, info); }
    HandleFreeFifo(UpdateMinTier(r, order), j);
  }

  lemma RemoveFifo(s: State, j: Judge, current: int, order: seq<Judge>)
    requires Inv(s) && Fifo(s) && Legal(s, ARemove(j, current, order))
    ensures Fifo(Remove(s, j, current, order))
  {
    var r := Drop(s, j, current);
    DropKeeps(s, j, current);
    if r.log != s.log { SameQueueFifo(s, r, Dropped(current)); }
    UpdateMinTierKeeps(r, order);
    UpdateMinTierFifo(r, order);
    var t := UpdateMinTier(r, order);
    var tier := CurrentTier(t.judges, t.minTier);
    if |tier| == 1 && t.judges[TheOnly(tier)].working == 0 { HandleFreeFifo(t, TheOnly(tier)); }
  }

  lemma ProblemsFifo(s: State, j: Judge, problems: set<string>)
    requires Inv(s) && Fifo(s) && j in s.judges
    ensures Fifo(SupportedProblems(s, j, problems))
  {
    var t := WithProblems(s, j, problems);
    WithProblemsKeeps(s, j, problems);
    SameTiersSameMin(s.judges, t.judges);
    if s.judges[j].working == 0 { HandleFreeFifo(t, j); }
  }

  lemma DisableFifo(s: State, name: string, disabled: bool, order: seq<Judge>)
    requires Inv(s) && Fifo(s)
    ensures Fifo(UpdateDisable(s, name, disabled, order))
  {
    UpdateMinTierFifo(s.(judges := SetDisabled(s.judges, name, disabled)), order);
  }

  lemma AbortFifo(s: State, id: int)
    requires Inv(s) && Fifo(s)
    ensures Fifo(Abort(s, id))
  {
    if Abort(s, id) != s { UnlinkFifo(s, Abort(s, id), s.nodeMap[id].sub, Aborted(id)); }
  }

  lemma StepFifo(s: State, a: Action)
    requires Inv(s) && Fifo(s) && Legal(s, a)
    ensures Fifo(Apply(s, a))
  {
    match a
    case ASubmit(sub, prio, choice) => SubmitFifo(s, sub, prio, choice);
    case AFree(j, id) => FreeFifo(s, j, id);
    case ARegister(j, info, order) => RegisterFifo(s, j, info, order);
    case ARemove(j, current, order) => RemoveFifo(s, j, current, order);
    case ADisable(name, disabled, order) => DisableFifo(s, name, disabled, order);
    case AProblems(j, problems) => ProblemsFifo(s, j, problems);
    case AAbort(id) => AbortFifo(s, id);
    case ALoad(_, _) =>
  }

  /** In every run each band is a queue in arrival order of the submissions of its priority. */
  lemma {:induction false} RunFifo(s: State, acts: seq<Action>)
    requires Inv(s) && Fifo(s) && LegalRun(s, acts)
    ensures Fifo(Run(s, acts))
    decreases |acts|
  {
    if acts != [] {
      StepKeeps(s, acts[0]);
      StepFifo(s, acts[0]);
      RunFifo(Apply(s, acts[0]), acts[1..]);
    }
  }

  lemma NoJobsNoBand(q: seq<Entry>, cur: nat, p: nat)
    requires forall e :: e in q ==> e.Marker?
    ensures Band(q, cur, p) == []
  {
  }

  /** From the empty list on: arrival order in every band. */
  lemma WholeRunFifo(acts: seq<Action>)
    requires LegalRun(Initial(), acts)
    ensures Fifo(Run(Initial(), acts))
  {
    InitialInv();
    forall p: nat ensures Band(EMPTY_QUEUE, 0, p) == [] { NoJobsNoBand(EMPTY_QUEUE, 0, p); }
    RunFifo(Initial(), acts);
  }
}
