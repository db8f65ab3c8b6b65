/** The judge list as the bridge runs it: one object whose methods update its fields in place,
    each proved to perform the corresponding step of the state machine. */
module JudgeBridge {
  import opened Options
  import opened MarkerQueue
  import opened Scheduler

  class JudgeList {
    var queue: seq<Entry>
    var judges: set<Judge>
    var nodeMap: map<int, Entry>
    var submissionMap: map<int, Judge>
    var minTier: Option<nat>
    ghost var log: seq<Event>

    ghost function Abs(): State
      reads this, judges
    {
      State(queue, nodeMap, submissionMap, Infos(judges), minTier, log)
    }

    static ghost function Infos(among: set<Judge>): Judges
      reads among
    {
      map j | j in among :: j.Info()
    }

    ghost predicate Valid()
      reads this
    {
      Shape(queue, nodeMap)
    }

    constructor ()
      ensures Valid() && Abs() == Initial()
    {
      queue, judges, nodeMap, submissionMap, minTier, log := EMPTY_QUEUE, {}, map[], map[], None, [];
      new;
      assert forall e :: e in EMPTY_QUEUE ==> e.Marker?;
    }

    function TierSet(): (tier: set<Judge>)
      reads this, judges
      ensures tier == CurrentTier(Abs().judges, minTier) && tier <= judges
    {
      set j | j in judges && minTier == Some(j.tier) && !j.disabled
    }

    /** The judges of a set in some order. */
    method Listed(among: set<Judge>) returns (order: seq<Judge>)
      ensures (set j | j in order) == among
      ensures forall i, k :: 0 <= i < k < |order| ==> order[i] != order[k]
    {
      var rest := among;
      order := [];
      while rest != {}
        invariant rest <= among && (set j | j in order) == among - rest
        invariant forall i, k :: 0 <= i < k < |order| ==> order[i] != order[k]
        decreases rest
      {
        var j :| j in rest;
        assert forall i :: 0 <= i < |order| ==> order[i] in (set x | x in order);
        assert (set x | x in order + [j]) == (set x | x in order) + {j};
        rest, order := rest - {j}, order + [j];
      }
    }

    function ShouldReserveJudge(): (reserve: bool)
      reads this, judges
      ensures reserve == ShouldReserve(Abs().judges, minTier)
    {
      var tier := TierSet();
      var free := set j | j in tier && j.working == 0;
      assert free == Free(Abs().judges, tier);
      |tier| > 1 && |free| <= 1
    }

    /** The judge is normally listed; one that was thrown out but still reports is served too. */
    method HandleFreeJudge(judge: Judge)
      requires Valid()
      modifies this, judge`working
      ensures Valid() && judges <= old(judges) && old(judges) <= judges + {judge}
      ensures Abs() == Offer(old(Abs()), judge, old(judge.Info()))
      ensures !old(judge.raises) ==> judge.Info() == Offered(old(Abs()), old(judge.Info()))
    {
      if minTier.None? || judge.tier > minTier.value { return; }
      var k, priority := 0, 0;
      ghost var reserve := ShouldReserve(Abs().judges, minTier);
      ghost var pick := NextFor(Abs(), judge.Info());
      while k < |queue|
        invariant 0 <= k <= |queue| && priority >= 0
        invariant unchanged(this) && unchanged(judge)
        invariant Scan(queue[k..], priority, judge.Info(), reserve) == pick
        decreases |queue| - k
      {
        match queue[k] {
          case Marker(m) =>
            priority := m + 1;
          case Job(sub) =>
            if priority >= REJUDGE_PRIORITY && ShouldReserveJudge() { return; }
            if CanJudge(judge.Info(), sub) {
              StartPicked(judge, sub, priority);
              return;
            }
        }
        k := k + 1;
      }
    }

    /** The body of the walk once a submission has been found. */
    method StartPicked(judge: Judge, sub: Submission, ghost priority: nat)
      requires Valid() && Job(sub) in queue && NextFor(Abs(), judge.Info()) == Picked(sub, priority)
      modifies this, judge`working
      ensures Valid() && judges <= old(judges) && old(judges) <= judges + {judge}
      ensures Abs() == Offer(old(Abs()), judge, old(judge.Info()))
      ensures !old(judge.raises) ==> judge.Info() == Offered(old(Abs()), old(judge.Info()))
    {
      if judge in judges { StartQueued(judge, sub, priority); } else { StartGone(judge, sub, priority); }
    }

    method StartQueued(judge: Judge, sub: Submission, ghost priority: nat)
      requires Valid() && judge in judges && Job(sub) in queue
      modifies this, judge`working
      ensures Valid() && judges <= old(judges) && old(judges) <= judges + {judge}
      ensures Abs() == if judge.raises then Failed(old(Abs()), sub.id, judge)
                       else DispatchQueued(old(Abs()), sub, priority, judge)
      ensures !judge.raises ==> judge.working == sub.id
    {
      ghost var before := Abs();
      var ok := HandOver(judge, sub.id);
      if ok {
        assert Abs() == Started(before, sub.id, judge);
        Dequeue(sub, DispatchQueued(before, sub, priority, judge).log);
      } else {
        judges := judges - {judge};
      }
    }

    /** The same when the judge is not listed. */
    method StartGone(judge: Judge, sub: Submission, ghost priority: nat)
      requires Valid() && judge !in judges && Job(sub) in queue
      modifies this, judge`working
      ensures Valid() && judges == old(judges)
      ensures Abs() == if judge.raises then Failed(old(Abs()), sub.id, judge)
                       else DispatchGone(old(Abs()), sub, priority, judge, old(judge.Info()))
      ensures !judge.raises ==> judge.working == sub.id
    {
      ghost var before, info := Abs(), judge.Info();
      var ok := HandOver(judge, sub.id);
      assert judges - {judge} == judges && before.judges - {judge} == before.judges;
      if ok { Dequeue(sub, DispatchGone(before, sub, priority, judge, info).log); }
    }

    /** Take the handed over submission out of the list. */
    method Dequeue(sub: Submission, ghost newLog: seq<Event>)
      requires Valid() && Job(sub) in queue
      modifies this`queue, this`nodeMap, this`log
      ensures Valid()
      ensures Abs() == old(Abs()).(queue := Unlink(old(queue), Job(sub)), nodeMap := old(nodeMap) - {sub.id},
                                   log := newLog)
    {
      UnlinkKeepsShape(queue, nodeMap, sub);
      queue, nodeMap, log := Unlink(queue, Job(sub)), nodeMap - {sub.id}, newLog;
    }

    function LowestTier(): (lowest: Option<nat>)
      reads this, judges
      ensures lowest == MinTier(Abs().judges)
    {
      var tiers := set j | j in judges && !j.disabled :: j.tier;
      assert tiers == EnabledTiers(Abs().judges) by {
        var known := Abs().judges;
        forall j | j in judges && !j.disabled ensures j.tier in EnabledTiers(known) { assert known[j].tier == j.tier; }
      }
      if tiers == {} then None else Some(Least(tiers))
    }

    method UpdateMinTier() returns (ghost order: seq<Judge>)
      requires Valid()
      modifies this, judges`working
      ensures Valid() && judges <= old(judges)
      ensures Enumerates(order, old(Abs()).judges)
      ensures Abs() == Scheduler.UpdateMinTier(old(Abs()), order)
    {
      ghost var before := Abs();
      var oldTier := minTier;
      minTier := LowestTier();
      ghost var start := Abs();
      assert start == before.(minTier := MinTier(before.judges));
      var tier := TierSet();
      assert tier == CurrentTier(before.judges, MinTier(before.judges));
      var current := Listed(tier);
      order := current;
      if oldTier.Some? && minTier.Some? && minTier.value > oldTier.value {
        assert forall k :: 0 <= k < |current| ==> current[k] in (set j | j in current);
        assert Abs() == start;
        OfferAll(current);
      } else {
        assert Abs() == start;
      }
    }

    method OfferAll(current: seq<Judge>)
      requires Valid() && forall k :: 0 <= k < |current| ==> current[k] in judges
      requires forall i, k :: 0 <= i < k < |current| ==> current[i] != current[k]
      modifies this, judges`working
      ensures Valid() && judges <= old(judges)
      ensures Abs() == FreeAll(old(Abs()), current)
    {
      var i := 0;
      while i < |current|
        invariant 0 <= i <= |current|
        invariant Valid() && judges <= old(judges)
        invariant forall k :: i <= k < |current| ==> current[k] in judges
        invariant FreeAll(Abs(), current[i..]) == FreeAll(old(Abs()), current)
      {
        if current[i].working == 0 { HandleFreeJudge(current[i]); }
        i := i + 1;
      }
    }

    method Register(judge: Judge) returns (ghost order: seq<Judge>)
      requires Valid()
      modifies this, judges`working, judge`working
      ensures Valid()
      ensures Enumerates(order, old(Abs()).judges[judge := old(judge.Info())])
      ensures Abs() == Scheduler.Register(old(Abs()), judge, old(judge.Info()), order)
    {
      ghost var before, info := Abs(), judge.Info();
      judges := judges + {judge};
      assert Abs().judges == before.judges[judge := judge.Info()];
      order := UpdateMinTier();
      OfferIgnoresWorking(Abs(), judge, judge.Info(), info);
      HandleFreeJudge(judge);
    }

    method UpdateDisableJudge(name: string, disabled: bool) returns (ghost order: seq<Judge>)
      requires Valid()
      modifies this, judges
      ensures Valid()
      ensures Enumerates(order, SetDisabled(old(Abs()).judges, name, disabled))
      ensures Abs() == UpdateDisable(old(Abs()), name, disabled, order)
    {
      SwitchAll(name, disabled);
      order := UpdateMinTier();
    }

    /** The loop over the judges of one name. */
    method SwitchAll(name: string, disabled: bool)
      modifies judges
      ensures Infos(judges) == SetDisabled(old(Infos(judges)), name, disabled)
    {
      ghost var before := Infos(judges);
      var rest := judges;
      while rest != {}
        invariant rest <= judges
        invariant forall j :: j in judges ==>
          j.Info() == if j in rest then before[j] else SetDisabled(before, name, disabled)[j]
        decreases rest
      {
        var j :| j in rest;
        if j.name == name { j.disabled := disabled; }
        rest := rest - {j};
      }
    }

    method Remove(judge: Judge) returns (ghost order: seq<Judge>)
      requires Valid()
      modifies this, judges`working
      ensures Valid()
      ensures Enumerates(order, old(Abs()).judges - {judge})
      ensures Abs() == Scheduler.Remove(old(Abs()), judge, old(judge.working), order)
    {
      Discard(judge);
      order := UpdateMinTier();
      OfferLast();
    }

    method Discard(judge: Judge)
      requires Valid()
      modifies this`submissionMap, this`judges, this`log
      ensures Valid() && judges == old(judges) - {judge} && Abs() == Drop(old(Abs()), judge, judge.working)
    {
      ghost var before := Abs();
      var sub := judge.working;
      if sub != 0 && sub in submissionMap {
        submissionMap := submissionMap - {sub};
        log := log + [Dropped(sub)];
      }
      judges := judges - {judge};
      assert Infos(judges) == before.judges - {judge};
    }

    /** A judge left alone in its tier need not be reserved any more. */
    method OfferLast()
      requires Valid()
      modifies this, judges`working
      ensures Valid() && Abs() == ServeLast(old(Abs()))
    {
      var tier := TierSet();
      if |tier| == 1 {
        var last := TheOnly(tier);
        if last.working == 0 { HandleFreeJudge(last); }
      }
    }

    /** `known` is false when the id is not running, which raises before anything changes. */
    method OnJudgeFree(judge: Judge, submission: int) returns (known: bool)
      requires Valid()
      modifies this, judge`working
      ensures Valid() && known == (submission in old(submissionMap))
      ensures Abs() == Report(old(Abs()), judge, old(judge.Info()), submission)
    {
      if submission !in submissionMap { return false; }
      MarkFree(judge, submission);
      HandleFreeJudge(judge);
      return true;
    }

    method MarkFree(judge: Judge, submission: int)
      requires Valid()
      modifies this`submissionMap, this`log, judge`working
      ensures Valid() && Abs() == Freed(old(Abs()), judge, submission)
      ensures judge.Info() == old(judge.Info()).(working := 0)
    {
      ghost var before := Abs();
      submissionMap := submissionMap - {submission};
      judge.working := 0;
      log := log + [Finished(submission)];
      assert Infos(judges) == Freed(before, judge, submission).judges;
    }

    /** The packet handler stores the new problem list and offers work when the judge is idle. */
    method OnSupportedProblems(judge: Judge, problems: set<string>)
      requires Valid()
      modifies this, judge
      ensures Valid()
      ensures Abs() == NewProblems(old(Abs()), judge, old(judge.Info()), problems)
    {
      ghost var before := Abs();
      judge.problems := problems;
      assert Abs() == WithProblems(before, judge, problems);
      if judge.working == 0 { HandleFreeJudge(judge); }
    }

    method Abort(submission: int) returns (running: bool)
      requires Valid()
      modifies this
      ensures Valid() && running == (submission in old(submissionMap))
      ensures !running ==> submission !in nodeMap && forall x :: Job(x) in queue ==> x.id != submission
      ensures Abs() == Scheduler.Abort(old(Abs()), submission)
    {
      if submission in submissionMap { return true; }
      if submission in nodeMap {
        UnlinkKeepsShape(queue, nodeMap, nodeMap[submission].sub);
        queue := Unlink(queue, nodeMap[submission]);
        nodeMap := nodeMap - {submission};
        log := log + [Aborted(submission)];
      }
      return false;
    }

    /** A judge of the set with the least load; which one of several is left open. */
    method LeastLoad(among: set<Judge>) returns (best: Judge)
      requires among != {} && among <= judges
      ensures LeastLoaded(Abs().judges, among, best)
    {
      best :| best in among;
      var rest := among - {best};
      while rest != {}
        invariant rest <= among && best in among
        invariant forall j :: j in among - rest ==> best.load <= j.load
        decreases rest
      {
        var j :| j in rest;
        if j.load < best.load { best := j; }
        rest := rest - {j};
      }
    }

    /** The judges a new submission may go to at once; see the reservation of the last one. */
    function UsableJudges(sub: Submission, priority: nat): (usable: set<Judge>)
      reads this, judges
      ensures usable == Usable(Abs(), sub, priority)
    {
      var candidates := set j | j in TierSet() && CanJudge(j.Info(), sub);
      var available := set j | j in candidates && j.working == 0 && !j.disabled;
      assert candidates == Candidates(Abs(), sub);
      assert available == Available(Abs(), sub);
      if |candidates| > 1 && |available| == 1 && priority >= REJUDGE_PRIORITY then {} else available
    }

    method Judge(sub: Submission, priority: nat) returns (ghost choice: Judge?)
      requires Valid() && priority < PRIORITIES
      modifies this, judges`working
      ensures Valid() && judges <= old(judges)
      ensures sub.id in Known(old(Abs())) ==> choice == null
      ensures choice == null ==>
        && (sub.id in Known(old(Abs())) || Usable(old(Abs()), sub, priority) == {})
        && Abs() == if sub.id in Known(old(Abs())) then old(Abs()) else Enqueue(old(Abs()), sub, priority)
      ensures choice != null ==>
        && LeastLoaded(old(Abs()).judges, Usable(old(Abs()), sub, priority), choice)
        && Abs() == Submit(old(Abs()), sub, priority, choice)
      decreases |judges|, 3
    {
      if sub.id in submissionMap || sub.id in nodeMap { return null; }
      var available := UsableJudges(sub, priority);
      if available != {} {
        var judge := LeastLoad(available);
        choice := judge;
        StartDirect(judge, sub, priority);
      } else {
        Append(sub, priority);
        choice := null;
      }
    }

    /** Queue a new submission. */
    method Append(sub: Submission, priority: nat)
      requires Valid() && priority < PRIORITIES && sub.id !in nodeMap
      modifies this`queue, this`nodeMap, this`log
      ensures Valid() && Abs() == Enqueue(old(Abs()), sub, priority)
    {
      InsertKeepsShape(queue, nodeMap, priority, sub);
      queue := InsertBefore(queue, priority, sub);
      nodeMap := nodeMap[sub.id := Job(sub)];
      log := log + [Accepted(sub.id, priority)];
    }

    /** Hand over at once. */
    method StartDirect(judge: Judge, sub: Submission, priority: nat)
      requires Valid() && priority < PRIORITIES && judge in judges
      modifies this, judges`working
      ensures Valid() && judges <= old(judges)
      ensures Abs() == DispatchDirect(old(Abs()), sub, priority, judge)
      decreases |judges|, 2
    {
      ghost var before := Abs();
      DirectIsHandover(before, sub, priority, judge);
      HandOverOrGiveUp(judge, sub, priority);
      log := DispatchDirect(before, sub, priority, judge).log;
    }

    method HandOverOrGiveUp(judge: Judge, sub: Submission, priority: nat)
      requires Valid() && priority < PRIORITIES && judge in judges
      modifies this, judges`working
      ensures Valid() && judges <= old(judges)
      ensures Abs() == Handover(old(Abs()), sub.id, judge)
      decreases |judges|, 1
    {
      ghost var before := Abs();
      var ok := HandOver(judge, sub.id);
      if ok {
        assert Abs() == Started(before, sub.id, judge);
      } else {
        GiveUp(judge, sub, priority);
        assert Abs() == Failed(before, sub.id, judge);
      }
    }

    /** Record the judge, then call it. */
    method HandOver(judge: Judge, id: int) returns (ok: bool)
      modifies this`submissionMap, judge`working
      ensures ok == !judge.raises && submissionMap == old(submissionMap)[id := judge]
      ensures Infos(judges - {judge}) == old(Infos(judges)) - {judge}
      ensures ok ==> judge.working == id
      ensures ok && judge in judges ==> Infos(judges) == Started(old(Abs()), id, judge).judges
    {
      ghost var before := Abs();
      submissionMap := submissionMap[id := judge];
      ok := judge.Submit(id);
      assert Infos(judges - {judge}) == before.judges - {judge};
      if ok && judge in judges { assert Infos(judges) == before.judges[judge := before.judges[judge].(working := id)]; }
    }

    /** After a handover that raised, the judge is thrown out and the submission is judged anew,
        which does nothing because its id has already been recorded. */
    method GiveUp(judge: Judge, sub: Submission, priority: nat)
      requires Valid() && priority < PRIORITIES && judge in judges && sub.id in submissionMap
      modifies this, judges`working
      ensures Valid() && judges <= old(judges)
      ensures Abs() == old(Abs()).(judges := old(Infos(judges - {judge})))
      decreases |judges|, 0
    {
      judges := judges - {judge};
      ghost var again := Judge(sub, priority);
    }
  }
}
