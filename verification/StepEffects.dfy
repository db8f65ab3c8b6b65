/** What each step of the judge list does, in terms a caller can observe: the invariants alone
    would also hold of steps that do nothing. */
module StepEffects {
  import opened Options
  import opened MarkerQueue
  import opened Scheduler
  import opened SchedulerSafety
  import opened ReservedJudge

  /** Where an id is. */
  ghost predicate Queued(s: State, id: int) {
    exists x :: Job(x) in s.queue && x.id == id
  }

  lemma QueuedIsMapped(s: State, id: int)
    requires NodesMatch(s.queue, s.nodeMap)
    ensures Queued(s, id) <==> id in s.nodeMap
  {
    if id in s.nodeMap { assert Job(s.nodeMap[id].sub) in s.queue; }
  }

  // ---------- abort ----------

  /** Aborting a queued submission takes it, and nothing else, out of the list and ends it as
      aborted; the judges and what they are grading stay as they are. */
  lemma AbortQueuedEffect(s: State, id: int, other: int)
    requires Inv(s) && id in s.nodeMap && id !in s.submissionMap
    ensures var t, x := Abort(s, id), s.nodeMap[id].sub;
      && id !in t.nodeMap && id !in t.submissionMap && !Queued(t, id)
      && (other != id ==> (other in t.nodeMap <==> other in s.nodeMap) && (Queued(t, other) <==> Queued(s, other)))
      && (other != id && other in s.nodeMap ==> t.nodeMap[other] == s.nodeMap[other])
      && t.submissionMap == s.submissionMap && t.judges == s.judges && t.minTier == s.minTier
      && (forall p: nat :: Band(t.queue, 0, p) == Without(Band(s.queue, 0, p), x))
      && t.log == s.log + [Aborted(id)] && Ends(t.log, id) == Ends(s.log, id) + 1
  {
    var x := s.nodeMap[id].sub;
    AbortKeeps(s, id);
    QueuedIsMapped(Abort(s, id), id);
    QueuedIsMapped(Abort(s, id), other);
    QueuedIsMapped(s, other);
    AppendAll(s.log, Aborted(id));
    forall p: nat ensures Band(Abort(s, id).queue, 0, p) == Without(Band(s.queue, 0, p), x) {
      UnlinkBand(s.queue, 0, x, p);
    }
  }

  /** Aborting anything else changes nothing. */
  lemma AbortOtherEffect(s: State, id: int)
    requires Inv(s)
    ensures Abort(s, id) == s <==> !(id in s.nodeMap && id !in s.submissionMap)
  {
    if id in s.nodeMap && id !in s.submissionMap { AbortQueuedEffect(s, id, id); }
  }

  // ---------- submit ----------

  /** An enabled judge of the tier that offers the problem and the language and is not passed over
      by name. */
  ghost predicate Suits(s: State, sub: Submission, j: Judge) {
    && j in s.judges && s.minTier == Some(s.judges[j].tier) && !s.judges[j].disabled
    && sub.problem in s.judges[j].problems && sub.language in s.judges[j].executors
    && (sub.target == "" || sub.target == s.judges[j].name)
  }

  ghost predicate CanTake(s: State, sub: Submission, j: Judge) {
    Suits(s, sub, j) && s.judges[j].working == 0
  }

  /** Nobody can take the submission, or it is a rejudge that would take the last free one of
      several judges it suits. */
  ghost predicate MustWait(s: State, sub: Submission, prio: nat) {
    forall j :: j in s.judges && CanTake(s, sub, j) ==>
      && prio >= REJUDGE_PRIORITY
      && (forall k :: k in s.judges && CanTake(s, sub, k) ==> k == j)
      && (exists k :: k in s.judges && k != j && Suits(s, sub, k))
  }

  /** The judge, one of least load, is grading the submission; the others and the list are as before. */
  ghost predicate StartedOn(s: State, t: State, sub: Submission, j: Judge) {
    && CanTake(s, sub, j) && (forall k :: k in s.judges && CanTake(s, sub, k) ==> s.judges[j].load <= s.judges[k].load)
    && t.submissionMap == s.submissionMap[sub.id := j]
    && t.judges == s.judges[j := s.judges[j].(working := sub.id)]
    && t.queue == s.queue && t.nodeMap == s.nodeMap && t.minTier == s.minTier
  }

  /** The submission waits, last in the band of its priority. */
  ghost predicate WaitsLast(s: State, t: State, sub: Submission, prio: nat) {
    && t.nodeMap == s.nodeMap[sub.id := Job(sub)]
    && t.submissionMap == s.submissionMap && t.judges == s.judges && t.minTier == s.minTier
    && (forall p: nat :: Band(t.queue, 0, p) == Band(s.queue, 0, p) + (if p == prio then [sub] else []))
  }

  /** A known id is ignored; a new one is accepted once, and waits exactly when it must, or else
      runs on the chosen judge. */
  lemma SubmitEffect(s: State, sub: Submission, prio: nat, choice: Judge)
    requires Inv(s) && Legal(s, ASubmit(sub, prio, choice))
    ensures var t := Submit(s, sub, prio, choice);
      if sub.id in Known(s) then t == s
      else
        && Accepts(t.log, sub.id) == Accepts(s.log, sub.id) + 1
        && (if MustWait(s, sub, prio) then WaitsLast(s, t, sub, prio) else StartedOn(s, t, sub, choice))
  {
    if sub.id !in Known(s) {
      UsableOrWait(s, sub, prio);
      if choice in Usable(s, sub, prio) {
        DirectEffect(s, sub, prio, choice);
      } else {
        assert Usable(s, sub, prio) == {};
        QueueEffect(s, sub, prio);
      }
    }
  }

  lemma TwoMembers(js: set<Judge>)
    ensures |js| > 1 <==> exists j, k :: j in js && k in js && j != k
  {
    if |js| > 1 {
      var j :| j in js;
      assert |js - {j}| > 0;
      var k :| k in js - {j};
    } else if j, k :| j in js && k in js && j != k {
      Subset({j, k}, js);
    }
  }

  lemma UsableOrWait(s: State, sub: Submission, prio: nat)
    ensures Usable(s, sub, prio) == {} <==> MustWait(s, sub, prio)
    ensures forall j :: CanTake(s, sub, j) <==> j in Available(s, sub)
  {
    var candidates, available := Candidates(s, sub), Available(s, sub);
    assert forall j :: Suits(s, sub, j) <==> j in candidates;
    assert forall j :: CanTake(s, sub, j) <==> j in available;
    TwoMembers(candidates);
    TwoMembers(available);
    if j :| j in available { LastOne(available, candidates, j); }
  }

  /** j is the only available one of several candidates. */
  lemma LastOne(available: set<Judge>, candidates: set<Judge>, j: Judge)
    requires j in available && available <= candidates
    ensures |available| == 1 && |candidates| > 1 <==>
              (forall k :: k in available ==> k == j) && (exists k :: k != j && k in candidates)
  {
    TwoMembers(candidates);
    if forall k :: k in available ==> k == j { assert available == {j}; } else { TwoMembers(available); }
  }

  lemma DirectEffect(s: State, sub: Submission, prio: nat, j: Judge)
    requires Inv(s) && sub.id !in Known(s) && LeastLoaded(s.judges, Usable(s, sub, prio), j)
    ensures var t := DispatchDirect(s, sub, prio, j);
      StartedOn(s, t, sub, j) && Accepts(t.log, sub.id) == Accepts(s.log, sub.id) + 1
  {
    UsableOrWait(s, sub, prio);
    var accepted := s.log + [Accepted(sub.id, prio)];
    AppendAll(s.log, Accepted(sub.id, prio));
    AppendAll(accepted, DispatchDirect(s, sub, prio, j).log[|accepted|]);
  }

  lemma QueueEffect(s: State, sub: Submission, prio: nat)
    requires Inv(s) && prio < PRIORITIES && sub.id !in Known(s)
    ensures var t := Enqueue(s, sub, prio);
      WaitsLast(s, t, sub, prio) && Accepts(t.log, sub.id) == Accepts(s.log, sub.id) + 1
  {
    AppendAll(s.log, Accepted(sub.id, prio));
    forall p: nat
      ensures Band(Enqueue(s, sub, prio).queue, 0, p) == Band(s.queue, 0, p) + (if p == prio then [sub] else [])
    {
      InsertBand(s.queue, 0, prio, sub, p);
    }
  }

  // ---------- offering work ----------

  /** Nothing was accepted and nothing ended. */
  ghost predicate SameIds(s: State, t: State) {
    && Known(t) == Known(s)
    && (forall id :: Accepts(t.log, id) == Accepts(s.log, id) && Ends(t.log, id) == Ends(s.log, id))
  }

  /** Idle judges may have started something; nothing else differs. */
  ghost predicate Advanced(a: Judges, b: Judges) {
    && b.Keys == a.Keys
    && (forall k :: k in a ==> b[k].(working := 0) == a[k].(working := 0))
    && (forall k :: k in a && a[k].working != 0 ==> b[k] == a[k])
  }

  /** What a judge may be given, written out. */
  ghost predicate Fits(info: JudgeInfo, x: Submission) {
    && x.problem in info.problems && x.language in info.executors
    && ((x.target == "" && !info.disabled) || x.target == info.name)
  }

  lemma GivenEffect(s: State, sub: Submission, prio: nat, j: Judge)
    requires Core(s) && j in s.judges && s.judges[j].working == 0 && Job(sub) in s.queue
    ensures var t := DispatchQueued(s, sub, prio, j);
      && SameIds(s, t) && t.judges == s.judges[j := s.judges[j].(working := sub.id)]
      && s.nodeMap[sub.id] == Job(sub)
  {
    var t := DispatchQueued(s, sub, prio, j);
    AppendAll(s.log, t.log[|s.log|]);
    assert Known(t) == Known(s) by { assert s.nodeMap[sub.id] == Job(sub); }
  }

  /** The idle judge is given a queued submission that fits it, or nothing happens. */
  lemma OfferEffect(s: State, j: Judge)
    requires Inv(s) && j in s.judges && s.judges[j].working == 0
    ensures var t, id := HandleFree(s, j), HandleFree(s, j).judges[j].working;
      && SameIds(s, t) && t.judges == s.judges[j := s.judges[j].(working := id)]
      && (id == 0 ==> t == s)
      && (id != 0 ==> id in s.nodeMap && Fits(s.judges[j], s.nodeMap[id].sub)
                      && t.nodeMap == s.nodeMap - {id} && t.submissionMap == s.submissionMap[id := j])
  {
    var pick := NextFor(s, s.judges[j]);
    if pick.NoPick? {
      assert HandleFree(s, j) == s;
    } else {
      ScanIsLeast(s.queue, 0, s.judges[j], ShouldReserve(s.judges, s.minTier));
      GivenEffect(s, pick.sub, pick.priority, j);
      assert HandleFree(s, j) == DispatchQueued(s, pick.sub, pick.priority, j);
    }
  }

  lemma AdvancedOn(a: Judges, b: Judges, c: Judges)
    requires Advanced(a, b) && Advanced(b, c)
    ensures Advanced(a, c)
  {
    forall k | k in a && a[k].working != 0 ensures c[k] == a[k] { assert b[k] == a[k]; }
  }

  lemma OfferAdvances(s: State, j: Judge)
    requires Inv(s) && j in s.judges && s.judges[j].working == 0
    ensures var t := HandleFree(s, j); Inv(t) && Advanced(s.judges, t.judges) && SameIds(s, t)
  {
    HandleFreeKeeps(s, j);
    OfferEffect(s, j);
    OneAdvances(s.judges, j, HandleFree(s, j).judges[j].working);
  }

  lemma OneAdvances(judges: Judges, j: Judge, id: int)
    requires j in judges && judges[j].working == 0
    ensures Advanced(judges, judges[j := judges[j].(working := id)])
  {
  }

  lemma {:induction false} FreeAllEffect(s: State, order: seq<Judge>)
    requires Inv(s)
    ensures Advanced(s.judges, FreeAll(s, order).judges) && SameIds(s, FreeAll(s, order))
    decreases |order|
  {
    if order != [] {
      var j := order[0];
      var t := if j in s.judges && s.judges[j].working == 0 then HandleFree(s, j) else s;
      if j in s.judges && s.judges[j].working == 0 { OfferAdvances(s, j); }
      FreeAllEffect(t, order[1..]);
      AdvancedOn(s.judges, t.judges, FreeAll(t, order[1..]).judges);
    }
  }

  lemma TierEffect(s: State, order: seq<Judge>)
    requires Core(s) && SafeLog(s.log) && Quiet(s.judges)
    ensures Advanced(s.judges, UpdateMinTier(s, order).judges) && SameIds(s, UpdateMinTier(s, order))
  {
    FreeAllEffect(s.(minTier := MinTier(s.judges)), order);
  }

  // ---------- the other steps ----------

  /** A report ends the submission as finished; the judge is idle, or grading something queued that
      fits it; the others are as before. */
  lemma FreeEffect(s: State, j: Judge, id: int)
    requires Inv(s) && Legal(s, AFree(j, id))
    ensures var t := OnJudgeFree(s, j, id);
      && Known(t) == Known(s) - {id} && Ends(t.log, id) == Ends(s.log, id) + 1
      && t.judges.Keys == s.judges.Keys && t.judges[j].(working := 0) == s.judges[j].(working := 0)
      && (forall k :: k in s.judges && k != j ==> t.judges[k] == s.judges[k])
      && (t.judges[j].working == 0 || (t.judges[j].working in s.nodeMap
            && Fits(s.judges[j], s.nodeMap[t.judges[j].working].sub)))
  {
    FreedKeeps(s, j, id);
    FreedEffect(s, j, id);
    OfferEffect(Freed(s, j, id), j);
  }

  lemma FreedEffect(s: State, j: Judge, id: int)
    requires Core(s) && j in s.judges && id != 0 && s.judges[j].working == id
    ensures var t := Freed(s, j, id);
      && Known(t) == Known(s) - {id} && Ends(t.log, id) == Ends(s.log, id) + 1
      && t.judges == s.judges[j := s.judges[j].(working := 0)] && t.nodeMap == s.nodeMap
  {
    AppendAll(s.log, Finished(id));
    assert Known(Freed(s, j, id)) == Known(s) - {id};
  }

  /** A registered judge is listed as it describes itself, and the others are as before. */
  lemma RegisterEffect(s: State, j: Judge, info: JudgeInfo, order: seq<Judge>)
    requires Inv(s) && Legal(s, ARegister(j, info, order))
    ensures var t := Register(s, j, info, order);
      && t.judges.Keys == s.judges.Keys + {j} && t.judges[j].(working := 0) == info
      && (forall k :: k in s.judges ==> t.judges[k] == s.judges[k])
      && Known(t) == Known(s)
  {
    RegisterIsOffer(s, j, info, order);
    OfferAdvances(Listed(s, j, info), j);
    OfferEffect(Listed(s, j, info), j);
  }

  ghost function Listed(s: State, j: Judge, info: JudgeInfo): State {
    var judges := s.judges[j := info];
    s.(judges := judges, minTier := MinTier(judges))
  }

  lemma RegisterIsOffer(s: State, j: Judge, info: JudgeInfo, order: seq<Judge>)
    requires Inv(s) && Legal(s, ARegister(j, info, order))
    ensures Inv(Listed(s, j, info)) && Register(s, j, info, order) == HandleFree(Listed(s, j, info), j)
  {
    var r := s.(judges := s.judges[j := info]);
    UpdateMinTierKeeps(r, order);
    if s.minTier.Some? { EnabledTiersAdd(s.judges, j, info); }
    assert UpdateMinTier(r, order) == Listed(s, j, info);
  }

  /** A removed judge is no longer listed and what it was grading has ended as dropped; of the others
      only idle ones may have started something. */
  lemma RemoveEffect(s: State, j: Judge, current: int, order: seq<Judge>)
    requires Inv(s) && Legal(s, ARemove(j, current, order))
    ensures var t := Remove(s, j, current, order);
      && t.judges.Keys == s.judges.Keys - {j}
      && Known(t) == (if current == 0 then Known(s) else Known(s) - {current})
      && (current != 0 ==> current in Known(s) && Ends(t.log, current) == Ends(s.log, current) + 1)
      && (forall k :: k in t.judges ==> t.judges[k].(working := 0) == s.judges[k].(working := 0))
      && (forall k :: k in t.judges && s.judges[k].working != 0 ==> t.judges[k] == s.judges[k])
  {
    RemoveAdvances(s, j, current, order);
    DropEffect(s, j, current);
  }

  lemma RemoveAdvances(s: State, j: Judge, current: int, order: seq<Judge>)
    requires Inv(s) && Legal(s, ARemove(j, current, order))
    ensures var r, t := Drop(s, j, current), Remove(s, j, current, order);
      Advanced(r.judges, t.judges) && SameIds(r, t)
  {
    var r := Drop(s, j, current);
    DropKeeps(s, j, current);
    TierEffect(r, order);
    UpdateMinTierKeeps(r, order);
    ServeLastEffect(UpdateMinTier(r, order));
    AdvancedOn(r.judges, UpdateMinTier(r, order).judges, Remove(s, j, current, order).judges);
  }

  lemma DropEffect(s: State, j: Judge, current: int)
    requires Core(s) && current == (if j in s.judges then s.judges[j].working else 0)
    ensures var t := Drop(s, j, current);
      && t.judges == s.judges - {j}
      && Known(t) == (if current == 0 then Known(s) else Known(s) - {current})
      && (current != 0 ==> current in Known(s) && Ends(t.log, current) == Ends(s.log, current) + 1)
  {
    if current != 0 {
      AppendAll(s.log, Dropped(current));
      assert Known(Drop(s, j, current)) == Known(s) - {current};
    }
  }

  lemma ServeLastEffect(s: State)
    requires Inv(s)
    ensures Advanced(s.judges, ServeLast(s).judges) && SameIds(s, ServeLast(s))
  {
    var tier := CurrentTier(s.judges, s.minTier);
    if |tier| == 1 && s.judges[TheOnly(tier)].working == 0 { OfferAdvances(s, TheOnly(tier)); }
  }

  /** The judges of the name have the flag; otherwise only idle judges may have started something. */
  ghost predicate Flagged(a: Judges, b: Judges, name: string, disabled: bool) {
    && b.Keys == a.Keys
    && (forall k :: k in a ==> b[k].disabled == if a[k].name == name then disabled else a[k].disabled)
    && (forall k :: k in a ==> b[k].(working := 0, disabled := false) == a[k].(working := 0, disabled := false))
    && (forall k :: k in a && a[k].working != 0 ==> b[k].working == a[k].working)
  }

  /** Exactly the judges of the name get the flag, and no id ends or is accepted. */
  lemma DisableEffect(s: State, name: string, disabled: bool, order: seq<Judge>)
    requires Inv(s)
    ensures var t := UpdateDisable(s, name, disabled, order);
      Flagged(s.judges, t.judges, name, disabled) && SameIds(s, t)
  {
    DisableAdvances(s, name, disabled, order);
    FlaggedAdvances(s.judges, UpdateDisable(s, name, disabled, order).judges, name, disabled);
  }

  lemma FlaggedAdvances(a: Judges, b: Judges, name: string, disabled: bool)
    requires Advanced(SetDisabled(a, name, disabled), b)
    ensures Flagged(a, b, name, disabled)
  {
  }

  lemma DisableAdvances(s: State, name: string, disabled: bool, order: seq<Judge>)
    requires Inv(s)
    ensures var t := UpdateDisable(s, name, disabled, order);
      Advanced(SetDisabled(s.judges, name, disabled), t.judges) && SameIds(s, t)
  {
    TierEffect(s.(judges := SetDisabled(s.judges, name, disabled)), order);
  }

  /** The new problem list is stored; the judge may have started something that fits it now. */
  lemma ProblemsEffect(s: State, j: Judge, problems: set<string>)
    requires Inv(s) && j in s.judges
    ensures var t := SupportedProblems(s, j, problems);
      && t.judges.Keys == s.judges.Keys && Known(t) == Known(s)
      && t.judges[j].(working := 0) == s.judges[j].(problems := problems, working := 0)
      && (s.judges[j].working != 0 ==> t.judges[j].working == s.judges[j].working)
      && (forall k :: k in s.judges && k != j ==> t.judges[k] == s.judges[k])
  {
    WithProblemsKeeps(s, j, problems);
    if s.judges[j].working == 0 { OfferEffect(WithProblems(s, j, problems), j); }
  }
}
