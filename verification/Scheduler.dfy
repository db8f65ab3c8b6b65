/** The judge list of the bridge as a state machine.  Every public method runs under one lock,
    so each is one atomic step; the choices Python leaves open (the order of a set, the random
    tie break on load) are recorded in the step. */
module Scheduler {
  import opened Options
  import opened MarkerQueue

  /** One connected judge; its identity is the identity of the object. */
  class Judge {
    const name: string
    const tier: nat
    var problems: set<string>
    var executors: set<string>
    var disabled: bool
    var working: int
    var load: real
    var raises: bool

    constructor (name: string, tier: nat, problems: set<string>, executors: set<string>)
      ensures Info() == JudgeInfo(name, tier, problems, executors, false, 0, 1000000.0, false)
    {
      this.name, this.tier, this.problems, this.executors := name, tier, problems, executors;
      disabled, working, load, raises := false, 0, 1000000.0, false;
    }

    function Info(): JudgeInfo
      reads this
    {
      JudgeInfo(name, tier, problems, executors, disabled, working, load, raises)
    }

    /** Send the submission to the judge; `ok` is false when this raises, in which case the id
        may or may not have been noted already. */
    method Submit(id: int) returns (ok: bool)
      modifies this`working
      ensures ok == !raises
      ensures ok ==> working == id
    {
      if !raises { working := id; }
      return !raises;
    }
  }

  type Judges = map<Judge, JudgeInfo>

  /** The history of a run.  A dispatch records whether the judge can judge the submission and
      is an enabled judge of the minimum tier, and what the reservation rules are about: `rivals`
      counts the judges competing for the submission (the enabled judges of the minimum tier for
      a queued one, the candidates for a direct one), `spare` those of them that are still free
      afterwards. */
  datatype Event =
    | Accepted(id: int, priority: nat)
    | Dispatched(sub: Submission, prio: nat, to: Judge, able: bool, inTier: bool, rivals: nat, spare: nat)
    | Finished(id: int)
    | Aborted(id: int)
    | Dropped(id: int)

  datatype State = State(
    queue: seq<Entry>,
    nodeMap: map<int, Entry>,
    submissionMap: map<int, Judge>,
    judges: Judges,
    minTier: Option<nat>,
    log: seq<Event>)

  function Initial(): State {
    State(EMPTY_QUEUE, map[], map[], map[], None, [])
  }

  // ---------- tiers ----------

  function EnabledTiers(judges: Judges): set<nat> {
    set j | j in judges && !judges[j].disabled :: judges[j].tier
  }

  function MinTier(judges: Judges): Option<nat> {
    var tiers := EnabledTiers(judges);
    if tiers == {} then None else Some(Least(tiers))
  }

  function Least(tiers: set<nat>): (least: nat)
    requires tiers != {}
    ensures least in tiers && forall t :: t in tiers ==> least <= t
  {
    LeastExists(tiers);
    var t :| t in tiers && forall u :: u in tiers ==> t <= u;
    t
  }

  lemma LeastExists(tiers: set<nat>)
    requires tiers != {}
    ensures exists t :: t in tiers && forall u :: u in tiers ==> t <= u
  {
    var t := LeastOf(tiers);
  }

  lemma {:induction false} LeastOf(tiers: set<nat>) returns (t: nat)
    requires tiers != {}
    ensures t in tiers && forall u :: u in tiers ==> t <= u
  {
    var x :| x in tiers;
    var rest := tiers - {x};
    if rest == {} {
      t := x;
    } else {
      var r := LeastOf(rest);
      t := if r < x then r else x;
    }
    forall u | u in tiers ensures t <= u { if u != x { assert u in rest; } }
  }

  predicate InTier(judges: Judges, minTier: Option<nat>, j: Judge) {
    j in judges && minTier == Some(judges[j].tier) && !judges[j].disabled
  }

  function CurrentTier(judges: Judges, minTier: Option<nat>): set<Judge> {
    set j | j in judges && InTier(judges, minTier, j)
  }

  function Free(judges: Judges, among: set<Judge>): set<Judge> {
    set j | j in among && j in judges && judges[j].working == 0
  }

  predicate ShouldReserve(judges: Judges, minTier: Option<nat>) {
    var tier := CurrentTier(judges, minTier);
    |tier| > 1 && |Free(judges, tier)| <= 1
  }

  // ---------- handing out work ----------

  /** The judge is recorded before it is called; when the call raises it is thrown out of the
      list and nothing else is undone. */
  function Failed(s: State, id: int, j: Judge): State {
    s.(submissionMap := s.submissionMap[id := j], judges := s.judges - {j})
  }

  function Started(s: State, id: int, j: Judge): State
    requires j in s.judges
  {
    s.(submissionMap := s.submissionMap[id := j],
       judges := s.judges[j := s.judges[j].(working := id)])
  }

  /** The submission that offering work to a judge would hand over. */
  function NextFor(s: State, info: JudgeInfo): Pick {
    if s.minTier.None? || info.tier > s.minTier.value then NoPick
    else Scan(s.queue, 0, info, ShouldReserve(s.judges, s.minTier))
  }

  /** Scan the queue on behalf of a judge that may take more work. */
  function HandleFree(s: State, j: Judge): State
    requires j in s.judges
  {
    match NextFor(s, s.judges[j])
    case NoPick => s
    case Picked(sub, prio) =>
      if s.judges[j].raises then Failed(s, sub.id, j) else DispatchQueued(s, sub, prio, j)
  }

  function DispatchQueued(s: State, sub: Submission, prio: nat, j: Judge): State
    requires j in s.judges
  {
    var tier := CurrentTier(s.judges, s.minTier);
    var t := Started(s, sub.id, j);
    t.(queue := Unlink(s.queue, Job(sub)),
       nodeMap := s.nodeMap - {sub.id},
       log := s.log + [Dispatched(sub, prio, j, CanJudge(s.judges[j], sub), j in tier, |tier|, |Free(t.judges, tier)|)])
  }

  /** A judge that was thrown out of the list but still reports is served all the same. */
  function HandleGone(s: State, j: Judge, info: JudgeInfo): State
    requires j !in s.judges
  {
    match NextFor(s, info)
    case NoPick => s
    case Picked(sub, prio) =>
      if info.raises then Failed(s, sub.id, j) else DispatchGone(s, sub, prio, j, info)
  }

  function DispatchGone(s: State, sub: Submission, prio: nat, j: Judge, info: JudgeInfo): State {
    var tier := CurrentTier(s.judges, s.minTier);
    s.(submissionMap := s.submissionMap[sub.id := j],
       queue := Unlink(s.queue, Job(sub)),
       nodeMap := s.nodeMap - {sub.id},
       log := s.log + [Dispatched(sub, prio, j, CanJudge(info, sub), false, |tier|, |Free(s.judges, tier)|)])
  }

  /** Offering work to any judge object; `info` is what it knows of itself. */
  function Offer(s: State, j: Judge, info: JudgeInfo): State {
    if j in s.judges then HandleFree(s, j) else HandleGone(s, j, info)
  }

  lemma {:induction false} ScanIgnoresWorking(q: seq<Entry>, cur: nat, a: JudgeInfo, b: JudgeInfo, reserve: bool)
    requires a.(working := 0) == b.(working := 0)
    ensures Scan(q, cur, a, reserve) == Scan(q, cur, b, reserve)
  {
    if q != [] {
      match q[0]
      case Marker(m) => ScanIgnoresWorking(q[1..], m + 1, a, b, reserve);
      case Job(_) => ScanIgnoresWorking(q[1..], cur, a, b, reserve);
    }
  }

  /** What an unlisted judge is working on makes no difference to the offer. */
  lemma OfferIgnoresWorking(s: State, j: Judge, a: JudgeInfo, b: JudgeInfo)
    requires a.(working := 0) == b.(working := 0)
    ensures Offer(s, j, a) == Offer(s, j, b)
  {
    ScanIgnoresWorking(s.queue, 0, a, b, ShouldReserve(s.judges, s.minTier));
  }

  /** The judge object after the offer, when the handover does not raise. */
  function Offered(s: State, info: JudgeInfo): JudgeInfo {
    match NextFor(s, info)
    case NoPick => info
    case Picked(sub, _) => info.(working := sub.id)
  }

  /** Offer work to each idle judge of the list, in this order. */
  function FreeAll(s: State, order: seq<Judge>): State
    decreases |order|
  {
    if order == [] then s
    else
      var j := order[0];
      var t := if j in s.judges && s.judges[j].working == 0 then HandleFree(s, j) else s;
      FreeAll(t, order[1..])
  }

  function UpdateMinTier(s: State, order: seq<Judge>): State {
    var t := s.(minTier := MinTier(s.judges));
    if s.minTier.Some? && t.minTier.Some? && t.minTier.value > s.minTier.value then FreeAll(t, order) else t
  }

  // ---------- the public methods ----------

  /** The offer is made whether or not the judge is still listed after the tier change. */
  function Register(s: State, j: Judge, info: JudgeInfo, order: seq<Judge>): State {
    Offer(UpdateMinTier(s.(judges := s.judges[j := info]), order), j, info)
  }

  /** `current` is the submission the leaving judge says it is grading, 0 for none. */
  function Drop(s: State, j: Judge, current: int): State {
    var t := s.(judges := s.judges - {j});
    if current != 0 && current in s.submissionMap then
      t.(submissionMap := s.submissionMap - {current}, log := s.log + [Dropped(current)])
    else t
  }

  /** A judge left alone in the tier is no longer reserved. */
  function ServeLast(s: State): State {
    var tier := CurrentTier(s.judges, s.minTier);
    if |tier| == 1 then
      var j := TheOnly(tier);
      if s.judges[j].working == 0 then HandleFree(s, j) else s
    else s
  }

  function TheOnly(js: set<Judge>): (j: Judge)
    requires |js| == 1
    ensures js == {j}
  {
    Singleton(js);
    var j :| js == {j};
    j
  }

  lemma Singleton(js: set<Judge>)
    requires |js| == 1
    ensures exists j :: j in js && js == {j}
  {
    var j :| j in js;
    assert |js - {j}| == 0;
  }

  function Remove(s: State, j: Judge, current: int, order: seq<Judge>): State {
    ServeLast(UpdateMinTier(Drop(s, j, current), order))
  }

  /** The submission has ended and the judge is idle. */
  function Freed(s: State, j: Judge, id: int): State {
    s.(submissionMap := s.submissionMap - {id},
       judges := if j in s.judges then s.judges[j := s.judges[j].(working := 0)] else s.judges,
       log := s.log + [Finished(id)])
  }

  /** The judge reports the end of a submission; an unknown id raises before anything changes. */
  function OnJudgeFree(s: State, j: Judge, id: int): State
    requires j in s.judges
  {
    if id !in s.submissionMap then s else HandleFree(Freed(s, j, id), j)
  }

  /** The same for any judge object, listed or not. */
  function Report(s: State, j: Judge, info: JudgeInfo, id: int): State {
    if id !in s.submissionMap then s else Offer(Freed(s, j, id), j, info.(working := 0))
  }

  function SetDisabled(judges: Judges, name: string, disabled: bool): Judges {
    map j | j in judges :: if judges[j].name == name then judges[j].(disabled := disabled) else judges[j]
  }

  function UpdateDisable(s: State, name: string, disabled: bool, order: seq<Judge>): State {
    UpdateMinTier(s.(judges := SetDisabled(s.judges, name, disabled)), order)
  }

  function WithProblems(s: State, j: Judge, problems: set<string>): State {
    s.(judges := if j in s.judges then s.judges[j := s.judges[j].(problems := problems)] else s.judges)
  }

  function SupportedProblems(s: State, j: Judge, problems: set<string>): State
    requires j in s.judges
  {
    if s.judges[j].working == 0 then HandleFree(WithProblems(s, j, problems), j) else WithProblems(s, j, problems)
  }

  function NewProblems(s: State, j: Judge, info: JudgeInfo, problems: set<string>): State {
    var t := WithProblems(s, j, problems);
    if info.working == 0 then Offer(t, j, info.(problems := problems)) else t
  }

  /** A running submission is only asked to stop; a queued one is unlinked. */
  function Abort(s: State, id: int): State {
    if id in s.submissionMap || id !in s.nodeMap then s
    else s.(queue := Unlink(s.queue, s.nodeMap[id]), nodeMap := s.nodeMap - {id}, log := s.log + [Aborted(id)])
  }

  function Candidates(s: State, sub: Submission): set<Judge> {
    set j | j in s.judges && InTier(s.judges, s.minTier, j) && CanJudge(s.judges[j], sub)
  }

  function Available(s: State, sub: Submission): set<Judge> {
    Free(s.judges, Candidates(s, sub))
  }

  /** The last free candidate of several is kept back from rejudges. */
  function Usable(s: State, sub: Submission, prio: nat): set<Judge> {
    var available := Available(s, sub);
    if |Candidates(s, sub)| > 1 && |available| == 1 && prio >= REJUDGE_PRIORITY then {} else available
  }

  predicate LeastLoaded(judges: Judges, among: set<Judge>, j: Judge) {
    j in among && j in judges && forall k :: k in among && k in judges ==> judges[j].load <= judges[k].load
  }

  function Known(s: State): set<int> {
    s.submissionMap.Keys + s.nodeMap.Keys
  }

  /** `choice` is the least loaded usable judge the random tie break selects. */
  function Submit(s: State, sub: Submission, prio: nat, choice: Judge): State {
    if sub.id in Known(s) then s
    else if choice in Usable(s, sub, prio) then DispatchDirect(s, sub, prio, choice)
    else Enqueue(s, sub, prio)
  }

  function DispatchDirect(s: State, sub: Submission, prio: nat, j: Judge): State
    requires j in s.judges
  {
    var accepted := s.log + [Accepted(sub.id, prio)];
    if s.judges[j].raises then Failed(s, sub.id, j).(log := accepted)
    else
      var t := Started(s, sub.id, j);
      var candidates := Candidates(s, sub);
      t.(log := accepted + [Dispatched(
        sub, prio, j, CanJudge(s.judges[j], sub), InTier(s.judges, s.minTier, j),
        |candidates|, |Free(t.judges, candidates)|)])
  }

  /** What the handover itself changes. */
  function Handover(s: State, id: int, j: Judge): State
    requires j in s.judges
  {
    if s.judges[j].raises then Failed(s, id, j) else Started(s, id, j)
  }

  lemma DirectIsHandover(s: State, sub: Submission, prio: nat, j: Judge)
    requires j in s.judges
    ensures DispatchDirect(s, sub, prio, j) == Handover(s, sub.id, j).(log := DispatchDirect(s, sub, prio, j).log)
  {
  }

  function Enqueue(s: State, sub: Submission, prio: nat): State {
    s.(queue := InsertBefore(s.queue, prio, sub),
       nodeMap := s.nodeMap[sub.id := Job(sub)],
       log := s.log + [Accepted(sub.id, prio)])
  }

  function ReportLoad(s: State, j: Judge, load: real): State
    requires j in s.judges
  {
    s.(judges := s.judges[j := s.judges[j].(load := load)])
  }

  // ---------- runs ----------

  datatype Action =
    | ASubmit(sub: Submission, prio: nat, choice: Judge)
    | AFree(judge: Judge, id: int)
    | ARegister(judge: Judge, info: JudgeInfo, order: seq<Judge>)
    | ARemove(judge: Judge, current: int, order: seq<Judge>)
    | ADisable(name: string, disabled: bool, order: seq<Judge>)
    | AProblems(judge: Judge, problems: set<string>)
    | AAbort(id: int)
    | ALoad(judge: Judge, load: real)

  /** `order` lists the judges that the new minimum tier makes current, each once. */
  ghost predicate Enumerates(order: seq<Judge>, judges: Judges) {
    && (set j | j in order) == CurrentTier(judges, MinTier(judges))
    && (forall i, k :: 0 <= i < k < |order| ==> order[i] != order[k])
  }

  /** What the environment is taken to do: ids are positive, a judge registers once and idle,
      reports only the submission it is grading, and handing over a submission does not raise. */
  ghost predicate Legal(s: State, a: Action) {
    match a
    case ASubmit(sub, prio, choice) =>
      && sub.id > 0 && prio < PRIORITIES
      && (Usable(s, sub, prio) != {} ==> LeastLoaded(s.judges, Usable(s, sub, prio), choice))
    case AFree(j, id) => j in s.judges && id != 0 && s.judges[j].working == id
    case ARegister(j, info, order) =>
      && j !in s.judges && info.working == 0 && !info.raises && !info.disabled && info.name != ""
      && Enumerates(order, s.judges[j := info])
    case ARemove(j, current, order) =>
      && current == (if j in s.judges then s.judges[j].working else 0)
      && Enumerates(order, s.judges - {j})
    case ADisable(name, disabled, order) => Enumerates(order, SetDisabled(s.judges, name, disabled))
    case AProblems(j, _) => j in s.judges
    case AAbort(_) => true
    case ALoad(j, _) => j in s.judges
  }

  function Apply(s: State, a: Action): State {
    match a
    case ASubmit(sub, prio, choice) => Submit(s, sub, prio, choice)
    case AFree(j, id) => if j in s.judges then OnJudgeFree(s, j, id) else s
    case ARegister(j, info, order) => Register(s, j, info, order)
    case ARemove(j, current, order) => Remove(s, j, current, order)
    case ADisable(name, disabled, order) => UpdateDisable(s, name, disabled, order)
    case AProblems(j, problems) => if j in s.judges then SupportedProblems(s, j, problems) else s
    case AAbort(id) => Abort(s, id)
    case ALoad(j, load) => if j in s.judges then ReportLoad(s, j, load) else s
  }

  function Run(s: State, acts: seq<Action>): State
    decreases |acts|
  {
    if acts == [] then s else Run(Apply(s, acts[0]), acts[1..])
  }

  ghost predicate LegalRun(s: State, acts: seq<Action>)
    decreases |acts|
  {
    acts == [] || (Legal(s, acts[0]) && LegalRun(Apply(s, acts[0]), acts[1..]))
  }
}
