# Judge site: verified models of its cores

This project models, in Dafny, the parts of the judge site whose correctness is least obvious from
reading them, and proves what they keep over every input or every run.

- **The judge bridge scheduler** (`MarkerQueue`, `Scheduler`, `SchedulerSafety`, `StepEffects`,
  `WorkConservation`, `LoneJudge`, `ReservedJudge`, `SchedulerWitnesses`, `FifoRefinement`,
  `JudgeBridge`). The judge list is a state machine over a linked list with four priority markers, two
  maps, a set of judges and a cached minimum tier. The class `JudgeBridge.JudgeList` updates its fields
  in place as the source does; each method is proved to perform one step of the machine, and the
  machine is proved to keep a global invariant, to conserve work, to respect tiers and reservation, and
  to refine four first-in first-out queues, in every run; what each step changes is stated besides.
- **The rating engine** (`TieRanker`, `Bisection`, `Variance`, `Ratings`, `RatingTargets`,
  `RatingUpdate`, `RealArithmetic`). Real arithmetic; `tanh` is any nondecreasing function, where stated
  one that is 0 at 0, `sqrt` is given by its defining square, rounding is any monotone function.
- **Grading** (`Grading`, `GradingScore`, `RateLimiter`): from the packets of a run to the stored
  score, and the limiter on test-case events.
- **The event daemon** (`EventLog`, `EventPoll`, `EventDaemon`): the bounded log, followers and
  long polling.
- **Performance points**, **framing**, **page ranges** and **problem labels** (`PerformancePoints`,
  `Framing`, `DiggPaginator`, `IcpcLabel`).

Choices the source leaves to Python (the order of a set, the random tie break on load) are part of
the step or left open in the method, so the theorems hold for all of them. The scheduler's runs are
those of `Scheduler.Legal`: ids are positive, a judge registers once, idle, enabled and with a
nonempty name, reports only the submission it is grading, and handing over a submission does not
raise. Where one of these assumptions can be broken by the code itself, a lemma states exactly when the
invariant survives (`HandleFreeExact`, `SubmitExact`, `ReportExact`, `ReportAfterRaise`,
`ReportAfterQueuedRaise`, `ConnectedExact`, `RegisterExact`), and `SchedulerWitnesses` gives short runs
from the empty list in which it does not.

Where code and comments disagree the model follows the code. The comment in `register` says that
judges of the same name are disconnected, but the call passes the judge object where a name is
expected and matches nothing, so two judges of one name can be registered. The comment in
`_update_min_tier` says that the tier rises only when a judge is removed; disabling raises it too.
Consequences of the code that a reader may not expect are stated as exact conditions:

- re-enabling a judge dispatches nothing to it (`WorkConservation.EnableExact`), and disabling all but
  one judge of a tier does not offer the remaining one the rejudges it was reserved from
  (`LoneJudge.DisableExact`);
- once two judges are free a rejudge reserved from one of them may go on waiting, because only the
  judge that became free is offered work (`ReservedJudge.FreeSpreadExact`);
- a judge of a higher tier that registers while the cached tier is stale may be given two submissions
  (`SchedulerSafety.RegisterExact`);
- a perfect submission is worth nothing without partial credit when the problem's worth has more than
  three decimal places, and nothing at all when the total rounds to 0; one that only rounds to perfect
  is worth everything (`GradingScore.FullWorthExact`);
- a performance ceiling below the valid range reverses the order of performances, means and ratings
  (`Ratings.PerformancesSound`, `Ratings.NewMeanMonotone`, `Ratings.RatingMonotone`);
- a waiting poll is answered by the next post even when an older message was evicted before it asked
  (`EventPoll.PollDelivery`);
- a second start-msg makes the next set-filter repeat messages (`EventLog.WholeDeliveryIncreasing`).

Nothing was executed: every statement is checked by the Dafny verifier. `dafny verify dfyconfig.toml`
checks the whole project.

## Model

| member | source | states |
|---|---|---|
| `MarkerQueue.InsertBand` | judge/bridge/judge_list.py:195-198 | Queueing with priority p appends to band p of the marker list and changes no other band. |
| `MarkerQueue.UnlinkBand` | judge/bridge/judge_list.py:53-54 | Unlinking a node removes its submission from its own band and keeps the order of every band. |
| `MarkerQueue.InsertKeepsShape` | judge/bridge/judge_list.py:195-198 | Inserting keeps the markers in order, ids unique, and the node map equal to the queued ids. |
| `MarkerQueue.UnlinkKeepsShape` | judge/bridge/judge_list.py:154-160 | So does unlinking a queued node. |
| `MarkerQueue.ScanIsLeast` | judge/bridge/judge_list.py:35-56 | The node walk finds the least (priority, arrival) submission the judge can take, no rejudge while a judge is reserved, and finds nothing only when nothing eligible waits in the bands left open. |
| `SchedulerSafety.HandleFreeKeeps` | judge/bridge/judge_list.py:30-56 | Offering work to an idle judge whose handover does not raise keeps the global invariant, the tiers and the minimum tier. |
| `SchedulerSafety.DispatchQueuedSafe` | judge/bridge/judge_list.py:40-45 | A dispatch from the queue is tier safe, and a rejudge is dispatched only if the tier has at most one enabled judge or another one stays free. |
| `SchedulerSafety.UpdateMinTierKeeps` | judge/bridge/judge_list.py:58-80 | Recomputing the tier, with all the dispatching it may cause, restores the global invariant whatever the cached tier was. |
| `SchedulerSafety.SubmitKeeps` | judge/bridge/judge_list.py:166-199 | A new submission keeps the invariant; a direct rejudge never takes the last free candidate of several. |
| `SchedulerSafety.FreeKeeps` | judge/bridge/judge_list.py:140-145 | A finished submission keeps the invariant and ends its acceptance as finished. |
| `SchedulerSafety.RegisterKeeps` | judge/bridge/judge_list.py:93-99 | Registering an idle judge keeps the invariant. |
| `SchedulerSafety.RemoveKeeps` | judge/bridge/judge_list.py:118-135 | Removing a judge keeps the invariant; its submission, if any, ends as dropped. |
| `SchedulerSafety.DisableKeeps` | judge/bridge/judge_list.py:111-116 | Disabling or re-enabling by name keeps the invariant. |
| `SchedulerSafety.ProblemsKeep` | judge/bridge/judge_handler.py:320-325 | A new problem list keeps the invariant. |
| `SchedulerSafety.AbortKeeps` | judge/bridge/judge_list.py:147-161 | Aborting keeps the invariant, and afterwards the id is unknown unless it is running. |
| `SchedulerSafety.RunKeeps` | judge/bridge/judge_list.py:18-199 | Every run of legal steps keeps the global invariant. |
| `SchedulerSafety.RunFacts` | judge/bridge/judge_list.py:30-199 | In every run from the empty list: the node map is exactly the queued ids; no id is queued and running; an id runs on j exactly when j works on it, so no judge holds two; each acceptance is queued, running, or ended exactly once as finished, aborted or dropped; the cached tier is the minimum of the enabled judges; every dispatch respected tier and reservation. |
| `StepEffects.AbortQueuedEffect` | judge/bridge/judge_list.py:154-160 | Aborting a queued submission takes it and nothing else out of the maps, the queue and its band, ends it as aborted once, and leaves the judges alone. |
| `StepEffects.AbortOtherEffect` | judge/bridge/judge_list.py:147-161 | Aborting changes nothing exactly when the id is running or unknown. |
| `StepEffects.SubmitEffect` | judge/bridge/judge_list.py:166-199 | A known id changes nothing; a new one is accepted once, and waits last in its band exactly when nobody can take it or it is a rejudge for the last free of several judges, or else runs on a judge of least load among those that can take it. |
| `StepEffects.OfferEffect` | judge/bridge/judge_list.py:30-56 | An idle judge that is offered work is given one queued submission that fits it, which moves from the node map to the submission map, or nothing changes. |
| `StepEffects.FreeEffect` | judge/bridge/judge_list.py:140-145 | A report ends the submission once and it is no longer known; the judge is idle or grades something queued that fits it; the other judges are as before. |
| `StepEffects.RegisterEffect` | judge/bridge/judge_list.py:93-99 | The judge is listed as it describes itself, the others and the known ids are as before. |
| `StepEffects.RemoveEffect` | judge/bridge/judge_list.py:118-135 | The judge is no longer listed, its submission is no longer known and has ended once, and of the others only idle ones may have started something. |
| `StepEffects.DisableEffect` | judge/bridge/judge_list.py:111-116 | Exactly the judges of the name get the flag; nothing else differs except that idle judges may have started something. |
| `StepEffects.ProblemsEffect` | judge/bridge/judge_handler.py:320-325 | The new problem list is stored and only this judge may have started something. |
| `SchedulerSafety.HandleFreeExact` | judge/bridge/judge_list.py:45-51 | Offering work keeps the invariant if and only if no handover raises: a raising one leaves the id mapped to a judge that was thrown out. |
| `SchedulerSafety.SubmitExact` | judge/bridge/judge_list.py:187-193 | The same for a new submission, whose retry returns at once because its id is already recorded. |
| `SchedulerSafety.ReportExact` | judge/bridge/judge_list.py:140-145 | A report by any connection, listed or not, keeps the invariant if and only if the id is unknown or runs on the reporter. |
| `SchedulerSafety.ConnectedExact` | judge/bridge/judge_handler.py:116-124 | Setting the stored disabled flag after registering keeps the invariant exactly when it does not change the minimum tier, stated by who else is enabled. |
| `SchedulerSafety.ReportUnlistedExact` | judge/bridge/judge_list.py:140-145 | A connection that is not listed keeps it by reporting if and only if the id is unknown, even where registered judges may raise. |
| `SchedulerSafety.ReportAfterRaise` | judge/bridge/judge_list.py:187-193 | A judge thrown out when a direct handover raised that reports that submission sets the map right if and only if throwing it out left the minimum tier as it was and nothing is queued that it is given next. |
| `SchedulerSafety.ReportAfterQueuedRaise` | judge/bridge/judge_list.py:45-51 | After a handover from the queue that raised, no report of that submission by the judge restores the invariant. |
| `SchedulerSafety.RegisterExact` | judge/bridge/judge_list.py:93-99 | Registering from any state, a stale tier included, restores the invariant if and only if the offer during the tier change gives the judge nothing or the one afterwards finds nothing; the first gives it something only when a stale tier rises. |
| `SchedulerSafety.SecondOffer` | judge/bridge/judge_list.py:74-80 | A judge that is grading and is offered work again ends recorded with both submissions. |
| `SchedulerWitnesses.HandleFreeWitness` | judge/bridge/judge_list.py:45-51 | From the empty list: a submission is queued, then a judge that raises registers; the state in which it is offered work is safe, the one after is not. |
| `SchedulerWitnesses.SubmitWitness` | judge/bridge/judge_list.py:187-193 | From the empty list: a judge that raises registers, then a submission goes to it; the invariant is lost. |
| `SchedulerWitnesses.ReportWitness` | judge/bridge/judge_list.py:140-145 | From the empty list: of two judges one grades, the other reports that id; the invariant is lost. |
| `SchedulerWitnesses.ConnectedWitness` | judge/bridge/judge_handler.py:116-124 | From the empty list: the only judge registers and is then found stored as disabled; the cached tier is wrong. |
| `SchedulerWitnesses.EnableWitness` | judge/bridge/judge_list.py:111-116 | A legal run from the empty list (register, disable, submit, re-enable) ends with an idle judge beside a submission it can judge. |
| `SchedulerWitnesses.DisableWitness` | judge/bridge/judge_list.py:111-116 | A legal run from the empty list (two judges, one grading, a rejudge queued, the grading one disabled) leaves the last judge idle beside the rejudge. |
| `SchedulerWitnesses.ThrownOutWitness` | judge/bridge/judge_list.py:187-193 | From the empty list: a judge raises on its submission, another is queued, the judge reports the first and is given the second though it is not listed. |
| `SchedulerWitnesses.RegisterWitness` | judge/bridge/judge_list.py:74-99 | From the empty list: the only judge is found stored as disabled, two submissions are queued, a judge of a higher tier registers and is given both. |
| `SchedulerWitnesses.FreeSpreadWitness` | judge/bridge/judge_list.py:140-145 | A legal run from the empty list after which two judges are free and one stands beside a queued rejudge it can judge. |
| `WorkConservation.HandleFreeServes` | judge/bridge/judge_list.py:30-56 | Offering work leaves the judge busy or with no ordinary submission it could take, and harms no other judge. |
| `WorkConservation.FreeAllServes` | judge/bridge/judge_list.py:74-80 | When the tier rises every idle judge of the new tier ends busy or served. |
| `WorkConservation.UpdateMinTierServes` | judge/bridge/judge_list.py:58-80 | After judges left or were disabled, no idle judge of the new tier stands beside an ordinary submission it can judge. |
| `WorkConservation.SubmitConserves` | judge/bridge/judge_list.py:166-199 | Queueing happens only when no free judge of the tier could take an ordinary submission. |
| `WorkConservation.RemoveConserves` | judge/bridge/judge_list.py:118-135 | Removing a judge conserves work. |
| `WorkConservation.RunConserves` | judge/bridge/judge_list.py:30-199 | Over any run work is conserved in every state if and only if no re-enabling step wakes a judge that finds ordinary work, a condition known before each step. |
| `WorkConservation.WholeRunConserves` | judge/bridge/judge_list.py:21-199 | The same from the empty list; in particular over every run that re-enables no judge. |
| `WorkConservation.EnableExact` | judge/bridge/judge_list.py:111-116 | Re-enabling dispatches nothing; it conserves work if and only if no judge it wakes finds an ordinary submission it can judge. |
| `LoneJudge.HandleFreeServesAll` | judge/bridge/judge_list.py:85-91 | The only judge of a tier is offered every band, rejudges included. |
| `LoneJudge.RemoveLone` | judge/bridge/judge_list.py:129-135 | After a removal a tier with a single judge never has it idle beside any queued submission it can judge. |
| `LoneJudge.RunLone` | judge/bridge/judge_list.py:30-199 | Over any run the same holds in every state if and only if every step that switches judges meets its condition below, known before the step. |
| `LoneJudge.WholeRunLone` | judge/bridge/judge_list.py:21-199 | The same from the empty list. |
| `LoneJudge.DisableExact` | judge/bridge/judge_list.py:111-116 | Disabling keeps this exactly when the tier changes, or not one judge is left in it, or the one left is busy or finds nothing; nothing is dispatched when the tier stays. |
| `LoneJudge.EnableLoneExact` | judge/bridge/judge_list.py:111-116 | Re-enabling keeps it exactly when the tier that is current afterwards is not one idle judge that finds something queued. |
| `ReservedJudge.FreeSpreadExact` | judge/bridge/judge_list.py:140-145 | While two judges of the tier are free none should stand beside anything queued it can judge; a report keeps this if and only if the judge is not of the tier, or is given something, or does not join a single free judge that has something to do. |
| `ReservedJudge.SubmitSpreadExact` | judge/bridge/judge_list.py:173-198 | A submission keeps it if and only if it is not held back from its last free candidate while a further judge of the tier is free. |
| `FifoRefinement.EnqueueFifo` | judge/bridge/judge_list.py:195-198 | Queueing appends to one of the four first-in first-out queues, and arrival order is kept. |
| `FifoRefinement.HandleFreeFifo` | judge/bridge/judge_list.py:35-55 | Offering work removes exactly the least (priority, arrival) eligible submission from its queue and makes it the judge's, or changes nothing. |
| `FifoRefinement.RunFifo` | judge/bridge/judge_list.py:22-23 | In every run each band holds the submissions accepted with its priority, in order of acceptance. |
| `FifoRefinement.WholeRunFifo` | judge/bridge/judge_list.py:21-199 | The same from the empty list. |
| `JudgeBridge.JudgeList.constructor` | judge/bridge/judge_list.py:21-28 | A new list is the initial state. |
| `JudgeBridge.JudgeList.HandleFreeJudge` | judge/bridge/judge_list.py:30-56 | The node walk in place performs the scan, the dispatch, or the throwing out of a judge, for a listed judge and for one thrown out before. |
| `JudgeBridge.JudgeList.UpdateMinTier` | judge/bridge/judge_list.py:58-80 | The method recomputes the minimum tier and offers work to the judges of a higher one, in some order. |
| `JudgeBridge.JudgeList.ShouldReserveJudge` | judge/bridge/judge_list.py:85-91 | The reservation test is the one the safety lemmas use. |
| `JudgeBridge.JudgeList.Register` | judge/bridge/judge_list.py:93-99 | The method performs the register step; the offer is made even to a judge thrown out meanwhile. |
| `JudgeBridge.JudgeList.UpdateDisableJudge` | judge/bridge/judge_list.py:111-116 | The method performs the disable step on every judge of that name. |
| `JudgeBridge.JudgeList.Remove` | judge/bridge/judge_list.py:118-135 | The method performs the remove step. |
| `JudgeBridge.JudgeList.OnJudgeFree` | judge/bridge/judge_list.py:140-145 | The method performs the free step for any judge object, listed or not; an unknown id changes nothing. |
| `JudgeBridge.JudgeList.OnSupportedProblems` | judge/bridge/judge_handler.py:320-325 | The handler stores the problems and offers work when idle, for any judge object. |
| `JudgeBridge.JudgeList.Abort` | judge/bridge/judge_list.py:147-161 | The method performs the abort step and says whether the submission was running; if not, it is in neither the node map nor the queue afterwards. |
| `JudgeBridge.JudgeList.LeastLoad` | judge/bridge/judge_list.py:185-185 | Some usable judge of least load is chosen. |
| `JudgeBridge.JudgeList.Judge` | judge/bridge/judge_list.py:166-199 | The method performs the submission step: it ignores a known id, hands over to a least loaded usable judge, or queues. |
| `JudgeBridge.JudgeList.GiveUp` | judge/bridge/judge_list.py:190-193 | After a handover that raised, the retry changes nothing more. |
| `TieRanker.TieRank` | judge/ratings.py:24-41 | One rank per item, the average 1-based position of its maximal run of equal keys. |
| `TieRanker.RanksNondecreasing` | judge/ratings.py:24-41 | Ranks never decrease along the list. |
| `TieRanker.RanksSum` | judge/ratings.py:24-41 | All n ranks add up to n(n+1)/2 whatever the ties; so do the ranks up to any run's end. |
| `TieRanker.RankCounts` | judge/ratings.py:24-41 | On sorted keys the rank is the number strictly better plus half of one more than the number tied. |
| `Bisection.SolveLoop` | judge/ratings.py:48-70 | The loop with its lazily computed end values returns the recursive bisection's point. |
| `Bisection.SolveInside` | judge/ratings.py:48-70 | The result lies within the bounds. |
| `Bisection.SolveMonotone` | judge/ratings.py:48-70 | Raising the target or lowering the objective pointwise never lowers the result, for any objective, when the bounds are not crossed. |
| `Bisection.MonotoneExact` | judge/ratings.py:85-87 | For a nondecreasing objective that holds for all targets if and only if the bounds are not crossed. |
| `Bisection.SolveAntitone` | judge/ratings.py:85-87 | With crossed bounds the order is reversed, for any objective: raising the target or lowering the objective pointwise never raises the result. |
| `Bisection.CrossedBounds` | judge/ratings.py:61-68 | With crossed bounds the result is one of the two ends, the smaller one exactly for targets above the objective at the larger. |
| `Bisection.SolveBrackets` | judge/ratings.py:48-70 | A result away from an end lies within 2 of where the objective meets the target. |
| `Bisection.SolveAffine` | judge/ratings.py:48-70 | For an affine objective whose values at the bounds enclose the target the result meets it exactly. |
| `Bisection.SolveNear` | judge/ratings.py:48-70 | For an increasing objective that meets the target between a and b the result is within 2 of there, as far as the bounds let it. |
| `Bisection.SolveBetween` | judge/ratings.py:105-110 | Solving inside a bracket of two accurate neighbours is as accurate as over the whole range. |
| `Bisection.VisitsEachOnce` | judge/ratings.py:106-111 | The divide and conquer solves every interior index exactly once and no other. |
| `Bisection.DivConqFills` | judge/ratings.py:106-111 | Between accurate ends every index gets an accurate value, values do not increase, nothing outside changes. |
| `Bisection.PerformancesFilled` | judge/ratings.py:118-120 | All performances are accurate to 2 over the full range, within it, and do not increase. |
| `Bisection.PerformancesCrossed` | judge/ratings.py:85-120 | With crossed bounds every performance is one of the two bounds, the lower one exactly for targets above the objective at the larger, so performances never decrease along the ranking. |
| `Variance.VarCache.GetVar` | judge/ratings.py:73-77 | Whatever was asked before, the shared cache answers with the recurrence and only grows; a negative argument reads it from its end or fails. |
| `Variance.LimitRoot` | judge/ratings.py:19-19 | VAR_LIM is the positive root of v*v + c*v = c*BETA2. |
| `Variance.VarDecreases` | judge/ratings.py:73-77 | The variances strictly decrease and stay above VAR_LIM. |
| `Variance.DeductionShrinks` | judge/ratings.py:140-142 | The rating deduction is positive and shrinks with every contest. |
| `Variance.WeightsBelowPrecision` | judge/ratings.py:123-136 | With no more past performances than contests rated the weight sum stays strictly below the total precision. |
| `Variance.PrecisionExact` | judge/ratings.py:123-136 | For at most n past performances, n counting the current contest, the weight sum stays below the total precision if and only if there are fewer than n or n is at least 5; it never equals it. |
| `Ratings.TargetAntitone` | judge/ratings.py:94-103 | A better rank never has a lower target. |
| `RatingTargets.TargetsCancel` | judge/ratings.py:94-103 | Whatever the ranking, the ties and the spreads, the targets of a contest, each divided by its own spread, add up to zero. |
| `RatingTargets.TargetOfRank` | judge/ratings.py:94-103 | With the tie ranker's ranks and one spread d for all, the target of rank r among n is (n + 1 - 2r)/d. |
| `RatingTargets.PerformanceBalances` | judge/ratings.py:89-103 | Objective less target is, summed over the contestants, what the level should have brought against them less what it brought, so a performance is where the two cancel. |
| `RatingTargets.DeltaShrinks` | judge/ratings.py:89-90 | The spread of a contestant is positive and shrinks with every contest. |
| `Ratings.PerformancesSound` | judge/ratings.py:93-120 | With ranks in order: if the bounds are not crossed a better rank never gets a lower performance and each is as accurate as a full bisection; if they are crossed each is one of the bounds and a better rank never gets a higher one. |
| `Ratings.BoundsInOrder` | judge/ratings.py:85-87 | The bounds are crossed exactly when the ceiling is below the valid range. |
| `Ratings.PrefixIsWeightSum` | judge/ratings.py:125-135 | The running weight sum of the loop is the nested sum that the precision bounds. |
| `Ratings.WeightsFade` | judge/ratings.py:126-133 | The current performance weighs 1 and each older one less than the one after it. |
| `Ratings.PrecisionSplit` | judge/ratings.py:123-136 | The weights of all performances and the residual weight of the prior add up to the precision of the variance. |
| `Ratings.ResidualExact` | judge/ratings.py:136-137 | With at most one past performance more than contests rated the residual precision is never zero, so the division by it is defined; it is positive if and only if there is no such extra performance or at least four contests were rated. |
| `Ratings.MeanObjectiveIncreases` | judge/ratings.py:136-138 | While the residual is positive the objective of the mean increases strictly. |
| `Ratings.TermScale` | judge/ratings.py:44-45 | A term taken u times twice its spread from its centre is its weight over its spread times tanh(u). |
| `Ratings.MeanTargetMet` | judge/ratings.py:136-138 | While the residual is positive the objective of the mean meets its target between the old mean and the new performance. |
| `Ratings.NewMeanBetween` | judge/ratings.py:122-138 | So the new mean lies between the old mean and the new performance, to within 2 and as far as the bounds let it, whatever the history: a performance at the old mean leaves it within 2 of where it was. |
| `Ratings.NewMeanMonotone` | judge/ratings.py:122-138 | All else fixed, a higher performance never lowers the new mean when the bounds are not crossed, and never raises it when they are. |
| `Ratings.DisplayedSound` | judge/ratings.py:140-142 | The displayed rating follows the mean, never exceeds it (floor 1 aside) and, for equal means, grows with the contests played. |
| `Ratings.DisplayedExact` | judge/ratings.py:140-142 | With rounding to the nearest it is the mean less what the deviation exceeds its limit by, to within a half, or else 1. |
| `Ratings.RatingMonotone` | judge/ratings.py:122-142 | The same for the displayed rating. |
| `RatingUpdate.TargetOf` | judge/ratings.py:94-102 | The loop computes the target of one contestant. |
| `RatingUpdate.DivConqInPlace` | judge/ratings.py:106-111 | The recursion in place performs the divide and conquer; the indices noted where they are solved are its visits. |
| `RatingUpdate.FillBetween` | judge/ratings.py:118-120 | The two ends and the recursion give the performances, and every index is solved exactly once. |
| `RatingUpdate.CollectTerms` | judge/ratings.py:124-135 | The loop collects the terms and the weight sum. |
| `RatingUpdate.RecalculateRatings` | judge/ratings.py:80-144 | The whole update: performances, means and ratings as specified; with fewer than two contestants performances and means are the old means. |
| `RatingUpdate.ContestInOrder` | judge/ratings.py:147-184 | With the tie ranker's ranking the performances of a contest never increase along it, or, with a ceiling below the valid range, never decrease. |
| `Grading.JudgeHandler.OnGradingBegin` | judge/bridge/judge_handler.py:330-337 | Forgets the batch number and the stored rows; the in-batch flag stays. |
| `Grading.JudgeHandler.OnBatchBegin` | judge/bridge/judge_handler.py:491-497 | Enters a batch and numbers it. |
| `Grading.JudgeHandler.OnBatchEnd` | judge/bridge/judge_handler.py:501-502 | Leaves the batch. |
| `Grading.JudgeHandler.OnTestCase` | judge/bridge/judge_handler.py:518-546 | Adds one row per case in order, with the position, status, time, memory, points and total of the packet, tagged with the batch number only inside a batch. |
| `Grading.RunRows` | judge/bridge/judge_handler.py:330-343 | For every well-bracketed run the stored batch numbers separate the batches exactly, whatever the previous run left behind. |
| `Grading.RunStores` | judge/bridge/judge_handler.py:518-546 | A run leaves exactly one row for each of its cases, in the order of the packets, each saying what its packet said. |
| `Grading.Aggregate` | judge/bridge/judge_handler.py:357-387 | The two loops compute the aggregate of the rows, batches in any order. |
| `Grading.AddBatches` | judge/bridge/judge_handler.py:381-383 | The second loop adds the sum over the batches, in any order. |
| `Grading.SumBatchesStep` | judge/bridge/judge_handler.py:381-383 | The order in which the batches are added does not matter. |
| `Grading.OrderIndependent` | judge/bridge/judge_handler.py:365-379 | The aggregate does not depend on the order in which the rows are read. |
| `GradingScore.StatusExactly` | judge/bridge/judge_handler.py:521-537 | For each of the eight statuses exactly which of the seven bits give it: its own bit and none that takes precedence. |
| `GradingScore.SeverityFinds` | judge/bridge/judge_handler.py:362-377 | Looking a stored status up in the severity list never fails. |
| `GradingScore.ResultIsMostSevere` | judge/bridge/judge_handler.py:377-379 | The stored result is the most severe status of the rows. |
| `GradingScore.MemoryIsMost` | judge/bridge/judge_handler.py:376-376 | The stored memory is the greatest of the rows. |
| `GradingScore.RunScore` | judge/bridge/judge_handler.py:357-399 | From packets to aggregate: points are the unbatched points plus the least points of every batch, total and time likewise, for every order of the stored rows. |
| `GradingScore.RunResult` | judge/bridge/judge_handler.py:357-399 | Over the packets: the result is the first of OLE, RTE, IR, TLE, MLE, WA, AC that some case of the run has, else SC, and the memory is the greatest of the cases or 0. |
| `GradingScore.RunBounded` | judge/bridge/judge_handler.py:365-383 | Cases worth at most their total make points at most the total. |
| `GradingScore.SubmissionBounded` | judge/bridge/judge_handler.py:385-398 | After all rounding the stored points lie between 0 and the rounded worth of the problem; without partial credit they are 0 or the worth itself. |
| `GradingScore.FullWorthExact` | judge/bridge/judge_handler.py:385-393 | For every run with points at most the total, the full worth is stored if and only if the worth is 0, or the rounded total is positive and the share of the rounded points rounds to the worth; when points and total round alike, as in every perfect run, if and only if the worth is 0, or the total does not round to 0 and rounding to three places does not change the worth. |
| `GradingScore.PartialCredit` | judge/bridge/judge_handler.py:385-393 | With partial credit the stored points are the rounded points' share of the worth, to within what rounding may err by. |
| `GradingScore.FullScoreStores` | judge/bridge/judge_handler.py:390-393 | A full score that does not store the worth stores 0 without partial credit or when the total rounds to 0, else the rounded worth, which exceeds the worth exactly when rounding goes up. |
| `GradingScore.FullWorthInputs` | judge/bridge/judge_handler.py:385-393 | Perfect submissions: worth 0.1234 without partial credit stores 0, worth 0.0006 with it stores 0.001, points and total 0.04 store 0 of 10. One that is not perfect: 0.96 points of 1 store all 10 of 10. |
| `GradingScore.RunSubmissionBounded` | judge/bridge/judge_handler.py:357-398 | The bounds and the condition for a full score, from the packets of any bounded run. |
| `RateLimiter.Limiter.OnTestCase` | judge/bridge/judge_handler.py:558-570 | The handler updates only this submission's counter and decides whether to post, reading the clock once to check a window and again to open one. |
| `RateLimiter.RateBound` | judge/bridge/judge_handler.py:558-577 | No submission is posted more than 2*UPDATE_RATE_LIMIT - 1 times within any closed interval of length UPDATE_RATE_TIME, a post counting at the last clock reading it takes. |
| `RateLimiter.RateBoundTight` | judge/bridge/judge_handler.py:21-22 | A run attains the bound. |
| `RateLimiter.PostedExactly` | judge/bridge/judge_handler.py:560-570 | A packet that opens a window is always posted; within one, exactly while the limit is not reached. |
| `RateLimiter.CounterMeans` | judge/bridge/judge_handler.py:560-570 | After any run a submission has a counter exactly if it sent a packet; it holds the number of its packets from the one that opened the current window on, all within UPDATE_RATE_TIME, and the reading that opened it. |
| `EventLog.RunKeepsLog` | websocket/daemon.js:27-35 | The log always holds the last min(max_queue, posted) messages and ids are consecutive. |
| `EventLog.PostedExactly` | websocket/daemon.js:27-35 | Over any run exactly the posts are posted, in order, the i-th with its own channel and body and the i-th next id. |
| `EventLog.CatchUpSends` | websocket/daemon.js:20-25 | Catching up sends exactly the retained matching messages after the last one seen, in order. |
| `EventLog.Subscribe` | websocket/daemon.js:57-68 | So does any valid set-filter; afterwards the follower has seen all that is retained. |
| `EventLog.SyncedRun` | websocket/daemon.js:27-43 | From then on it is sent exactly the later posts on the channels of the filter in force, and another set-filter repeats nothing. |
| `EventLog.Delivery` | websocket/daemon.js:53-83 | A follower that names its start and then sets a filter is sent the retained matching messages after the start followed by every later matching post. |
| `EventLog.NamedStart` | websocket/daemon.js:53-68 | The start is the one last named before the filter, whatever is posted in between, and 0 when none was named. |
| `EventLog.LaterIsPosted` | websocket/daemon.js:27-43 | Under one filter the later deliveries are all later posts on its channels. |
| `EventLog.DeliveryOfPosts` | websocket/daemon.js:53-83 | Under one filter a subscription is sent the retained matching messages after the start followed by all matching messages the rest of the run adds to what was posted. |
| `EventLog.DeliveryComplete` | websocket/daemon.js:20-43 | It is sent every matching message after its start, past and future, and no other if and only if none of those had been evicted when it subscribed and no later matching post is below the start. |
| `EventLog.DeliveryIncreasing` | websocket/daemon.js:79-83 | Without a start-msg after the subscription deliveries come in strictly increasing id order, none twice. |
| `EventLog.WholeDeliveryIncreasing` | websocket/daemon.js:53-83 | Over every run, with any start-msg and set-filter commands, that holds if and only if no set-filter finds a retained message on its channels above the follower's start and not above the last message sent. |
| `EventLog.RestartWitness` | websocket/daemon.js:53-83 | A run in which it fails: a second start-msg makes the next set-filter send a message again. |
| `EventPoll.FirstIsHead` | websocket/daemon.js:193-197 | A request is answered with the first unread retained message. |
| `EventPoll.StepExact` | websocket/daemon.js:172-205 | Each step of the daemon or the client keeps the sequence of received and unread messages, extended by what it posts, if and only if it gives no answer past an unread message with a smaller id and posts nothing for the client below an id in the future it named; otherwise the sequence gets shorter. |
| `EventPoll.PollDelivery` | resources/event.js:12-18 | A polling client, whatever id it names, is given every matching message once and in order over a run if and only if every step of the run meets that condition. |
| `EventPoll.KeepingUpSkipsNone` | websocket/daemon.js:30-31 | While nothing unread has been evicted at any request, no answer skips anything. |
| `EventPoll.WholePollDelivery` | resources/event.js:12-18 | The same from the start, where nothing has been posted or read. |
| `EventPoll.SkippedWitness` | websocket/daemon.js:193-205 | A run in which it fails: the only unread message is evicted before the request, which waits, and the next post answers past it. |
| `EventDaemon.Server.Post` | websocket/daemon.js:27-43 | A post goes to the end of the log, to every follower on its channel, and to every waiting request on its channel, each time as the new id with the channel and body posted. |
| `EventDaemon.Server.SetFilter` | websocket/daemon.js:57-68 | The command follows and catches up. |
| `EventDaemon.Server.Handle` | websocket/daemon.js:184-199 | A request is answered from the log or waits. |
| `EventDaemon.Socket.GotMessage` | websocket/daemon.js:79-83 | A follower sends only its channels and notes every id. |
| `PerformancePoints.TableIsWeights` | judge/models/profile.py:240-240 | For 0 < step <= 1 the table is nonnegative and does not increase. |
| `PerformancePoints.PowAdds` | judge/models/profile.py:240-240 | Each weight is a power of the step: the weight of rank a + b is the product of those of ranks a and b, that of rank 1 the step, that of rank 0 one. |
| `PerformancePoints.Profile.CalculatePoints` | judge/models/profile.py:242-264 | The three figures are recomputed and stored exactly when one has changed. |
| `PerformancePoints.TopSum` | judge/models/profile.py:244-249 | No choice of scores beats the first ones of the descending order. |
| `PerformancePoints.PrefixDominance` | judge/models/profile.py:258-258 | Dominance of prefix sums carries over to the weighted sum. |
| `PerformancePoints.SortedIsOptimal` | judge/models/profile.py:244-258 | No assignment of distinct weights to problems is worth more than the sorted weighting. |
| `PerformancePoints.SortedIsAttained` | judge/models/profile.py:244-258 | Some assignment is worth exactly that. |
| `PerformancePoints.WeightedPartMonotone` | judge/models/profile.py:244-258 | Raising scores or adding scored problems never lowers the weighted part. |
| `PerformancePoints.BonusMonotone` | dmoj/settings.py:49-49 | The bonus never falls with the solved count. |
| `PerformancePoints.BonusSteps` | dmoj/settings.py:49-49 | No solved problem brings nothing and each further one 0.3% of what is missing to 300. |
| `PerformancePoints.PointsMonotone` | judge/models/profile.py:242-258 | Performance points never fall when scores rise, scored problems are added or the solved count grows. |
| `PerformancePoints.Breakdown` | judge/performance_points.py:54-82 | One page lists the weighted rows of its window, and has_more is true exactly when a further weighted row exists. |
| `PerformancePoints.PageSum` | judge/performance_points.py:58-70 | A page adds exactly its stretch of the weighted part. |
| `PerformancePoints.PagesComplete` | judge/performance_points.py:54-82 | Consecutive pages read until one reports no more add up to the whole weighted part. |
| `Framing.UnpackPack` | judge/bridge/base_handler.py:13-14 | Packing and unpacking sizes are inverse. |
| `Framing.MostSignificantFirst` | judge/bridge/base_handler.py:13-14 | Sizes are ordered exactly as their four bytes are, the first byte that differs deciding. |
| `Framing.Connection.Send` | judge/bridge/base_handler.py:196-198 | Sending appends one frame. |
| `Framing.Connection.SendAll` | judge/bridge/base_handler.py:196-198 | Sending the messages one by one puts their frames on the stream in order. |
| `Framing.Connection.Recv` | judge/bridge/base_handler.py:86-88 | Receiving yields any nonempty piece of what is left. |
| `Framing.Connection.ReadSize` | judge/bridge/base_handler.py:108-114 | Four bytes, however they arrive, or the end of the stream. |
| `Framing.Connection.ReadPayload` | judge/bridge/base_handler.py:71-89 | Exactly the announced bytes, however they arrive. |
| `Framing.Connection.Handle` | judge/bridge/base_handler.py:147-194 | For every way the stream is cut into chunks the loop delivers what the stream means. |
| `Framing.RoundTrip` | judge/bridge/base_handler.py:168-198 | The frames sent are delivered exactly and in order, and the stream ends cleanly, if and only if every frame is within the limit and decompresses. |
| `Framing.Exchange` | judge/bridge/base_handler.py:168-198 | End to end: messages sent one by one on a new connection and handled however the stream is cut are delivered exactly up to the first unacceptable one; all of them with a clean end if and only if every one is acceptable. |
| `Framing.ParseWire` | judge/bridge/base_handler.py:71-75 | In general exactly the frames before the first unacceptable one are delivered. |
| `Framing.NeverProxy` | judge/bridge/base_handler.py:149-151 | A frame within the limit is never taken for a PROXY header. |
| `DiggPaginator.MakeConfig` | judge/utils/diggpaginator.py:185-196 | A padding above ceil(body/2) - 1 is refused, the default padding never is, and accepted parameters are kept and within their ranges sensible. |
| `DiggPaginator.Place` | judge/utils/diggpaginator.py:207-262 | Exactly when there is a leading and a trailing block, and exactly where the main block starts and ends in each case, without the step-by-step clamping. |
| `DiggPaginator.PageRanges` | judge/utils/diggpaginator.py:199-270 | Blocks are strictly increasing within the pages, reach page 1, the current page and (unless aligned left) the last page, lie more than margin apart, and the main block has at least min(body, pages) pages; the blocks are the exact ones of Place. |
| `DiggPaginator.CombinedRange` | judge/utils/diggpaginator.py:269-270 | The combined range lists the three blocks in order with one gap exactly where nonempty blocks meet. |
| `IcpcLabel.GetLabelForProblem` | judge/contest_format/icpc.py:118-124 | The loop computes the bijective base-26 numeral. |
| `IcpcLabel.LabelBijective` | judge/contest_format/icpc.py:118-124 | A decoder inverts labelling and every nonempty string over A-Z is the label of exactly one index. |
| `IcpcLabel.LabelsIncrease` | judge/contest_format/icpc.py:118-124 | Labels increase in length-then-lexicographic order exactly with the index. |
| `IcpcLabel.LexIsFirstDifference` | judge/contest_format/icpc.py:118-124 | That order compares at the first place of difference. |

## Left out

- Sockets, zlib, JSON, threads, timers, pings and load averaging: frames are byte sequences, methods
  that hold the lock are atomic steps, and the reported load is any value at any time.
- The linked list library: nodes are entries of a sequence with insert-before and unlink, and a node
  handle is the entry itself, which is unique because ids are.
- A minimum tier of None in `_handle_free_judge`, where the source compares with None and raises after
  the caller's changes: offering work does nothing then.
- A second handshake of a connected judge, which would offer work to a judge that may be busy.
- `on_supported_problems` runs partly outside the lock; storing the problems and offering work is one
  step here.
- None and the empty string as requested judge are one value, "any judge".
- JudgeBridge.JudgeList.HandleFreeJudge: when handing over to a judge that was thrown out before raises,
  the source raises a second time on removing it, after the same changes; so do the methods above it.
- Framing.Connection.Handle: the PROXY header and the loop over its remainder are not modelled; a
  stream that ends inside a packet ends handling as starved, where the source reads empty chunks forever.
- TieRanker.TieRank: keys are never None; the source's keys are tuples.
- RatingUpdate.RecalculateRatings: takes at most one past performance more than rated contests; the
  caller's two queries on one table give equal counts. With still more the weights would depend on how
  far the shared cache has grown (RatingUpdate.CollectTerms likewise).
- Equal performances of tied contestants, which interpolation in different brackets does not give.
- DiggPaginator.PageRanges: the navigation properties are for body and tail of at least 1, a margin of at
  least 0 and a padding from 0 to its maximum.
- Bits of a case status above the seven the source tests; it never looks at them.
- Unknown submissions in packets, empty case lists (which raise), feedback and output of cases, and the
  database behind the rows.
- Channels named like properties every JavaScript object inherits, which the daemon would treat as part
  of every filter; malformed daemon commands and invalid filters, which only answer with an error.
- Floating-point effects in ratings and points.
- The SQL of contest formats and of `rate_contest`, the admin, templates, feeds, migrations and URL
  routing; message queues and other foreign services; rating names, caches and permission predicates,
  which would add only easy members.
