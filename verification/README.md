# Verification of the judge site's rating engine, scheduler and scoring

A Dafny model of the parts of the site whose correctness is not visible from any one function, with proofs.
Each module models one component; loops and mutable state of the source are methods and classes, each proved against a
specification function, and the theorems are about those functions and over whole runs.

| modules | component |
|---|---|
| `RealFacts`, `Prelude` | real-number order facts, rounding, optional values, last elements |
| `Solver`, `Variance`, `Performance`, `MeanEquation`, `Mean`, `TieRanker`, `Ratings`, `RatingEquations` | the Elo-MMR update of one contest (`judge/ratings.py`) |
| `ContestRating`, `RatingRecords`, `RatingHistory` | the rating table over many contests: rating, replaying a suffix, rating all from scratch, disqualifying |
| `JudgeQueue`, `Scheduler`, `Draining`, `Settling`, `SchedulerExamples`, `JudgingRules`, `LinkedList`, `JudgeList` | the judge scheduler (`judge/bridge/judge_list.py`) as a state machine, and its code |
| `Grading`, `BatchPositions`, `ReportedCases` | from a judge's packet stream to a score (`judge/bridge/judge_handler.py`) |
| `EventLog` | the event server with followers and long polls (`websocket/daemon.js`) |
| `Framing` | length-prefixed packets over a chunked byte stream (`judge/bridge/base_handler.py`) |
| `PerformancePoints` | performance points and their paged breakdown |
| `Standings`, `StandingCounts` | ICPC and AtCoder standings from a submission history |

## How to read the model

- Arithmetic is over the reals. `tanh`, `sqrt` and `pi` are parameters (`Mean.RawAnalysis`); of `tanh` only that it is
  strictly increasing, odd and bounded by 1 is used, of `sqrt` only that it is non-negative and squares to its argument.
  `VAR_LIM` is computed from `sqrt` as in the source and proved to be the positive root of v^2 + V v = V beta^2.
- "Near the root" is a sign change: `Solver.Near` says the curve crosses the target within 2 of the answer, or the
  target lies beyond the end of the range and the answer is that end. No intermediate value theorem is needed.
- Database queries are functions of rows. A contest's participations come in the order the rating query returns them;
  contests are ordered by distinct end times.
- Every scheduler method runs under one lock, so each is one step. What a judge's handler does outside the lock when a new
  problem list arrives (set the list, test whether it is idle, then ask for work) is steps of its own, between which others
  may come. So is what a handshake does after registering the judge, where it looks up whether the judge is disabled.
  `Scheduler.Possible` lists what the environment guarantees: one handshake per connection, a finish packet
  names the sending judge's own submission, the judge chosen has least load (ties are resolved arbitrarily). What happens
  when a finish packet names something else is `Scheduler.FinishOwned`.
- A channel set of the event server is all that JavaScript's `in` finds on the filter object: the channels asked for and the
  names every object inherits (a parameter, `EventLog.Daemon.inherited`).
- A byte stream is what the peer sends before it closes. Where the source would go on reading nothing for ever, the model
  reports `Stuck`.

`RatingEquations`, `RatingRecords`, `JudgingRules`, `ReportedCases` and `StandingCounts` say what the code computes in terms of
its inputs alone, without the functions that the other modules specify it by.

## Findings about the code

- A judge that gets a new problem list tests `working` without the lock (`judge_handler.py:320`). If it is sent a submission
  between the test and `update_problems`, it can be given a second one, and the first stays in `submission_map` with no
  judge working on it (`SchedulerExamples.LateOffer`). `Scheduler.NextOwned` and `Scheduler.NextStartsOnIdle` say that this
  is the only step that breaks ownership or double-books a judge, and exactly when it does; `Scheduler.StaysIdle` says what
  can make the offer late.
- A handshake registers the judge before it looks up whether the judge is disabled (`judge_handler.py:170-172`), so a judge
  that is disabled in the database is handed a waiting submission exactly when one fits it as an enabled judge
  (`Scheduler.HandshakeHandsWork`, `SchedulerExamples.HandshakeCounterexample`).
- Re-enabling a judge (`judge_list.py:75-79`) dispatches nothing: an urgent submission can stay waiting beside a judge that
  has just become available (`SchedulerExamples.EnablingCounterexample`). It is the only step that breaks the property;
  `Draining.EnablingDrained` says exactly when it does.
- The reserve for rejudges depends on all judges, but the queue is offered to one judge at a time. So a rejudge can stay
  waiting beside an enabled idle judge that could take it although nothing is reserved. `Settling.NextSettled` says for every
  kind of step exactly when it keeps clear of this. It happens when a judge is removed, because line 93 counts disabled
  judges too where the comment at 91-92 wants work to start with exactly one judge left (`SchedulerExamples.RemoveCounterexample`;
  with exactly one judge registered the comment holds, `Draining.LastJudgeDrained`); when a judge finishes and cannot take the
  rejudge that another could (`SchedulerExamples.FinishCounterexample`); likewise when one registers
  (`SchedulerExamples.RegisterCounterexample`); when one is disabled (`SchedulerExamples.DisableCounterexample`); and when a
  rejudge is sent, because line 141 counts the judges that can take the submission where line 34 counts all enabled
  ones (`SchedulerExamples.JudgingCounterexample`).
- `register` (`judge_list.py:61`) passes the handler where `disconnect` compares names, so nobody is disconnected
  (`JudgeList.Dispatcher.Register`) and names stay unique only if the newcomer's is new (`Scheduler.RegisterNames`,
  `SchedulerExamples.Namesakes`).
- Full points on every case do not always give the problem's points. A batch counts its least points out of its greatest
  total, so its cases must be worth the same (`Grading.FullTally`, `Grading.UnevenBatch`); the score is rounded to a thousandth
  before it is compared with the problem's points, and a total that rounds to zero scores nothing (`Grading.FullMarks`,
  `Grading.RoundedAway`).
- `Contest.rate` yields the from-scratch table if and only if the rows it keeps are the from-scratch rows of earlier
  contests (`ContestRating.RateFromAgrees`). So rating a contest before an earlier one leaves a different table exactly when
  the earlier one has somebody to rate (`ContestRating.RateFromCatchesUp`, `ContestRating.RateFromCounterexample`).
- `in_batch` survives an abandoned submission (`on_grading_begin` resets only `batch_id`), yet no case is misnumbered
  (`Grading.LabelledInBatch`).
- Batch numbers count the batches begun since the last grading-begin or grading-end of any submission
  (`Grading.SameNumber`). A judge that reports cases of one submission after it began to grade another can thereby give cases
  of different batches one number (`BatchPositions.MixedUp`); `BatchPositions.NumberShared` says exactly when.
- The event server tests `channel in filter` on plain objects (`daemon.js:80`, `:185`), so messages on channels named like an
  inherited property (`constructor`, `toString`) reach every follower and poller (`EventLog.InheritedExample`).
  `EventLog.FollowerInherits` and `EventLog.AnswerIsFirst` say exactly when clients still get what they asked for.
- If the peer closes inside a body, `read_sized_packet` reads nothing for ever (`Framing.Connection.Spin`). That is exactly
  when the stream is not `Framing.Whole` (`Framing.StuckIff`, `Framing.StuckExample`); for a peer that goes away while
  sending, `Framing.CutStream` says which cuts do it.

## Model

| member | source | states |
|---|---|---|
| Solver.CurveIncreasing | judge/ratings.py:43-52 | every equation the engine solves has a strictly increasing left side |
| Solver.Solve | judge/ratings.py:47-69 | the loop with cached end values ends and returns the plain bisection's answer |
| Solver.RootInBounds | judge/ratings.py:47-69 | for any curve the answer lies inside the bounds |
| Solver.RootMonotone | judge/ratings.py:47-69 | for fixed bounds a larger target never gives a smaller answer, for any curve |
| Solver.RootAntitone | judge/ratings.py:47-69 | for fixed bounds and target a higher curve never gives a larger answer |
| Solver.RootNear | judge/ratings.py:47-69 | on the full range the answer is within 2 of the sign change or the clamped end |
| Solver.RootNarrowed | judge/ratings.py:100-104 | searching only between two approximate answers of outer targets loses no accuracy |
| Solver.RootOnChord | judge/ratings.py:47-69 | the answer meets the target exactly or lies on the chord over a piece of the halved range, no wider than 2, where the target is crossed |
| Variance.InitialDeviation | judge/ratings.py:14-16 | the starting deviation is 350 * 328.33 / 212 exactly, and VALID_RANGE is 20 of it to either side of 1500; the drift's ratio to the starting variance |
| Variance.VarLimIsLimit | judge/ratings.py:17-18 | VAR_LIM is positive and the fixed point of the recurrence |
| Variance.VarCache.GetVar | judge/ratings.py:72-76 | whatever calls filled the cache, the result is the recurrence's value and the cache only grows |
| Variance.VarianceLimit | judge/ratings.py:72-76 | the variance strictly decreases, stays above VAR_LIM, and its distance shrinks by (beta^2/(V+beta^2))^2 per contest |
| Mean.PrecisionStep | judge/ratings.py:72-76 | the precision after a contest is that of the drifted variance plus 1 / beta^2 |
| Variance.DeviationVanishes | judge/ratings.py:135-137 | the amount subtracted for display is positive and below any bound from some number of contests on |
| Performance.TargetMonotone | judge/ratings.py:90-97 | a better rank never has a smaller target |
| Performance.SolveIdx | judge/ratings.py:89-98 | writes exactly entry i, with the answer for player i's own target |
| Performance.DivConq | judge/ratings.py:101-106 | the in-place fill equals the recursive fill and writes the indices in midpoint order |
| Performance.MidpointsOnce | judge/ratings.py:101-106 | every inner index is written exactly once, no other index at all |
| Performance.FillSettles | judge/ratings.py:100-106 | between two correct ends the fill leaves a non-increasing stretch, every entry near its own root |
| Performance.ComputePerformances | judge/ratings.py:112-115 | the two end solves and the fill, as one function of the field |
| Performance.PerformancesCorrect | judge/ratings.py:88-115 | new_p is non-increasing and every entry is near its own root on the full range |
| Mean.PrecisionLeft | judge/ratings.py:119-131 | 1/var(T) exceeds the weights summed so far by at least the next history term |
| Mean.PriorWeightPositive | judge/ratings.py:117-132 | w0 is strictly positive with at most times_ranked past performances |
| Mean.ComputeMean | judge/ratings.py:118-133 | the history loop builds and solves the mean equation that RatingEquations.NewMeanEquation writes out |
| RatingEquations.NewMeanEquation | judge/ratings.py:117-133 | the equation of a new mean in full: weights, scale, w0, terms centred at the history's performances |
| MeanEquation.Bracketed | judge/ratings.py:131-133 | the old mean and the performance bracket the target of the mean equation |
| Mean.NewMeanBetween | judge/ratings.py:117-133 | for any history the new mean lies between old mean and performance, up to tolerance 2 |
| Mean.NewMeanMonotone | judge/ratings.py:117-133 | a better performance never gives a lower new mean, exactly |
| TieRanker.RankWithTies | judge/ratings.py:23-40 | the generator's buffered yields are the tie ranks |
| TieRanker.TieRanksAverage | judge/ratings.py:23-40 | each maximal run of equal keys gets the average of its 1-based positions |
| TieRanker.TieRanksOrdered | judge/ratings.py:23-40 | ranks never decrease along the list |
| TieRanker.TieRanksSum | judge/ratings.py:23-40 | ranks always sum to n(n+1)/2 |
| Ratings.RecalculateRatings | judge/ratings.py:79-139 | the whole update equals its specification, through the shared variance cache; RatingEquations writes that out |
| RatingEquations.PerformanceEquation | judge/ratings.py:84-115 | performance k is near the root of the written-out equation over all players' old means, contests and ranks |
| RatingEquations.AllTied | judge/ratings.py:88-115 | when all tie, performances lie between the least and the greatest old mean, up to 2 |
| RatingEquations.PlayerMeanEquation | judge/ratings.py:117-133 | every player's new mean solves that equation for the new performance followed by the past ones |
| RatingEquations.AloneUnchanged | judge/ratings.py:108-110 | fewer than two players keep their means |
| RatingEquations.ShownIs | judge/ratings.py:135-137 | the rating shown is the nearest integer to the mean less the excess deviation, but at least 1 |
| Ratings.RecalculatedSound | judge/ratings.py:79-139 | performances fall with rank, are near their roots; means lie between; shown ratings never exceed the rounded mean |
| Ratings.TiedPlayers | judge/ratings.py:88-115 | tied players' performances differ by at most 4, twice the tolerance |
| Ratings.RecalculatedFair | judge/ratings.py:79-139 | of two players with the same past, the one placed no worse is never rated lower |
| Ratings.ShownBelowMean | judge/ratings.py:135-137 | 1 <= shown rating <= max(1, round(mean)) |
| Ratings.ShownConverges | judge/ratings.py:135-137 | the shown rating falls short of the mean by less than any given amount after enough contests |
| ContestRating.PlayersOf | judge/ratings.py:163-176 | the queries give every player exactly as many past performances as rated contests |
| RatingRecords.LatestIs | judge/ratings.py:146-152 | rating and mean are those of the row of the latest contest, or 1200 and 1500; a profile is current iff it shows that row's rating |
| RatingRecords.PlayerRecord | judge/ratings.py:167-176 | the update is told the number of rows, the latest mean, and all performances, those of later contests first |
| RatingRecords.RatedExactly | judge/ratings.py:146-166 | a user gets a row iff some live participation is not excluded, has a submission (or all are rated), and the rating so far is within the contest's bounds |
| RatingRecords.WhoHasRows | judge/ratings.py:146-166 | who has a row from scratch: live participants of a rated, ended contest whose bounds their earlier rating meets |
| RatingRecords.TiedExactly | judge/ratings.py:166-166 | two players share a rank iff score, time and tie-breaker agree |
| RatingRecords.RowNames | judge/ratings.py:180-182 | a new row names the participation and the average position of its result |
| ContestRating.BetterKeyFair | judge/ratings.py:148-166 | the player the query puts first never gets the lower performance, and with the same past never the lower rating; a disqualified player never outperforms one who is not |
| ContestRating.PlayersRanked | judge/ratings.py:146-166 | the ranking handed to the update is non-decreasing |
| ContestRating.RateTable | judge/ratings.py:142-185 | rating a contest adds or changes only rows of that contest for eligible entries |
| ContestRating.FromScratchSplit | judge/models/contest.py:469-475 | from scratch, earlier rows are kept and the suffix is replayed on them |
| ContestRating.RateFromAgrees | judge/models/contest.py:469-475 | `rate` gives the from-scratch table iff the rows it keeps are the from-scratch earlier rows |
| ContestRating.RateFromCatchesUp | judge/models/contest.py:469-475 | a table right up to time t becomes right up to now iff no rated contest that ended after t and before the suffix has anybody to rate |
| ContestRating.RateFromCounterexample | judge/models/contest.py:469-475 | two contests, the later rated first: the table differs |
| ContestRating.RateFromProfile | judge/ratings.py:187-189 | after `rate` a profile is current iff its user was replayed or it already showed the latest kept row |
| ContestRating.RateFromCurrent | judge/models/contest.py:469-475 | all profiles stay current if the deleted rows belonged to still-rated contests |
| ContestRating.RateAllCurrent | judge/admin/contest.py:285-293 | after rating everything every profile shows its user's latest rating |
| RatingHistory.RecomputedPlayers | judge/models/contest.py:511-518 | recomputing a participation keeps who takes part, only standings fields change |
| RatingHistory.RedoneResult | judge/models/contest.py:511-518 | what recomputing leaves in each participation |
| RatingHistory.DisqualifiedBehind | judge/models/contest.py:511-518 | a disqualified participation ranks strictly behind everyone with a score above -9999 |
| RatingHistory.ReplayChanged | judge/models/contest.py:521-525 | changing one contest's participations changes no table without rows of that contest |
| RatingHistory.RateFromRight | judge/models/contest.py:469-475 | rating from any contest keeps right the rows that were, and makes all right if nothing stands between them and the replay |
| RatingHistory.SetDisqualifiedAgrees | judge/models/contest.py:521-525 | (un)disqualifying keeps the right rows right for the changed contest, also when it does not re-rate, and makes all right if that contest was among them |
| RatingHistory.RunRight | judge/models/contest.py:469-525 | over any run of rating in any order, disqualifying and changed standings, the rows of contests ended by the time accounted for are the from-scratch rows |
| RatingHistory.AllRight | judge/models/contest.py:469-475 | when that time is the present, the whole table is the from-scratch table |
| RatingHistory.RunCurrent | judge/ratings.py:184-189 | over any such run, right or not, every profile shows the rating of its user's row in the latest contest, or nothing |
| RatingHistory.Database.ReadPlayers | judge/ratings.py:163-176 | the lists built from the queries are the update's input |
| RatingHistory.Database.RateContest | judge/ratings.py:142-189 | writes the new rows and refreshes the live participants' profiles, nothing else |
| RatingRecords.ProfilesAfter | judge/ratings.py:187-189 | live participants' profiles show their latest ratings afterwards, all others are untouched |
| RatingHistory.Database.Rate | judge/models/contest.py:469-475 | deletes the suffix and replays it in end-time order |
| RatingHistory.Database.RateAllView | judge/admin/contest.py:285-293 | clears everything and rates all ended contests in end-time order |
| RatingHistory.Database.SetDisqualifiedTo | judge/models/contest.py:511-525 | the participation is recomputed, who takes part stays, and the contest is re-rated iff it is rated and has rows |
| JudgeQueue.InsertWellMarked | judge/bridge/judge_list.py:156-159 | inserting keeps the four markers in order and last |
| JudgeQueue.InsertQueue | judge/bridge/judge_list.py:156-159 | inserting before marker p appends to queue p and changes no other queue |
| JudgeQueue.RemoveQueue | judge/bridge/judge_list.py:50-51 | removing takes one entry out of its own queue and changes no other |
| JudgeQueue.PickFirst | judge/bridge/judge_list.py:29-53 | the walk dispatches the first fitting submission, and nothing iff none fits |
| JudgeQueue.PickFair | judge/bridge/judge_list.py:29-53 | in terms of the four queues, only submissions the judge cannot take precede the dispatched one |
| Scheduler.InitialOwned | judge/bridge/judge_list.py:21-27 | the empty scheduler satisfies the ownership invariant |
| Scheduler.HandleFreeOwned | judge/bridge/judge_list.py:29-53 | handing a judge work keeps ownership iff the judge was idle or nothing fits |
| Scheduler.FinishOwned | judge/bridge/judge_list.py:101-106 | a finish report keeps ownership iff it names the judge's own submission |
| Scheduler.NextOwned | judge/bridge/judge_list.py:58-160 | a step keeps that waiting and running are disjoint and running[id] = j iff j works on id, iff it is not an offer that comes too late |
| Scheduler.NextStartsOnIdle | judge/bridge/judge_list.py:29-160 | no judge is given a submission while busy, iff the step is not an offer that comes too late |
| Scheduler.HandshakeHandsWork | judge/bridge/judge_handler.py:170-172 | a judge disabled in the database is handed a waiting submission at its handshake iff one fits it as an enabled judge, and which one |
| Scheduler.StaysIdle | judge/bridge/judge_handler.py:316-321 | an offer can come too late only after the judge was sent a submission or another's removal left it alone |
| Scheduler.RegisterNames | judge/bridge/judge_list.py:58-63 | every other judge stays registered; names stay unique iff they were and the newcomer's is new |
| Scheduler.NextKnown | judge/bridge/judge_list.py:81-160 | a submission is known after a step iff it was and the step does not end it, or the step submits it |
| Scheduler.RunOwned | judge/bridge/judge_list.py:18-160 | ownership holds in every state of every run without a late offer |
| Scheduler.RunAccounted | judge/bridge/judge_list.py:81-160 | an accepted submission is in exactly one map until finished, aborted while waiting, or its judge removed |
| JudgingRules.GivenFirst | judge/bridge/judge_list.py:29-53 | a judge offered work gets the first waiting submission it may judge that is not a rejudge held back, and nothing iff there is none |
| JudgingRules.SubmitRules | judge/bridge/judge_list.py:127-160 | a new submission goes to a ready judge of least load, or to the end of its priority's queue iff none is ready or it is a rejudge held back |
| JudgingRules.StartsRightly | judge/bridge/judge_handler.py:174-176 | a submission starts only on a judge with its problem and language that is enabled or, if it is addressed, is the one addressed |
| JudgingRules.OnlyThereFromTheStart | judge/bridge/judge_list.py:18-160 | over any run a submission always addressed to one judge only ever runs on a judge of that name |
| Draining.NextDrained | judge/bridge/judge_list.py:29-160 | no urgent waiting submission fits an enabled idle judge that is not about to look for work; kept by every step that re-enables no judge |
| Draining.EnablingDrained | judge/bridge/judge_list.py:75-79 | exactly when re-enabling judges keeps that property |
| Draining.RunDrained | judge/bridge/judge_list.py:29-160 | the property holds throughout runs that re-enable no judge |
| Draining.FromTheStart | judge/bridge/judge_list.py:18-160 | both invariants in every state reached from the empty scheduler without re-enabling and late offers |
| Draining.QueuedReserve | judge/bridge/judge_list.py:36-38 | a queued rejudge is dispatched only if, with several enabled judges, a free one remains |
| Draining.DirectReserve | judge/bridge/judge_list.py:134-142 | a rejudge sent directly leaves another candidate free, if there were several candidates |
| Draining.LastJudgeDrained | judge/bridge/judge_list.py:91-96 | when one judge is left, no waiting submission of any priority fits it while it is idle, disabled or not |
| Settling.SettledIs | judge/bridge/judge_list.py:34-42 | no waiting submission stands beside an enabled idle judge that could be given it, iff no urgent one does and the reserve is on or no rejudge does |
| Settling.NextSettled | judge/bridge/judge_list.py:29-160 | for every kind of step, exactly when it keeps this |
| SchedulerExamples.HandshakeCounterexample | judge/bridge/judge_handler.py:170-172 | a run after which a judge disabled in the database works on a submission |
| SchedulerExamples.EnablingCounterexample | judge/bridge/judge_list.py:75-79 | a run after which re-enabling leaves an urgent submission beside a free judge |
| SchedulerExamples.RemoveCounterexample | judge/bridge/judge_list.py:91-96 | a run after which a removal strands a rejudge: one enabled and one disabled judge are left |
| SchedulerExamples.JudgingCounterexample | judge/bridge/judge_list.py:134-159 | a run after which a rejudge is queued beside a free judge with nothing reserved |
| SchedulerExamples.FinishCounterexample | judge/bridge/judge_list.py:101-106 | a run after which a finish strands a rejudge beside another judge |
| SchedulerExamples.RegisterCounterexample | judge/bridge/judge_list.py:58-63 | a run after which a judge that registers strands a rejudge beside another judge |
| SchedulerExamples.DisableCounterexample | judge/bridge/judge_list.py:75-79 | a run after which turning a judge off strands a rejudge beside another judge |
| SchedulerExamples.LateOffer | judge/bridge/judge_handler.py:316-321 | a run after which a judge at work is given a second submission |
| SchedulerExamples.Namesakes | judge/bridge/judge_list.py:58-69 | a run that leaves two judges of one name registered |
| LinkedList.DoublyLinked.InsertBefore | judge/bridge/judge_list.py:156-159 | relinks so that the new node stands right before the given one |
| LinkedList.DoublyLinked.Remove | judge/bridge/judge_list.py:50-50 | relinks so that exactly the given node is gone |
| JudgeList.Dispatcher.constructor | judge/bridge/judge_list.py:21-27 | builds the four markers and empty maps |
| JudgeList.Dispatcher.FindWork | judge/bridge/judge_list.py:31-53 | following the links finds the node the specification picks |
| JudgeList.Dispatcher.HandleFreeJudge | judge/bridge/judge_list.py:29-53 | is the specification's step, keeping node_map a bijection with the waiting nodes |
| JudgeList.Dispatcher.Disconnect | judge/bridge/judge_list.py:65-69 | tells exactly the judges whose name equals what is passed |
| JudgeList.Dispatcher.Register | judge/bridge/judge_list.py:58-63 | is the register step, and disconnects nobody |
| JudgeList.Dispatcher.SetProblems | judge/bridge/judge_handler.py:316-319 | is the step that puts a new problem list in force |
| JudgeList.Dispatcher.TestIdle | judge/bridge/judge_handler.py:320-320 | is the test without the lock |
| JudgeList.Dispatcher.UpdateProblems | judge/bridge/judge_list.py:71-73 | is the offer step, whatever the judge does by then |
| JudgeList.Dispatcher.UpdateDisableJudge | judge/bridge/judge_list.py:75-79 | sets the flag of every judge of the name and of no other |
| JudgeList.Dispatcher.Remove | judge/bridge/judge_list.py:81-96 | is the remove step, with the wake-up of the last judge |
| JudgeList.Dispatcher.OnJudgeFree | judge/bridge/judge_list.py:101-106 | is the finish step; a submission that is not running is refused and changes nothing |
| JudgeList.Dispatcher.Abort | judge/bridge/judge_list.py:108-122 | tells a running judge or dequeues, and reports which |
| JudgeList.Dispatcher.FindAvailable | judge/bridge/judge_list.py:134-142 | the candidates and the reserve rule as the specification's choices |
| JudgeList.Dispatcher.LeastLoad | judge/bridge/judge_list.py:146-146 | returns a judge of least load |
| JudgeList.Dispatcher.JudgeSubmission | judge/bridge/judge_list.py:127-160 | is the submit step with a legal choice; a known id changes nothing |
| Grading.LabelledInBatch | judge/bridge/judge_handler.py:487-538 | a case is numbered iff it lies inside a batch, also after abandoned submissions |
| Grading.SameBatch | judge/bridge/judge_handler.py:487-538 | two cases of one grading share a number iff they lie between the same batch-begin and batch-end |
| Grading.SameNumber | judge/bridge/judge_handler.py:326-538 | over the whole stream, two numbered cases share a number iff as many batches were begun since the last grading-begin or grading-end before each |
| Grading.StoredCases | judge/bridge/judge_handler.py:326-575 | what is graded is exactly what was reported since the submission's last grading-begin (what a case holds: ReportedCases.StoredAsReported) |
| ReportedCases.StoredAsReported | judge/bridge/judge_handler.py:513-575 | each stored case has the position, time, memory, points, total and flags' verdict of the result reported at its place |
| ReportedCases.BitsAddUp | judge/bridge/judge_handler.py:516-530 | the flags tested are the binary digits of the status |
| ReportedCases.VerdictIs | judge/bridge/judge_handler.py:516-532 | the verdict of a case by the flags of its status |
| ReportedCases.UnbatchedGrading | judge/bridge/judge_handler.py:326-379 | without batches, points, total and time are the sums of what was reported |
| Grading.Collect | judge/bridge/judge_handler.py:353-375 | the first loop's sums, per-batch minima and maxima, memory peak and worst verdict |
| Grading.AddBatches | judge/bridge/judge_handler.py:377-379 | adds each batch once, in any order |
| Grading.Aggregate | judge/bridge/judge_handler.py:353-379 | points = unbatched sum + per-batch minima, total likewise with maxima |
| Grading.TallyPermuted | judge/bridge/judge_handler.py:361-379 | the tally does not depend on the order of the cases |
| Grading.TallyBounds | judge/bridge/judge_handler.py:361-379 | 0 <= points <= total if every case obeys that bound |
| Grading.WorstVerdict | judge/bridge/judge_handler.py:357-395 | the verdict written is that of a most severe case |
| ReportedCases.ScoreIs | judge/bridge/judge_handler.py:381-394 | points and total to the nearest tenth, the score their proportion of the problem's points to the nearest thousandth |
| ReportedCases.VerdictAmong | judge/bridge/judge_handler.py:357-395 | the submission's verdict by which verdicts occur |
| Grading.ScoreBounds | judge/bridge/judge_handler.py:381-394 | the rounded score lies between 0 and the problem's points, and is all or nothing without partial credit |
| Grading.FullTally | judge/bridge/judge_handler.py:361-379 | with full points on every case, points = total iff each batch's cases are worth the same |
| Grading.ScoreIsWorth | judge/bridge/judge_handler.py:381-389 | for any tally and both kinds of credit, exactly when the score is the problem's points |
| Grading.FullMarks | judge/bridge/judge_handler.py:381-389 | full points on every case with even batches earn the problem's points iff the rounded total is positive and the problem's points are a multiple of a thousandth (or zero); what else they earn |
| Grading.UnevenBatch | judge/bridge/judge_handler.py:367-389 | full points on a 5-point and a 10-point case of one batch earn half the points, or nothing without partial credit |
| Grading.RoundedAway | judge/bridge/judge_handler.py:381-389 | a problem worth 0.0001 is never solved, nor one whose cases total 0.04 |
| BatchPositions.SameOpening | judge/bridge/judge_handler.py:487-538 | two cases of one grading share a batch number iff their batch was opened by the same packet |
| BatchPositions.NumberShared | judge/bridge/judge_handler.py:326-538 | cases of different batches share a number iff a grading-begin or grading-end lies between them and the counts agree |
| BatchPositions.MixedUp | judge/bridge/judge_handler.py:326-538 | a stream in which they do |
| BatchPositions.GradedByPosition | judge/bridge/judge_handler.py:326-575 | what a grading's stored cases add up to is what its reported cases add up to with batches told apart by the packet that opened them |
| Grading.JudgeHandler.OnGradingBegin | judge/bridge/judge_handler.py:326-339 | resets the batch counter and a known submission's cases |
| Grading.JudgeHandler.OnBatchBegin | judge/bridge/judge_handler.py:487-493 | opens the next batch |
| Grading.JudgeHandler.OnTestCase | judge/bridge/judge_handler.py:502-575 | stores the reported cases with the current batch number |
| Grading.JudgeHandler.OnGradingEnd | judge/bridge/judge_handler.py:341-396 | writes points, score, time, memory and verdict of exactly the stored cases |
| EventLog.PostHolds | websocket/daemon.js:27-35 | the log always holds the most recent messages, ids counting up |
| EventLog.CatchUpSends | websocket/daemon.js:20-25 | catching up sends the logged messages above the position, in the filter |
| EventLog.ReceivedExactly | websocket/daemon.js:20-83 | what a follower receives for any start, in full |
| EventLog.FollowerPromise | websocket/daemon.js:20-83 | for a start at or below the current id: exactly the messages its filter lets through above start, in order, once each, iff none of them was dropped before |
| EventLog.FollowerInherits | websocket/daemon.js:20-83 | exactly the messages on the channels it asked for, iff also none was posted on an inherited name it did not ask for |
| EventLog.InheritedExample | websocket/daemon.js:79-83 | a message on an inherited name reaches a socket that did not ask for it |
| EventLog.AnswerIsFirst | websocket/daemon.js:184-205 | a long poll is answered with the first message asked for, iff none asked for was dropped before and none on an inherited name comes first |
| EventLog.ChainSees | websocket/daemon.js:172-205 | a chain of polls sees the messages its channels let through one after the other |
| EventLog.Daemon.PostMessage | websocket/daemon.js:27-43 | appends, evicts the oldest, delivers to every follower, answers and removes matching pollers; the log stays the newest messages and every follower up to date |
| EventLog.Daemon.SetFilter | websocket/daemon.js:57-76 | a non-empty filter, with the inherited names, makes the socket a follower and catches it up; anything else changes nothing |
| EventLog.Daemon.LongPoll | websocket/daemon.js:172-205 | answers from the log, inherited names included, or keeps waiting |
| EventLog.Daemon.Session | websocket/daemon.js:20-205 | after its start and filter and any requests of anyone else a socket has received exactly what `Received` says, and what it asked for iff none of that was dropped before and nothing was posted on an inherited name it did not ask for |
| Framing.UnpackPack | judge/bridge/base_handler.py:13-14 | sizes survive packing |
| Framing.PackBigEndian | judge/bridge/base_handler.py:13-14 | sizes go out most significant byte first |
| Framing.ParseStream | judge/bridge/base_handler.py:71-89 | reading what was sent gives back the packets, whatever follows |
| Framing.ParseSent | judge/bridge/base_handler.py:71-89 | reading all that was sent gives the packets up to the first too large one, which ends the connection |
| Framing.StuckIff | judge/bridge/base_handler.py:85-88 | reading never ends iff the peer closes inside a body that is being read |
| Framing.StuckExample | judge/bridge/base_handler.py:85-88 | such a stream |
| Framing.CutStream | judge/bridge/base_handler.py:71-114 | if the peer goes away after k bytes, the whole frames are delivered, and reading gets stuck iff the next size had gone out |
| Framing.Connection.ReadSize | judge/bridge/base_handler.py:108-114 | reads four bytes across any chunks, or reports a closed peer |
| Framing.Connection.ReadSizedPacket | judge/bridge/base_handler.py:71-89 | reads exactly one body across any chunks; refuses oversized ones; gets stuck on short ones |
| Framing.Connection.Spin | judge/bridge/base_handler.py:85-88 | once stuck, however often the loop goes round nothing is read and nothing changes |
| Framing.Connection.Handle | judge/bridge/base_handler.py:147-172 | delivers exactly the packets of any stream and ends, or gets stuck, for the right reason |
| Framing.Connection.Send | judge/bridge/base_handler.py:196-198 | a peer that reads all that was sent gets all packets sent so far, up to the first too large one; a packet whose size does not fit is not sent |
| Framing.RoundTrip | judge/bridge/base_handler.py:71-198 | packets sent one by one are delivered in order for any chunking, all of them if all are of allowed size |
| PerformancePoints.TableWeights | judge/models/profile.py:242-242 | the weight table is falling and non-negative |
| PerformancePoints.TableIs | judge/models/profile.py:242-242 | the first weight is 1, each next one `step` times the one before |
| PerformancePoints.BestIs | judge/models/profile.py:247-251 | per problem the most points of its graded submissions |
| PerformancePoints.WeightedIs | judge/models/profile.py:244-260 | the weighted part is the sum of weight times score, position by position |
| PerformancePoints.Rearrangement | judge/models/profile.py:244-260 | the weighted sum is the greatest over all orderings of the best scores |
| PerformancePoints.BetterScores | judge/models/profile.py:244-260 | raising best scores or adding problems never lowers it |
| PerformancePoints.MoreSubmissions | judge/models/profile.py:247-260 | one more submission of any score never lowers it |
| PerformancePoints.GetBreakdown | judge/performance_points.py:16-82 | a page shows exactly its weighted entries; has_more iff another weighted entry exists |
| PerformancePoints.PageShows | judge/performance_points.py:57-80 | each entry of a page: its score, its weight in percent, their product |
| PerformancePoints.PagesComplete | judge/performance_points.py:57-81 | consecutive pages sum to the weighted part |
| PerformancePoints.Profile.CalculatePoints | judge/models/profile.py:244-266 | writes the three fields, saving only when one changes |
| Standings.BestAndFirst | judge/contest_format/icpc.py:55-66 | the query's maximum and the earliest time it was reached |
| StandingCounts.SolvedValue | judge/contest_format/icpc.py:68-92 | a solved problem adds its points, the seconds to the first best submission, and the penalty for each judged submission to it up to then but one |
| StandingCounts.CellShows | judge/contest_format/icpc.py:68-92 | what is kept for display of each problem |
| StandingCounts.UnsolvedValue | judge/contest_format/icpc.py:78-83 | a problem without points adds nothing; all its judged submissions are displayed |
| StandingCounts.StandingIs | judge/contest_format/icpc.py:85-97 | score, cumulative time and tie-breaker of both formats as sums and last times |
| StandingCounts.OtherProblem | judge/contest_format/icpc.py:68-92 | a submission to another problem, of any date, changes nothing about this one |
| StandingCounts.LesserSubmission | judge/contest_format/icpc.py:68-92 | a lesser submission of any date changes only the penalty, by one penalty iff it was judged and not after the first best one |
| StandingCounts.UnjudgedNothing | judge/contest_format/icpc.py:68-92 | an unjudged submission without points to an unsolved problem changes nothing |
| Standings.Reordered | judge/contest_format/icpc.py:68-92 | the standing does not depend on the order of the rows |
| Standings.LateSubmission | judge/contest_format/icpc.py:47-98 | a later submission leaves score, cumtime and tie-breaker unchanged iff it is no better, in both formats |
| Standings.Participation.UpdateICPC | judge/contest_format/icpc.py:47-98 | the accumulating loop computes the standing and the cells |
| Standings.Participation.UpdateAtCoder | judge/contest_format/atcoder.py:47-96 | likewise for AtCoder |

## Left out

- Floating-point rounding: all arithmetic is exact; Python's `round` is modelled with halves to even.
- The random tie-break on load, clocks and timers: a nondeterministic choice, and times as inputs.
- Scheduler.NextOwned: runs in which `submit` raises are excluded, because the code does not restore ownership there.
- Framing.Connection.Handle: the PROXY-header path and sockets that raise or time out are not modelled.
- RatingHistory.RunCurrent: changes to a contest's own fields (its end, whether it is rated) and deleted participations are
  not among the actions; when profiles go stale then is `ContestRating.RateFromProfile`.
- zlib, JSON, the SQL engine, threads: an inverse pair, records, functions of rows, atomic steps.
- Grading.JudgeHandler.OnGradingEnd: assumes that freeing the judge does not fail, that is, that the packet names the
  submission the judge works on.
- EventLog.Daemon.PostMessage: pollers that answer leave the set while it is walked; the model walks a copy.
- Database uniqueness errors: contests have one live participation per user, test case positions do not repeat.
- Ranks are stored as integers by the database; the model stores the floor.
- ContestRating.RateTable: players equal in all ordering fields keep the order the query returned, which the model takes as
  given (`ContestRating.InQueryOrder` is the rest of the order).
- PerformancePoints.GetBreakdown: columns that are only shown (dates, languages, verdict names) are not modelled.
- Standings.LateSubmission: compares scores before rounding to the contest's precision.
- Ping, what a disconnected judge does, logging, event posting from the handlers, and `banned_users`.
- `rate_course`, visibility predicates, forms, templates, authentication: they would add only easy members.
