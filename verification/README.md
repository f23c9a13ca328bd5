# Verified model of the support desk's protocols

This project models the parts of the repository whose correctness depends on whole runs rather than single calls, and
proves what they keep. Programs that change rows, fields or counters step by step are classes whose methods carry the
source's loops; each method is proved equal to a function on values, and the properties are proved about those functions
over every history. Expressions and recursive code are functions and lemmas.

| files | what they model |
|---|---|
| `Transcript.dfy` | the provider transcript of an agent run, its JSON snapshot, and "each call answered exactly once" |
| `AgentRuns.dfy`, `Activations.dfy`, `AgentRunTheorems.dfy`, `AgentAnswers.dfy` | one activation of a run: claim, resume, the tool loop, parks, budgets, termination, and what each answer of the provider comes to |
| `Threads.dfy`, `ThreadRows.dfy` | one conversation's runs, approvals, page waits, task queue and tour link; every atomic step |
| `ThreadSafety.dfy`, `ThreadLiveness.dfy`, `ThreadHistory.dfy`, `ThreadTheorems.dfy`, `ThreadApprovals.dfy` | invariants and theorems over every history of those steps |
| `ThreadSteps.dfy`, `ThreadAnswers.dfy`, `ThreadWords.dfy`, `ThreadParks.dfy` | what each event does to rows, tasks, posts and transcripts, told from the state it finds, and what a parked run keeps until it resumes |
| `BusinessHours.dfy`, `BusinessCalendar.dfy` | opening hours: pointwise, by the calendar, elapsed open time, and deadlines as exact inverses |
| `Tours.dfy`, `TourPlayers.dfy`, `TourTheorems.dfy`, `TourLandings.dfy` | the product-tour player: handlers, reloads, stored progress, stale continuations, and what each handler reports and shows |
| `Overlay.dfy` | spotlight blockers and tooltip placement, over the reals |
| `Globs.dfy`, `UrlPatterns.dfy` | two glob-to-regex compilers, the regex text they write, and the pattern generator |
| `Automation.dfy`, `AutomationTheorems.dfy`, `AutomationOrder.dfy` | rule cascades: depth cap, failures, the per-message memory, and the order of rules and actions in the log |
| `RateLimit.dfy`, `RateLimitTheorems.dfy` | the evicting deque and the Redis counter |
| `ImapCursor.dfy` | exactly-once IMAP polling by UID |
| `Locales.dfy`, `LocaleTheorems.dfy`, `LocaleWeights.dfy` | locale normalisation and Accept-Language negotiation, and how tags and weights read as text |
| `Strings.dfy`, `Wrappers.dfy` | splitting and joining; the optional value |

## How the agent protocol is modelled

A history is any sequence of inbound messages, deliveries of outstanding tasks (also duplicated or lost ones), page
results, approval decisions, expiry sweeps, stale-wait sweeps, reaper passes, tour telemetry and human status changes. One
delivery is one transaction (`backend/app/agents/tasks.py:46`): it either commits the row it parked or finished, or is
rolled back and its task stays. The language model, the tools and the visitor's page are adversaries that choose answers:
`Delivery`, `Turn`, `Outcome` and `PageResult`. Assumed: the agent row exists and its settings are fixed, the clock never
runs backwards, and a new run's `(created_at, id)` is greater than every older one's. The last assumption is needed:
`ThreadTheorems.TiedClockPassesTheGuard` shows that without it the in-order guard lets two runs proceed side by side from
any state with a run in flight.

## Where the code does not keep a promise

- An approval is not executed at most once in general. A retryable provider error after a resume rolls the rows back but
  not the outside world, so the next delivery executes the approved call again (`ThreadTheorems.RefundHappensTwice` is a
  concrete history). It is executed at most once if and only if no delivery of its armed run that the provider fails
  retryably is followed by another delivery of that run (`ThreadApprovals.ApprovedAtMostOnceExactly`).
- `running` is never a committed status, so the lease branch of the reaper and the crash path of the claim guard against
  rows nobody commits (`ThreadHistory.RunningIsNeverCommitted`).
- The wall-clock fallback of `deadline` is wrong unless the schedule happens to be open throughout, and is reached exactly
  when the allowance exceeds what the twenty-year scan can see (`BusinessHours.FallbackExactly`).
- Finishing a preview clears the visitor's stored tour position, because `finish` clears storage unconditionally. Visitors
  meet this without any author: the assistant's walkthroughs are started as previews (`widget/src/loader.ts:534-556`). The
  books of a tour balance if and only if no preview finished while storage held it (`TourTheorems.OneTourLedger`,
  `TourTheorems.BooksBalanceExactly`; `TourTheorems.PreviewForgetsTheVisitor` is a concrete visit).
- The glob matchers document that they agree with the backend's `fnmatch`. On patterns without character classes they do
  exactly for values without line terminators whose characters both sides fold alike (`Globs.AgreesWithServerExactly`).
  Tours, surveys and checklists call `fnmatch` on the raw address, which keeps case on a POSIX host, so a capital letter
  in an address already tells the two apart (`Globs.CapitalsTellThemApart`); guides fold both sides to lower case. The two
  matchers differ from each other on one input (`Globs.MatchersAgree`).
- The comment promising that generated patterns never contain `**` holds exactly when the page's own path does not
  (`UrlPatterns.DoubleStarOnlyFromThePage`, `UrlPatterns.DoubleStarAtAPage`). A page with an opaque origin, such as a
  file, gets a pattern that starts with "null" and does not match it (`UrlPatterns.UrlPatternMatchesItsPage`).
- The fixed Redis window admits less than twice the limit: `2 * times - 1`, and that bound is met
  (`RateLimitTheorems.FixedWindowHolds`, `RateLimitTheorems.FixedWindowIsTight`).
- An IMAP message whose fetch carries no payload is passed by and never asked for again (`ImapCursor.UnreadPayloadIsLost`).
  A message of the mailbox between baseline and cursor is received, once, if and only if its fetch in the one poll that
  crossed it carried a payload (`ImapCursor.ReceivedExactlyOnce`).

## Model

| member | source | states |
|---|---|---|
| Transcript.MessagesRoundTrip | backend/app/agents/engine.py:179-215 | deserialising a serialised transcript gives it back, for every transcript |
| Transcript.EveryCallAnswered | backend/app/agents/engine.py:750-758 | in a settled transcript every id an assistant message asked under has exactly as many tool results |
| Transcript.AskedOwesFirst | backend/app/agents/engine.py:750-758 | recording a reply with several calls and refusing all but the first leaves exactly the first owed |
| Transcript.RefusalsAnswer | backend/app/agents/engine.py:752-758 | the refusals answer every call after the first, whatever else is owed |
| Transcript.AnswerSettles | backend/app/agents/engine.py:776-790 | answering the one owed call settles the transcript |
| Transcript.OpeningSettled | backend/app/agents/engine.py:402-424 | a fresh prompt with capped history owes nothing |
| AgentRuns.MaxToolCalls | backend/app/agents/engine.py:507-513 | the limit is at least one, whatever the setting |
| AgentRunTheorems.DriveStops | backend/app/agents/engine.py:689-811 | whatever the provider and tools answer, an activation sends only settled transcripts, stays within every budget and ends in a legal row |
| AgentRunTheorems.BackstopNeverFires | backend/app/agents/engine.py:689-698 | the loop with and without its absolute backstop is the same function |
| AgentRunTheorems.DriveEnds | backend/app/agents/engine.py:689-747 | the provider is called at most once per remaining tool call and once more, after which the run has parked or ended |
| AgentRunTheorems.DriveAbortsExactly | backend/app/agents/engine.py:700-717 | the loop is rolled back exactly when its answers go down while it still asks |
| AgentRunTheorems.DriveFootprint | backend/app/agents/engine.py:770-811 | a loop executes only tools that need no approval, raises at most the request its row names, and leaves row identity alone |
| AgentRunTheorems.BeginSound | backend/app/agents/engine.py:645-686 | a resume restores the loop invariant: the parked call is answered, nothing is pending, the budget covers the trace |
| AgentRunTheorems.ActivationLegal | backend/app/agents/engine.py:548-811 | an activation of a legal row sends only settled transcripts and stops in a legal row |
| AgentRunTheorems.ActivationCommits | backend/app/agents/engine.py:689-811 | an activation whose provider calls are answered, or fail for good, always commits |
| AgentRunTheorems.ClaimLegal | backend/app/agents/engine.py:913-927 | claiming a legal committed row yields a row an activation may start from |
| AgentAnswers.AnswersDecide | backend/app/agents/engine.py:689-811 | against any script: each transcript sent is the one before with the calls recorded, the others refused and the first answered; the tools run are exactly those the answers ask for; and the last answer heard says how the run ends, parks or is rolled back |
| AgentAnswers.ToldHeard | backend/app/agents/engine.py:689-811 | the provider is asked up to and including the first answer that does not make the loop go on |
| AgentAnswers.ResumeTells | backend/app/agents/engine.py:645-686 | a resume appends one message to the parked transcript: the page's own text and flag, the approved tool's outcome, or the refusal; and runs the approved call alone |
| AgentAnswers.FreshRunOpens | backend/app/agents/engine.py:402-424 | a fresh run hears the prompt, then the last thirty lines in order, each as who said it |
| Activations.Activation.Loop | backend/app/agents/engine.py:689-811 | the `while True` loop computes exactly the specified activation |
| Activations.Activation.Dispatch | backend/app/agents/engine.py:770-811 | policy dispatch of one call: refuse, ask a human, ask the page or execute |
| Activations.Activation.DispatchClient | backend/app/agents/engine.py:1033-1071 | page calls: offer instead of starting, refuse over budget or invalid, else park |
| Activations.Activation.Record | backend/app/agents/engine.py:750-760 | the refusal loop appends exactly the specified messages and spends one call |
| Activations.Activation.CountRequests | backend/app/agents/engine.py:1074-1105 | the counting loop returns the number of earlier requests of that kind |
| Activations.Activation.CountToolCalls | backend/app/agents/engine.py:523-531 | the counting loop returns the executed calls in the trace |
| Activations.Activation.ExecuteTool | backend/app/agents/engine.py:776-811 | a server tool runs, is traced twice and answered; hand-off and close end the run |
| Activations.Activation.ParkForApproval | backend/app/agents/engine.py:970-1030 | parks on a fresh request with snapshot, no lease and a one-day deadline |
| Activations.Activation.ParkForClient | backend/app/agents/engine.py:1108-1153 | parks on a fresh page op with snapshot, and links a guide's tour |
| Activations.Activation.Resume | backend/app/agents/engine.py:645-686 | restores the transcript and applies the verdict or the page result, or reports that neither is in |
| Activations.Activation.TakePageResult | backend/app/agents/engine.py:1404-1428 | the page's answer becomes the tool result of the parked call |
| Activations.Activation.HandToHuman | backend/app/agents/engine.py:1524-1542 | fallback: the desk leaves the AI queue and the run ends handed off |
| Activations.Activation.Reply | backend/app/agents/engine.py:1481-1511 | a final reply posts once and completes the run |
| Activations.Activation.Break | backend/app/agents/engine.py:1545-1555 | a failed provider ends the run as failed and hands the desk to a human |
| ThreadRows.Thread.OnMessageCreated | backend/app/agents/engine.py:1838-1894 | an inbound message supersedes queued runs, creates the newest run and enqueues it unless one is in flight |
| ThreadRows.Thread.MergeQueued | backend/app/agents/engine.py:1860-1894 | the superseding loop, as specified |
| ThreadRows.Thread.HasEarlierActive | backend/app/agents/engine.py:896-910 | the search answers whether any other active run has a smaller key |
| ThreadRows.Thread.ExecuteRun | backend/app/agents/engine.py:548-811 | one delivery takes exactly the specified step: wait, cancel, skip, fail, roll back or commit |
| ThreadRows.Thread.CommitActivation | backend/app/agents/engine.py:1558-1587 | a stopped activation writes its row, request, link and reply, and wakes the next run when it ended |
| ThreadRows.Thread.ChainNextQueued | backend/app/agents/engine.py:1590-1609 | enqueues the queued run with the least key, if any |
| ThreadRows.Thread.SubmitClientResult | backend/app/agents/engine.py:1385-1401 | accepted exactly when the run waits for this op; otherwise nothing changes |
| ThreadRows.Thread.Decides | backend/app/agents/engine.py:1698-1759 | accepted exactly when undecided; a late approval counts as expiry |
| ThreadRows.Thread.ExpireAllOverdue | backend/app/agents/engine.py:1762-1797 | the loop rules every overdue request expired and wakes its run |
| ThreadRows.Thread.SweepStaleClientWaits | backend/app/agents/engine.py:1431-1478 | the loop answers every stale page wait with a timeout and wakes its run |
| ThreadRows.Thread.ReapStalledRuns | backend/app/agents/engine.py:1897-1931 | the loop re-enqueues every stalled run |
| ThreadRows.Thread.ResolveGuideWait | backend/app/agents/engine.py:1287-1356 | telemetry resumes or silently closes the guide wait of this tour, and nothing else |
| ThreadRows.Thread.ProcessEvent | backend/app/agents/tour_events.py:178-247 | settles the linked wait and mirrors each stage once per link |
| ThreadRows.Thread.Take | backend/app/agents/engine.py:548-1931 | every event of a history is one of these entry points |
| ThreadRows.Thread.Replay | backend/app/agents/engine.py:548-1931 | from a fresh thread the entry points reach exactly the states the theorems below speak of |
| ThreadSafety.EveryHistorySafe | backend/app/agents/engine.py:548-1931 | every reachable state satisfies the whole invariant: order, single file, legal rows, requests, gate, counts, replies, ops, lines |
| ThreadSafety.NextSafe | backend/app/agents/engine.py:548-1931 | every step keeps that invariant |
| ThreadTheorems.RunsGoSingleFile | backend/app/agents/engine.py:570-589 | at most one run is queued and it is newer than every other active run; at most one is in flight |
| ThreadTheorems.RepliesFollowMessages | backend/app/agents/engine.py:896-910 | replies answer strictly newer messages in turn, each from a run of its own |
| ThreadTheorems.NewestMessageInHand | backend/app/agents/engine.py:1838-1894 | while the thread stays in the AI queue the newest message taken up is answered, closed by its tour, or in an active run's hands; only superseded runs were canceled |
| ThreadHistory.NewestRunIsNewestMessage | backend/app/agents/engine.py:1838-1894 | in every reachable state the newest run is the one of the newest message that found the thread in a live agent's queue |
| ThreadHistory.StayedExactly | backend/app/agents/engine.py:1838-1894 | a thread counts as having stayed exactly when some message was taken up and the desk has been the AI queue's ever since |
| ThreadTheorems.ApprovalGate | backend/app/agents/engine.py:930-1030 | a tool under approval only runs on a request for that same call, name and input, approved strictly before it expired |
| ThreadTheorems.OnlyAutoToolsRunUnattended | backend/app/agents/engine.py:770-775 | without an approval only server tools of policy auto run |
| ThreadTheorems.ExecutionsAccounted | backend/app/agents/engine.py:930-967 | executions of an approved call = rolled-back executions + one if its request is spent |
| ThreadApprovals.ExecutedOncePerArmedDelivery | backend/app/agents/engine.py:930-967 | over every history the approved call runs exactly once per delivery that finds its run parked and the approval in |
| ThreadApprovals.ApprovedAtMostOnceExactly | backend/app/agents/engine.py:930-967 | at most one execution if and only if no such delivery that the provider fails retryably is followed by another |
| ThreadTheorems.AbortsExactly | backend/app/agents/engine.py:689-717 | an activation is rolled back exactly when the provider fails it retryably, or stops answering, while the loop still asks |
| ThreadTheorems.ReliableLosesNothing | backend/app/agents/engine.py:709-717 | without retryable provider errors no execution is rolled back |
| ThreadTheorems.ApprovedAtMostOnce | backend/app/agents/engine.py:930-967 | then each approval causes at most one execution, over all interleavings of decisions, expiries and duplicate deliveries |
| ThreadTheorems.DeliveryRunsApprovedCall | backend/app/agents/engine.py:930-967 | delivering an approved run executes the call once more, and spends the request exactly when it commits |
| ThreadTheorems.RolledBackApprovalRunsAgain | backend/app/agents/engine.py:709-717 | after a delivery the provider fails retryably the next one executes the approved call again |
| ThreadTheorems.RefundHappensTwice | backend/app/agents/engine.py:930-967 | a concrete history: one approval, two executions |
| ThreadTheorems.BudgetsHold | backend/app/agents/engine.py:1033-1105 | over a run's whole life: at most `max_tool_calls` tool calls, 12 mutating page ops and 10 app actions |
| ThreadTheorems.ParksAreConsistent | backend/app/agents/engine.py:970-1153 | waiting status, pending call, snapshot and lease agree in every reachable row, and a terminal row is closed |
| ThreadTheorems.ProviderSeesSettledTranscripts | backend/app/agents/engine.py:645-760 | in every reachable state, every transcript the next activation sends is settled, and their number is bounded |
| ThreadTheorems.TelemetryCountsOnce | backend/app/agents/tour_events.py:199-247 | each guide wait is settled at most once and each stage mirrored at most once per link, over every history |
| ThreadTheorems.DuplicateTelemetryIgnored | backend/app/agents/tour_events.py:178-247 | delivering the same playback event twice in a row is delivering it once |
| ThreadTheorems.TiedClockPassesTheGuard | backend/app/agents/engine.py:896-910 | from any reachable state with a run in flight, a follow-up stamped with its instant and a smaller id passes the guard and is claimed beside it |
| ThreadAnswers.AnswersDecideDelivery | backend/app/agents/engine.py:689-811 | in every reachable state a delivery that gets to work is decided by the last answer it hears: text is posted once for the run's own message and completes it, the desk unmoved; an empty reply posts nothing, hands off and takes the thread out of the AI queue; and so for failures, spent budgets, approvals, page calls, hand-offs and closes |
| ThreadAnswers.IdleDelivery | backend/app/agents/engine.py:570-596 | a delivery that does not get to work only uses up its task, cancels a queued run a human took over, or, for a parked run without its answer, changes nothing |
| ThreadWords.RepliesWereSpoken | backend/app/agents/engine.py:734-811 | over every history the n-th reply was posted by the n-th delivery that spoke: with text that is not empty or by a tool that hands off or closes with a word; nothing else posts |
| ThreadWords.EffectsAreAskedFor | backend/app/agents/engine.py:770-811 | on every event the world sees exactly the approved call, if any, and then the server tools the heard answers ask for, in order |
| ThreadWords.DeliveryCharges | backend/app/agents/engine.py:523-531 | a committed delivery charges its run one tool call for each call run or answered here, and one page request exactly for the operation it now waits for |
| ThreadWords.DeliveryHears | backend/app/agents/engine.py:645-760 | what a delivery tells its provider, first transcript to last, and what a run that parks keeps of it |
| ThreadWords.PageAnswerIsHeard | backend/app/agents/engine.py:1385-1428 | after a submitted result the next delivery's first transcript is the parked one and a tool message with the parked call's id and the submitted text and flag; an unreadable result is an error |
| ThreadWords.SilenceIsHeard | backend/app/agents/engine.py:1431-1478 | after a sweep of a stale wait it is the parked one and a timeout, as an error |
| ThreadWords.RulingIsHeard | backend/app/agents/engine.py:930-967 | after a decision it is the parked one and the approved tool's outcome, or the rejection or expiry as an error |
| ThreadParks.ParkSurvives | backend/app/agents/engine.py:970-1153 | over any stretch of history without its own delivery a parked run keeps its open call and its transcript, unless its own tour closes it |
| ThreadParks.ResumeGoesOn | backend/app/agents/engine.py:645-686 | so the first transcript after a park is the last one before it, with the calls recorded and the open one answered |
| ThreadParks.VerdictsAreRulings | backend/app/agents/engine.py:1698-1797 | over every history a request is approved exactly if a human approved it before its day was over and before any other ruling; rejected and expired likewise |
| ThreadParks.GatedToolsWereApproved | backend/app/agents/engine.py:930-1030 | a tool under approval only runs after such an approval |
| ThreadSteps.InboundExactly | backend/app/agents/engine.py:1838-1894 | a message reopens the desk as it should, and exactly in the queue of a live agent cancels the queued run and adds its own, enqueued unless one is in flight |
| ThreadSteps.SubmitExactly | backend/app/agents/engine.py:1385-1401 | a page result is taken exactly by the run that waits for that operation, which is woken |
| ThreadSteps.DecideExactly | backend/app/agents/engine.py:1698-1759 | a decision rules exactly an undecided request, by what it says or as expired, and wakes the run that asked |
| ThreadSteps.ExpireExactly | backend/app/agents/engine.py:1762-1797 | the expiry sweep expires exactly the undecided requests past their day and wakes exactly the runs that asked |
| ThreadSteps.SweepExactly | backend/app/agents/engine.py:1431-1478 | the sweep answers exactly the waits of ninety seconds, ten minutes for an action, and wakes each once |
| ThreadSteps.ReapExactly | backend/app/agents/engine.py:1897-1931 | the reaper wakes exactly the runs queued for two minutes or half a minute past their lease, each once |
| ThreadSteps.TelemetryExactly | backend/app/agents/tour_events.py:178-247 | a start of the linked tour answers and wakes the run that waits for it, an end closes it without a word and wakes the next, and either is told once per link; anything else changes nothing |
| ThreadSteps.KeysAreOrdered | backend/app/agents/engine.py:896-910 | runs are strictly ordered by creation time, then id |
| ThreadLiveness.NothingStranded | backend/app/agents/engine.py:1524-1609 | when the queue loses no task, every run that could proceed has a task or sits behind the run in flight that wakes it |
| ThreadLiveness.ReaperRecovers | backend/app/agents/engine.py:1897-1931 | one reaper pass re-enqueues any run queued for two minutes, even after lost tasks |
| ThreadHistory.HistoryOnlyAdds | backend/app/agents/engine.py:913-927 | terminal rows and verdicts never change; rows, requests, replies, effects and lines only grow |
| ThreadHistory.RunningIsNeverCommitted | backend/app/agents/tasks.py:43-54 | no committed row is ever `running` |
| BusinessHours.ElapsedTime | backend/app/core/business_hours.py:105-127 | the day-walking loop counts exactly the instants at which `is_open`, up to the scan limit |
| BusinessHours.FindDeadline | backend/app/core/business_hours.py:130-160 | the day-walking loop finds exactly the earliest instant by which the allowance has been open, or falls back |
| BusinessHours.OpenWithinDay | backend/app/core/business_hours.py:92-102 | within a day, open is being inside that day's window |
| BusinessHours.DeadlineInvertsElapsed | backend/app/core/business_hours.py:105-160 | elapsed(start, deadline(start, m)) = m and any earlier end gives less, for every m within reach |
| BusinessHours.DeadlineExactForDecades | backend/app/core/business_hours.py:130-157 | in particular for any m up to 1045 weeks of opening hours, from any start |
| BusinessHours.ReachCoversWeeks | backend/app/core/business_hours.py:140-157 | the scan always covers 1045 whole weeks |
| BusinessHours.FallbackExactly | backend/app/core/business_hours.py:158-160 | the fallback is reached exactly beyond reach, and right exactly when open throughout |
| BusinessHours.NeverOpenFallsBack | backend/app/core/business_hours.py:158-160 | a configured but never open week falls back for every allowance, and accrues nothing |
| BusinessHours.DeadlinesCompose | backend/app/core/business_hours.py:130-160 | deadline(deadline(s, a), b) = deadline(s, a + b) within reach |
| BusinessHours.ElapsedAdds | backend/app/core/business_hours.py:105-127 | elapsed time adds over adjacent intervals, never decreases and never outruns the clock |
| BusinessCalendar.OpenByTheCalendar | backend/app/core/business_hours.py:61-102 | with some day set, an instant is open exactly if it lies in the opening of a weekday, counted from Monday 5 January 1970 |
| BusinessCalendar.OpeningIsWorthItsMinutes | backend/app/core/business_hours.py:105-127 | any part of any opening counts for exactly its minutes |
| BusinessCalendar.AfterHoursWaits | backend/app/core/business_hours.py:130-160 | a deadline asked for out of hours is the one asked for at the next opening |
| BusinessCalendar.NothingBeyondTheScan | backend/app/core/business_hours.py:111-126 | nothing is counted beyond 7321 days from the start |
| TourPlayers.TourPlayer.NavigateToStep | widget/src/tour-player.ts:711-718 | leaves exactly for a different page outside previews, storing the position first |
| TourPlayers.TourPlayer.Visit | widget/src/tour-player.ts:552-748 | a player to a page, over any history of loads and handlers, reaches exactly the states below; for every tour its books balance but for the sessions lost on the way |
| TourTheorems.LedgerBalances | widget/src/tour-player.ts:581-659 | over every history of visits and previews and for every tour: starts = ends + lost sessions + those open in storage or in a running preview; nothing is reported outside a session |
| TourTheorems.BooksBalanceExactly | widget/src/tour-player.ts:581-659 | starts = ends + open sessions exactly when no handler cut a preview of the tour short, finished a preview over its stored session, or replaced that session |
| TourTheorems.OneTourLedger | widget/src/tour-player.ts:581-659 | with one live tour visited and others previewed: starts − ends is 1 while storage holds it and 0 otherwise, if and only if no preview finished while storage held it |
| TourTheorems.PreviewEndsExactly | widget/src/tour-player.ts:638-659 | a preview is finished exactly by dismissing it or when no step is left that this page can show, and only then is storage cleared |
| TourTheorems.StartedOnlyAfresh | widget/src/tour-player.ts:581-607 | `started` is reported exactly by previews and when nothing stored can be resumed |
| TourTheorems.FinishedNeverResurrects | widget/src/tour-player.ts:581-659 | after a tour ends, whatever reloads, other tours and previews follow, starting it again resumes nothing and reports `started` once |
| TourTheorems.StaleContinuationsAreInert | widget/src/tour-player.ts:721-733 | after any history at most one continuation is current, it is for the step on screen, and all others change nothing |
| TourTheorems.CrossPageStepNavigatesOnce | widget/src/tour-player.ts:661-718 | arriving on the step's own page takes that very step up there: no second start, no second navigation for it |
| TourTheorems.PreviewForgetsTheVisitor | widget/src/tour-player.ts:644-649 | a concrete visit with two starts and no end, after a preview finished over it |
| TourTheorems.HandlerSettles | widget/src/tour-player.ts:581-748 | every handler keeps the invariant: stored position = position on screen, index in range, tokens ascending, books balanced |
| TourLandings.ShowLands | widget/src/tour-player.ts:661-718 | a showing lands on the first step within reach or past the end; the steps before it are each reported once, in order; then exactly the report, store, continuation, action and card of how that step is met |
| TourLandings.HandlersDo | widget/src/tour-player.ts:581-748 | from any player a history reaches, what every handler reports, shows, stores and leaves waiting: a sought element that arrives is viewed, one that never does blocks its step with no action armed, one in another frame is reported and passed, a wait ends with the next step; likewise start, next, back, dismiss, skip, driven actions and reloads |
| Overlay.BlockersPartitionTheViewport | widget/src/tour-player.ts:1335-1361 | every point on screen is either inside the cutout or under exactly one panel, for every cutout; no panel leaves the screen |
| Overlay.TooltipPosition | widget/src/tour-player.ts:96-147 | requested side when clear, else the first clear side, else the requested side after all |
| Overlay.TooltipStaysOnScreen | widget/src/tour-player.ts:106-133 | inside the 8px margins, on the far edges exactly when it fits |
| Overlay.AutoSideHasRoom | widget/src/tour-player.ts:58-77 | `auto` picks the first side with room, else a side with the most |
| Overlay.TooltipClearsItsTarget | widget/src/tour-player.ts:106-133 | on a side with room the clamp never pushes the tooltip over its target |
| Overlay.TooltipStandsBeside | widget/src/tour-player.ts:96-133 | before the clamp the tooltip stands the gap away on its side with its centre level with the target's; the clamp moves it no further than the margins ask |
| Overlay.IntersectsAtAPoint | widget/src/tour-player.ts:79-95 | two rectangles intersect exactly when some point lies inside both |
| Globs.CompilersAgree | widget/src/loader-core.ts:123-131 | the two translations write the same regular expression text for every pattern |
| Globs.CompiledParses | extension/src/url-pattern.ts:26-41 | that text parses to one atom per pattern character |
| Globs.CompiledGlobMeansGlob | widget/src/loader-core.ts:123-131 | the compiled expression accepts exactly the values that split into fitting pieces |
| Globs.AgreesWithServerExactly | widget/src/loader-core.ts:113-131 | browser and server agree on every pattern without classes exactly for one-line values whose characters both fold alike |
| Globs.AgreesWithFnmatchExactly | backend/app/services/tours.py:730 | with a server that keeps case: exactly for one-line values to whose characters no other literal folds |
| Globs.CapitalsTellThemApart | backend/app/services/tours.py:730 | the pattern `a` on the value `A` |
| Globs.MatchersAgree | extension/src/url-pattern.ts:24-41 | the two matchers differ exactly at the empty pattern on the empty value |
| UrlPatterns.UrlPatternMatchesItsPage | extension/src/url-pattern.ts:47-56 | the pattern taken from a page matches that page's full address, unless its origin is opaque; then it matches nothing that does not start with "null" |
| UrlPatterns.UrlPatternCoversExactly | extension/src/url-pattern.ts:47-56 | without id-like segments it matches exactly the addresses that start with the page |
| UrlPatterns.GeneralizesSegments | extension/src/url-pattern.ts:50 | exactly the segments that look like ids become wildcards |
| UrlPatterns.IdIsRun | extension/src/url-pattern.ts:50 | a segment looks like an id exactly if it is six or more hex digits and dashes |
| UrlPatterns.DoubleStarOnlyFromThePage | extension/src/url-pattern.ts:50-52 | two adjacent wildcards appear exactly when the page's own path has them |
| UrlPatterns.DoubleStarAtAPage | extension/src/url-pattern.ts:50-52 | a page whose pattern has them |
| UrlPatterns.SuggestionMatchesItsPage | extension/src/url-pattern.ts:64-73 | a suggestion matches its own page exactly when that is a web page |
| UrlPatterns.SuggestionCoversExactly | extension/src/url-pattern.ts:64-73 | and matches exactly the addresses under that page |
| UrlPatterns.OnlySlashesDropped | extension/src/url-pattern.ts:64-73 | what a suggestion keeps of a path ends in no slash, and nothing but slashes is dropped |
| Automation.Engine.DeliverAll | backend/app/automation/engine.py:63-107 | a history of events takes exactly the states the theorems speak of, each event from depth zero |
| Automation.Engine.Deliver | backend/app/automation/engine.py:63-107 | one event runs the specified cascade, and the depth is restored on every exit |
| Automation.Engine.RunRules | backend/app/automation/engine.py:91-107 | the rule loop at one more depth, as specified, restoring the depth |
| Automation.Engine.ApplyRule | backend/app/automation/engine.py:93-105 | handled, not matching, failing and completing rules, as specified |
| Automation.Engine.RunActions | backend/app/automation/engine.py:98-101 | the action loop with nested events, stopping where one raises |
| Automation.Engine.Mark | backend/app/automation/engine.py:129-134 | the message remembers the rule once |
| AutomationTheorems.ActionsPassNoGuard | backend/app/automation/actions.py:52-140 | no action raises an event that passes the message guard: what it posts is new and authored by the system |
| AutomationTheorems.ActionsCascadeOnce | backend/app/automation/actions.py:52-140 | at most one event of an action runs rules, and it is the last |
| AutomationTheorems.CascadeIsGeometric | backend/app/automation/engine.py:51-107 | one event causes at most ra·(1 + ra + … + (ra)^7) actions, for r rules of a actions, however they feed each other |
| AutomationTheorems.CompletedNeverBeginsAgain | backend/app/automation/engine.py:93-105 | over any history a rule that completed on a message never begins on it again |
| AutomationTheorems.CompletesAtMostOnce | backend/app/automation/engine.py:15-17 | over every history each rule completes on a message at most once, exactly when it is remembered on it, and every beginning has one outcome |
| AutomationTheorems.BeginsOncePerAnnouncement | backend/app/automation/engine.py:15-17 | a rule begins on a message no more often than the message is announced, failures included |
| AutomationOrder.EventRunsItsRules | backend/app/automation/engine.py:57-107 | an event that reaches rules runs each of them, in order, also after one that failed; any other event changes nothing |
| AutomationOrder.RunsAs | backend/app/automation/engine.py:91-105 | a rule that matches takes each of its actions once, in order, up to the first that raises; it is completed and remembered exactly if none did, and otherwise failed; one that differs takes none |
| AutomationOrder.OnlyStatusChangesCascade | backend/app/automation/actions.py:52-140 | of all actions only a change of status runs rules, those for that event, one level down |
| RateLimit.MemoryLimiter.Check | backend/app/core/ratelimit.py:35-44 | the popleft loop evicts and decides as specified, touching only its key |
| RateLimit.RedisLimiter.Check | backend/app/core/ratelimit.py:56-65 | INCR and EXPIRE NX, as specified, touching only its key |
| RateLimit.MemoryLimiter.Replay | backend/app/core/ratelimit.py:35-44 | over a history of requests, every decision is the one the theorems speak of |
| RateLimit.RedisLimiter.Replay | backend/app/core/ratelimit.py:56-65 | the same for the counter |
| RateLimitTheorems.EvictionChangesNoDecision | backend/app/core/ratelimit.py:35-44 | a request passes exactly when fewer than `times` of all ever let through lie in the last `seconds` |
| RateLimitTheorems.SlidingWindowHolds | backend/app/core/ratelimit.py:35-44 | no closed interval of length `seconds` ever holds more than `times` |
| RateLimitTheorems.FixedWindowHolds | backend/app/core/ratelimit.py:56-65 | no closed interval of length `seconds` holds more than 2·times − 1 under the fixed window |
| RateLimitTheorems.FixedWindowIsTight | backend/app/core/ratelimit.py:56-65 | a concrete history that meets that bound |
| RateLimitTheorems.FixedWindowDecides | backend/app/core/ratelimit.py:56-65 | a request passes the counter if and only if at most `times` requests of its key, itself included, came since its window was opened |
| RateLimitTheorems.NoAllowance | backend/app/core/ratelimit.py:41-44 | with no allowance nothing passes either limiter |
| ImapCursor.PollMailbox | backend/app/channels/email_sync.py:100-117 | the fetch loop returns the new cursor and exactly the payloads above the old one |
| ImapCursor.Inbox.PollInbox | backend/app/channels/email_sync.py:183-214 | commits cursor and imports together, or neither when receiving one raises |
| ImapCursor.PollCrossesTheNew | backend/app/channels/email_sync.py:105-117 | a poll crosses exactly the messages above the cursor, ascending; the always-returned newest one is not repeated |
| ImapCursor.Inbox.Follow | backend/app/channels/email_sync.py:183-214 | over a history the row keeps the cursor and has received exactly the payloads of what was crossed |
| ImapCursor.CrossedExactlyOnce | backend/app/channels/email_sync.py:183-214 | over any history a message is crossed, once and in order, exactly when it lies above the baseline and at or below the cursor |
| ImapCursor.ReceivedExactlyOnce | backend/app/channels/email_sync.py:183-214 | a message between baseline and cursor is received, once, exactly when its fetch in the poll that crossed it carried a payload; nothing else is received |
| ImapCursor.CrossedByOnePoll | backend/app/channels/email_sync.py:100-117 | the poll that crosses a message is the only one that ever does |
| ImapCursor.UnreadPayloadIsLost | backend/app/channels/email_sync.py:110-117 | a concrete history that loses a message to an empty fetch |
| ImapCursor.CursorNeverMovesBack | backend/app/channels/email_sync.py:183-214 | cursor and crossings only advance, and a poll that does not commit changes nothing |
| ImapCursor.CommittedPollCatchesUp | backend/app/channels/email_sync.py:100-117 | after a committed poll nothing in the mailbox lies above the cursor |
| ImapCursor.PollCommitsExactly | backend/app/channels/email_sync.py:183-214 | one payload whose receipt raises undoes the poll; otherwise, blocked and ignored ones included, the cursor passes everything there is |
| ImapCursor.ImportsAdmitted | backend/app/channels/email_sync.py:183-214 | what a poll reports is the number of its messages that opened or extended a conversation |
| Locales.NormalizeLocale | backend/app/core/i18n.py:159-189 | the exact-match and subtag-popping loops compute the specified lookup |
| Locales.ParseAcceptLanguage | backend/app/core/i18n.py:220-255 | the scoring loop, sort and dedupe loop compute the specified list |
| LocaleTheorems.NormalizesToLongestPrefix | backend/app/core/i18n.py:159-189 | the answer is what the longest named subtag prefix names, and none when no prefix is named |
| LocaleTheorems.NormalizeIdempotent | backend/app/core/i18n.py:159-189 | every answer is a supported locale and normalises to itself |
| LocaleTheorems.ShippedIsCoherent | backend/app/core/i18n.py:62-76 | the shipped locales meet what the other theorems ask of a registry |
| LocaleTheorems.AcceptedAreWanted | backend/app/core/i18n.py:220-255 | exactly the locales some segment of positive weight asks for, each once, ordered by best weight then place |
| LocaleTheorems.NegotiatesSupported | backend/app/core/i18n.py:258-275 | always a supported locale; the stored preference wins, then the best of the header |
| LocaleWeights.TagsAreSubtags | backend/app/core/i18n.py:156 | a tag is two or three letters and subtags of one to eight letters or digits with dashes between them |
| LocaleWeights.NormalizesExactly | backend/app/core/i18n.py:159-189 | a text normalises to a locale exactly when it is a tag whose longest naming stretch of subtags, in any case, names it |
| LocaleWeights.ShippedByLanguage | backend/app/core/i18n.py:62-76 | the shipped locales are told by the language alone |
| LocaleWeights.WeightIsRead | backend/app/core/i18n.py:235-247 | a `q` parameter, in either case and with any space around it, weighs what its text reads as, or one if that cannot be read |
| LocaleWeights.NoWeightIsOne | backend/app/core/i18n.py:235-247 | without one a segment weighs one |
| LocaleWeights.ListedByWeight | backend/app/core/i18n.py:220-255 | on the header's text: a locale is listed, once, exactly if some segment asks for it with positive weight, and before another exactly if its best weight is larger, or equal and earlier |
| LocaleWeights.NegotiatesByWeight | backend/app/core/i18n.py:258-275 | the preference, else the locale that comes before every other the header asks for, else the fallback, else English |

## Left out

- Activations.Activation.ExecuteTool: a tool's effects are its desk change, hand-off or close and its reply text; what else it does is outside the model
- AgentRunTheorems.DriveStops: page requests are bounded by their own caps, not by the tool-call limit, because the source does not count them there
- ThreadLiveness.NothingStranded: assumes the queue loses no task; ThreadLiveness.ReaperRecovers covers queued runs otherwise, but a run waiting on a human or the page is not woken by the reaper
- TourTheorems.OneTourLedger: one tab at a time; two tabs share the stored record and can overwrite each other's
- Globs.AgreesWithServerExactly: patterns with `[seq]` classes, which only the server reads as classes, as documented
- Globs.CompiledGlobMeansGlob: characters outside the basic plane, which a JavaScript pattern sees as two code units, are not modelled
- RateLimitTheorems.FixedWindowHolds: the fallback to the local window while Redis is unreachable is not part of the histories
- LocaleTheorems.AcceptedAreWanted: weights that read as NaN or infinity are not modelled
- Agent runs: prompts, retrieval, citations, token counts, sandbox runs, notices, typing indicators and the wording of refusals and errors are left out; a tour id that is not text reads as empty
- Agent runs: several conversations, several database sessions racing on one row, and settings edited during a run are left out
- A task retried until the queue gives up is a lost task (`Drop`) in the histories
- Business hours: one fixed UTC offset in place of zone rules, microseconds in place of floating minutes, and windows within one day (a close after minute 1440 overlaps the next day)
- Tours: markup, styles, focus, and how an element is found; each document lookup is an answer the environment chooses, and clicking, typing, delays and keys that advance a step are all the same `next`
- Tours: reading malformed or unwritable storage, and a button that opens an external address, are left out
- Overlay: exact reals in place of floating-point pixels
- Automation: other subscribers of an event, webhooks, the conditions and what each action's service finds to change; their outcomes are oracles that may raise
- Pages: an address that cannot be parsed has no generated pattern in the model, and addresses with user information are not modelled
- IMAP: connection, authentication and a changed UIDVALIDITY are left out; a failed login changes nothing
- Locales: catalogs, plural rules, writing direction and reply-language names would only add easy members
- Permissions, checklists, surveys, campaigns, media addresses, migrations and channel senders would only add easy members
