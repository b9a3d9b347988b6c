# The replenishment engine: schedules, occurrences, outbox

A subscription is a *schedule* row (status, interval, anchor date, next run date, pause
date), its *occurrences* (the orders planned, armed, placed or settled) and an append-only
*event log*. Seven transitions move a schedule: a customer or an operator pauses, resumes,
skips, defers, changes the cadence or cancels; a nightly sweep resumes timed pauses and arms
orders coming due. A materializer keeps a horizon of orders planned ahead, and a dispatcher
mails what the log announces, through an outbox. This project models that engine, its date
arithmetic, its outbox protocol and the portal's cadence preview, and proves what holds over
every input, every run and every interleaving.

The code that mutates state is modelled as classes, one per Go type: `Stores.Repository`,
`Materializers.Materializer`, `Services.Service`, `Sweeps.Sweeper`, `Enrollments.Enrollment`,
`Dispatching.Dispatcher`. Each of their methods is proved against the functions of module
`Lifecycle` (or `Outbox`), which say what a transaction, once committed, makes of one
schedule's *ledger*. The whole-run theorems are then proved about those functions.

| file | contents |
|---|---|
| `cadence.dfy`, `calendar.dfy` | day-number cadence with Go's saturating durations; year/month/day dates |
| `keys.dfy` | `schedule_id:sequence_no` |
| `ledger.dfy`, `lifecycle.dfy` | a schedule with its rows and log; the reads; the transitions; runs |
| `store.dfy`, `materialize.dfy`, `service.dfy`, `enroll.dfy`, `sweep.dfy` | the imperative code, proved to commit exactly those functions |
| `invariants.dfy`, `audit.dfy`, `alignment.dfy`, `retries.dfy`, `nextrun.dfy`, `horizon.dfy` | theorems over all runs |
| `stale.dfy` | what may happen between a sweep's check and its lock |
| `history.dfy` | the first steps of a schedule, from which every counterexample is built |
| `answers.dfy` | what every request is answered, told from the schedule and its arguments alone |
| `concurrency.dfy` | locks, crashes, stale requests: serializability, and locks that are always released |
| `outbox.dfy`, `dispatch.dfy` | the claim/send/mark protocol over overlapping runs; one run |
| `portal.dfy` | the browser's preview against what the service commits |

## What the code does not give

Several things the comments, documents or tests of the repository say turn out to need a
condition. In each case the code is kept as it is, a concrete input -- where state is involved,
a run from checkout or an execution of the outbox -- shows the failure, and the condition is
proved for all inputs, as an equivalence.

- `NextOccurrenceAfter` returns "the first occurrence falling strictly after" only below
  anchor + (⌊106751 / interval⌋ + 2) × interval: `DaysUntil` goes through an int64 duration,
  which saturates (`NextOccurrenceAfterIsLeastIff`, `SearchStandsStill`). Past that the
  materializer plans the same date over and over, so "creates nothing the second time" fails
  exactly when something is missing and today is at or past the limit (`TopUpIdempotentIff`,
  `SecondRunPlansAgain`).
- The randomized property test compares `next_run_date` with the earliest planned date past
  today. They agree exactly while no order armed since the last refresh comes before every
  planned one, the recorded date is itself past today, and no planned date lies past today but
  not past the refresh (`NextRunIsEarliestPlannedIff`). The first fails because `ArmNext` does
  not refresh it, the second as soon as the recorded day comes (`NextRunFallsBehind`); the test
  never arms and keeps today fixed.
- The same test asks that every order still to come that nobody deferred lies at the anchor or
  on the cadence from there (`TestSeesGrid` says what it sees of that, counting days through a
  duration). It holds of every such order no cadence change ever found armed
  (`UnsettledOnCadence`; of planned ones always, `NoDrift`). A cadence change keeps it exactly
  when each armed date already lies at the new anchor or on the new cadence
  (`ChangeCadenceAlignsIff`), and can break it (`ArmedOrderCanLeaveCadence`).
- The comment on `ArmNext` says an armed order stays in the horizon and leaves no gap to fill.
  The horizon counts planned rows only: arming makes the next top-up plan one order more exactly
  when the armed one is still ahead and the horizon was not overfull (`ArmOpensGapIff`,
  `ArmingOpensAGap`).
- With a horizon of one a skip plans the very date it skipped (`HorizonOneReplansSkippedDate`;
  for any one skip, `SkipReplansIff`). From a horizon of two on, between re-anchorings, what is
  planned after a skip lies past the skipped date exactly while that date is before the end of
  the cadence's reach (`SkippedDateNeverReturns`; of runs from checkout,
  `RunsNeverReplanSkipped`).
- `ArmDue` and `ResumeDue` check that something is due before they lock. What they then do is
  still due exactly when the locked schedule has an order due (`ArmActsOnDueIff`), or the latest
  pause on record is over (`ResumeActsOnDueIff`); it is whenever nothing but top-ups, pauses,
  cancellations and calls without effect came between check and lock (`CheckStaysGood`), or no
  pause was accepted there (`DuePauseStaysDue`). A skip, or a resume and a new pause, does
  break it (`StaleArmCheck`, `StaleResumeCheck`).
- The portal's preview shows the first three dates the service commits exactly when three
  orders are armed within the cadence's reach, or fewer are and every cadence date already
  behind the cursor is an armed one (`PreviewMatchesIff`); after a long deferral it shows a date
  the service will not commit (`PreviewCanDiffer`).
- The marks on the outbox carry no status guard. Each event has one holder at all times, and
  what was marked sent or failed is never overwritten, exactly when a run's deadline does not
  exceed the visibility timeout (`SafeIffDeadlineFits`); otherwise a sent row can be reopened
  (`SentIsReopened`).

## Assumptions

- Each SQL statement is atomic, including the claim, and outside a transaction is one of its own;
  a failed statement or commit changes nothing. `reliable` on `Repository` and `Dispatcher` says that the database never fails on
  its own account: with it the contracts leave one outcome, without it also an `Io` error and
  no change.
- The row lock keeps any other transaction off a schedule until commit or rollback, and a
  transaction writes only its own schedule's rows. The tables are therefore partitioned by
  schedule, each part a `Ledger` with its rows in sequence order; a row just read is addressed
  by its position instead of by its uuid.
- The unique constraints on occurrences and the checks on the schedule row are those named
  where the store matches or mirrors them (store.go:253, 475-476, 727-732, 768-770).
- `today` is an argument of every call and need not ascend from call to call: transitions use
  the schedule's own timezone, `RunAll` one UTC date. A sweep reads the
  clock for its listing and again for each candidate it checks and acts on; a timezone is a
  distance from UTC of at most 24 hours, the same throughout a pass.
- A table constraint the store does not recognise by name turns a statement down as
  `Rejected`.
- Integers are unbounded; the only place where Go's width shows is the duration in
  `DaysUntil`, which is modelled. Strings are sequences of bytes where their length counts.
- Go's `time.Date` and `AddDate` compute in the proleptic Gregorian calendar.
- The outbox clock is the database's; a run acts no later than its context's deadline.
- In the portal ISO date strings compare like the dates they spell.

## Model

| member | source | states |
|---|---|---|
| `Cadence.DaysUntilSaturates` | internal/domain/cadence.go:73-77 | Counting days through a Go duration clamps to 106751 either way, and is exact if and only if the span is within that. |
| `Cadence.FirstAfter` | internal/domain/cadence.go:143-147 | What the comment asks for: the least n >= 1 whose date is strictly after a date, with every smaller one at or before it. |
| `Cadence.NextOccurrenceAfterClosedForm` | internal/domain/cadence.go:148-175 | For every input the search yields the true least index, capped at ⌊106751/interval⌋ + 2, together with that index's date. |
| `Cadence.NextOccurrenceAfterIsLeastIff` | internal/domain/cadence.go:148-175 | The search returns the least index past the date, and a later date, if and only if the date is before anchor + (⌊106751/interval⌋ + 2) × interval. |
| `Cadence.SearchStandsStill` | internal/domain/cadence.go:148-175 | Every 7 days from day 0, the first occurrence past day 106764 comes out as day 106764. |
| `Cadence.CorrectionStepIsForSaturation` | internal/domain/cadence.go:166-173 | The step-one-more branch never fires while the span fits a duration; past it, it buys exactly the last interval. |
| `Cadence.CadenceAnswers` | internal/domain/cadence.go:133-175 | Both functions give a date for intervals from 7 to 180 days only, OccurrenceDate for indices from 1 on only; its n-th date is n intervals past the anchor. |
| `Cadence.WalkDate` | internal/materialize/materialize.go:184-193 | Every date the planning loop can reach is anchor + n × interval for some n >= 1. |
| `Cadence.WalkStep` | internal/materialize/materialize.go:184-193 | Feeding the search the date it just returned visits exactly the dates of a closed form in the loop counter. |
| `Cadence.WalkShape` | internal/materialize/materialize.go:171-193 | The walk never goes back or past the reach, is consecutive exactly while within reach, and clears its starting point exactly below it. |
| `Calendar.BeforeIsDayOrder` | internal/domain/cadence.go:56-64 | Comparing year, month, day field by field is the order of the days themselves, and equal fields are equal days. |
| `Calendar.MonthLengths` | internal/domain/cadence.go:50-53 | The days of each month, and leap years: every fourth, centuries only when divisible by 400. |
| `Calendar.FromDayNumberInverts` | internal/domain/cadence.go:50-53 | Every day number is a normalized date, and that date's own number. |
| `Calendar.AddDaysLaws` | internal/domain/cadence.go:50-53 | Adding days follows the calendar one day at a time over month ends, leap days and centuries; it composes and respects the order. |
| `Calendar.DaysUntilInvertsAddDays` | internal/domain/cadence.go:50-77 | DaysUntil undoes AddDays if and only if at most 106751 days were added or taken away. |
| `Calendar.DaysUntilReachesBack` | internal/domain/cadence.go:50-77 | Adding the days until a date reaches that date if and only if the two are at most 106751 days apart. |
| `Calendar.CadenceOnCalendar` | internal/domain/cadence.go:133-141 | The n-th occurrence lies n × interval calendar days after the anchor, and later in the cadence is later on the calendar. |
| `Keys.IdempotencyKeyInjective` | internal/domain/cadence.go:183-185 | Two occurrences share a key if and only if they are the same occurrence, whatever colons the ids contain. |
| `Keys.KeyFormat` | internal/domain/cadence.go:183-185 | A key is the schedule's id, a colon, and the number in decimal digits without leading zeros. |
| `Ledgers.Soonest` | internal/store/store.go:837-852 | The row returned comes first by date and then sequence number among those in the given statuses; none only if there is none. |
| `Ledgers.LastPlaced` | internal/store/store.go:862-866 | The placed row that comes last by date and then sequence number. |
| `Ledgers.LatestUnsettled` | internal/store/store.go:885-898 | The furthest date an unsettled row stands on, or none if nothing is unsettled. |
| `Ledgers.NextRun` | internal/materialize/materialize.go:243-260 | The least date past today among planned rows, or none if there is none. |
| `Ledgers.CancelAll` | internal/store/store.go:817-830 | Exactly the rows in the given statuses without an order reference become canceled; every other row is unchanged. |
| `Ledgers.PlannedRows` | internal/store/store.go:524-527 | Contains exactly the planned rows. |
| `Ledgers.PlannedRowsInOrder` | internal/store/store.go:524-527 | They come in the order of their sequence numbers. |
| `Ledgers.MaxSequenceNoIsCount` | internal/store/store.go:544-555 | With rows numbered in creation order the highest number used is the number of rows. |
| `Invariants.MaterializeKeeps` | internal/materialize/materialize.go:133-235 | Topping up a sound schedule succeeds, keeps it sound, rewrites no row and changes only next_run_date on the schedule. |
| `Invariants.StepKeeps` | internal/schedule/service.go:135-457 | Every transition keeps the invariant -- paused and canceled schedules have nothing to come and no next run, only paused ones a pause date -- and once its arguments are in range can fail only by refusing. |
| `Invariants.RunKeeps` | internal/schedule/service.go:135-457 | The invariant holds after every run, and every state follows every earlier one: rows and events only added, statuses only forward, dates never earlier, canceled schedules frozen. |
| `Invariants.SettledForever` | internal/domain/schedule.go:116-125 | Over any run row k stays occurrence k + 1 under the same key, and once settled it never changes. |
| `Invariants.ResumeAnnouncesNextRun` | internal/schedule/service.go:172-203 | The next order date a resume announces in its event is the next_run_date it commits: today plus one interval. |
| `Invariants.FirstTopUp` | internal/materialize/materialize.go:133-260 | Planning from scratch at the anchor puts next_run_date exactly one interval out. |
| `Invariants.KeysNeverCollide` | internal/store/store.go:467-482 | Across all schedules two rows share a key only if they are one row, and the next key of any schedule is free: the duplicate branch cannot be reached under the lock. |
| `Audits.StepAgrees` | internal/schedule/service.go:135-457 | Whatever a call does, the log it leaves still audits to the state it leaves. |
| `Audits.LogDeterminesState` | internal/schedule/service.go:135-457 | From creation through any calls, accepted, refused or repeated, the log alone rebuilds status, pause date, interval, anchor and every occurrence. |
| `Audits.AuditShape` | internal/schedule/service.go:135-457 | Any log that audits describes a valid interval, rows numbered in order, and nothing to come while paused or canceled. |
| `Audits.NoDrift` | internal/materialize/materialize.go:184-203 | A planned order nobody deferred sits at anchor + n × interval, n >= 1, for the anchor and interval current at that moment. |
| `Audits.DatesAreConserved` | internal/schedule/service.go:338-345 | An order's date is the date it was planned for plus the sum of all its deferrals. |
| `Audits.RowsAreConserved` | internal/schedule/service.go:135-457 | Skipped rows equal skip events, canceled rows equal the counts announced by pause, cancel and cadence events, rows equal materializations. |
| `Audits.RunsConserve` | internal/schedule/service.go:135-457 | Those three conservation laws and the no-drift law hold in every reachable state. |
| `Alignment.UnsettledOnCadence` | internal/schedule/properties_test.go:217-227 | In every history a log can tell, an order still to come, planned or armed, that nobody deferred and no cadence change ever found armed sits on the current cadence. |
| `Alignment.RunsStayOnCadence` | internal/schedule/properties_test.go:217-227 | The same in every state a run from checkout reaches. |
| `Alignment.TestSeesGrid` | internal/schedule/properties_test.go:297-301 | The test's alignment check accepts exactly the dates at anchor + n × interval, n >= 0, as far as a duration reaches, and past that any date if the interval divides 106751 and none otherwise. |
| `Alignment.ChangeCadenceAlignsIff` | internal/schedule/service.go:364-425 | After an accepted cadence change every order still to come that nobody deferred lies at the anchor or on the cadence if and only if each armed one nobody deferred already lies at the new anchor or on the new cadence. |
| `Alignment.ChangeCadenceRows` | internal/schedule/service.go:364-370 | A cadence change cancels the planned rows, leaves armed and settled ones as they are, and puts every new one on the new cadence. |
| `Alignment.ArmedOrderCanLeaveCadence` | internal/schedule/service.go:364-371 | A run -- plan, arm, change the cadence -- after which an order that was on the cadence is off it, unmoved. |
| `Retries.RunKeepsKeys` | internal/schedule/service.go:216-228 | Over any run no key is recorded twice for the same kind of action. |
| `Retries.SkipsMatchKeys` | internal/schedule/service.go:210-259 | Over any run skipped orders, skip events and distinct recorded skip keys are equally many. |
| `Retries.RetriesChangeNothing` | internal/schedule/service.go:217-228 | Deleting from any run all calls whose key was already recorded leaves the final state the same. |
| `Retries.AcceptedKeyWorksOnce` | internal/schedule/service.go:309-330 | Once a skip or deferral is accepted, the same kind of request under its key, for whatever number of days, changes nothing at any later point of any run. |
| `Retries.AcceptedCallIsRecorded` | internal/schedule/service.go:158-163 | An accepted call that is not a retry appends one event of its own first, with its actor, key and arguments; everything after is system planning. |
| `Answers.RetrySucceeds` | internal/schedule/service.go:217-228 | Once a skip or deferral is accepted, the same kind of request under its key, valid in itself and on a schedule still active, is answered with success and the schedule as it then is, at any later point of any run. |
| `Answers.PauseAnswers` | internal/schedule/service.go:137-146 | Accepted if and only if the schedule is active and the pause has no end or ends on a later day; refused with the schedule's status; an accepted pause is not over on the day it was made. |
| `Answers.ResumeAnswers` | internal/schedule/service.go:172-203 | Accepted if and only if the schedule is paused and its stored interval is from 7 to 180 days; then active and anchored to the day of the call. |
| `Answers.SkipAnswers` | internal/schedule/service.go:210-232 | Accepted if and only if the key has 1 to 200 bytes, the schedule is active, and a skip is recorded under that key -- which changes nothing -- or an order is still to come; which error otherwise. |
| `Answers.SkipTakesSoonest` | internal/schedule/service.go:229-258 | Under a new key the soonest order to come becomes skipped, its number and date are recorded under the key, and no other existing row changes. |
| `Answers.DeferAnswers` | internal/schedule/service.go:309-336 | Accepted if and only if the days number 1 to 180, the key has 1 to 200 bytes, the schedule is active, and a deferral is recorded under that key -- which changes nothing -- or an order is still to come; which error otherwise. |
| `Answers.DeferMovesSoonest` | internal/schedule/service.go:331-361 | Under a new key the soonest order to come moves by the given days, no other row changes, and one event records from when to when. |
| `Answers.ChangeCadenceAnswers` | internal/schedule/service.go:371-425 | Accepted if and only if the interval is from 7 to 180 days and the schedule is active or paused; its status stays, and the new anchor is the date of the latest placed order, or the day of the call if none was placed. |
| `Answers.CancelAnswers` | internal/schedule/service.go:431-457 | Accepted if and only if the reason is one of the seven and the schedule is not canceled; then canceled without a pause date. |
| `Answers.ArmAnswers` | internal/schedule/service.go:274-302 | Accepted if and only if the schedule is active and has a planned order. |
| `Answers.ArmTakesSoonest` | internal/schedule/service.go:276-301 | The soonest planned order becomes pending and is recorded; the schedule row, next_run_date included, and every other order stay. |
| `Answers.MaterializeAnswers` | internal/materialize/materialize.go:133-139 | Does nothing to a schedule that is not active, and refuses an active one only if its stored interval is out of range. |
| `NextRuns.NextRunMeaning` | internal/materialize/materialize.go:243-260 | In every reachable state next_run_date is the least date past the last refresh among orders planned now or armed since, or nil if none. |
| `NextRuns.NextRunIsEarliestPlannedIff` | internal/schedule/properties_test.go:247-268 | On any day it is the earliest planned date past that day if and only if no order armed since the refresh comes before every planned one, the recorded date is past that day, and no planned date lies between the day and the refresh. |
| `NextRuns.NextRunFallsBehind` | internal/schedule/service.go:274-302 | Two runs after which it is not: one more day passing, and an arming. |
| `Horizons.TopUpFills` | internal/materialize/materialize.go:141-151 | After a top-up the future planned rows number max(before, horizon) if it could fill, and as many as before if the cadence no longer reaches past today. |
| `Horizons.TopUpIdempotentIff` | internal/materialize/materialize.go:127-132 | A second top-up on the same date changes nothing if and only if nothing was missing or today lies below the reach of the cadence. |
| `Horizons.SecondRunPlansAgain` | internal/materialize/materialize.go:127-132 | A run from checkout in which a second top-up on the same day changes the schedule. |
| `Horizons.TopUpPlansConsecutiveDates` | internal/materialize/materialize.go:153-227 | The rows added are the missing consecutive cadence members from the least index past both today and the furthest unsettled date, numbered on from the last -- if and only if the last stays within reach. |
| `Horizons.TopUpStocks` | internal/materialize/materialize.go:133-235 | After any top-up an active schedule has at least a horizon of orders to come, even past the cadence's reach. |
| `Horizons.ArmOpensGapIff` | internal/schedule/service.go:271-302 | After an arming the next top-up plans exactly one order more than it would have before if the armed one was still ahead and the horizon not overfull, and just as many otherwise; it plans any at all if and only if the count missing before, plus one for an order still ahead, is positive. |
| `Horizons.ArmingOpensAGap` | internal/schedule/service.go:271-302 | A run with a full horizon in which arming makes the next top-up of the same day plan an order it otherwise would not. |
| `Horizons.StretchAdvances` | internal/schedule/service.go:205-209 | Over skips, deferrals, armings, top-ups and any calls without effect, with horizon >= 2, the queue stays stocked, the furthest date never moves back, and every date planned lies past all that was still to come, or at the end of the cadence's reach. |
| `Horizons.SkippedDateNeverReturns` | internal/schedule/service.go:210-259 | Between re-anchorings, with horizon >= 2, each date planned after a skip is later than the skipped one if and only if the skipped one is before the end of the cadence's reach, and then every order created since is later too. |
| `Horizons.RunsAreStocked` | internal/materialize/materialize.go:71-75 | In every state a run from checkout reaches, with horizon >= 2, an active schedule has no rows at all or at least a horizon of orders to come. |
| `Horizons.RunsNeverReplanSkipped` | internal/schedule/service.go:210-259 | So after any run from checkout, what is planned after a skip lies past the skipped date if and only if that is before the end of the cadence's reach. |
| `Horizons.SkipTouchesOneRow` | internal/schedule/service.go:205-209 | A skip settles the soonest row and leaves every other existing row as it was. |
| `Horizons.SkipReplansIff` | internal/materialize/materialize.go:171-193 | For any horizon and date, what one skip plans all lies past the skipped date if and only if nothing was missing; or another order was to come and the skipped date is within reach; or none was, and the cadence's next date past today is already later. |
| `Horizons.HorizonOneReplansSkippedDate` | internal/materialize/materialize.go:171-193 | With horizon one, a run -- plan, skip -- that plans the date just skipped. |
| `Stores.Repository.constructor` | internal/store/store.go:181-189 | An empty database with no transaction open. |
| `Stores.Repository.Begin` | internal/store/store.go:193-201 | Opens a transaction on the committed state, joins the one already open, or fails and opens none. |
| `Stores.Repository.Commit` | internal/store/store.go:193-211 | Everything the transaction wrote becomes visible at once, or nothing does; a joined transaction stays open for whoever opened it. |
| `Stores.Repository.Rollback` | internal/store/store.go:202-206 | Nothing the transaction wrote is ever visible. |
| `Stores.Repository.GetSchedule` | internal/store/store.go:309-322 | The row as the transaction sees it; not found only if it is not there. |
| `Stores.Repository.GetScheduleForUpdate` | internal/store/store.go:358-375 | The same under the lock, refused outside a transaction. |
| `Stores.Repository.GetScheduleByOriginOrderID` | internal/store/store.go:326-337 | A schedule established by that checkout; not found only if there is none. |
| `Stores.Repository.ListActiveSchedules` | internal/store/store.go:399-401 | Exactly the active schedules, each once, or the query's failure. |
| `Stores.Repository.CreateSchedule` | internal/store/store.go:230-270 | A new schedule without rows or events, in the open transaction or one of its own; refused for an interval out of range, an id already stored or a checkout that already has one. |
| `Stores.Repository.UpdateScheduleStatus` | internal/store/store.go:733-745 | Status and pause date move together; a pause date on any other status is refused, and a schedule that is not there is not found. |
| `Stores.Repository.UpdateScheduleCadence` | internal/store/store.go:752-764 | Interval and anchor move together; an interval out of range is refused, and a schedule that is not there is not found. |
| `Stores.Repository.UpdateScheduleNextRun` | internal/store/store.go:449-460 | Only next_run_date changes; a schedule that is not there is not found. |
| `Stores.Repository.CreateOccurrence` | internal/store/store.go:467-482 | One row more, whose key and number were free; a duplicate only if one of them is taken. |
| `Stores.Repository.UpdateOccurrenceStatus` | internal/store/store.go:772-781 | One row's status changes; not found only for a row that is missing or carries an order reference. |
| `Stores.Repository.UpdateOccurrenceDate` | internal/store/store.go:788-797 | One row's date changes; not found only for a row that is missing or settled. |
| `Stores.Repository.CancelOccurrences` | internal/store/store.go:817-830 | Cancels the rows in the given statuses and returns exactly how many it flipped. |
| `Stores.Repository.ListPlannedOccurrences` | internal/store/store.go:524-527 | The planned rows, each once, in sequence order, or the query's failure. |
| `Stores.Repository.AppendEvent` | internal/store/store.go:562-575 | One event at the end of the log; nothing before it changes. |
| `Materializers.Materializer.RefreshNextRunDate` | internal/materialize/materialize.go:243-260 | The loop finds the least planned date past today and writes that. |
| `Materializers.Materializer.Run` | internal/materialize/materialize.go:133-235 | On the locked row commits exactly the top-up of that ledger, counts what it added, and never meets a duplicate. |
| `Materializers.Materializer.PlanMissing` | internal/materialize/materialize.go:153-227 | The cursor loop adds exactly the closed form's dates, in order, one event each. |
| `Materializers.Materializer.Plan` | internal/materialize/materialize.go:196-226 | One planned row under the next number and key, with its event, or a failure. |
| `Materializers.Materializer.RunOne` | internal/materialize/materialize.go:99-113 | One transaction tops up the schedule as it stands under the lock, whatever the listing said, or changes nothing; a schedule that is gone is not an error. |
| `Materializers.Materializer.RunListed` | internal/materialize/materialize.go:93-124 | Whatever has changed since the listing, each listed schedule is counted and topped up exactly once as it stands, every other is untouched, and without a failure the total counts exactly the rows added. |
| `Materializers.Materializer.RunAll` | internal/materialize/materialize.go:87-125 | Every active schedule is topped up or, where the database failed -- listing included -- untouched; every other is as it was; a failure is reported, and without one exactly the active schedules are counted, and exactly the rows added. |
| `Services.Service.Open` | internal/schedule/service.go:97-104 | After it the row is locked, current, and in a status that accepts the action; otherwise nothing is open and the error is the one this call deserves. |
| `Services.Service.Close` | internal/schedule/service.go:105-117 | The caller gets the row that was committed, or an error and the database as before. |
| `Services.Service.ApplyPause` | internal/schedule/service.go:137-164 | Inside the transaction: status, pause date, the cancellations it counts, no next run and one event, all of them or the refusal of a date not in the future. |
| `Services.Service.Pause` | internal/schedule/service.go:135-165 | Commits exactly this pause on the state the lock guaranteed, or changes nothing and says why; only a failing database leaves a choice. |
| `Services.Service.ApplyResume` | internal/schedule/service.go:174-202 | Inside the transaction: active again, anchored to today, the announcement, then the top-up of the resumed row. |
| `Services.Service.Resume` | internal/schedule/service.go:172-203 | The same for a resume, re-anchored to today and materialized in the same transaction. |
| `Services.Service.NextOccurrence` | internal/schedule/service.go:461-473 | Targets the soonest unsettled order, never a settled one, and refuses if and only if there is none. |
| `Services.Service.ApplySkipNext` | internal/schedule/service.go:216-258 | Inside the transaction: nothing for a recorded key; else the soonest order is skipped under that key and the horizon topped up. |
| `Services.Service.SkipNext` | internal/schedule/service.go:210-259 | The same for a skip under a retry key: a recorded key commits no change. |
| `Services.Service.ApplyDefer` | internal/schedule/service.go:320-361 | Inside the transaction: nothing for a recorded key; else the soonest order moves by the given days and the next run is refreshed. |
| `Services.Service.Defer` | internal/schedule/service.go:309-362 | The same for a deferral under a retry key. |
| `Services.Service.ApplyChangeCadence` | internal/schedule/service.go:377-424 | Inside the transaction: the rewrite, then a top-up if active, or no next run if paused. |
| `Services.Service.ChangeCadence` | internal/schedule/service.go:371-425 | The same for a cadence change, on active and paused schedules. |
| `Services.Service.Rewrite` | internal/schedule/service.go:380-412 | Re-anchors to the last placed order or today, cancels the planned rows and only those, and records how many. |
| `Services.Service.ApplyCancel` | internal/schedule/service.go:437-456 | Inside the transaction: canceled, no pause date, nothing to come, no next run and one event with the reason. |
| `Services.Service.Cancel` | internal/schedule/service.go:431-457 | The same for a cancellation with a reason from the closed set. |
| `Services.Service.ApplyArmNext` | internal/schedule/service.go:276-301 | Inside the transaction: the soonest planned order becomes pending and is recorded, or the refusal when there is none. |
| `Services.Service.ArmNext` | internal/schedule/service.go:274-302 | The same for arming, which picks its target under the lock. |
| `Enrollments.Enrollment.Create` | internal/httpapi/schedules.go:98-210 | A checkout gets its schedule and creation event together, or the schedule it already has, or an error and no change; sending it again creates nothing. |
| `Enrollments.Enrollment.Insert` | internal/httpapi/schedules.go:167-189 | The schedule and its creation event are committed together or not at all; a second one for the same checkout is reported as such. |
| `Sweeps.WindowCoversDue` | internal/store/store.go:403-425 | A schedule due on its customer's calendar is always listed by the one-day-wide UTC window, in any timezone. |
| `Sweeps.WindowIsExact` | internal/store/store.go:403-425 | And it lists no one in vain: exactly the schedules due, at that instant, in some timezone on earth. |
| `Sweeps.WindowIsNeeded` | internal/store/store.go:403-425 | Two runs and an instant at which, without the extra day, each listing would miss a customer ahead of UTC whose schedule is due. |
| `Sweeps.TodayIsLocalDay` | internal/sweep/sweep.go:215-223 | The date a schedule is judged by is the day whose 24 hours, counted in its own timezone or else in UTC, contain the instant. |
| `Sweeps.DatesAreLocal` | internal/sweep/sweep.go:90-96 | So are the dates a pass starts, checks and acts on for each candidate, each at its own reading of the clock. |
| `Sweeps.DueIsSpelledOut` | internal/sweep/sweep.go:182-186 | Over by a day means paused with an end on that day or before; due by a day means active with an order planned for no more than three days later. |
| `Sweeps.PassActsOnDue` | internal/sweep/sweep.go:90-96 | Listing by the UTC date and checking on the local date of the turn misses nobody due when the pass begins, and with both on one date acts on exactly those due. |
| `Sweeps.Sweeper.ResumeOne` | internal/sweep/sweep.go:87-116 | One candidate, however old its listing: resumed, on the date of the act, if and only if its listed pause is over on its own calendar when checked and it is paused under the lock, short of a failing database. |
| `Sweeps.Sweeper.ResumeListed` | internal/sweep/sweep.go:84-118 | Whatever happened since the listing, and whenever each turn comes, exactly those listed, over their pause when checked and paused under the lock are resumed, once each, and everyone else is left alone; all candidates are counted, those resumed, those not yet due and those moved meanwhile. |
| `Sweeps.Sweeper.ResumeDue` | internal/sweep/sweep.go:76-119 | A pass over a fresh listing resumes everyone whose pause is over, on the day in their own timezone at which the pass begins, as of the day in that timezone at which it acts; it changes no one whose pause is not over on the day in their timezone at which they are checked -- never an indefinite one -- counts them, and reports any failure, the listing's included. |
| `Sweeps.Sweeper.ArmOne` | internal/sweep/sweep.go:160-205 | One candidate, however old the unlocked read: the soonest order is armed if and only if that read showed one due and the lock finds one planned, short of a failing database. |
| `Sweeps.Sweeper.ArmListed` | internal/sweep/sweep.go:157-207 | Whatever happened since the listing and since each check, and whenever each turn comes, exactly those listed, due when checked and armable under the lock have one order armed, and everyone else is left alone; all candidates are counted, those armed, those not yet due and those moved meanwhile. |
| `Sweeps.Sweeper.ArmDue` | internal/sweep/sweep.go:149-208 | A pass over a fresh listing arms one order, the soonest, of everyone with an order planned for no more than three days past the day, in their own timezone, at which the pass begins; it changes no one without such an order on the day in their timezone at which they are checked, counts them, and reports any failure, the listing's included. |
| `Sweeps.ArmPassesArmSoonest` | internal/sweep/sweep.go:149-208 | n undisturbed passes at one instant arm exactly the n soonest due planned orders by date and number, never one more than three days ahead. |
| `Sweeps.ArmPassesSettle` | internal/sweep/sweep.go:137-148 | As many passes as there are due orders reach a fixpoint with nothing due left. |
| `StaleChecks.ArmActsOnDueIff` | internal/sweep/sweep.go:137-144 | An accepted arming arms an order within the window if and only if the schedule, as locked, has one due. |
| `StaleChecks.CheckStaysGood` | internal/sweep/sweep.go:168-190 | After any calls that top up, pause, cancel or change nothing, a schedule the sweep found due is still due if it is still active. |
| `StaleChecks.PauseDateIsLastPause` | internal/schedule/service.go:135-165 | While a schedule is paused its pause date is the one in the latest pause event. |
| `StaleChecks.ResumeActsOnDueIff` | internal/sweep/sweep.go:90-101 | In every reachable state an accepted resume ends a pause that is due if and only if the latest pause on record has an end and that has come. |
| `StaleChecks.DuePauseStaysDue` | internal/sweep/sweep.go:90-101 | After any calls among which no pause was accepted, a resume that is accepted still ends the pause the sweep found due. |
| `StaleChecks.StaleArmCheck` | internal/sweep/sweep.go:168-190 | A run with a skip between the check and the lock, in which the sweep arms an order a month before its window. |
| `StaleChecks.StaleResumeCheck` | internal/sweep/sweep.go:93-101 | A run with a resume and a new pause between the check and the lock, in which the sweep ends the new pause at once. |
| `Concurrency.FlipEntry` | internal/store/store.go:343-357 | Committing a transaction changes the serial outcome of its own schedule only, and it acted on what everything locked before it left. |
| `Concurrency.PerformKeeps` | internal/schedule/service.go:70-87 | Every step -- checkout, request, lock, compute, commit, abort, crash -- keeps the database equal to the serial execution. |
| `Concurrency.Serializable` | internal/schedule/service.go:88-118 | At every moment of any interleaving the committed state equals the checkouts and committed transactions taken one at a time in lock order, each accepted by the state it then acted on; losers change nothing. |
| `Concurrency.PerformKeepsLocks` | internal/store/store.go:193-211 | A commit, a rollback and a crash release the lock the transaction held, and every lock always has a transaction at work on its schedule. |
| `Concurrency.LockedIffBusy` | internal/store/store.go:339-375 | At every moment of any execution a schedule is locked if and only if a process is busy with it, and then that one holds the lock and no other is busy with it. |
| `Concurrency.WaiterCanAcquire` | internal/store/store.go:343-375 | A waiting process can take the lock if and only if its schedule exists and no process is busy with it, and turns away if and only if there is no such schedule. |
| `Concurrency.BusyCanFinish` | internal/store/store.go:193-211 | A busy process can always roll back, leaving the database as it is, and can compute and then commit whatever was accepted; it is idle afterwards and can ask for anything. |
| `Concurrency.CheckoutAnswers` | internal/store/store.go:230-270 | A checkout goes through if and only if its id and its order are new and its interval is from 7 to 180 days, whoever holds whatever lock. |
| `Concurrency.AlwaysSound` | internal/store/store.go:243-255 | At every moment each schedule is sound and no two come from one checkout. |
| `Concurrency.ConcurrencyIsSequential` | internal/materialize/materialize.go:77-125 | So every schedule, found or opened on the way, is always in a state a sequential run reaches: sound, moved forward only, its log still determining it -- stale listings included. |
| `Outbox.ExecutionIsSafe` | internal/store/store.go:596-676 | With a deadline within the visibility timeout, at every time of any execution no event is held by two live runs and no held one is resolved. |
| `Outbox.FinalForever` | internal/store/store.go:650-676 | Sent and failed rows are never changed again, across crashes and overlaps, and no event collects more than five recorded send failures, nor fails for good before its fifth attempt. |
| `Outbox.TwoHolders` | internal/notify/notify.go:30-34 | For any longer deadline, an execution that ends with two live runs holding one event. |
| `Outbox.SentIsReopened` | internal/store/store.go:655-676 | For any longer deadline, an execution in which a row marked sent is pending again. |
| `Outbox.SafeIffDeadlineFits` | internal/notify/notify.go:30-34 | Every event has a single holder at all times, and no sent or failed row is ever overwritten: each if and only if the deadline does not exceed the visibility timeout. |
| `Outbox.DeployedTimingIsSafe` | cmd/notify/main.go:54-61 | The ten-minute deadline and the fifteen-minute timeout meet that condition. |
| `Dispatching.Dispatcher.ClaimNotifiableEvents` | internal/store/store.go:601-648 | Claims the oldest claimable events up to the limit, and all of them if it returns fewer. |
| `Dispatching.Dispatcher.MarkNotificationSent` | internal/store/store.go:655-663 | The row becomes sent, or the mark fails -- as it does when there is no row -- and nothing changes. |
| `Dispatching.Dispatcher.MarkNotificationFailed` | internal/store/store.go:666-676 | The row goes back to pending, or to failed once its attempts are used up; or the mark fails -- as it does when there is no row -- and nothing changes. |
| `Dispatching.Dispatcher.DispatchOne` | internal/notify/notify.go:160-229 | Mail is handed over if and only if it is deliverable -- a pre-billing notice only while its order is pending. The row becomes sent if and only if the mark is written and there is no address, or the order moved on, or the mail was accepted; failed if and only if the mail was turned down at the fifth attempt or later; and each outcome is told exactly when it is the case. |
| `Dispatching.Dispatcher.DispatchPage` | internal/notify/notify.go:117-136 | Every event of the page is resolved once, in order, counted under its outcome, and no other row is touched. |
| `Dispatching.Dispatcher.RunPage` | internal/notify/notify.go:109-141 | One page of at most 200 further everything still adds up, and a short page leaves nothing claimable. |
| `Dispatching.Dispatcher.RunAll` | internal/notify/notify.go:106-143 | The paging loop ends while events keep arriving, takes on each event at most once, mails exactly the deliverable ones once each, accounts for all it claimed, leaves nothing on record claimable if every claim was granted, and reports an error if and only if something failed. What a run leaves sent or failed no run ever claims again. |
| `Dispatching.TallyConserves` | internal/notify/notify.go:83-96 | The counters of a run add up to what it claimed. |
| `Portal.AnchorsAgree` | web/portal/src/sheet-cadence.js:29-34 | The browser's preview anchor is the anchor the service would commit. |
| `Portal.SortSorts` | web/portal/src/sheet-cadence.js:48 | The armed dates come out in order, and only those. |
| `Portal.UpcomingAfterChange` | internal/schedule/service.go:371-425 | After a cadence change the orders to come are the armed ones and the new cadence in date order; the armed ones all come first if and only if none lies past the cadence's reach. |
| `Portal.PreviewMatchesIff` | web/portal/src/sheet-cadence.js:36-51 | The three previewed dates are the first three the service commits if and only if three orders are armed within the cadence's reach, or fewer are and every date of the new cadence up to the cursor is an armed one. |
| `Portal.PreviewMatchesNearAnchor` | web/portal/src/sheet-cadence.js:36-51 | In particular when today is before the cadence's first date and no armed order lies beyond it. |
| `Portal.PreviewCanDiffer` | web/portal/src/sheet-cadence.js:47-51 | A run -- plan, arm, defer by 180 days -- after which the preview of a change to every 7 days is wrong. |

## Left out

- Services.Service.NextOccurrence: reads the log and the soonest row as values of the open transaction; the SELECT statements behind EventExistsWithKey, NextActionableOccurrence, LastPlacedOccurrence, MaxSequenceNo, CountFutureplannedOccurrences and LatestScheduledDate are functions of the ledger and cannot fail on their own.
- Materializers.Materializer.RunListed: takes the listing as an argument, so that it may be as old as one likes; its ids are distinct, as the primary key makes them, and their order is any.
- Enrollments.Enrollment.Create: of the checkout's fields only the order, the interval and the anchor; items, e-mail, timezone, token and discount are not modelled.
- Dispatching.Dispatcher.RunAll: is one run, with events arriving and its clock advancing between pages; overlapping runs and crashes are modelled in module Outbox instead.
- Concurrency.Serializable: a checkout is one step; its transaction touches no other schedule.
- Sweeps.Sweeper.ArmDue: is one pass over one fresh snapshot, in any order of candidates; a snapshot of any age is ArmListed, and since a candidate's transaction touches its own schedule only, that covers interference before each lock.
- Calendar.AddDaysLaws: is about normalized dates; the normalizing of out-of-range fields by NewDate, StartOfDayIn and the text form of a date are not modelled.
- Which kinds of event are notifiable: the events of a dispatch run are the notifiable ones, and whether one announces a charge is given per event.
- Occurrences reach placed or failed, and schedules failed, by no code in the repository; they are admitted as starting states and never produced.
- Rejection texts, event payload encoding and logging: only which error, which event and which fields.
- Customer scoping, tokens, handlers, routing and the console: plumbing around the service.
- Postgres beyond atomic statements and row locks: snapshots, SKIP LOCKED, aborted transactions, driver errors by name.
- Timezone data and daylight saving: a timezone is an arbitrary bounded offset, one per schedule and pass.
- Templates, rendering and Postmark: whether an event renders and whether its mail is accepted are given per event.
- The running minimum `earliest` in the materializer's loop is computed and never read; it has no counterpart.
- The compliance scanner, discount rounding, e-mail syntax and the rest of the portal: unrelated to the engine.
