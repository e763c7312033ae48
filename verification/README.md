# A Dafny model of the firmware's protocols and rule engine

The project models the parts of the firmware whose correctness depends on
more than one function: the rule engine and the events that reach it, the
CAN address claim, Modbus from the wire to the relays, the calendar behind
cron and the clock chip, and the checks on stored names. Each part is a module
of its own. Code that changes state step by step is a class whose methods
state the exact new state; code that runs in several tasks is a state machine
whose steps are the atomic accesses of the code, and the results are about
every interleaving of them.

| module | models |
|---|---|
| Calendar, Epoch | the Gregorian calendar as a day-by-day walk; `utc_tm_to_epoch`; the registers of the clock chip and its own leap years |
| Cron | expanding the five fields, and the search for the next matching minute, over an abstract time zone and over one with a constant offset |
| RuleEvents, Inputs, EventRing, DeferredTimers | numbering and queueing of events, the input drivers, the resync of dropped input changes, timers deferred into the ring |
| TimerTable, HeldFor | the timer-id table, and heldFor() rules with timer events still on their way when a timer is cancelled |
| RetryArms, RetryCoverage, RetryWaiting | every() and watchdog(), the steps of .after() and the arms of heldFor() rules when the timer table is full, and the exact conditions under which none is forgotten |
| RuleWalks, RulePasses | passes over the rules, the timelines of their actions, cascades under their caps, the no-loop guard, and passes the time budget cuts short and resumes |
| AddressClaim, FrameId | one board's claim handler, any number of boards on a bus, and the 29-bit identifiers under them |
| MbPdu, MbRead, DeviceId | request PDUs, a register read seen from both ends, paged device identification |
| CoilShadow | coil writes that are queued and coil reads that must not run behind them |
| TcpSlots, FramePump | connection slots shared by one poller and its workers; cutting a connection's bytes into frames and sending answers in pieces |
| Utf8, IoNames | the UTF-8 check against the encoder of RFC 3629, and the elimination of clashing names |
| Options, Collections, Bytes | what several of them share |

## How the main results are stated

- A state machine is a datatype, a `Step` datatype with `Enabled` and `Apply`,
  and runs as sequences of steps. Invariants are lemmas about one step, main
  results are lemmas about every run.
- Nondeterminism stands for what the code cannot decide: whether a queue has
  room, how many bytes a socket takes, whether a transfer fails, where the time
  budget's interrupt lands, which claim on the bus arrives next.
- An uncatchable interrupt is a method returning `cut`: everything above it
  returns at once, and nothing a `finally` would have undone is undone.
- Where a method is tied to a function, lemmas say what that function means in
  terms of the input: the request's own bits, the text of a cron field, the bytes
  on the wire, the entries of a history.
- Histories that only the statements need are ghost fields of classes, or
  components of a state machine's state that no step reads.

## What the proofs showed about the code

- The rules can check an old input level although `s_input_lost` is clear and
  nothing is queued: while the resync pass runs, the bits it has taken out of
  that word still count (`RuleEvents.TakenBitsMatter`). With those bits counted
  the agreement holds in every reachable state (`RuleEvents.RulesSeeTheInput`).
- An interrupt in a condition, in a step or anywhere else while the unfinished
  passes are on the stack loses none of them: resumed, each takes every rule it
  had left. A walk is lost only by an interrupt that finds one off the stack,
  between `_passes.pop()` in `_after_interrupt` and the push in `_pass`, or
  before its first push, and as many are lost as such interrupts landed; walks
  are given up only by a recovery whose first three tries were all cut short
  (`RulePasses.Engine.AnyCalls`). No walk takes a rule twice, wherever
  interrupts land.
- On a bus whose boards have different NAMEs the order of events decides nothing
  about the outcome: at rest each board has the first address from its preferred
  one on that no board with a lower NAME has (`AddressClaim.RestIsSeated`,
  `AddressClaim.OrderDoesNotMatter`), every run goes on to rest
  (`AddressClaim.ComesToRest`), and a board can fail exactly when the lower NAMEs
  leave it no address (`AddressClaim.FailsExactly`). With equal NAMEs two boards can
  drive each other all the way up and both fail
  (`AddressClaim.EqualNamesCanFail`).
- A heldFor() rule that the full table refuses while the retry queue is at its cap
  of 256 is marked as waiting and is not in the queue: only its next matching
  event can arm it. That is the one way in which a marked rule is not in line
  (`RetryWaiting.MarkedExactly`, reached in `RetryWaiting.MarkedInVain`).
- `components/modbus/mb_pdu.h:51` says that a start object the category does
  not have restarts the stream at its first object. The code begins at the
  first object at or after the start id, and restarts only when there is none:
  with objects 3, 4 and 6 a read from 5 starts at 6 (`DeviceId.StartsInAGap`).
  The promise is kept exactly for start ids that the category has, that are not
  above its first object or that are above its last (`DeviceId.PromiseKept`).
- The year the clock chip's register counts from has an exact condition
  (`Epoch.YearBaseCondition`): divisible by four, and the century year among
  its hundred years a leap year. 2000 meets it, 1970 does not.
- A timer is lost when queue and ring are both full
  (`EventRing.Plumbing.TimerFired`). The ring has a place for every timer of
  the table, so that takes the event of a timer cleared meanwhile among those in
  the ring (`DeferredTimers.LostMeansCleared`); with one there, it happens
  (`DeferredTimers.LossIsReachable`).
- "Late rather than never" holds of the retry queue whatever watchdogs conditions
  feed: an entry waits only while the table is full
  (`RetryArms.NothingWaitsInVain`).
- That no every() and no watchdog() is forgotten has an exact condition
  (`RetryCoverage.StepExactly`), which conditions that feed none meet
  (`RetryCoverage.PureIsHarmless`). It fails in two ways. `_retry_arms` shifts
  off the first entry after running one: when the conditions of a waiting
  heldFor() arm feed an expired watchdog for which the table has no slot, its
  entry goes in front, and if they come out false it is shifted off in the arm's
  place (`RetryCoverage.LosesExactly`, reached from power-up in
  `RetryCoverage.LossIsReachable`). And `_rearm` overwrites the timer it names:
  when clearing the old one lets a check feed the same watchdog, the timer that
  feed armed is forgotten, no later feed clears it, and it expires a watchdog
  that is fed on time (`RetryCoverage.TwoTimersAreReachable`).
- An input change is forgotten when its call is cut short by the condition of a
  waiting arm, before the level is stored, and nothing newer says what the level
  is (`RuleEvents.CutExactly`, `RuleEvents.CutForgetsAChange`).

## Model

| member | source | states |
|---|---|---|
| Calendar.DayNumberCountsDays | components/board/app_time.c:31-39 | for every date of every year, the day number of the era arithmetic is n exactly when n steps of the calendar from 1970-01-01 lead to that date |
| Calendar.DayCountSteps | components/board/app_time.c:31-39 | a day later the count is one higher, over month ends, leap days and year ends |
| Calendar.DatesOrdered | components/board/app_time.c:31-39 | later day numbers are later dates |
| Epoch.EpochOfBreakDown | components/board/app_time.c:29-41 | breaking any instant down by walking the calendar and converting it back gives the instant |
| Epoch.BreakDownOfEpoch | components/board/app_time.c:29-41 | converting any valid broken-down time and breaking the result down gives the same fields, with the weekday of that date |
| Epoch.WeekdayTurns | components/board/app_time.c:29-41 | 1970-01-01 is a Thursday, and a day later it is the next day of the week |
| Epoch.Rtc.Set | components/board/rtc.c:106-124 | refuses exactly the years outside 2000 to 2099; otherwise the eight registers hold the packed fields, or, when the transfer failed, what they held |
| Epoch.Rtc.Read | components/board/rtc.c:81-104 | nothing after a failed transfer; otherwise the fields unpacked from the registers, trusted exactly with the marker there and the oscillator flag clear |
| Epoch.RegistersRoundTrip | components/board/rtc.c:30-31 | every valid time of 2000 to 2099 survives packing into BCD registers and masking on the way back, and is trusted |
| Epoch.RegistersHold | components/board/rtc.c:106-124 | which register holds what: the marker, and seconds, minutes, hours, day, weekday, month and year as two decimal digits each |
| Epoch.ClockKeepsInstant | components/board/rtc.c:81-124 | an instant of 2000 to 2099 written to the chip and read back converts to the same epoch second |
| Epoch.YearBaseCondition | components/board/rtc.c:17-20 | a base year keeps the chip's every-fourth-year leap days in step with the Gregorian calendar for a hundred years if and only if it is divisible by four and the century year among them is a leap year |
| Epoch.YearBase2000 | components/board/rtc.c:17-20 | 2000 is such a base year and 1970 is not |
| Cron.AddGrid | components/scripting/dsl.js:523 | the stepping loop adds exactly the values of the part's grid between its bounds |
| Cron.CronField | components/scripting/dsl.js:507-526 | refused exactly when some part has a bad step or is out of range; otherwise exactly the values some part selects |
| Cron.FoldSunday | components/scripting/dsl.js:530-531 | 7 becomes 0, all other weekdays stay |
| Cron.ParseCron | components/scripting/dsl.js:527-541 | accepted exactly with five good fields; each set holds exactly what its field selects, the weekdays with 7 folded into 0, and a day field counts as restricted exactly when it is not a bare star |
| Cron.ReturnedTimeMatches | components/scripting/dsl.js:559-584 | in any zone, whatever its date setters do and however many turns the loop takes, a returned time is after the start, its local fields match, and with restricted hours the clock did not read the same an hour before |
| Cron.FoundExactly | components/scripting/dsl.js:564-583 | in any zone the loop stops at a time exactly when it matches, is after the start, is not past the cap year and, with restricted hours, is not in an hour that is there for the second time |
| Cron.StepOnWall | components/scripting/dsl.js:564-582 | in a zone with a constant offset one turn of the loop is one step of the wall clock, and no hour is taken for a repeated one |
| Cron.SkipMonth | components/scripting/dsl.js:565 | skipping to the first of the next month moves forward and passes over no matching minute |
| Cron.SkipDay | components/scripting/dsl.js:566 | the same for skipping to the next day |
| Cron.SkipHour | components/scripting/dsl.js:567 | the same for skipping to the next hour |
| Cron.CronNext | components/scripting/dsl.js:559-584 | the search ends; it returns -1 exactly when no whole minute after the start matches up to the end of the fifth calendar year after it, and otherwise the least one that does |
| Cron.SelectsPicks | components/scripting/dsl.js:507-526 | a part selects what its text says: a star everything, a range its ends and what lies between, a number itself or, with a step, everything from it on, and of these every step-th one |
| Cron.MatchesAsks | components/scripting/dsl.js:544-550 | for the fields of an accepted text a local time matches exactly when the text asks for it: minute, hour and month by their fields, and the day by no field, by the one that is not a bare star, or by either of two, 0 and 7 both being Sunday |
| Cron.WallIs | components/scripting/dsl.js:559-584 | the wall clock of the results: so many whole days from 1970-01-01, a Thursday, then hours and minutes |
| Cron.NextOf | components/scripting/dsl.js:594-608 | a text is refused exactly when a field is bad; otherwise the answer is the first whole minute after the start that the text asks for, up to the end of the fifth calendar year after it in local time, and -1 exactly when there is none |
| AddressClaim.Board.Start | components/can/can_server.c:680-754 | power-up: claiming the preferred address and broadcasting the claim |
| AddressClaim.Board.HandleClaim | components/can/can_server.c:448-482 | the handler does what the protocol step does in every state, for every source address and NAME |
| AddressClaim.Board.Tick | components/can/can_server.c:602-657 | a claim that stood unchallenged becomes active, nothing else changes |
| AddressClaim.StepSettles | components/can/can_server.c:448-482 | every step keeps: of two boards holding one address, a claim is on its way to one of them |
| AddressClaim.QuietMeansDistinct | components/can/can_server.c:448-482 | for any boards, names, preferred addresses and order of delivery: with no claim on its way, no two boards that have not failed hold the same address |
| AddressClaim.YieldsOnlyToLower | components/can/can_server.c:455-475 | a board gives its address up, or fails, only on a claim for that address by another board whose NAME is not higher |
| AddressClaim.ChallengedMovesOn | components/can/can_server.c:459-475 | a board challenged below address 251 is claiming the next address, and its claim for that is on its way to every other running board; from 251 on it has failed, and says so from the null address |
| AddressClaim.StandsItsGround | components/can/can_server.c:476-480 | a claim by a higher NAME changes no board and is answered to every other with the address it was for |
| AddressClaim.TellsItsAddress | components/can/can_server.c:490-498 | a start and an answered request tell every other running board the address |
| AddressClaim.UnchallengedIsActive | components/can/can_server.c:602-657 | a board that holds an address is active there once its claim has stood |
| AddressClaim.ChallengesMove | components/can/can_server.c:455-475 | over every run a board is as many addresses above its preferred one as it was challenged, once at each; it has failed exactly when it was challenged at every address up to 251 |
| AddressClaim.LowestKeepsAddress | components/can/can_server.c:455-480 | in every run the board with the lowest NAME keeps its preferred address |
| AddressClaim.LeftMeansHeld | components/can/can_server.c:455-480 | with different NAMEs, at any moment of any run every address a board has moved on from is held by a board with a lower NAME |
| AddressClaim.RoomMeansNoFailure | components/can/can_server.c:461-471 | a board fails only on a bus with as many other boards as there are addresses from its preferred one to 251 |
| AddressClaim.RestIsSeated | components/can/can_server.c:448-482 | at rest every board has the first address from its preferred one on that no board with a lower NAME has, and has failed exactly when there is none |
| AddressClaim.OrderDoesNotMatter | components/can/can_server.c:448-482 | in whatever order boards start and claims arrive, two runs of the same boards that come to rest leave every board in the same place |
| AddressClaim.ComesToRest | components/can/can_server.c:448-482 | from any state a run goes on to rest: every board started, and no claim on its way |
| AddressClaim.FailsExactly | components/can/can_server.c:461-471 | there is a run in which a board fails if and only if the boards with lower NAMEs, choosing their addresses first, leave it none from its preferred one to 251 |
| AddressClaim.EqualNamesCanFail | components/can/can_server.c:455-458 | the NAMEs must differ: two boards that share one can both fail on a bus of their own, whatever address they prefer |
| AddressClaim.WorkShrinks | components/can/can_server.c:455-480 | every start and every delivery strictly lowers a potential of remaining addresses and weighted claims |
| AddressClaim.ClaimsAreFinite | components/can/can_server.c:448-482 | without address requests, starts and deliveries are bounded by the potential, and so are the claims sent |
| AddressClaim.ClaimsFromPowerUp | components/can/can_server.c:448-482 | from power-up the number of claims of any run has a bound that depends only on the boards |
| AddressClaim.Network.Execute | components/can/can_server.c:448-482 | boards whose handlers run in any order on one bus make the run of those steps: with no claim on its way, no two of them hold the same address, and with different NAMEs each has the first address that no lower NAME has; none fails that has room above it |
| FrameId.DecodeMake | components/can/can_server.c:273-294 | what comes back of an identifier: the source, the destination only below format 0xF0, and the 17-bit group without the low byte the destination replaced |
| FrameId.GroupSurvives | components/can/can_server.c:273-294 | the group number survives exactly when it has 17 bits and, below format 0xF0, a zero low byte |
| FrameId.MakeDecode | components/can/can_server.c:273-294 | any 29-bit identifier is made again from its decoded parts, but for the reserved bit |
| FrameId.ClaimIsRecognised | components/can/can_server.c:365-369 | an address claim decodes as one, from the claimed address, to everybody; on the wire it is 0x18EEFF00 with the address in the last octet |
| FrameId.StatusId | components/can/can_server.c:273-294 | a group above format 0xF0 with its data page set: the switch bank status is 0x0DF20D00 with the source in the last octet, whatever the destination |
| RuleEvents.StepKeepsQueue | components/scripting/scripting.c:101-108 | every interleaved step keeps the queue, with the event in hand in front, in strictly rising numbers |
| RuleEvents.StepKeepsRing | components/scripting/scripting.c:220-239 | every step keeps the timers already run, those in the ring and the one about to enter it in rising numbers |
| RuleEvents.StepKeepsAgreement | components/scripting/scripting.c:640-676 | every step keeps: for a channel with nothing set aside, the last non-stale waiting event, or else what the rules last saw, is the driver's level |
| RuleEvents.RulesSeeTheInput | components/scripting/scripting.c:640-676 | over every interleaving: with no non-stale event waiting, no lost bit (shared or taken by the running resync) and no report under way, the rules check the driver's level |
| RuleEvents.ResyncSettles | components/scripting/scripting.c:640-676 | a resync pass leaves no lost bit, and the rules then check the level of a channel that had one, with no queued event left that could bring an old level back |
| RuleEvents.TakenBitsMatter | components/scripting/scripting.c:642-650 | the shared lost bits alone are not enough: a reachable state with that word clear in which the rules still check an old level, because the pass has taken the bit |
| RuleEvents.CutExactly | components/scripting/dsl.js:957-961 | an input event whose call is cut short before the level is stored leaves the agreement standing exactly when it was not the last news of its channel, or said what the rules check already |
| RuleEvents.CutForgetsAChange | components/scripting/dsl.js:957-961 | a reachable state in which such a cut makes the rules forget a change, with nothing waiting and no lost bit |
| RuleEvents.DeferredTimersKeepTheirTurn | components/scripting/scripting.c:681-698 | in every reachable state the queue rises strictly, a deferred timer about to run was numbered before everything queued, and deferred timers have run in number order |
| Inputs.ToldIsARun | components/scripting/scripting.c:1586-1600 | storing a level and reporting it at once is a run of the protocol's steps, with the lost bit when the queue is full |
| Inputs.Driver.Deliver | components/scripting/scripting.c:1586-1600 | numbered and queued, or the channel's lost bit set |
| Inputs.Driver.Scan | components/board/di.c:170-193 | a scan is a run of the protocol: every level ends as its pin, one report for each channel that moved, lost bits only for those |
| Inputs.Driver.PublishAll | components/board/di.c:123-140 | a publish is a run of the protocol: every level ends as its pin and every channel is reported |
| EventRing.Ring.Push | components/scripting/scripting.c:227-236 | the ring takes an entry at its end, refused exactly with 48 entries in it |
| EventRing.Ring.Pop | components/scripting/scripting.c:689-690 | gives the entry that has waited longest and leaves the others in order |
| EventRing.Plumbing.EvtSend | components/scripting/scripting.c:101-108 | every event gets the next number, also one the full queue refuses, which is the numbering step of the interleaved system |
| EventRing.Plumbing.TimerFired | components/scripting/scripting.c:220-239 | a timer goes to the queue, or numbered to the end of the ring, and is lost exactly when both are full, which are the timer task's steps of the interleaved system |
| EventRing.Plumbing.Drain | components/scripting/scripting.c:681-698 | takes from the ring exactly the entries numbered before the first queued event, in order, and all of them with nothing queued, by steps of the interleaved system |
| DeferredTimers.LostMeansCleared | components/scripting/scripting.c:206-239 | over every run of arming, clearing, running out and running: a timer is refused by queue and ring only while the ring holds the event of a timer that was cleared meanwhile |
| DeferredTimers.OneLeaves | components/scripting/scripting.c:278-318 | a timer leaves the table exactly when it is run or cleared |
| DeferredTimers.LossIsReachable | components/scripting/scripting.c:214-231 | a run that loses one: all 48 events deferred, one of those timers cleared, another armed and run out |
| TimerTable.Table.Find | components/scripting/scripting.c:199-204 | the slot of the armed timer with that id, or -1 exactly when there is none |
| TimerTable.IdsDiffer | components/scripting/scripting.c:281-284 | fewer than a full turn of the counter apart, two ids differ |
| TimerTable.Table.NextId | components/scripting/scripting.c:281-285 | the allocation loop ends on an id no armed timer has, having passed over armed ids only |
| TimerTable.Table.Set | components/scripting/scripting.c:245-303 | refused exactly with no free slot or no timer to be had, changing nothing; otherwise the armed timers gain one, under an id in 1 to INT32_MAX that none of them has |
| TimerTable.Table.Take | components/scripting/scripting.c:615-624 | an armed timer leaves the table with its callback, all others stay; an id that is not armed does nothing |
| HeldFor.Engine.ApplyMatch | components/scripting/dsl.js:1080-1099 | arming, queueing, cancelling and unlatching exactly as the step for a true or a false evaluation |
| HeldFor.Engine.RetryArm | components/scripting/dsl.js:1109-1119 | the queued arm exactly as its step: dropped, armed, or kept first in line |
| HeldFor.Engine.RunTimer | components/scripting/scripting.c:615-636 | an elapsed timer exactly as its step: nothing for an id that is gone, otherwise the slot freed before the callback |
| HeldFor.Engine.HeldElapsed | components/scripting/dsl.js:1066-1074 | fires and latches, or gives up, or is left named for the recovery when cut short |
| HeldFor.Engine.AfterInterrupt | components/scripting/dsl.js:1014-1020 | a check cut short is set for another held period unless the rule is armed or has fired |
| HeldFor.StepKeepsTold | components/scripting/scripting.c:278-303 | every step keeps: an event on its way that finds a timer under its id finds the one that posted it |
| HeldFor.FoundTrue | components/scripting/dsl.js:1082-1092 | found true, a rule with neither timer nor latch is armed, or waits when the table refuses; any other keeps what it has |
| HeldFor.FoundFalse | components/scripting/dsl.js:1093-1099 | found false, a rule has no timer, no latch and no place in the queue left, and its timer is out of the table |
| HeldFor.OwnTimerRuns | components/scripting/dsl.js:1066-1074 | in every reachable state, the event of a rule's own timer fires and latches it if the conditions still hold, only takes the timer if not, and cut short leaves the check to be set again |
| HeldFor.HoldFires | components/scripting/dsl.js:1066-1099 | over every run a rule granted a timer, not found false and with no event of that timer delivered before one that finds the conditions holding, fires then: once since it was armed, in that timer's callback, and is latched |
| HeldFor.HoldIsPending | components/scripting/dsl.js:1066-1120 | over every run that recovers from an interrupt before it goes on, a rule found true last has its timer, waits for one, has fired since, or is about to be checked again |
| HeldFor.FiresOncePerHold | components/scripting/dsl.js:1066-1120 | over every run a rule fires at most once between two evaluations that found its conditions false, and only in the callback of the timer it armed last, since whose arming none did |
| HeldFor.Engine.Execute | components/scripting/dsl.js:1066-1120 | the code called in any order makes the run of those steps, so that what is proved of runs holds of it |
| HeldFor.CancelledNeverRuns | components/scripting/scripting.c:305-318 | over every run, an event whose timer was cancelled or has run finds no timer |
| RetryArms.PassRefused | components/scripting/dsl.js:124-131 | whatever watchdogs conditions feed, a pass over the queue ends with nothing waiting, or having asked the table for a timer last and been refused |
| RetryArms.NothingWaitsInVain | components/scripting/dsl.js:93-131 | over every run, whatever watchdogs conditions feed: where only a full table refuses a timer, an entry waits between callbacks only while the table is full |
| RetryArms.OwnRearmFirst | components/scripting/dsl.js:79-80 | an every() takes a free slot straight back, before any waiting entry |
| RetryArms.FedIsAlive | components/scripting/dsl.js:698-704 | a watchdog that is fed is alive and started, and has a timer or waits for one, whatever else the feed sets off |
| RetryArms.Scheduler.Schedule | components/scripting/dsl.js:71-91 | a full table refuses, which is remembered; otherwise one new timer |
| RetryArms.Scheduler.RearmWhenFree | components/scripting/dsl.js:139-149 | one entry, ahead of all others, for a trigger without a timer |
| RetryArms.Scheduler.RunEntry | components/scripting/dsl.js:132-149 | an entry run exactly as specified: a trigger armed or left waiting, a step's or heldFor() rule's timer, a check with whatever its conditions feed |
| RetryArms.Scheduler.RetryArms | components/scripting/dsl.js:124-131 | the loop makes exactly the pass the results are about, and nothing while one is running |
| RetryArms.Scheduler.Execute | components/scripting/dsl.js:71-149 | the code called in any order makes the run of those calls, so that what is proved of runs holds of it |
| RetryCoverage.LostExactly | components/scripting/dsl.js:124-131 | a turn of the loop that found the queue in order breaks it exactly when a waiting heldFor() arm's check has put entries in front and the arm is then done with: the first of those is shifted off instead, and its trigger waits for an entry that is not there |
| RetryCoverage.LosesExactly | components/scripting/dsl.js:124-149 | from what is known before the turn, for any list of watchdogs the conditions feed: it loses an entry exactly when the conditions come out false and one of those watchdogs, with no timer and no entry, is fed when the table's slots have gone to the ones before it |
| RetryCoverage.RearmedExactly | components/scripting/dsl.js:684-692 | a watchdog's re-arm keeps every trigger covered exactly when the pass it starts loses no entry and leaves this watchdog with no timer, which the assignment would overwrite |
| RetryCoverage.StepExactly | components/scripting/dsl.js:71-149 | any call, whatever watchdogs conditions feed, keeps the invariant exactly when no turn of its pass loses an entry and no re-arm overwrites a timer |
| RetryCoverage.RunExactly | components/scripting/dsl.js:71-149 | the invariant holds after each call of a run exactly when none of its calls does such harm |
| RetryCoverage.NothingForgotten | components/scripting/dsl.js:93-149 | over every run without such harm: every every() a rule uses and every started, alive watchdog has a timer or an entry, none has two of either, and they wait ahead of everything else |
| RetryCoverage.PureIsHarmless | components/scripting/dsl.js:93-149 | runs whose conditions feed no watchdog are such runs |
| RetryCoverage.PurePass | components/scripting/dsl.js:124-149 | conditions feeding nothing: a pass takes entries in order, each trigger it takes off armed, and takes no timer from any trigger |
| RetryCoverage.LossIsReachable | components/scripting/dsl.js:124-149 | a run from power-up that loses a watchdog's entry |
| RetryCoverage.TwoTimersAreReachable | components/scripting/dsl.js:684-702 | a run from power-up that loses no entry, and yet leaves a watchdog with two timers: no feed clears the one it does not know of, which expires the watchdog right after a feed |
| RetryWaiting.NoArmForgotten | components/scripting/dsl.js:93-135 | over every run, whatever conditions feed: an .after() step that waits or has its timer goes on doing so until the timer runs out, and so does a heldFor() rule's arm whose conditions hold |
| RetryWaiting.StepNotForgotten | components/scripting/dsl.js:116-135 | from power-up, a step that asks for a timer with room in the table or in the queue waits or has its timer until that runs out |
| RetryWaiting.DroppedExactly | components/scripting/dsl.js:116-135 | a step is dropped exactly when the table refuses it with 256 entries in the queue |
| RetryWaiting.OpInOrder | components/scripting/dsl.js:93-131 | arms other than the triggers' are served in the order they came in: what any call leaves of the line, with what it adds at the end, is its end |
| RetryWaiting.MarkedExactly | components/scripting/dsl.js:1106-1120 | a call keeps every rule that is marked as waiting in the queue exactly unless it marks one with the queue at its cap of 256 |
| RetryWaiting.MarkedInVain | components/scripting/dsl.js:1106-1120 | a run from power-up that leaves a heldFor() rule marked as waiting with no entry in the queue |
| RulePasses.Engine.Emit | components/scripting/dsl.js:174-187 | at 16 hops or 256 changes the write is dropped, and nothing else happens; below, a pass for the fact is made, which, not cut short, takes every rule, evaluates those that listen and acts on those that fire; either way it is on record under the code that wrote |
| RulePasses.Engine.NextRule | components/scripting/dsl.js:1143-1149 | one turn of a pass: its next rule taken, evaluated if it listens, and its action entered and run if it fires, unless a no-loop flag is up |
| RulePasses.Engine.Pass | components/scripting/dsl.js:1139-1153 | a finished pass leaves the stack as it found it and has acted on every rule that fires; one cut while it is on the stack stays there and loses nothing |
| RulePasses.Engine.Enter | components/scripting/dsl.js:1139-1140 | a walk is lost by an interrupt before the push, and by no other |
| RulePasses.LosesAWalk | components/scripting/dsl.js:1139-1140 | a run that loses a walk: an interrupt before the first push, with nothing left on the stack to take up again |
| RulePasses.Engine.RunAction | components/scripting/dsl.js:989-994 | nothing for a no-loop rule that is firing; otherwise the action is entered at once and, not cut short, has run all its steps up to the first that waits for a timer, once each and in order, with that timer armed; cut short, the first of these |
| RulePasses.Engine.RunSteps | components/scripting/dsl.js:892-914 | of a timeline from a step on: that step's timer if it is delayed, otherwise all steps up to the first that is, once each and in order; cut short, the first of these |
| RuleWalks.StepAndRest | components/scripting/dsl.js:895-911 | what a timeline does from a step on, said by its first delayed step, is that step and the timeline from the next, with a delayed next step's timer armed first |
| RulePasses.Engine.Go | components/scripting/dsl.js:895-911 | a step from its timer or from the one before: the next one's timer armed before it runs if that one is delayed, and otherwise the steps after it up to the next that is, once each and in order |
| RulePasses.Engine.Step | components/scripting/dsl.js:905-908 | the step runs with a no-loop rule's flag up, which is given back, and its code emits all it writes, in order |
| RulePasses.Engine.UserCode | components/scripting/dsl.js:174-187 | a piece of code emits every fact it writes, in order, each with its own pass unless a cap is reached; cut short, the first of them |
| RuleWalks.TakeSound | components/scripting/dsl.js:1142-1143 | moving next before the rule runs keeps the account of every pass |
| RulePasses.Engine.RootEvent | components/scripting/dsl.js:1126-1129 | a root event ends with as many cascade passes as it counted, at most 256, nested at most 16 deep; not cut short, each of its passes has taken every rule, and its own has evaluated those that listen and run the action of those that fire; cut short, a walk is lost only if it was off the stack |
| RulePasses.Engine.RootExpired | components/scripting/dsl.js:684-691 | a watchdog's expiry always makes its pass: no cap of an earlier event is in its way |
| RulePasses.Engine.RootHeld | components/scripting/dsl.js:1066-1074 | a heldFor() rule whose conditions still hold has its action entered and run |
| RulePasses.Engine.RootStep | components/scripting/dsl.js:892-914 | a delayed step's timer runs that step and the ones after it up to the next delayed one, and then tries waiting arms again |
| RulePasses.Engine.AfterInterrupt | components/scripting/dsl.js:1010-1046 | resuming gives nothing up; completed, no pass is left over and no no-loop flag is up; cut short on the stack it loses nothing, and off it the one walk that was off it, with all it had taken |
| RulePasses.Engine.Recover | components/scripting/scripting.c:531-563 | at most three tries that resume and one that does not; still interrupted exactly when all four were cut short, and nothing given up before three were |
| RulePasses.Engine.AnyCalls | components/scripting/dsl.js:1010-1153 | over any calls, cut anywhere, resumed any number of times: each pass takes the rules once each in order, an action is entered only by a walk its rule fires for and once, never while a no-loop rule's own action or step runs; every write has its pass or a cap to blame; as many walks are lost as interrupts found one off the stack, none is given up unless a recovery was cut short three times; all others have taken every rule and evaluated those that listen; and every call not cut short has fed and retried what it is to, run its delayed step or held rule, and, recovered before it, had its event's walk run the action of every rule that fires |
| MbPdu.ParsePdu | components/modbus/mb_pdu.c:35-108 | accepts exactly the encodings of well-formed requests and returns the encoded request, address and count the more significant octet first; exception 1 exactly for functions the device lacks, 3 for the rest; the function code is always there for the reply |
| MbPdu.Exactly | components/modbus/mb_pdu.c:35-108 | a PDU of a known function encodes a request exactly when its length fits and its reading is well formed |
| MbPdu.EncodingsDiffer | components/modbus/mb_pdu.c:35-108 | two requests with the same bytes are the same request |
| MbRead.BuildReadRequest | components/modbus/mb_pdu.c:293-304 | twelve bytes that are the read frame for the arguments, the rest of the buffer untouched |
| MbRead.BuildResponse | components/modbus/mb_pdu.c:113-145 | the response PDU for reads, device identification, echoed writes and exceptions, nothing else touched |
| MbRead.WriteIsEchoed | components/modbus/mb_pdu.c:141-143 | the answer to a write repeats the code, the address, and the value or the count of the request |
| MbRead.AnswerForms | components/modbus/mb_pdu.c:113-145 | a refusal is the code with its top bit set and the exception; an identification is the code and the page |
| MbRead.MbapWrite | components/modbus/mb_pdu.c:24-30 | the request's transaction and protocol id, the length counting the unit id, the unit id; the PDU behind untouched |
| MbRead.Answer | components/modbus/mb_tcp_server.c:219-247 | response PDU behind a header addressed as the request was |
| MbRead.AcceptsExactly | components/modbus/mb_pdu.c:306-343 | for every byte string: accepted as data exactly when it is this read's data frame with that data and the count is 1 to 125, refused exactly when it is its exception frame |
| MbRead.AnswersOneReadOnly | components/modbus/mb_pdu.c:306-343 | a data frame for another transaction, unit, function code or count is malformed |
| MbRead.FrameUnique | components/modbus/mb_pdu.c:306-343 | there is only one data frame for a read and its data |
| MbRead.HeadedIsWhole | components/modbus/mb_tcp_server.c:478-494 | a frame with a read's header, request or answer, is one that the server's cutting of the stream hands on whole |
| MbRead.ReadExchange | components/modbus/mb_pdu.c:293-343 | the built request parses back to its fields, and the answer over its header is accepted with exactly the data, or the exception, that was sent |
| DeviceId.Conformity | components/modbus/mb_pdu.c:175-183 | the level is that of the highest category in the table |
| DeviceId.StreamsApart | components/modbus/mb_pdu.c:161-170 | which object ids each of the three streams has; they share none, and objects 7 to 127 are in none |
| DeviceId.FindStream | components/modbus/mb_pdu.c:213-222 | the category's objects from the first at or after the start id, or from its first one when there is none; none exactly when the category is empty |
| DeviceId.StartsInAGap | components/modbus/mb_pdu.h:49-54 | the header's promise is not kept: with objects 3, 4 and 6 a regular read from 5 delivers object 6 only |
| DeviceId.PromiseKept | components/modbus/mb_pdu.c:210-222 | it is kept exactly when the start id is an object of the category, or not above its first, or above its last |
| DeviceId.FillPage | components/modbus/mb_pdu.c:224-235 | as many objects as fit 250 bytes, at least one, laid out one after the other |
| DeviceId.DevIdEncode | components/modbus/mb_pdu.c:187-245 | exceptions 3, 4 and 2 exactly for a bad read code, a value no PDU can hold and nothing to deliver; otherwise header and objects of the right range, ending where no further object fits |
| DeviceId.DecodeBody | components/modbus/mb_pdu.c:224-235 | objects laid out are read back as they were |
| DeviceId.PageObjects | components/modbus/mb_pdu.c:224-245 | a page's header says what the page is, and a client reads exactly the page's objects back from it |
| DeviceId.ReadStream | components/modbus/mb_pdu.c:187-245 | following next object id from 0 while more follows gives exactly the category's objects in order, in no more responses than objects, each of at most 250 bytes with at least one object |
| CoilShadow.LocalIo.DoutModify | components/board/dout.c:252-287 | set, cleared or toggled per channel, as the masks say; a failed transfer leaves everything as it was |
| CoilShadow.LocalIo.ReadCoils | components/modbus/mb_server.c:169-197 | refused exactly out of range; otherwise the shadow for coils with a write outstanding, the relay for the others, the pads as they run |
| CoilShadow.LocalIo.WriteCoils | components/modbus/mb_server.c:242-304 | refused as a whole, changing nothing, with the exception exactly for a bad address, a pad that is no output or a full queue; or accepted as a whole: at once every coil of it, relay or pad, reads as the bit asked for and every other as before, and a command with these bits is queued |
| CoilShadow.LocalIo.TransferCmd | components/modbus/mb_server.c:564-575 | exactly the addressed coils in one transfer |
| CoilShadow.LocalIo.FinishCmd | components/modbus/mb_server.c:577-589 | counts lowered, and the shadow put back in step where nothing is outstanding |
| CoilShadow.LocalIo.RunCommand | components/modbus/mb_server.c:564-590 | a turn of the command task is the three steps of the protocol: with a transfer that succeeds the relays of the write have its bits and the others are as before, with one that fails none has changed |
| CoilShadow.StepCounted | components/modbus/mb_server.c:242-304 | every interleaved step keeps each count equal to the outstanding commands covering the coil |
| CoilShadow.PendingIsOutstanding | components/modbus/mb_server.c:564-590 | over every interleaving each pending count is the number of accepted unfinished commands covering the coil, at most nine, and with one outstanding the coil reads as the bit of the last accepted write to it |
| CoilShadow.NothingHalfDone | components/modbus/mb_server.c:250-284 | once a write has set its pads, its relay part is queued and it counts as accepted |
| CoilShadow.ReadsLastAccepted | components/modbus/mb_server.c:169-197 | with no failed transfer and no other writer every read of a relay coil returns the bit of the last accepted write to it, and what the relay was at the start without one |
| CoilShadow.PadsReadLastAccepted | components/modbus/mb_server.c:169-197 | over every interleaving a pad reads as the bit of the last accepted write to it |
| TcpSlots.OldestIdle | components/modbus/mb_tcp_server.c:372-382 | the connection quiet longest among those that may be taken over, or -1 exactly when there is none |
| TcpSlots.PlaceFor | components/modbus/mb_tcp_server.c:393-425 | a free slot if there is one, else the place of the one quiet longest, else none; always an enabled step of the protocol |
| TcpSlots.OneJobPerBusySlot | components/modbus/mb_tcp_server.c:272-306 | in every reachable state a busy slot is named by exactly one job and any other slot by none, and every answer that left went out on the connection its frame came in on |
| TcpSlots.PollerLeavesJobsAlone | components/modbus/mb_tcp_server.c:559-633 | no step of the poller touches a slot whose job is queued or with a worker |
| TcpSlots.AnswersOnceAndOverNothing | components/modbus/mb_tcp_server.c:201-207 | an answer is armed only where none is pending, answers the frame its job was made for, and no frame is answered twice |
| TcpSlots.NothingAfterTheEnd | components/modbus/mb_tcp_server.c:313-327 | over every run, once the end of an answer has left, no piece of it leaves again and it is pending nowhere |
| TcpSlots.PartIsNotEvicted | components/modbus/mb_tcp_server.c:372-425 | over every run, a connection that has sent part of a frame keeps its slot until the frame is whole or the connection is closed |
| TcpSlots.StartsClean | components/modbus/mb_tcp_server.c:393-425 | a newcomer's slot has no part of a frame, no answer and no job left over, and no other slot has its connection |
| FramePump.CutConcat | components/modbus/mb_tcp_server.c:478-494 | whole frames one after the other are cut apart into those frames |
| FramePump.WholeFrameIs | components/modbus/mb_tcp_server.c:486-497 | a whole frame byte by byte: protocol 0, and a length of 2 to 254, the more significant octet first, that counts what follows; and exactly which headers are bad |
| FramePump.Connection.PumpSlot | components/modbus/mb_tcp_server.c:457-511 | a visit hands on one whole frame at its exact end, or finds the socket with nothing more, or closes the connection: for a late frame exactly when one was begun, at the end of the stream, for a socket error or a bad header |
| FramePump.Visits | components/modbus/mb_tcp_server.c:457-511 | however any stream is split over any number of visits, the frames handed on are the cut of the bytes taken, and of the whole stream once it is taken or a bad header has come; beyond them less than one frame is taken; it is closed for one of four causes only, and where bytes keep coming and no frame is late, one visit more than there are frames hands all of them on |
| FramePump.Outgoing.Arm | components/modbus/mb_tcp_server.c:201-207 | an answer is armed with none pending, starting at its first byte |
| FramePump.Outgoing.Flush | components/modbus/mb_tcp_server.c:313-327 | sends as long as the socket takes anything, nothing twice and nothing left out; what is left pending is so because the socket took nothing last; finished exactly when the peer is gone or a full socket is late; a socket that keeps taking gets the whole answer |
| Utf8.EncodeSpells | components/board/app_config.c:113-131 | every scalar value's encoding passes the check and spells that value |
| Utf8.SpellsEncode | components/board/app_config.c:113-131 | bytes that pass as one character are the encoding of the value they spell |
| Utf8.SameStart | components/board/app_config.c:113-131 | two characters whose bytes begin the same text are the same |
| Utf8.Utf8Ok | components/board/app_config.c:113-131 | accepts a NUL-terminated string exactly when it is the encoding of some sequence of non-zero scalar values, reading no further than the NUL |
| IoNames.NumbersDiffer | components/board/app_config.c:107-111 | the numbers of different channels are different topics |
| IoNames.DecimalSpells | components/board/app_config.c:107-111 | a channel's number is spelt in ASCII digits |
| IoNames.NameProblem | components/board/app_config.c:134-148 | refuses exactly names with a topic separator or wildcard, invalid UTF-8, or a reserved word |
| IoNames.Clash | components/board/app_config.c:151-161 | another channel with the same topic, or -1 exactly when there is none |
| IoNames.CheckSpace | components/board/app_config.c:163-176 | accepts exactly the spaces whose names can be topics and whose topics all differ |
| IoNames.DropClashing | components/board/app_config.c:196-206 | a round clears exactly the names that clash |
| IoNames.Normalize | components/board/app_config.c:189-207 | leaves an accepted space within its fixed rounds, only clears names, changes nothing that was accepted, and keeps every proper name that no other channel has as name or number |
| IoNames.NormalizeAll | components/board/app_config.c:209-215 | a stored configuration's inputs and outputs both come out accepted, each against its own reserved words |
| IoNames.ChainOfClashes | components/board/app_config.c:185-188 | a cleared name's number can clash in turn |

## Left out

- RuleEvents.RulesSeeTheInput: about isolated inputs; a pad that stops being an
  input and the report that tells the rules so are not modelled, and the time
  budget cuts a call short only in the resync; what it does to an event in hand
  is in RuleEvents.CutExactly.
- RetryArms.Scheduler.RunEntry: a condition feeds watchdogs and does nothing
  else, the passes its feeding starts are not run, and the time budget does not
  interrupt the arming code; a rule counts as waiting only while it has neither a
  timer nor a latch, which the closure tests for; cron() and stale() triggers,
  which use the same queue, are not told apart from the others.
- RetryCoverage.LosesExactly: only a full table refuses a timer, and the table
  holds no more timers than it has slots.
- RulePasses.Engine.AfterInterrupt: clearing the edge flags and arming the time
  triggers again is only a place where the next interrupt may land.
- RulePasses.Engine.AnyCalls: rules do not change while a call runs, and
  `.noLoop()` is not set on a running rule; running out of stack or memory is
  not an interrupt here. Interrupts land in conditions and steps, when a timer
  is armed, before a pass is pushed, at every turn of its loop and before it is
  popped, and at both ends of the recovery; the conditions of a rule come out for
  a walk as they do, whatever they read. Feeding watchdogs and trying waiting arms
  again is a piece of code here that writes what it writes. An event whose call is
  cut short before its pass is made, by the condition of a waiting arm, has none.
- HeldFor.CancelledNeverRuns: timer ids do not come round a full wrap of the
  counter while an event that carries one is still on its way.
- HeldFor.HoldIsPending: the queue's cap of 256 is not part of this module; what
  it does to a waiting rule is in RetryWaiting.MarkedExactly.
- RetryWaiting.NoArmForgotten: a heldFor() rule's conditions hold whenever the
  queued arm checks them.
- HeldFor.FiresOncePerHold: a rule's action is only its being fired; what the
  action does is in RulePasses.
- Cron.ParseCron: splitting the text into fields and parts, and what `parseInt`
  makes of odd text, are inputs.
- Cron.NextOf: the time a trigger is armed for is the answer; arming it is in
  RetryArms.
- Cron.CronNext: a start time that is not a number and dates beyond 8.64e15 ms
  do not occur; zones that change their offset are covered only by
  Cron.ReturnedTimeMatches.
- Inputs.Driver.Scan: a pad that starts or stops being an input is not modelled.
- Inputs.Driver.PublishAll: every channel is an input; the pads that are not are
  skipped by the code.
- EventRing.Plumbing.Drain: nothing arrives while it drains; what arrives is in
  RuleEvents.DeferredTimersKeepTheirTurn.
- AddressClaim.Board.Tick: the 250 ms are over when it is called, and the reports
  a board sends once it is active are not modelled.
- Epoch.EpochOfBreakDown: `time_t` and `long` are unbounded; `tm_yday` and
  `tm_isdst` are not fields.
- AddressClaim.QuietMeansDistinct: claims are not lost and transmit slots do not
  run out.
- AddressClaim.RoomMeansNoFailure: boards prefer addresses up to 251, which is what
  the configuration allows, and have different NAMEs.
- AddressClaim.ClaimsAreFinite: the 250 ms of a claim may end at any time, and
  the NAME is a number.
- MbPdu.ParsePdu: the `local_ip` the transport sets afterwards is not a field.
- DeviceId.DevIdEncode: objects without a value are objects with an empty one,
  and tables of more than 65535 objects are not told apart from shorter ones.
- CoilShadow.LocalIo.WriteCoils: whether every pad addressed is an output is one
  outcome of the call; nobody else sets pads; register writes only take their place in the queue.
- TcpSlots.OneJobPerBusySlot: answers and jobs are identified by the frame they
  belong to; the order of the poller's steps within one pass is left open.
- FramePump.Visits: a frame's deadline is an outcome of a visit, not a clock,
  and the end of the stream is heard only once its last byte is taken.
- IoNames.Normalize: names are byte strings without their storage, and the
  input and the output names are two calls.
- Sockets, select, FreeRTOS, esp_timer, I2C, TWAI, NVS and QuickJS are outcomes
  of the steps that call them.
- Reading numbers out of registers, the identification registers, the Modbus
  gateway and the polling of the Modbus TCP master.
- The web server, MQTT, Matter, LED, buzzer, auxiliary pads, buttons, Ethernet
  and time synchronisation.
- Reloading and trial-loading scripts, memory limits and logging.
