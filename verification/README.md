# Verified model of the table-session protocol

The system lets guests order from a QR code at their table and lets staff cook, serve and
bill. Its core is a protocol over a relational database: a table has at most one open session;
a session collects orders whose items move from pending to served or cancelled; a session ends
by checkout (billed), or is abandoned by a periodic sweep and later restored or billed
directly. Many requests run at once, coordinated only by compare-and-swap updates, row locks,
a unique partial index and commit order.

This project models that protocol, the report that adds up its bills and the customer page
that follows it live, and proves what it keeps.

## How the model is built

| file | what it holds |
|---|---|
| `Schema.dfy` | the tables as datatypes and the row-level effect of every UPDATE; amounts in cents, instants in microseconds |
| `Money.dfy` | sums over sets of rows, and the bill of a session |
| `Effects.dfy` | what a committed transaction does: a guarded effect on the database, and the soundness every effect keeps |
| `Laws.dfy` | laws of every valid list of effects, hence of every run and every interleaving |
| `Requests.dfy`, `Runs.dfy`, `RunLaws.dfy`, `SweepLaws.dfy`, `Ordering.dfy`, `CallRate.dfy`, `Tenancy.dfy` | requests served one at a time: the effects each commits, the invariant of every run, and its consequences |
| `Columns.dfy` | the vocabulary of the contracts: what a request finds and leaves, column by column, independent of the functions by which the model computes it |
| `Services.dfy` | the services as methods that update the tables in place, statement by statement, loops included; each is proved to commit exactly the effects planned for its request |
| `Interleaving.dfy` | the same transactions interleaved statement by statement at Read Committed, the engine's default, with row locks, waits, aborts, the index checked on each write, and edits of menu and settings committing in between |
| `Statements.dfy`, `Isolation.dfy` | every interleaving is equivalent to its commits taken one after the other |
| `Decisions.dfy` | what each deciding statement of an interleaving decides on and what each commit writes, column by column |
| `Races.dfy` | the laws of effects for every interleaving, what a checkout reports, what get_or_open returns |
| `LateWrites.dfy` | requests that decide on an old read: late orders and calls, calls within a cooldown, acknowledgements that overwrite, each with its exact condition |
| `OrderRaces.dfy`, `TenantRaces.dfy` | create_order among edits of the menu, whole or not at all; tenant isolation of every commit |
| `RestoreRaces.dfy`, `SweepRaces.dfy` | which stamp a restore acts on and when that is in time; whether what a sweep abandons is still stale |
| `Witnesses.dfy` | schedules that defeat some natural claims |
| `SweepLock.dfy`, `LockedSweeps.dfy` | the Redis lock around the sweep, and the lock and the database as one system |
| `Reporting.dfy` | the two aggregations of the report |
| `Client.dfy` | the event filter and the item list of the customer page |

Two layers share one vocabulary. Served one at a time, a request is planned as a list of
effects (`Requests.Plan`), and the methods of `Services.Store` are proved to do exactly that.
Interleaved, a transaction is a program counter over single SQL statements with the rows it
has written and holds; `Isolation.ScheduleRefines` shows that the committed database is always
the one its commits produce in order, so each law of effects holds there too.

Time is one clock. `now()` in SQL is the instant at which the first statement of a transaction
is issued, before any wait; the places that read the clock in Python (`create_order`, the
24-hour test of `restore`, and `ack`) use the instant of the step. Identifiers the server
generates are parameters required to be new.

## Promises that do not hold as written, and what holds instead

The design lists correctness properties (.kiro/specs/qorder-mvp/design.md:550-588). Of those:

- Property 3 (the total equals what is served) holds when a session is closed. Undo has no
  guard on the session's status, so it can fail afterwards: `RunLaws.UndoAfterCheckout`. From
  closing on, the total is the sum over what was served then, it never understates what is
  served, and it is exact if and only if every billed line taken back since, by an undo that
  no later service has made good, is free of charge: `RunLaws.BilledForever`. Interleaved, an
  order may still reach the closed session; the total is then exact if and only if the billed
  lines taken back since and the lines placed since and last served add up to the same, both
  read off the commits: `Races.InterleavedBalance`. The report inherits this line by line:
  `Reporting.RevenueGap`.
- Property 5 (no live item once a session is closed or abandoned) holds for abandoned sessions
  served one request at a time, and for closed ones as long as none of their own items is
  undone (`Laws.SettledWithoutUndo`); each undo breaks it at once (`Laws.UndoBreaksSettled`).
  Interleaved, an order or a staff call that found the session open can land after a checkout
  (`Witnesses.LateOrder`, `Witnesses.LateCall`) and just as well after a sweep, with no checkout
  anywhere (`Witnesses.OrderIntoAbandoned`, `Witnesses.CallIntoAbandoned`). It lands in a session
  that is not open if and only if the last checkout, abandonment or restore of it committed
  since get_or_open answered is a checkout or an abandonment (`LateWrites.LandsLate`). And an
  item of a session left for good is live if and only if the last placement, move or single
  cancellation of it committed since leaves it live (`Laws.LiveSince`, `Races.InterleavedLive`).
- Property 7 (two calls of a table are a cooldown apart) holds for requests served one at a
  time. Interleaved, two calls can be created at the same instant (`Witnesses.TwoCallsAtOnce`).
  The cooldown a call has read and checked is broken at its commit if and only if a call for
  the table and within that cooldown was committed since the check, whatever has become of the
  settings (`LateWrites.CooldownRace`); and over a whole schedule in which the cooldown is never
  set below c, calls stay c apart if and only if no call is committed with another closer than
  c to it committed since its check (`LateWrites.SpacedIff`).
- Property 9 (no restore after 24 hours) holds for requests served one at a time
  (`RunLaws.RestoredInTime`). Interleaved, the stamp in force is the one tested or that of the
  last abandonment committed since the test (`RestoreRaces.RestoreStamp`), and the restore is
  in time if and only if that abandonment, if there is one, is at most 24 hours old
  (`RestoreRaces.TakenUpInTime`). While sweep transactions do not overlap it is never older than
  the tested one (`RestoreRaces.NoOlderStamp`), so every restore is in time
  (`RestoreRaces.InTimeAlong`); the sweep lock gives this while every holder leaves within its
  TTL (`LockedSweeps.LockedInTime`). With two sweeps at once it can be older by any amount,
  because a sweep stamps with the instant its transaction began (`Witnesses.OverlappingSweeps`).
- A sweep abandons only what its scan found idle, but its compare-and-swap looks at the status
  alone: a session that has been active since the scan is abandoned all the same
  (`Witnesses.ActiveYetAbandoned`), and so is one whose restaurant has raised its
  timeout since (`Witnesses.RaisedYetAbandoned`). `SweepRaces.SweptWasStale` says exactly when it is still idle for as long as the scan asked
  (its last activity committed since, if there is any, lies before the limit of the scan) and
  exactly when the scan would still select it (its activity and the timeout, each brought up to
  date by what was committed since).
- An order stores the menu as it was when it read it: an edit that commits before the insert
  leaves items at a price the menu no longer shows (`Witnesses.OldPrice`). What does hold is that
  each row is a snapshot of a menu row that was on sale at some instant while the request was
  reading, and that the order is there whole or not at all (`OrderRaces.OrderAllOrNothing`).
- An acknowledgement writes by id without looking at the status again, so one that had read the
  call in time overwrites another (`Witnesses.AckOverwritten`), or puts its name on a call that
  a checkout or a sweep has dismissed. What it overwrites is no longer waiting if and only if
  another acknowledgement of the call, or a checkout or abandonment of its session, was
  committed since its read (`LateWrites.AckRace`); served one at a time this cannot happen
  (`RunLaws.AckedForever`).
- The customer page keeps one entry per item and does not care whether the pushed event or the
  HTTP answer of an order arrives first, but an update that arrives between the two is undone
  by the answer unless the answer agrees with it (`Client.UpdateSurvivesAnswer`).

## Model

| member | source | states |
|---|---|---|
| Effects.EffectKeepsSound | qorder_api/models/session.py:48-55 | every committed effect keeps: no orphans and one restaurant along item, order, session, call and table; at most one open session per table; the nullness of stamps and total that a session's status implies; served iff served_at, cancelled iff cancelled_at iff cancelled_by |
| Effects.EffectKeepsItemShapes | qorder_api/services/item_state_service.py:100-155 | across every writer (status, cancel, checkout, restore, sweep) an item is served iff it has served_at and cancelled iff it has both cancellation columns |
| Laws.EpochConservation | qorder_api/services/session_service.py:313-368 | abandonments = reopenings + direct checkouts + (1 if abandoned now), per session; a session is closed at most once and for good |
| Laws.FutureAll | qorder_api/models/order.py:69-76 | order-time snapshots never change, cancelled items never change at all, acknowledged calls stay acknowledged, a closed session changes only in last_activity_at, nothing is deleted |
| Laws.StatusGraph | qorder_api/services/item_state_service.py:47-57 | every status change of an item is one of the allowed transitions or a cancellation from a live status; backwards only from served, within 120 seconds of its service |
| Laws.TransitionBound | qorder_api/services/item_state_service.py:93-164 | an item with u undos changes status at most 3 + 4u times, system cancels included |
| Laws.TransitionBoundIsTight | qorder_api/services/item_state_service.py:47-57 | from every pending item and for every u there is a valid history that reaches 3 + 4u |
| Laws.CloseSettles | qorder_api/services/session_service.py:189-228 | closing leaves no live item and stores as total the sum of price times quantity over the session's served items, the same before and after the automatic cancellations |
| Columns.ServingRaisesTotal | qorder_api/services/session_service.py:206-228 | serving an item raises the total a closing of its session stores by exactly the item's price times its quantity |
| Columns.NothingServed | qorder_api/services/session_service.py:206-228 | a closing of a session with nothing served stores the total 0 |
| Laws.BilledSetLaw | qorder_api/services/session_service.py:206-228 | after closing, with no order placed into the session: total fixed at the sum over the set B served then, only items of B are ever served, the total never understates, and it is exact iff every line of B that the history takes back is free |
| Laws.BillBalance | qorder_api/services/session_service.py:206-228 | after closing, whatever orders reach the closed session: the total stays the sum over the set B served then, and is exact iff the lines of B the history takes back and the lines it places and serves have the same sum |
| Laws.SettledWithoutUndo | qorder_api/services/item_state_service.py:100-113 | without an undo of one of its own items, a settled session keeps no live item and the same bill under every history, whatever is undone elsewhere |
| Laws.UndoBreaksSettled | qorder_api/services/item_state_service.py:100-113 | every undo puts a live item into its session, closed or not, and takes its line off what is served while the total stays |
| Laws.LiveSince | qorder_api/services/item_state_service.py:93-164 | in a session with nothing live that is closed, or not left again, an item is live iff the last placement, move or single cancellation of it since leaves it live |
| Requests.PlanIsAtomic | qorder_api/models/session.py:48-55 | whatever a legal request plans passes every compare-and-swap, key and index check when its turn comes, and orders and calls go into open sessions only |
| Requests.RunIsHistory | qorder_api/services/session_service.py:237-238 | a run of requests is the application of its effects in order |
| Runs.InvRun | qorder_api/scheduler/__init__.py:94-104 | in every reachable state: served_at is not after the session's last_activity_at, an abandoned session had been idle for more than an hour and has no live item, no one waits in a session that is not open, every total covers its standing lines |
| Runs.StartInv | qorder_api/models/session.py:20-47 | the invariant holds before the first guest arrives |
| Runs.Frozen | qorder_api/api/admin_router.py:55 | no set_status and no cancel_item on an item of an abandoned session can succeed |
| Runs.DismissedWithSession | qorder_api/services/staff_call_service.py:191-202 | when a session stops being open every call of it is dismissed, the restaurant filter excluding none |
| RunLaws.FrozenRun | qorder_api/scheduler/__init__.py:136-172 | until it is restored, an abandoned session and all its items stay exactly as they are under every run |
| RunLaws.PathIndependence | qorder_api/services/session_service.py:313-433 | checkout now, or abandonment and later direct checkout, or abandonment, restore and checkout: the same total and the same item statuses, whatever ran in between |
| RunLaws.BilledForever | qorder_api/services/session_service.py:206-238 | the billed-set law for every run of requests after a closing, with the lines taken back read off the history of the run |
| RunLaws.ClosedTakesNoOrders | qorder_api/api/customer_router.py:300-305 | served one at a time, no order ever enters a closed session |
| RunLaws.UndoAfterCheckout | qorder_api/services/item_state_service.py:100-113 | from every pending item of an open session, the legal run serve, check out, undo leaves a live item in the closed session and the total above what is served by its line |
| RunLaws.RestoredInTime | qorder_api/services/session_service.py:290-306 | in every run, an abandoned session is taken up again only within 24 hours of its stamp |
| RunLaws.AckedForever | qorder_api/services/staff_call_service.py:143-152 | served one at a time, an acknowledged call never changes |
| SweepLaws.SweepOutcome | qorder_api/scheduler/__init__.py:110-124 | for every pattern of failures: a session that was scanned and did not fail is abandoned now, its live items cancelled by the system, its waiting calls acknowledged, its other rows as they were; every other session is untouched |
| SweepLaws.NoneStaleAfterSweep | qorder_api/scheduler/__init__.py:94-108 | a sweep without failures leaves no stale open session whose restaurant has settings |
| Ordering.SubmitAllOrNothing | qorder_api/api/customer_router.py:307-366 | served one at a time: if the table is active, its restaurant too, and every line names an active and available dish of the restaurant, there is one order more in the session of the table, with exactly one row per line, its menu item, quantity and note those of the line, its name, price and time those of the menu, pending and without stamps; otherwise no order and no item changes |
| OrderRaces.OrderIsSnapshot | qorder_api/api/customer_router.py:307-358 | in every interleaving with menu edits, what an order commits is one pending row per line with the line's menu item, quantity and note, its name, price and time those of a menu row that was on sale at some instant while the request was reading the menu, lines of one menu item sharing it |
| OrderRaces.OrderAllOrNothing | qorder_api/api/customer_router.py:300-366 | in every interleaving: once the order has committed the database holds exactly its rows, unchanged but for their progress; before, and if it is refused or aborted, nothing of it |
| CallRate.CooldownLaw | qorder_api/services/staff_call_service.py:51-73 | with a cooldown of c seconds or more, any two calls of one table stay at least c apart over every run |
| CallRate.RateBound | qorder_api/services/staff_call_service.py:51-73 | then a window of length w holds at most w / c + 1 calls of the table |
| Tenancy.TenantFrame | qorder_api/services/item_state_service.py:166-177 | a request made for one restaurant leaves the sessions, orders, items, calls, menu and settings of every other exactly as they are and adds none |
| TenantRaces.CommitsForTenant | qorder_api/services/item_state_service.py:166-177 | in every interleaving, whatever a request commits is of the restaurant it acts for and leaves the rows of every other exactly as they are |
| Services.Store.FindOpenSession | qorder_api/services/session_service.py:458-469 | returns the open session of the table iff there is one |
| Services.Store.GetOrOpen | qorder_api/services/session_service.py:82-113 | returns the session open at the table; if none was, exactly one is added, noted for the opener, opened and active now, with no stamps and no total, and not stale at any instant up to the timeout of its restaurant from now |
| Services.Store.OpenTable | qorder_api/api/staff_table_router.py:57-83 | opens or finds a session iff the table is active and, for staff, of their own restaurant, for a guest's code, of an active one; a new session is noted for the opener |
| Services.Store.CancelLiveItems | qorder_api/services/session_service.py:189-204 | the bulk update cancels exactly the session's pending, cooking and ready items, for the system, now, with the reason given |
| Services.Store.SumServed | qorder_api/services/session_service.py:206-218 | the loop returns the sum of price times quantity over the served items of the session |
| Services.Store.Checkout | qorder_api/services/session_service.py:146-253 | succeeds iff the session is open and of the restaurant; then it is closed now with the sum of price times quantity over its served items as total, returned and stored, each of its live items is cancelled and listed once with its former status, each waiting call acknowledged and counted; otherwise nothing changes |
| Services.Store.Restore | qorder_api/services/session_service.py:275-455 | each outcome iff: reopened when the session is of the restaurant, abandoned at most 24 hours ago and its table free, checked out when the table is taken, too old past 24 hours; with every column either path writes; the lost and missing-stamp outcomes never occur in one step, and a refusal changes nothing |
| Services.Store.SetStatus | qorder_api/services/item_state_service.py:87-183 | the item moves iff it is of the restaurant and pending for cooking, pending or cooking for ready, pending, cooking or ready for served, served at most 120 seconds ago for an undo; the row of each target with who served it and when, the session touched, and nothing else changed |
| Services.Store.CancelOne | qorder_api/services/item_state_service.py:208-260 | for any allowed set: cancels iff item, tenant and status match, with who, when and why, touches the session and changes nothing else; with live statuses allowed it is the cancellation of one live item |
| Services.Store.StaffCancel | qorder_api/api/kitchen_router.py:238-250 | staff cancel a pending, cooking or ready item of their restaurant and no other, noted as cancelled by staff, now, with the reason |
| Services.Store.CustomerCancel | qorder_api/api/customer_router.py:455-486 | customers cancel an item iff it is pending, of the table's restaurant and in an order of the session open at the table; noted as cancelled by the customer, now, with the reason |
| Services.Store.ValidateLines | qorder_api/api/customer_router.py:307-331 | refuses the first line that cannot be ordered; otherwise every later lookup succeeds, repeated menu ids included |
| Services.Store.InsertLines | qorder_api/api/customer_router.py:342-358 | adds one row per line under the identifier generated for it, menu item, quantity and note from the line, name, price and time from the menu, pending, without stamps; every other row stays |
| Services.Store.CreateOrder | qorder_api/api/customer_router.py:262-366 | no table iff it or its restaurant is inactive; placed iff every line names an active and available dish of the restaurant, and then order, rows and session are as stated column by column; a refusal names the first line that cannot be ordered and leaves orders and items alone; the session just returned is never found closed |
| Services.Store.CallStaff | qorder_api/services/staff_call_service.py:51-88 | creates a call, waiting, for the session of the table, iff the table takes requests and no call of it is younger than the cooldown in the restaurant's settings, 60 seconds without any |
| Services.Store.AckCall | qorder_api/services/staff_call_service.py:127-149 | acknowledges a waiting call of the restaurant with name and instant, returns one acknowledged before unchanged |
| Services.Store.DismissPending | qorder_api/services/staff_call_service.py:191-202 | acknowledges, now and by nobody, exactly the waiting calls of the session and counts them |
| Services.Store.ScanStale | qorder_api/scheduler/__init__.py:94-108 | lists, each once, exactly the open sessions whose last activity is further back than the timeout their restaurant has set |
| Services.Store.AbandonSession | qorder_api/scheduler/__init__.py:136-183 | commits the whole abandonment, session, items and calls, or leaves the savepoint as it was, wherever it raises |
| Services.Store.RunSweep | qorder_api/scheduler/__init__.py:110-124 | a scanned session that does not fail before its commit ends abandoned with every item and call of it, every other session exactly as it was |
| Statements.EveryStatement | qorder_api/services/session_service.py:146-238 | every SQL statement of every transaction keeps what the transaction holds and knows, never takes a row another holds, and never makes a second session claim a table |
| Isolation.SessionFrame | qorder_api/services/item_state_service.py:165-179 | the session row is the lock of its items: a transaction that does not write it leaves the session's live items, bill and pending calls as they are |
| Isolation.CommitMatches | qorder_api/services/session_service.py:237-238 | a commit applies to the committed database exactly the effect of its transaction, guard intact |
| Isolation.ScheduleRefines | qorder_api/db.py:30-43 | serial equivalence: under every interleaving of statements, waits and aborts the committed database is the one its commits produce one after the other |
| Decisions.RequestKept | qorder_api/services/session_service.py:60-65 | no step, of its own or of another, turns a request into one for another table, opener, basket, item, change, call or session |
| Decisions.NowOfTransaction | qorder_api/db.py:30-43 | the instant a transaction writes as now() is that of its first statement and stays so until it ends; what follows is another transaction |
| Decisions.OpenFinds | qorder_api/services/session_service.py:82-85 | in every interleaving get_or_open goes on with a session open at the table, and goes on to insert one iff there is none |
| Decisions.OpenWrites | qorder_api/services/session_service.py:88-113 | the session it commits is new and the only open one of its table, noted for the opener, opened and active as of its transaction, without stamps and total, and not stale at any instant up to its restaurant's timeout from then |
| Decisions.OrderWrites | qorder_api/api/customer_router.py:333-366 | an order commits with its session and one row per line, column by column, touches its session, and changes no other item and no call |
| Decisions.ItemDecides | qorder_api/services/item_state_service.py:100-164 | in every interleaving the compare-and-swap on an item succeeds iff the committed row is of the restaurant and the change applies to it: the arrow is one of the allowed ones, an undo comes within 120 seconds, a guest cancels what is pending, staff what is live |
| Decisions.ItemWrites | qorder_api/services/item_state_service.py:100-183 | what it commits: the change still applies to the committed row, the row of each target or cancellation column by column, its session active now, nothing else |
| Decisions.CallDecides | qorder_api/services/staff_call_service.py:51-66 | the cooldown read is that of the restaurant's settings, 60 seconds without any, and the check passes iff no call of the table is younger |
| Decisions.CallWrites | qorder_api/services/staff_call_service.py:69-88 | a call commits waiting, for its session and table, created as of its transaction, and touches the session |
| Decisions.AckWrites | qorder_api/services/staff_call_service.py:143-149 | an acknowledgement commits its name and the instant of its read, and nothing else |
| Decisions.RestoreDecides | qorder_api/services/session_service.py:275-306 | in every interleaving the test passes iff the session is of the restaurant and abandoned at most 24 hours before, and each refusal occurs exactly for its reason |
| Decisions.RestoreFinds | qorder_api/services/session_service.py:308-345 | the restore turns to the direct checkout iff the table has an open session by then |
| Decisions.ReopenWrites | qorder_api/services/session_service.py:313-340 | a reopening commits on an abandoned session whose table is free: open, no stamp, active as of its transaction, nothing else changed |
| Decisions.SweepDecides | qorder_api/scheduler/__init__.py:94-106 | in every interleaving the scan takes up exactly the open sessions whose last activity is further back than the timeout their restaurant has set |
| Decisions.SweepWrites | qorder_api/scheduler/__init__.py:136-183 | the commit for a session abandons it with every item and call of it and leaves every other session exactly as it was |
| Races.CheckoutReport | qorder_api/services/session_service.py:146-253 | in every interleaving a committing checkout's list is exactly the set of items it cancels, with their rows before, its total, stored too, is the sum of price times quantity over what is served in the state it commits to, its count that of the waiting calls it dismisses |
| Races.InterleavedEpochs | qorder_api/models/session.py:48-55 | in every interleaving, overlapping sweeps included: epoch conservation, closed for good, never two open sessions at a table |
| Races.InterleavedTransitionBound | qorder_api/services/item_state_service.py:93-164 | the transition bound for every interleaving |
| Races.InterleavedBill | qorder_api/services/session_service.py:206-228 | the billed-set law for every interleaving in which no order reaches the closed session |
| Races.InterleavedBalance | qorder_api/services/session_service.py:206-228 | for every interleaving after a closing: the total is what is served iff the billed lines taken back and the lines placed and served by the commits since have the same sum |
| Races.InterleavedLive | qorder_api/services/item_state_service.py:93-164 | for every interleaving after a closing: which items of the closed session are live, exactly |
| Races.AnswerIsOpen | qorder_api/services/session_service.py:82-113 | whatever get_or_open returns is open at the table at the instant it is found or made |
| Races.SameAnswer | qorder_api/services/session_service.py:82-113 | two calls for one table, however interleaved, return the same session unless it was closed or abandoned in between |
| Races.ConflictIsOpen | qorder_api/services/session_service.py:98-101 | the insert is rolled back only before a session that is open at the table right then |
| Races.RaceRecovery | qorder_api/services/session_service.py:102-109 | the race recovery fails only if the session that won was closed or abandoned before the second look |
| LateWrites.LandsLate | qorder_api/api/customer_router.py:300-366 | an order or call lands in a session that is not open iff the last checkout, abandonment or restore of it committed since get_or_open answered is a checkout or an abandonment, and in a closed one iff it is a checkout |
| LateWrites.AckRace | qorder_api/services/staff_call_service.py:127-149 | a committing acknowledgement writes its name; the call it overwrites is no longer waiting iff an acknowledgement of it or a checkout or abandonment of its session was committed since the read |
| LateWrites.CooldownRace | qorder_api/services/staff_call_service.py:51-86 | when a call commits, some call of the table is within the cooldown it has read iff one was committed for it since the check, edits of the settings included |
| LateWrites.SpacedIff | qorder_api/services/staff_call_service.py:51-86 | over a whole interleaving that never sets the cooldown below c, the calls of a table stay c apart iff no call is committed after another closer than c to it has been committed since its check |
| RestoreRaces.StampNeverMissing | qorder_api/services/session_service.py:290-292 | the refusal for a missing abandoned_at is unreachable in every interleaving |
| RestoreRaces.RestoreStamp | qorder_api/services/session_service.py:290-368 | the stamp the compare-and-swap of either path finds is the tested one or that of the last abandonment committed since the test, so it is at least as recent as the tested one iff that abandonment, if any, is |
| RestoreRaces.TakenUpInTime | qorder_api/services/session_service.py:290-368 | a restore or direct checkout commits within 24 hours of the stamp in force iff the last abandonment committed since its test, if any, is that recent |
| RestoreRaces.NoOlderStamp | qorder_api/services/session_service.py:290-368 | without overlapping sweep transactions, the stamp found is never older than the one tested |
| RestoreRaces.InTimeAlong | qorder_api/services/session_service.py:290-368 | without overlapping sweep transactions, whatever takes an abandoned session up again in an interleaving does so within 24 hours of the stamp in force |
| SweepRaces.SweptWasStale | qorder_api/scheduler/__init__.py:94-152 | a sweep abandons only sessions its scan found stale; exactly when one is still idle by the limit of the scan at the commit, and exactly when it would still be selected, in terms of the activity and the timeout edits committed since |
| LockedSweeps.OwnedStart | qorder_api/scheduler/__init__.py:64-81 | the invariant of lock and database holds when no process has entered |
| LockedSweeps.LockedSweepsAlone | qorder_api/scheduler/__init__.py:64-81 | in every history of lock and database in which holders leave within their TTL, the database sees a schedule in which no two sweep transactions overlap |
| LockedSweeps.LockedInTime | qorder_api/scheduler/__init__.py:64-81 | then every restore and direct checkout comes within 24 hours of the stamp in force |
| Witnesses.StartKeeps | qorder_api/db.py:30-43 | the invariants of interleavings hold before anything has begun |
| Witnesses.OverlappingSweeps | qorder_api/scheduler/__init__.py:136-147 | for every stale session there is a schedule after which a restore acts on a stamp older than the tested one, by any amount |
| Witnesses.LateOrder | qorder_api/api/customer_router.py:293-366 | a schedule after which every line of an order is live in a closed session |
| Witnesses.LateCall | qorder_api/services/staff_call_service.py:54-86 | a schedule after which a closed session has a pending call |
| Witnesses.OldPrice | qorder_api/api/customer_router.py:307-358 | a schedule after which a new item has a price the menu no longer shows |
| Witnesses.OrderIntoAbandoned | qorder_api/api/customer_router.py:293-366 | for every stale session, a schedule without a checkout after which every line of an order is live in the abandoned session |
| Witnesses.CallIntoAbandoned | qorder_api/services/staff_call_service.py:54-86 | the same for a pending call |
| Witnesses.ActiveYetAbandoned | qorder_api/scheduler/__init__.py:136-147 | a schedule after which a session is abandoned at the very instant of its last activity |
| Witnesses.RaisedYetAbandoned | qorder_api/scheduler/__init__.py:136-147 | a schedule in which a session is abandoned although a raised timeout no longer selects it |
| Witnesses.TwoCallsAtOnce | qorder_api/services/staff_call_service.py:54-86 | a schedule after which one table has two calls of the same instant |
| Witnesses.AckOverwritten | qorder_api/services/staff_call_service.py:127-149 | a schedule in which a second acknowledgement replaces the first one's name |
| SweepLock.OneInside | qorder_api/scheduler/__init__.py:64-81 | if every holder leaves before its TTL ends, at most one process is inside in every state |
| SweepLock.DeletesOwn | qorder_api/scheduler/__init__.py:76-81 | then the GET-and-DEL release deletes the releaser's own lock only |
| SweepLock.DeletesWhose | qorder_api/scheduler/__init__.py:76-81 | without the bound: whose lock the DEL after a GET removes, exactly, by the entries and releases since the GET and the leases they took |
| SweepLock.LockMoves | qorder_api/scheduler/__init__.py:64-81 | a process enters iff there is no key or it has expired, and holds it for the TTL; it goes on to delete iff the key it reads is its own; the deletion looks at nothing |
| SweepLock.EntersIffExpired | qorder_api/scheduler/__init__.py:64-71 | while one process is inside, another can enter iff the first one's lease has run out |
| SweepLock.LateRelease | qorder_api/scheduler/__init__.py:76-81 | without the bound: two processes inside, one about to delete the other's lock |
| Reporting.ReportConserves | qorder_api/reporting/__init__.py:84-106 | days strictly increasing, one row for each day of 86,400 seconds on which a session of the restaurant was closed in the window, with the sum of the totals and the number of exactly those sessions, revenues and counts adding up to those of the window |
| Reporting.RevenueOfRun | qorder_api/reporting/__init__.py:84-106 | over every run or interleaving the reported revenue grows by exactly the bills of the sessions closed in it |
| Reporting.RevenueCovers | qorder_api/reporting/__init__.py:84-106 | in every state of every run the revenue is at least what is served in the sessions reported, and equal iff each total is |
| Reporting.RevenueGap | qorder_api/reporting/__init__.py:84-106 | over every run or interleaving the gap between revenue and what is served grows by exactly the lines taken back from sessions already reported, less the lines served in them |
| Reporting.SoldByName | qorder_api/reporting/__init__.py:108-122 | what is counted under a name is the sum of the quantities of the restaurant's items of that name served in the window; a name is listed iff there is one |
| Reporting.TopItemsBound | qorder_api/reporting/__init__.py:108-127 | the best-selling list never counts more than was served, and all of it iff at most 50 names were sold |
| Reporting.BestExists | qorder_api/reporting/__init__.py:108-127 | the ranked, limited list exists for every limit |
| Client.EventFilter.OnMessage | frontend/src/hooks/useWebSocket.ts:68-83 | a message is accepted iff it has no number or its number is above the baseline and above every number seen since, those of discarded messages included |
| Client.EventFilter.Rebase | frontend/src/hooks/useWebSocket.ts:53-56 | a changed baseline, and only a changed one, forgets every message seen |
| Client.AcceptedAreMaxima | frontend/src/hooks/useWebSocket.ts:68-83 | between baselines the numbered events that pass the filter are exactly the strict left-to-right maxima above the baseline |
| Client.MergeAnswer | frontend/src/pages/MenuPage.tsx:224-230 | the Map loop yields the merged list, one entry per id |
| Client.MergedShape | frontend/src/pages/MenuPage.tsx:224-230 | merging completes every known entry in its place and appends the unknown ones in order |
| Client.NoDuplicates | frontend/src/pages/MenuPage.tsx:77-125 | under every interleaving of snapshots, events and answers the list has one entry per item |
| Client.UpdatedEntries | frontend/src/pages/MenuPage.tsx:78-92 | an update writes the status and the service time it sends into the entry of its id; missing or null values, other fields and other entries stay |
| Client.CancelledEntries | frontend/src/pages/MenuPage.tsx:93-107 | a cancellation marks the entry of its id as cancelled at the instant of the event; other fields and other entries stay |
| Client.CreatedEntries | frontend/src/pages/MenuPage.tsx:109-125 | a new order is appended: exactly the entries not yet in the list, in their order; what is in the list stays |
| Client.AnsweredEntries | frontend/src/pages/MenuPage.tsx:224-230 | the answer to the guests' own order completes the entries it lists field by field, its values winning, leaves the others, and appends what was not in the list in its order |
| Client.EventAndAnswerCommute | frontend/src/pages/MenuPage.tsx:109-125 | the order's event and the HTTP answer in either adjacent order give the same list, entry by entry and place by place |
| Client.UpdateSurvivesAnswer | frontend/src/pages/MenuPage.tsx:77-92 | an update that arrives before the answer has the effect of one after it iff the answer does not contradict it |

## Left out

- HTTP routing, request parsing, status codes, JWT, PIN login and WebSocket tickets; only the numeric bounds of the request schemas are kept (quantity above zero, price and time at least zero, timeout at least one hour).
- A QR token is modelled as the table it resolves to; the lookup of table and restaurant is part of a request only where requests are served one at a time.
- Publishing of events after a commit (Redis Pub/Sub) and the WebSocket bridge, which keep no state; a failure to publish matters only in the sweep, where it is one of the faults of `Services.Store.AbandonSession`.
- The ORM's identity map, but for the one place where it shows: a menu item ordered on two lines keeps the version first read. The reads that build responses after a commit.
- Interleaving, statement level: an edit of the menu or the settings is one step, its commit, with any row the schema admits as its result; the key-share locks of foreign keys are omitted because they never conflict with these updates; within the last flush of `create_order` the lines are written before the session row, an order the ORM does not promise.
- Deadlocks are not detected but covered: any transaction may be aborted at any point. Waiting forever is not excluded, so nothing is claimed about progress.
- Services.Store.CancelOne: for a set that allows a status that is not live, which no caller passes, the new rows are stated but no effect of Effects stands for them.
- Services.Store.RunSweep: one instant stands for the now() of the scan and of every per-session transaction; Interleaving gives each transaction its own.
- Services.Store.GetOrOpen: in one step the failed race recovery cannot occur; it is the subject of Races.RaceRecovery.
- Laws.BilledSetLaw: assumes that no order reaches the closed session; served one at a time this is proved, interleaved it can fail as LateWrites.LandsLate says, and Laws.BillBalance does without it.
- RestoreRaces.InTimeAlong: the non-overlap of sweep transactions is sufficient; what is exact is RestoreRaces.TakenUpInTime, restore by restore.
- SweepLock: the Redis server is one atomic store whose keys vanish at their expiry; failover and clock drift are not modelled. LockedSweeps: lock server and database share one clock, and what a crashed process had in flight is rolled back before the process counts as gone.
- Numeric(12,2) overflow and rounding, the report's conversion to float and JavaScript's number precision: amounts and sequence numbers are mathematical integers.
- The day of a sale is computed in UTC; the database's time zone setting is not modelled. Writing the worksheets is a foreign call.
- Administrative edits other than menu entries and settings, deletion with its cascades, restaurants and tables being switched on or off, and seed data.
- `compute_overdue_level`, a single threshold function, and the kitchen board, cart, receipts, printing and image handling.
- In the customer page: connection handling and backoff, the session status banner, and totals shown; entries are maps from field to value, and React applies state updates in the order they are queued.
