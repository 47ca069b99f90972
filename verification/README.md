# DIDStorage: verified model of calls, money and numbers

DIDStorage rents telephone numbers (DIDs). This project models the decisions behind it and proves what
they guarantee over every input, every run and every interleaving. `dafny verify dfyconfig.toml` checks
everything.

| part | files |
|---|---|
| shared vocabulary | `Basics`, `Decimals`, `CallIds`, `Calendar` |
| rating | `Rating` |
| call admission: the machine and its handlers | `CallControl` (every Redis command and transaction as a step), `Interleaving`, `CallServer` (the handlers as a class over Redis, others in between), `Commands` and `Answers` (what every step leaves and what authorize answers, in terms of the data alone) |
| live index and reservation sets | `LiveIndex`, `Agreement`, `Windows`, `Overlaps`, `UnsafeIds`, `Pairing`, `Caps` |
| reconciler, admin actions | `Ticks`, `TickRuns`, `AdminMarks` |
| overdraft | `AtStake` (what running calls can still cost), `Overdraft`, `OverdraftRuns` |
| orders, numbers, users, KYC, money | `Store` (the state machine), `StoreServer` (the handlers as a class over the rows), `Transactions` (when each step succeeds and what every row holds then), `Lifecycle`, `Blocking`, `Ledger`, `Billing` |
| supplier hostname cache | `DnsCache` |
| SIP ladder of a trace | `CallLadder` |
| number import | `Prefixes`, `Parsers`, `ImportWorker` |

Code that changes rows, sets or arrays step by step is a class or an array method here, too. Each such
method's postcondition equates its result and its whole new state with a function of the old state; the
theorems are then lemmas about those functions and about runs of them. `CallControl.Step` and `Store.Step`
list the steps a run may take, in any order and any number. What a step does is described a second time, field by
field and without those functions: `Transactions.Fits` for the database, `Commands.Leaves` and `Commands.GoesOn` for
Redis, `Answers.AnswerFits` for the answer of authorize. The functions are proved to fit the descriptions, and a
database step has no other outcome that fits (`Transactions.OnlyOutcome`).

## How to read the assumptions

- A Postgres transaction, a single SQL statement outside one, a Lua script, and a Redis command or pipeline are
  one step. Between two steps of a handler any steps of any other handler may come: `CallControl.State.jobs`
  says where every handler in flight stands, and the class methods take what others do in between as an
  argument that may be any steps. Authorize's lookups are one step: the balance is the only state among them, the
  other rows may be any, also of different moments. `Ticks.Tick` and the theorems about exact ticks are the only place where a
  handler runs uninterrupted; `Ticks.TickIsItsSteps` ties it to its commands. `Store` is finer still: the writes
  of its checked forms may come at any time. A billing run is a step an order; `Billing.RunSettlesEverything` is
  about a run with nothing in between, `Billing.BilledStaysSettled` about any other.
- Cents and seconds are unbounded integers, rates are reals.
- What the code asks other systems for is a parameter that may take any value: the channel snapshot, the
  reply of the reverse range over the index, SCAN's pages, the order row the lookups return, DNS answers, the
  supplier check, the clip an audio group picks, the database's verdict on an imported row. Of SCAN only its
  guarantee is used: by its end it has shown every key that was there all along.
- `AtStake.Lawful` is what Asterisk and the operators are taken to do: a teardown comes once, for a call
  that was let in, bills its own order for at most the granted seconds, no release overtakes it, and the rows
  are fixed. `AtStake.OneNumber` adds that a Call-ID is not up on two numbers at once. `AtStake.Windowed`
  counts the authorizes of a user between their reading of the balance and their reservation.
- `CallControl.Book` moves a balance for any other reason, at any time: a top-up, a bill, a setup fee, a correction.
  `AtStake.IsFee` calls it a fee if the balance covers it, `AtStake.UncoveredOf` a correction if not.
- `Windows.Apart` says that no handler has a Call-ID or index key in hand to use it while another one is
  releasing, deregistering or evicting it.

## Where the code does not do what it says

Most of these are theorems, with the exact condition where there is one.

- **A single call can overdraw a balance.** It cannot exactly when the effective minimum is at most 60
  seconds and the effective increment divides 60 (`Rating.OverdraftFreeIffSafeCycle`); the minimum gate does
  not matter. The rate-card form only offers such cycles, but the schema allows up to 600 and the bulk form
  does not check.
- **The balance gate is not atomic with the reservation.** With at most k other authorizes of a user between
  the two, calls alone can take the balance to `-(C+k-1)*B` and no further. The monthly bill and the setup fee
  come out of the same balance: neither takes what is not there (`Billing.FeesAreCovered`), but calls that are up
  were granted what the fee takes, and the balance can fall to `-(C+k)*B`, less the downward corrections
  that leave it negative (`Overdraft.BoundedOverdraft`, all attained: `OverdraftRuns.BoundIsAttained`). C is the user's cap, or
  the channels of all the user's numbers together. The code puts no limit on k.
- **A Call-ID on several numbers escapes the user cap.** The script counts members, and the Call-ID is one
  (`OverdraftRuns.SharedCallIdHasNoBound`). The channels of the numbers still limit it.
- **A live call can lose its slots to an overlap**: to a hangup between its reservation and its registration, to
  an eviction of the same key, or to a route update that writes an old record back
  (`Overlaps.HangupInsideAuthorize`, `Overlaps.RetryInsideEviction`, `Overlaps.CallInsideReroute`). These are
  all the ways there are on Call-IDs without the fault below (`Agreement.AgreementIff`).
- **A reservation can survive a release on one side only**, if it is taken again between two pages
  (`Pairing.RetryInsideRelease`, exactly then: `Pairing.PairingIff`).
- **Evicting a call frees its slots only if its Call-ID has no host part.** Reservations are stored under the
  raw Call-ID and evicted under the sanitised one. Slots of `id@host` calls stay until their own `/cdr`
  (`Ticks.EvictionFreesSlotIffSanitised`, `Ticks.HostIdsKeepTheirSlot`), contrary to the comment on
  `ReleaseChannelReservations`.
- **Sanitising a Call-ID is not idempotent** when a blank stands directly before the host part, and then a live
  call can lose its reservation to another call's eviction (`UnsafeIds.SafeIdsIff`).
- **A redirect overwrites the mark of a hangup** of the same call (`AdminMarks.RedirectOverwritesHangup`).
- **A reconciler tick is exact only within the 501 newest entries** (`Ticks.TickIsExactIff`).
- **A listing can drop a call that is up**: one that registers under a stale key before the listing drops its stale
  keys (`TickRuns.NewEntryDropped`).
- **A retry of a reservation at a cap is refused** although the slot is held (`Caps.RetryNeedsRoom`), and the
  two audio-group denials keep the slots they just took (`Caps.DenialsAndSlots`).
- **The admin order form does not look at the number's status.** It keeps one order a number exactly when the
  number has no live order yet (`Lifecycle.AdminCreateKeepsIff`).
- **Retiring a number is a count and a separate write.** An order created in between ends up on a retired
  number (`Lifecycle.RetireOvertaken`); the write is harmless exactly when it finds no active, pending or
  quarantined order (`Lifecycle.RetireKeepsIff`).
- **A retired number can come back**: suspended orders do not stop a number from being retired, and cancelling
  one makes it available again; so does swapping or cancelling an order created during the retirement
  (`Lifecycle.RetiredLeavesIff`).
- **Deleting a user never returns a number to the pool.** The handler cancels the orders first, but the
  foreign key from orders (ON DELETE RESTRICT) counts cancelled rows too, so a deletion succeeds exactly when
  the user has no order row at all (`Lifecycle.DeleteUserIff`).
- **The user form's status does not cascade.** Reactivating a blocked user there leaves the orders
  quarantined, and the next block and unblock is no longer the identity (`Blocking.EditedStatusBreaksIdentity`).
- The order form can never store an audio group: the branch writes NULL into a NOT NULL route target. The model
  refuses the kind with the form's other refusals; that is a modelling decision, not a theorem.
- The billing package comment stops the ladder at two channels; the code walks on to zero. It makes no
  difference: it never lands below min(current, 2) (`Billing.LadderIsBest`).
- **Overlapping DNS refreshes are not harmless**: the one that began first can be merged last and set an
  address's time back (`DnsCache.OverlapLosesAnAddress`). The loss is bounded by twice the overlap. Nor are their
  queries a minute apart: they can start together (`DnsCache.CloseQueriesIff`).
- The ladder labels a message that triggers a phase with the new phase, not with the one it ends, and any 2xx
  starts the talk phase, not only the INVITE's. A diagram is drawn for a single message, too.
- A bulk token is judged by its digits alone: any token with 6 to 15 digits is taken whatever else it holds,
  leading zeros stay, and a number written with spaces is split (`Parsers.AcceptedIffDigitCount`).
- A range that ends at the largest 64-bit integer never stops; the model's result type says so
  (`Parsers.Endless`), by construction.

## Model

| member | source | states |
|---|---|---|
| Rating.RoundUpIsLeastCover | internal/domain/domain.go:124-145 | Below the minimum the billed duration is the minimum itself, at or above it the least multiple of the increment that covers the call. |
| Rating.ChargeMeans | internal/domain/domain.go:124-145 | An unanswered call costs nothing; any other is billed for its minimum, or for the whole increments that cover it, in the least whole cents and minutes that cover the billed seconds. |
| Rating.OneBilling | internal/domain/domain.go:124-145 | That determines the billed seconds. |
| Rating.SupplierChargeMeans | internal/domain/domain.go:157-175 | The same of the supplier charge, which is zero at a free or negative rate. |
| Rating.MaxSecondsMeans | internal/domain/domain.go:199-209 | A free rate allows 14400 seconds; any other the most whole minutes the balance covers, and none below zero. |
| Rating.NoOverdraft | internal/domain/domain.go:124-209 | Under a cycle whose minimum is at most 60 and whose increment divides 60, a call within the seconds granted for a balance costs between zero and that balance. |
| Rating.OverdraftFreeIffSafeCycle | internal/domain/domain.go:124-209 | Over all balances, rates and durations, the charge stays within the balance exactly for those cycles. |
| Rating.UnsafeCycleOverdraws | internal/domain/domain.go:124-209 | For every other cycle, a one-minute call at 60 cents on a 60-cent balance is authorized and costs more. |
| Rating.AllowedCyclesAreSafe | internal/web/crud.go:638-645 | Every cycle the rate-card form accepts is one of the safe ones. |
| Rating.MaxSecondsIsExactForWholeMinutes | internal/domain/domain.go:199-209 | Under 60/60 a call is affordable if and only if it is within the granted seconds. |
| Rating.ChargeIsMonotone | internal/domain/domain.go:124-145 | A longer call never costs less. |
| Rating.SupplierMirrorsCustomer | internal/domain/domain.go:157-175 | The supplier charge, which the source computes in a function of its own, equals the customer charge of the same card, as its comment promises. |
| CallIds.SanitizedHasNoHost | internal/domain/domain.go:280-296 | A sanitised id never contains the host part. |
| CallIds.SanitizeIdempotentIffClean | internal/domain/domain.go:290-296 | Sanitising twice equals sanitising once exactly when, in the id without its outer blanks, no blank stands directly before the first '@'. |
| CallIds.BlankFreeIsClean | internal/domain/domain.go:280-296 | Ids without blanks are clean, and are left alone exactly when they have no host part. |
| CallIds.BlankBeforeHost | internal/domain/domain.go:290-296 | The input "a @h" shows that idempotence fails. |
| CallIds.SanitizeMeans | internal/domain/domain.go:280-296 | The sanitised id is the raw one without the blanks around it, up to the first '@'. |
| Calendar.NextAnniversaryIsLeast | internal/domain/domain.go:301-314 | The next billing date is the least midnight UTC on the clamped day strictly after the given instant. |
| Calendar.OneAnniversaryEachMonth | internal/domain/domain.go:301-314 | Iterating it gives one date in every consecutive month, across year ends and month lengths. |
| Calendar.EveryAnniversaryIsVisited | internal/domain/domain.go:301-314 | No later anniversary is skipped: each is the n-th iterate for its month distance n. |
| Interleaving.InterleavedIsARun | internal/sipctl/sipctl.go:527-1038 | A handler's commands with any steps of others in between are a run of the machine, so all theorems about runs hold of the handlers below. |
| Interleaving.OwnStepsInOrder | internal/sipctl/sipctl.go:527-1038 | In that run the handler's own steps are its commands, in order. |
| Interleaving.RunsKeepSetsNonEmpty | internal/sipctl/sipctl.go:1040-1089 | Over every interleaving no empty set is left, so a page of SREMs is the machine's page. |
| CallControl.ReserveMembers | internal/sipctl/sipctl.go:1040-1065 | Granted only while both sets have room, and then the id joins exactly these two; any other answer leaves every set as it was. |
| CallServer.Server.ReleaseReservations | internal/livecalls/reconciler.go:238-264 | The SCAN loop with its nested SREMs is one page step after another, with whatever others do between two pages. |
| CallServer.Server.ReleaseChannelByCallId | internal/sipctl/sipctl.go:1067-1089 | The same loop for one id. |
| CallServer.Server.List | internal/livecalls/livecalls.go:122-166 | Range, MGET and ZREM with others in between: returns the listable metadata as it was at the MGET, in reply order, and drops the stale members from the index alone. |
| CallServer.Server.RunReconcileOnce | internal/livecalls/reconciler.go:151-204 | A listing, one deregistration after another, then the release pages, others in between; evicted are exactly the listed calls younger than two hours by the metadata fetched that have settled and have no channel in the snapshot; without a snapshot nothing happens. |
| CallServer.Server.LiveForceCleanup | internal/web/live_handlers.go:304-360 | The same without settle window: evicted are exactly the listed calls younger than two hours without a channel in the snapshot, and without a snapshot all of them. |
| CallServer.Server.UpdateLiveRoute | internal/livecalls/livecalls.go:177-196 | What others store under the key between the read and the write is overwritten by the record read before. |
| CallServer.Server.Decide | internal/sipctl/sipctl.go:527-851 | With others between its three commands, authorize is the steps up to the one that answers; its answer, the grant recorded and the index entry are those of `Answers.AnswerMeans`. |
| Answers.AnswerMeans | internal/sipctl/sipctl.go:527-851 | A denial names the first check that fails, over the rows as read or the sets as the script finds them. An allow gives a reserved number 14400 seconds on its own route, an assigned one the whole minutes that the balance read covers on its order's route, "audio" and "didstorage/" plus the clip for an audio group; the same seconds are on record for the Call-ID and number, and the call is in the index under its sanitised id. |
| CallServer.Server.HandleCdr | internal/sipctl/sipctl.go:853-1038 | Mark, charge, release pages and deregistration are its steps in that order, others in between; the mark returned is the one popped. |
| Answers.ChargeFits | internal/sipctl/sipctl.go:853-1038 | The teardown takes the price of the call from the owner of the order found, if it is positive, and nothing from anybody else; a call without an order is free. |
| Answers.OnePrice | internal/domain/domain.go:124-145 | A call has one price. |
| Commands.CommandMeans | internal/sipctl/sipctl.go:769-1089 | What each of the seventeen commands leaves: which members, entries, marks, balances change and that nothing else does; a command out of place changes nothing. |
| Commands.HandlerGoesOn | internal/sipctl/sipctl.go:853-1089 | What the handler has in hand afterwards: the raw id to release and the sanitised key to deregister, the keys to evict, the record to write back. |
| Interleaving.ListedMeans | internal/livecalls/livecalls.go:122-166 | A listing shows the calls younger than two hours, in the order of the reply. |
| Agreement.AgreementIff | internal/sipctl/sipctl.go:769-826 | Over every interleaving on safe Call-IDs (see `UnsafeIds`), every live billed call that is not being torn down holds both its slots in every state if and only if no step enters a call after another handler released its slots, releases the slots of a call that came back during its eviction, or writes a call without slots back over another. |
| Windows.LiveImpliesReserved | internal/sipctl/sipctl.go:769-826 | While no handler releases or evicts what another one has in hand, that agreement holds throughout, and in full whenever no teardown is under way. |
| UnsafeIds.SafeIdsIff | internal/livecalls/reconciler.go:180-204 | For a set of Call-IDs: all such runs that present only these keep the agreement if and only if no member is the sanitised form of another without being its own. |
| UnsafeIds.UnsafePairBreaks | internal/livecalls/reconciler.go:196-204 | For every other pair: two calls and a tick, one after the other, end in a live call without slots. |
| UnsafeIds.BlankFreeIdsAreSafe | internal/domain/domain.go:280-296 | Ids without blanks are safe. |
| Overlaps.HangupInsideAuthorize | internal/sipctl/sipctl.go:769-870 | From any state: a hangup between the reservation and the registration of its call leaves a live billed call without slots. |
| Overlaps.RetryInsideEviction | internal/livecalls/reconciler.go:196-204 | From any state: a registration between an eviction's deregistration and its release loses its slots. |
| Overlaps.CallInsideReroute | internal/livecalls/livecalls.go:177-196 | From any consistent state: a call registered between a route update's read and write is replaced by one that has lost a slot. |
| Pairing.PairingIff | internal/sipctl/sipctl.go:1040-1089 | Over every interleaving, an id not being released is in some user's set exactly when in some number's, in every state, if and only if no release loop ends on slots retaken during it and then freed on one side only. |
| Pairing.ApartRunsArePaired | internal/sipctl/sipctl.go:1040-1089 | Handlers that stay apart keep the sets paired. |
| Pairing.RetryInsideRelease | internal/sipctl/sipctl.go:1067-1089 | From any state: a repeated reservation between two pages of a release, the later one showing the number alone, leaves the id on one side. |
| Pairing.ReleasedUnlessTakenAgain | internal/sipctl/sipctl.go:1067-1089 | Whatever happens during the SCAN, when the loop ends its ids are in exactly the sets they were put into again since. |
| Ticks.TickIsItsSteps | internal/livecalls/reconciler.go:151-204 | Uninterrupted, the commands of a tick or cleanup amount to one simultaneous eviction. |
| Ticks.TickWindow | internal/livecalls/reconciler.go:151-204 | Then, for an index of any size: outside the listed window nothing moves, inside it exactly the young and not dead entries stay. |
| Ticks.TickSets | internal/livecalls/reconciler.go:196-264 | Evicted ids are in no set afterwards; every other membership, balance and mark is unchanged. |
| Ticks.TickIsExact | internal/livecalls/reconciler.go:151-204 | An uninterrupted tick over at most 501 entries leaves exactly those younger than two hours that are unsettled or whose channel is up; the others among the young are in no set, and a second tick changes nothing. |
| Ticks.CleanupIsExact | internal/web/live_handlers.go:304-360 | An uninterrupted cleanup over at most 501 entries leaves exactly those younger than two hours whose channel is up, none if there is no snapshot; the others among the young are in no set. |
| Ticks.TickIsExactIff | internal/livecalls/livecalls.go:122-166 | With more, the tick is exact if and only if every entry beyond the window is young and alive. |
| TickRuns.DeadAreEvicted | internal/livecalls/reconciler.go:151-204 | Over every interleaving, by its release loop a tick or cleanup has deregistered every listed entry younger than two hours, settled where there is a window, without a channel that was up, by the metadata it fetched; such an entry is in the index again only if it was entered after that. |
| TickRuns.OthersAreSpared | internal/livecalls/reconciler.go:151-204 | Over every interleaving, any other entry but one that was listed and too old or without metadata, and is gone later, was taken out by another handler. |
| TickRuns.OwnStepsSpareOthers | internal/livecalls/reconciler.go:196-264 | No command of the tick touches such an entry, its metadata, or a slot of an id that was not dead. |
| TickRuns.NewEntryDropped | internal/livecalls/livecalls.go:139-164 | From any state: a call that registers under a stale key before the listing's ZREM is up and no longer listed. |
| Ticks.EvictionFreesSlotIffSanitised | internal/livecalls/reconciler.go:180-204 | An evicted call's slots are freed exactly when its raw id equals its sanitised one. |
| Ticks.EvictKeepsLiveReservedIff | internal/livecalls/reconciler.go:196-204 | An eviction keeps every live call in its sets exactly when no surviving call's own id is among the evicted keys. |
| Ticks.HostIdsKeepTheirSlot | internal/livecalls/reconciler.go:230-264 | Over every interleaving without its own teardown, an id with a host part keeps its slots. |
| AdminMarks.LastMarkIsClaimedOnce | internal/livecalls/pending.go:28-68 | Over every interleaving, the last mark recorded for a call is the one the next teardown of it claims, and no later teardown claims any before the next action. |
| AdminMarks.ClaimedIff | internal/sipctl/sipctl.go:853-1038 | A teardown claims the mark under its sanitised id exactly when its call has an order or any timing at all. |
| AdminMarks.RedirectOverwritesHangup | internal/web/live_handlers.go:750-759 | A redirect after a hangup of the same call: the call's record will tell of the redirect. |
| Caps.CapsHoldInEveryRun | internal/sipctl/sipctl.go:1040-1089 | Over every interleaving, with fixed caps, no user or number set outgrows its cap. |
| Caps.ReleaseReopens | internal/sipctl/sipctl.go:1067-1089 | Releasing any member of a full number lets the next reserve pass the number's check; it succeeds exactly if the user has room. |
| Caps.RetryNeedsRoom | internal/sipctl/sipctl.go:1043-1051 | Reserving an id again changes no set, and is granted exactly while both sets have room. |
| Caps.AllowedIff | internal/sipctl/sipctl.go:527-851 | With others between its commands, a call is let in exactly when it comes from the supplier of a known number that is reserved with a target, or assigned to an order in good standing when the rows were read, with room under both caps when the script ran; a billed one then holds both slots and gets the seconds of the balance read. |
| Caps.DenialsAndSlots | internal/sipctl/sipctl.go:767-805 | A denial changes nothing, except the two audio-group denials, which keep both slots without a live entry. |
| Overdraft.BoundedOverdraft | internal/sipctl/sipctl.go:689-785 | Over every lawful interleaving, from balance B with top-ups T and uncovered corrections D, if at most k other authorizes of the user ever stand between reading the balance and reserving (k = 0 is the atomic gate): the balance stays at or above -(S+k-1)*(B+T) - D, where S adds up the channels of the user's numbers, and, under cap C and with one number a Call-ID, at or above the same with C for S; if bills or setup fees are taken from the same balance, with k+1 for k. |
| AtStake.BoundedByCallsUp | internal/sipctl/sipctl.go:689-785 | The same bounds from the number of calls that are ever up at once. |
| Overdraft.CapLimitsCalls | internal/sipctl/sipctl.go:1040-1065 | With one number a Call-ID, the user's cap limits the calls that are up, over every lawful interleaving. |
| Overdraft.NumbersLimitCalls | internal/sipctl/sipctl.go:1040-1065 | Whatever the Call-IDs, and for uncapped users, too, the channels of the user's numbers do. |
| Billing.FeesAreCovered | internal/billing/billing.go:117-137 | But for call charges and downward corrections by an admin, no database step takes from a balance what is not there. |
| AtStake.LawfulCharge | internal/sipctl/sipctl.go:927-1001 | A lawful teardown costs its user at most the credit its grant was based on, and nobody else anything. |
| OverdraftRuns.BoundIsAttained | internal/sipctl/sipctl.go:689-785 | For every number of channels (the user's cap the same, or none), every k, balance and amount of corrections, with fees and without, some lawful run under a valid configuration ends exactly on the bound. |
| OverdraftRuns.SharedCallIdHasNoBound | internal/sipctl/sipctl.go:1040-1065 | One Call-ID on n numbers is one member of its user's set: under any cap from two on, even with an atomic gate, n calls are let in and the balance ends at B - n*B. |
| StoreServer.Server.ResellerTopUpUser | internal/resellerapi/resellerapi.go:312-352 | Succeeds exactly for a positive amount to a user of the reseller's own, and then that balance alone rises by it, with a ledger row that says so. |
| StoreServer.Server.AdminTopUpUser | internal/web/crud.go:1476-1506 | The same for any amount but zero to any user. |
| StoreServer.Server.ChargeCall | internal/sipctl/sipctl.go:996-1017 | That balance alone falls by the charge, with its ledger row; nothing happens for a free call. |
| StoreServer.Server.ResellerCreateOrder | internal/resellerapi/resellerapi.go:426-562 | Every refusal in order without a change; else exactly what `Transactions.CreationMeans` describes. |
| StoreServer.Server.AdminCreate | internal/web/crud.go:1520-1652 | The same without the reseller and number-status checks. |
| Lifecycle.CancelReopens | internal/resellerapi/resellerapi.go:590-620 | A cancelled order gives its number back: available, under no live order, nothing else touched, the invariant kept, and a second cancellation is refused. |
| StoreServer.Server.Swap | internal/web/crud.go:1965-2044 | Succeeds exactly for an active, pending or quarantined order, another number that is available, and no clash on the unique index; then the old number is available, the new one assigned and the order on it, and all else as before; otherwise nothing changes. |
| StoreServer.Server.Edit | internal/web/crud.go:1662-1906 | Decides by the rows it read, and writes over the rows after whatever others did since, whose status it does not look at; attaching an approved bundle activates unless the unique index refuses. |
| StoreServer.Server.Patch | internal/resellerapi/extended.go:307-410 | The same for the reseller: three route kinds, no upper limit on channels, a bundle only to attach, and only a bundle named in the request activates. |
| Lifecycle.ReserveReleaseRoundTrip | internal/web/did_handlers.go:42-258 | A reserved number can be released, once, and reserved again, and not reserved twice; the release archives the reservation and restores the rows exactly when the number carried no older reservation. |
| StoreServer.Server.Retire | internal/web/crud.go:976-994 | Refused exactly while an active, pending or quarantined order is on the number at the count; the write comes after whatever others did since. |
| StoreServer.Server.UnblockUser | internal/web/block_handlers.go:89-150 | Reactivates user and quarantined orders with their saved routes, or rolls back. |
| StoreServer.Server.Delete | internal/web/crud.go:1404-1474 | Cancels, frees number by number, deletes, and rolls everything back when the foreign key refuses; as `Transactions.DeletionMeans` describes. |
| StoreServer.Server.Approve | internal/kyc/kyc.go:88-107 | As `Transactions.ApprovalMeans` describes, or rolled back. |
| StoreServer.Server.WalkLadder | internal/billing/billing.go:117-180 | The loop finds what the recursive ladder finds. |
| StoreServer.Server.ProcessOne | internal/billing/billing.go:83-214 | One balance update with two ledger rows equals two postings in turn; or the suspension; or nothing for an order no longer active. |
| StoreServer.Server.Run | internal/billing/billing.go:39-79 | The loop over the due orders and its counters. |
| Transactions.StepMeans | internal/web/crud.go:1357-2044 | Every step of `Store` succeeds exactly under the conditions described for it, and then every row, of every table, is as described. |
| Transactions.OnlyOutcome | internal/web/crud.go:1357-2044 | The descriptions leave nothing open: an outcome that fits a step's description is the step's. |
| Transactions.ApprovalMeans | internal/kyc/kyc.go:88-107 | An approval succeeds exactly if the bundle is pending or rejected and no two orders then in service share a number; an order's status changes if and only if it was pending on this bundle, and is active then; no other field of any order changes, and the bundle is approved. |
| Transactions.SwapMoves | internal/web/crud.go:1965-2044 | Under the invariant, a swap succeeds exactly onto an available number; the old number is available with no live order, the new one assigned with this order on it alone, all else is as before, and swapping back restores every row. |
| Transactions.CreationMeans | internal/resellerapi/resellerapi.go:426-562 | When the reseller's form succeeds, and what it leaves: one order more, active exactly with an approved bundle of the user behind it, on the number's card; the number assigned; the setup fee taken with its ledger row; nothing else. |
| Transactions.AdminCreationMeans | internal/web/crud.go:1520-1652 | The same of the admin form. |
| Transactions.PatchWriteMeans | internal/resellerapi/extended.go:307-410 | A PATCH that names no bundle keeps the old one and activates nothing; one that names an approved bundle activates a pending order; nothing but the terms of this order changes. |
| Transactions.EditTakes | internal/web/crud.go:1662-1906 | What the edit form takes. |
| Transactions.PatchTakes | internal/resellerapi/extended.go:307-410 | What the PATCH takes. |
| Transactions.RetirementTakes | internal/web/crud.go:976-994 | A retirement is refused exactly while an order on the number is neither suspended nor cancelled. |
| Transactions.UnblockMeans | internal/web/block_handlers.go:89-150 | An unblock succeeds exactly for an inactive user none of whose quarantined orders clashes, and puts each back into service with every saved column in its place. |
| Transactions.DeletionMeans | internal/web/crud.go:1404-1474 | A deletion leaves the ledger rows of the others in their order and takes this user's row, bundles and ledger rows alone. |
| Transactions.BillMeans | internal/billing/billing.go:83-214 | The exact rows of one bill: a suspension costs nothing; otherwise the best count, the MRC and the fee of every channel beyond two, each with its ledger row unless zero, and the billing row. |
| Lifecycle.OneOrderPerNumberIff | internal/resellerapi/resellerapi.go:478-541 | Over every run of all database steps: in every state a number has at most one live order, its number is assigned (or retired under a suspended one) and ids resolve, if and only if every admin form that succeeds is for a number without a live order and every retirement's write finds no active, pending or quarantined order on its number. |
| Lifecycle.RetireKeepsIff | internal/web/crud.go:986 | The write of a retirement keeps the invariant exactly when no such order is on the number at the write. |
| Lifecycle.RetireOvertaken | internal/web/crud.go:976-994 | On every number an order can be created for, the count passes, and an order created before the write ends up on a retired number. |
| Lifecycle.FreshIsValid | migrations/0004_users_orders_kyc.up.sql:26 | The empty database satisfies the invariant, so the condition is about every run from it. |
| Lifecycle.FreeNumbersHaveNoOrder | internal/web/crud.go:1988-2044 | An available or reserved number has no live order. |
| Lifecycle.AdminCreateKeepsIff | internal/web/crud.go:1520-1652 | The admin form keeps the invariant exactly on numbers without a live order. |
| Lifecycle.PlaceKeepsIff | internal/resellerapi/resellerapi.go:518-549 | Placing an order keeps it exactly when the number has no live order yet. |
| Lifecycle.SwapKeeps | internal/web/crud.go:1988-2044 | A swap keeps it, whatever order and number. |
| Lifecycle.IndexNeverFires | migrations/0004_users_orders_kyc.up.sql:26 | Under the invariant the partial unique index refuses nothing but an admin form for a number with an active order. |
| Lifecycle.RetiredLeavesIff | internal/web/crud.go:976-994 | In any state, a retired number changes status exactly by the cancellation or swap of an order that is on it, or by the admin form. |
| Lifecycle.DeleteUserIff | internal/web/crud.go:1404-1474 | Deletion succeeds exactly when the user has no order row, and then changes no order and no number. |
| Blocking.BlockUnblockIsIdentityIff | internal/web/block_handlers.go:45-133 | Over rows that satisfy the unique index, block then unblock is the identity exactly without quarantined orders and with blank saved columns on the active ones. |
| Blocking.BlockUnblockIsIdentityWhenReachable | internal/web/block_handlers.go:45-133 | From an empty database, in every state reached without the status form, it is the identity. |
| Blocking.RoutesComeBack | internal/web/block_handlers.go:106-133 | With any steps between, route edits included, still quarantined orders get their block-time route back and other orders are untouched by either step. |
| Blocking.TidyInEveryRun | internal/web/block_handlers.go:45-133 | Over every run without the status form, quarantined orders belong to users that are not active, and saved routes exist only on quarantined or cancelled orders. |
| Blocking.IndexHoldsInEveryRun | migrations/0004_users_orders_kyc.up.sql:26 | No sequence of steps, guarded or not, gets two active orders on one number past the checks modelled. |
| Blocking.EditedStatusBreaksIdentity | internal/web/crud.go:1357-1394 | Reactivating a blocked user by the form breaks the identity. |
| Ledger.LedgerConservation | internal/billing/billing.go:129-155 | Over every run of all handlers, each balance is the sum of the user's ledger rows and each balance_after is the running sum, with MRC and channel fee in two rows. |
| Ledger.FreshBooks | migrations/0001_init.up.sql:115-126 | The empty database satisfies it. |
| Billing.LadderIsBest | internal/billing/billing.go:117-180 | The walk finds the largest affordable count, never below min(current, 2), and nothing exactly when the balance is below the MRC. |
| Billing.LadderClosedForm | internal/billing/billing.go:117-180 | The walk equals one division. |
| Billing.BillOrderEffect | internal/billing/billing.go:83-214 | Suspended with money untouched exactly when the balance is below the MRC; else charged for the best count and next due after now; everybody else untouched. |
| Billing.BillAllRows | internal/billing/billing.go:52-79 | Each listed order gets exactly one billing row, in order, after the old ones. |
| Billing.BillAllMoney | internal/billing/billing.go:129-165 | Each balance falls by what its rows bill, and no billed balance ends below zero. |
| Billing.TallyAddsUp | internal/billing/billing.go:63-79 | processed = charged + downgraded + suspended = the number of due orders. |
| Billing.TallyCounts | internal/billing/billing.go:63-79 | Each counter is the number of new billing rows of its outcome. |
| Billing.RunSettlesEverything | internal/billing/billing.go:39-214 | After a run nothing active is due, all of the above holds, and a second run at the same instant finds nothing. |
| Billing.BillAllIsARun | internal/billing/billing.go:39-79 | A billing run is one transaction an order, so the run theorems cover it with any steps of others in between. |
| Billing.BilledStaysSettled | internal/billing/billing.go:83-214 | In every such interleaving, an order that is active when its turn comes is not due at that instant afterwards, whatever happens to it. |
| DnsCache.HostCache.Lookup | internal/sipctl/sipctl.go:102-109 | The read path answers exactly while the last query is under a minute old. |
| DnsCache.HostCache.Merge | internal/sipctl/sipctl.go:111-137 | Merging and pruning keep the cache equal to the replayed log, failed lookups included. |
| DnsCache.HostCache.Resolve | internal/sipctl/sipctl.go:99-138 | A call that nothing overlaps adds one query or none, and answers from the cache after it. |
| DnsCache.Prune | internal/sipctl/sipctl.go:131-136 | Deleting while ranging leaves exactly the addresses seen within the day. |
| DnsCache.Snapshot | internal/sipctl/sipctl.go:143-154 | The copy has exactly the addresses seen within the day. |
| DnsCache.RecordedIff | internal/sipctl/sipctl.go:118-137 | For every interleaving of refreshes: an address is kept exactly when no merge since its last observation began more than a day after it, and under that observation's time. |
| DnsCache.AnswersTrackObservations | internal/sipctl/sipctl.go:83-98 | With refreshes overlapping at most d: what is answered was seen within the day, what was seen within the day less 2d is answered. |
| DnsCache.SerialAnswersAreExact | internal/sipctl/sipctl.go:83-138 | One call at a time: exactly the addresses seen within the last day. |
| DnsCache.OverlapLosesAnAddress | internal/sipctl/sipctl.go:88-98 | Two overlapping refreshes lose an address seen within the day. |
| DnsCache.QueriesAreSpaced | internal/sipctl/sipctl.go:69-109 | A query begun after another was merged begins at least a minute (less the overlap) after it. |
| DnsCache.QueryMayStartIff | internal/sipctl/sipctl.go:102-109 | A query goes out exactly when no merge of the hostname had been seen, or the last one seen is at least a minute old. |
| DnsCache.CloseQueriesIff | internal/sipctl/sipctl.go:69-137 | Two queries of a hostname can start less than a minute apart, together even, if and only if the later one had not seen the earlier one merged. |
| DnsCache.SerialQueriesAreSpaced | internal/sipctl/sipctl.go:69-109 | One call at a time: any two queries of a hostname are at least a minute apart. |
| CallLadder.StatusLineCode | internal/web/trace_diagram.go:396-406 | The code of a status line is the number after the version, with or without a reason phrase. |
| CallLadder.KindsMean | internal/web/trace_diagram.go:366-406 | Responses from 100 to 199 are provisional, from 200 to 299 successes, BYE and CANCEL requests end the call, and no other line counts. |
| CallLadder.PhaseMeans | internal/web/trace_diagram.go:366-394 | Each phase in terms of the messages: no 1xx or 2xx yet; a 1xx but no 2xx; a 2xx and no BYE or CANCEL after one; or both in that order. |
| CallLadder.PhasesNeverGoBack | internal/web/trace_diagram.go:361-394 | Phases never go back in setup, ringback, talk, teardown. |
| CallLadder.PickMessages | internal/web/trace_diagram.go:186-196 | The arrows are exactly the messages between two different lanes, in order. |
| CallLadder.LayRows | internal/web/trace_diagram.go:203-244 | Rows start at the first line and are the clamped scaled silence apart, between 38 and 110. |
| CallLadder.RowHeightMeans | internal/web/trace_diagram.go:203-244 | The height of a row: 38 and the scaled silence, cut off at 110; a negative silence counts as none. |
| CallLadder.ClassifyPhases | internal/web/trace_diagram.go:366-394 | Labels every arrow in place with the phase after its message and changes nothing else. |
| CallLadder.BuildPhaseBands | internal/web/trace_diagram.go:411-436 | The bands are the maximal runs of one phase, each reaching to the next one's top. |
| CallLadder.BandsTile | internal/web/trace_diagram.go:408-436 | Bands have positive height and tile from above the first row to below the last without gap or overlap. |
| CallLadder.FourKinds | internal/web/trace_diagram.go:408-436 | There are at most four bands, of different kinds. |
| CallLadder.ArrowInItsBand | internal/web/trace_diagram.go:408-436 | Each arrow lies in a band of its own phase and in no other. |
| CallLadder.BuildAdminMarkers | internal/web/trace_diagram.go:281-336 | One marker an event, after the leading arrows that are no later, with a centred badge as wide as its title wants, within 320 pixels and 40 off the edges. |
| CallLadder.AfterLastEarlierArrowIff | internal/web/trace_diagram.go:288-298 | The marker follows the last arrow no later than the event exactly when no early arrow comes after a late one. |
| CallLadder.MarkerBetweenRows | internal/web/trace_diagram.go:299-304 | A marker is below the rows it follows, above the rows it precedes, and below the endpoint cards. |
| CallLadder.BuildSequenceDiagram | internal/web/trace_diagram.go:117-272 | Arrows, bands and markers together satisfy all of this inside the canvas. |
| Prefixes.MatchCountry | internal/didsimport/prefixes.go:141-149 | The loop returns the first entry that prefixes the number without its plus sign. |
| Prefixes.MatchIsLongestPrefix | internal/didsimport/prefixes.go:118-149 | On any sorted order that is the country of a longest matching prefix, and it fails exactly when none matches. |
| Prefixes.OrderDoesNotMatter | internal/didsimport/prefixes.go:122-130 | The answer depends neither on the table's order nor on how ties are sorted, if equal prefixes name one country. |
| Prefixes.ClashMakesOrderMatter | internal/didsimport/prefixes.go:122-130 | If two entries share a prefix and not the country, another valid sort answers differently. |
| Prefixes.SortIsUnique | internal/didsimport/prefixes.go:122-130 | With distinct prefixes there is one sorted order although the sort is not stable. |
| Prefixes.EveryTableSorts | internal/didsimport/prefixes.go:122-130 | The comparison is a weak order, so every table has a sorted order. |
| Parsers.ParseBulk | internal/didsimport/parsers.go:65-94 | The nested loops give entries, warnings and refusals of the text's tokens. |
| Parsers.TextSplit | internal/didsimport/parsers.go:65-79 | The tokens of a text are those of its lines, in their order. |
| Parsers.TokensMean | internal/didsimport/parsers.go:65-79 | A blank line and a comment have no token; any other line has those of what is between its outer blanks. |
| Parsers.FieldsMean | internal/didsimport/parsers.go:73-79 | A line falls apart at every comma, semicolon, space and tab and nowhere else. |
| Parsers.EntriesMean | internal/didsimport/parsers.go:65-94 | An entry for each token of 6 to 15 digits, in their order: those digits. |
| Parsers.WarningsPlaced | internal/didsimport/parsers.go:79-86 | A warning has its line's number, counted from one, and its text; warnings come in line order. |
| Parsers.WarningsMean | internal/didsimport/parsers.go:79-86 | A line has as many warnings as tokens that are no entry. |
| Parsers.AcceptedIffDigitCount | internal/didsimport/parsers.go:268-291 | A token is taken exactly when it holds 6 to 15 digits, as those digits; normalising twice is normalising once. |
| Parsers.DigitsMean | internal/didsimport/parsers.go:255-265 | The digits of a token are its characters from 0 to 9, in their order. |
| Parsers.BulkResult | internal/didsimport/parsers.go:65-94 | Refused exactly without any token or with more than 10,000 entries; otherwise every entry is 6 to 15 digits and every token is one entry or one warning. |
| Parsers.PrintParses | internal/didsimport/parsers.go:65-94 | Printing numbers one a line and parsing gives them back without warnings. |
| Parsers.ReparseIsIdentity | internal/didsimport/parsers.go:65-94 | So does what a bulk parse accepted. |
| Parsers.ParseRange | internal/didsimport/parsers.go:33-57 | The loop and its error cases give the interval of the two digit strings. |
| Parsers.PrintedRangeParses | internal/didsimport/parsers.go:33-57 | Two printed integers give exactly the decimal forms between them, in order and distinct, if and only if the interval is non-empty, at most 10,000 long and below the 64-bit limit. |
| Parsers.LoneStart | internal/didsimport/parsers.go:33-57 | Without an end, the range is its start alone. |
| ImportWorker.Job.ImportOne | internal/didsimport/worker.go:111-215 | Defaults, required fields, insert and counters of one row. |
| ImportWorker.RowMeans | internal/didsimport/worker.go:109-134 | The entry's value goes before the form's; without either the country is that of a longest dial prefix, and the channels are unlimited. |
| ImportWorker.VerdictMeans | internal/didsimport/worker.go:136-215 | An error if a required field is missing or the database refuses the row, skipped if the number is stored, added otherwise; one of the three counters moves by one, and only an added row is stored. |
| ImportWorker.Job.Run | internal/didsimport/worker.go:44-220 | Processes the rows up to a cancellation, or all of them, with the counters as if row by row. |
| ImportWorker.CountersAddUp | internal/didsimport/worker.go:44-220 | After every row processed = added + skipped + (errors - warnings), and processed counts the rows. |
| ImportWorker.AddedIsNewNumbers | internal/didsimport/worker.go:176-215 | `added` is the number of new distinct numbers. |
| ImportWorker.RunStores | internal/didsimport/worker.go:176-215 | Old rows are unchanged and each new number has the row of its first insertable entry. |
| ImportWorker.NewNumbersIff | internal/didsimport/worker.go:176-215 | A number is stored exactly when it was, or some entry could insert it, whatever the order. |
| ImportWorker.RerunAddsNothing | internal/didsimport/worker.go:19-43 | The same entries again add nothing, change no row, and everything added or skipped before is skipped. |

## Left out

- Floating point: rates are reals and cents are exact; Go's rounding and integer overflow are not modelled, except the 64-bit limit of number ranges.
- Redis expiry: reservations, metadata and pending marks do not time out; only the two-hour cut of `List` is modelled. A corrupt metadata blob counts as a missing one.
- Redis and Postgres failures: every statement succeeds or is refused for the reasons modelled.
- CallServer.Server.Decide: does not model the CDR shells and denied-call rows it writes, the request parsing, or how the supplier check and the clip choice are made.
- CallServer.Server.HandleCdr: does not model the cdrs row; a repeated teardown debits again, as in the code. It takes SCAN's guarantee for its own loop as a precondition.
- CallServer.Server.RunReconcileOnce: does not model the end time stamped on cdrs rows. It takes distinct keys in the reply of the range, and entries stored under their own id, as `LiveIndex.StepKeepsInv` shows of every reachable state.
- Overdraft.BoundedOverdraft: assumes at most one teardown a call, no release of a call that is up, and fixed orders, caps and rates during the run; where it speaks of the user's cap also one number a Call-ID, see `OverdraftRuns.SharedCallIdHasNoBound`.
- Ticks.TickIsExact: takes a tick without interruption; `TickRuns` says what holds with others in between.
- Ticks.CleanupIsExact: likewise.
- Lifecycle.ReserveReleaseRoundTrip: does not model route normalisation, the note and the audio file lookups.
- The order form's look-up of SIP accounts and audio files, and rate-card edits during a run.
- StoreServer.Server.Edit: takes the form's fields with their defaults already applied.
- StoreServer.Server.Patch: likewise.
- Handlers that are one statement or two without a loop (block, status form, KYC rejection, hangup, redirect's marks) are steps of the machines; they have no row of their own.
- The order of a user's numbers in a deletion is any order.
- ImportWorker.Job.Run: does not model progress events, durations and panics; the database's verdict on a row is a fixed predicate.
- ImportWorker.RerunAddsNothing: takes the same verdicts in both runs and a first run that was not cancelled.
- Parsers.ParseRange: error texts are shortened.
- Transactions.StepMeans: says when a step fails, not with which of the messages; their order is that of the methods.
- ParseCSV and the legacy import form, which add easy members only.
- The 243 entries of the prefix table; every theorem holds for any table.
- CallLadder.LayRows: the scaled logarithm is an arbitrary function of the silence; labels, colours, retransmit counts and lane order are not modelled.
- The heuristics of the findings banner.
- CallLadder.AfterLastEarlierArrowIff: timestamps are integers.
- DnsCache.HostCache.Merge: the lock is the step; an unparsable address is not modelled.
- Audio groups, cause labels, sessions, templates, CSV export, SSE, pcap and TLS code.
