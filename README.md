# Parking-ticket lifecycle, modelled in Dafny

This project models the core of a small parking-lot service. An **entry** call
records a vehicle's arrival and returns a ticket id. An **exit** call looks that
ticket up, computes the time parked, charges $10 an hour in started
quarter-hours, and settles the ticket.

The repository implements this core three times, and the model keeps all three:

- **Combined Firestore service** (`functions/combined/index.js`). Tickets live in a
  `tickets` collection and move from `active` to `processed`. A missing entry
  time falls back to "one hour ago". Every store failure is answered with 503.
- **Split Firestore services** (`functions/entry/index.js`, `functions/exit/index.js`).
  These follow the same rules with no error handling. A store exception, or an
  entry time that is not a Timestamp, rejects the handler's promise, so no reply
  is sent.
- **Lambda variant** (`src/handlers/*.ts`, `src/lib/storage.ts`, `src/lib/billing.ts`).
  It uses a DynamoDB table of entry records with no status field. Exit always
  recomputes the fee and overwrites it. Any storage exception is answered with 500.

## How it is modelled

- `Http`: query parameters as `Option<string>`, with `Present` giving JavaScript
  truthiness (absent and `""` are falsy). A store call that may throw returns an
  `Attempt`. A response is a `Reply(status, body)`.
- `Ceiling`: `CeilDiv(a, b)` is `Math.ceil(a / b)` for an integer `a` and a positive
  integer `b`, with the lemmas the fee arithmetic needs.
- `Billing` (`calculateFee`) and `Proration` (the fee and minutes arithmetic the
  Firestore handlers write inline) are pure functions. Fees are **integer cents**:
  one quarter-hour is 250 cents, so no reals or floats appear anywhere.
- `Firestore.Collection` and `Storage.Table` are classes. Each holds its table as a
  `map` field that its methods (`set`/`get`/`update`, and
  `storeEntry`/`getEntry`/`finalizeEntry`) reassign. Each also keeps a ghost `log`
  of the calls made on it, so a contract can say which store calls a handler made.
- Each handler is a method that calls those store methods, with early returns as
  in the source. Its `ensures` tie the reply and the new table to a specification
  function of the old table, such as `CombinedService.ExitOutcome`. They also give
  the exact calls the handler appended to the log. The properties are lemmas about
  those specification functions, including the ones that relate two requests.
- Clock reads (`Date.now()`, `Timestamp.now()`, the time the store gives a server
  timestamp), the generated uuid, and "this store call throws" are parameters.

Behaviour of the code worth knowing:

- The code charges nothing for a zero duration (`Billing.FeeSign` proves
  `CalculateFee(0) == 0`); any positive duration costs at least one quarter.
- The fee is non-decreasing in the duration, not strictly increasing
  (`Billing.FeeMonotone`, `Billing.FeeStaircase`).
- In the combined exit, a stored `_seconds` beyond the range of a JavaScript
  Date makes `new Date(entryMs).toISOString()` throw after the update has
  committed. The catch around both answers 503, yet the ticket is already
  processed, and a retry is refused with 400
  (`CombinedService.SettledButUnavailable`).
- The Lambda exit has no already-exited check, so a second exit charges again
  (`LambdaExit.ReExitOverwrites`). The Firestore exits refuse it.
- The split exit service has no entry-time fallback. A ticket without a Timestamp
  entry time makes it throw.

## Model

| member | source | states |
|---|---|---|
| Ceiling.CeilDiv | src/lib/billing.ts:5-6 | the result q is the least integer with a <= q*b: (q-1)*b < a <= q*b, which is Math.ceil(a/b) for integers |
| Ceiling.CeilDivUnique | src/lib/billing.ts:5-6 | any q with (q-1)*b < a <= q*b is the ceiling |
| Ceiling.CeilDivIs | functions/combined/index.js:275-276 | the ceiling equals k if and only if a lies in ((k-1)*b, k*b] |
| Ceiling.CeilDivMonotone | src/lib/billing.ts:5-6 | the ceiling is non-decreasing in the numerator |
| Ceiling.CeilDivNested | src/lib/billing.ts:5-6 | ceil(ceil(a/b)/c) == ceil(a/(b*c)) for every integer a |
| Billing.CalculateFee | src/lib/billing.ts:4-7 | calculateFee(d) is 250 cents times ceil(d/900000): rounding to minutes and then to quarters is one rounding to quarter-hours |
| Billing.FeeStaircase | src/lib/billing.ts:2-7 | calculateFee(d) == 250*k if and only if (k-1)*900000 < d <= k*900000 |
| Billing.FirstTwoQuarters | src/lib/billing.ts:2-7 | durations in (0, 15 min] cost $2.50 and durations in (15, 30 min] cost $5.00 |
| Billing.FeeSign | src/lib/billing.ts:5-7 | calculateFee(0) == 0; a non-negative duration has a non-negative fee; a positive duration costs at least one quarter |
| Billing.FeeMonotone | src/lib/billing.ts:5-7 | d1 <= d2 implies calculateFee(d1) <= calculateFee(d2) |
| Billing.FeeIsWholeQuarters | src/lib/billing.ts:7 | every fee is a whole number of $2.50 quarters |
| Proration.TotalMinutes | functions/combined/index.js:278 | the reported minutes m are the started minutes of the stay: (m-1)*60000 < diff <= m*60000 |
| Proration.ProratedFee | functions/combined/index.js:274-277 | the Firestore formula ceil(diff/15min)*10/4 charges exactly calculateFee(diff) for every integer duration, and that is 250 cents per started 15 of the reported minutes |
| Proration.ProratedFeeMonotone | functions/combined/index.js:274-278 | a longer stay has no smaller fee and no smaller minute count |
| Proration.BriefStay | functions/exit/index.js:38-42 | a stay in (0, 1 min] reports 1 minute and costs one quarter |
| Proration.OneHour | functions/combined/index.js:274-278 | one hour is 60 minutes and $10 |
| Proration.TwentyMinutes | functions/combined/index.js:274-278 | twenty minutes are 20 minutes and $5.00 |
| Firestore.Collection.Set | functions/combined/index.js:178-184 | set writes the whole document at its id (replacing any old one) unless it throws, in which case nothing is written |
| Firestore.Collection.Get | functions/combined/index.js:230 | get returns the document at the id or none, or throws; the documents do not change |
| Firestore.Collection.Update | functions/combined/index.js:283-289 | update merges the patched fields into an existing document and keeps the rest; it writes nothing when it throws or the document is missing |
| CombinedService.Entry | functions/combined/index.js:143-204 | reply and collection are exactly EntryOutcome of the old collection; the only store call is one set, and only when both parameters are present |
| CombinedService.EntryOutcome | functions/combined/index.js:150-202 | 400 iff plate or parkingLot is missing or empty, 503 iff the write throws, both leaving the collection unchanged; 200 stores {plate, lotId, entryTime, status "active"} at the fresh id, keeps every other key, and echoes ticketId, plate and parkingLot |
| CombinedService.Exit | functions/combined/index.js:207-314 | reply and collection are exactly ExitOutcome of the old collection; no store call without an id, then one get, then one update only for an active ticket |
| CombinedService.ExitOutcome | functions/combined/index.js:213-312 | 400 iff the id is missing or the ticket is not active; 404 iff it is unknown; 503 iff the read or the update throws, or the update commits and the resolved entry time is beyond a Date's range; the collection changes iff the update commits, which sets status processed, exitTime, fee and totalMinutes from now minus the resolved entry time and keeps plate, lotId, entryTime and every other document; 200 iff it commits with an entry time in range, and echoes what was written |
| CombinedService.SecondExitRejected | functions/combined/index.js:247-254 | after a successful exit any later exit on that id is not a 200, changes nothing, and is a 400 whenever the read succeeds |
| CombinedService.EntryThenExit | functions/combined/index.js:173-303 | a ticket entered at server time t0 and exited at now is settled with ProratedFee(now-t0); when t0 is in a Date's range the reply carries the entered plate and lot, TotalMinutes(now-t0) and the fee; 20 minutes give 20 and $5.00 |
| CombinedService.FallbackIsOneHour | functions/combined/index.js:257-278 | without a Timestamp or a truthy _seconds the entry time is one hour before the fallback clock read; when that read equals the exit clock the ticket settles at 60 minutes and $10 |
| CombinedService.SettledButUnavailable | functions/combined/index.js:282-311 | an entry `_seconds` of 9e12 settles the ticket but answers 503, and the retry is refused with 400 InvalidStatus |
| CombinedService.TicketLifecycle | functions/combined/index.js:173-289 | over any sequence of entry and exit requests that never reissues its id, a ticket is never deleted, keeps plate, lot and entry time, never changes once not active, and changes only from active to processed with a fee and minutes |
| CombinedService.StepKeepsConsistent | functions/combined/index.js:173-289 | one request keeps every ticket consistent: active ones unsettled, processed ones with exit time, minutes and a fee of 250 cents per started 15 minutes |
| CombinedService.RunKeepsConsistent | functions/combined/index.js:173-289 | any sequence of requests keeps every ticket consistent |
| EntryService.Entry | functions/entry/index.js:17-38 | response and collection are exactly EntryOutcome; no store call for a missing parameter, otherwise exactly one set of the active ticket at the fresh id |
| EntryService.EntryOutcome | functions/entry/index.js:20-37 | a 400 iff plate or parkingLot is missing or empty, writing nothing; a 200 iff no write throws, returning exactly the key it wrote, which holds {plate, lotId, entryTime, status "active"}; other keys are kept; the promise is rejected iff both are present and the write throws, writing nothing |
| EntryService.RepeatedEntries | functions/entry/index.js:25-34 | two entries for the same plate with distinct fresh ids leave two distinct active tickets |
| ExitService.Exit | functions/exit/index.js:16-59 | response and collection are exactly ExitOutcome; the calls are none without an id, then one get, then one update with the computed settlement only for an active ticket with a Timestamp entry time |
| ExitService.ExitOutcome | functions/exit/index.js:17-58 | 400 iff the id is missing, or the ticket is present and not active; 404 iff it is unknown; 200 iff the ticket is active with a Timestamp entry time and no call throws; the promise is rejected iff a call throws or an active ticket's entry time is not a Timestamp; only a 200 changes the collection, setting status processed, exitTime, fee and totalMinutes; the reply carries exactly the stored plate, lot, minutes and fee |
| ExitService.SecondExitRejected | functions/exit/index.js:29-31 | after a successful exit every further exit on that id is a 400 (or a rejection when the read throws) and changes nothing |
| ExitService.TicketLifecycle | functions/exit/index.js:29-51 | over any mix of stand-alone entry and exit requests that never reissues its id, a ticket is never deleted, keeps plate, lot and entry time, never changes once not active, and changes only from active to processed with a fee and minutes |
| ExitService.StepKeepsConsistent | functions/exit/index.js:38-51 | one entry or exit request keeps every ticket consistent |
| ExitService.RunKeepsConsistent | functions/exit/index.js:38-51 | any sequence of entry and exit requests keeps every ticket consistent: a processed ticket carries exit time, minutes and a fee of 250 cents per started 15 minutes |
| Storage.Table.StoreEntry | src/lib/storage.ts:16-21 | puts {ticketId, plate, parkingLot, entryTime: now} with no exitTime or fee under the fresh id and returns that id; writes nothing when the put throws |
| Storage.Table.GetEntry | src/lib/storage.ts:23-26 | returns the record at the key, or null when there is none; the table does not change |
| Storage.Table.FinalizeEntry | src/lib/storage.ts:28-35 | sets exitTime and fee of the record and nothing else; writes nothing when it throws |
| Storage.StoreThenGet | src/lib/storage.ts:16-26 | getEntry of the id storeEntry returned gives the record with that plate, lot and entry time |
| Storage.FinalizeKeepsTheRest | src/lib/storage.ts:28-34 | finalising keeps ticketId, plate, parkingLot, entryTime and every other record, and sets exitTime and fee |
| LambdaEntry.Handler | src/handlers/entry.ts:4-23 | reply and table are exactly EntryOutcome; storeEntry is not called for a missing parameter and is called once with plate and parkingLot unchanged otherwise |
| LambdaEntry.EntryOutcome | src/handlers/entry.ts:9-22 | 400 iff a parameter is missing, 500 iff storing throws, both leaving the table unchanged; 200 iff both are present and storing succeeds, carrying exactly the id the record was stored under, holding the plate and lot unchanged, and keeping every other record |
| LambdaExit.Handler | src/handlers/exit.ts:5-38 | reply and table are exactly ExitOutcome; no storage call without an id; finalizeEntry(ticketId, now, charge) is called only after getEntry found the record, and it is the only write |
| LambdaExit.ExitOutcome | src/handlers/exit.ts:9-37 | 400 iff the id is missing, 404 iff it is unknown, 500 iff a storage call throws, none changing the table; 200 iff the record is found and no call throws, setting exitTime = now and fee = calculateFee(now - entryTime), keeping everything else, and replying with the stored plate and lot, parkedTimeMs = now - entryTime and the charge |
| LambdaExit.ReExitOverwrites | src/handlers/exit.ts:14-23 | a second exit on a finalised entry succeeds again and overwrites exitTime and fee with values from the new clock |
| LambdaExit.EntryThenExit | src/handlers/entry.ts:17-18 | an entry stored at t0 by the entry handler and exited at now replies with its plate and lot, parkedTimeMs now-t0 and calculateFee(now-t0); 20 minutes cost $5.00 |
| LambdaExit.StepKeepsWellFormed | src/handlers/exit.ts:19-23 | one entry or exit keeps every record under its own id, with exit time and fee set together and the fee the charge for entry to exit |
| LambdaExit.RunKeepsWellFormed | src/handlers/exit.ts:19-23 | any sequence of entries and exits keeps every record well formed: every stored fee is calculateFee of its recorded stay |
| LambdaExit.RecordLifecycle | src/lib/storage.ts:28-35 | unless a later entry draws the same uuid, a record is never deleted, keeps its id, plate, lot and entry time, and stays exited once exited |

## Left out

- HTTP and process wiring is not modelled: Express setup, `app.listen`, `asyncHandler`, the error middleware, logging, and the `/`, `/version` and `/status` endpoints. The `/status` endpoint is only a Firestore health probe.
- The combined service throws when Firestore was never initialised (`!db`), which the framework answers with 500. This is left out as process start-up state.
- Cloud infrastructure (`pulumi/index.ts`, `index.ts`) only declares resources and has no behaviour.
- Floating point: durations and fees are exact integers. JavaScript's double division could round `diff / 900000` differently only for durations around 10^16 ms.
- `toISOString()` formatting is not modelled beyond its range error on the entry time. Receipt times are the millisecond values the source formats; `new Date().toISOString()` on the current clock is taken never to throw. The `created` and `processingDate` debugging strings the combined service also stores are omitted.
- `serverTimestamp()` sentinels are modelled by the time the store resolves them to (a parameter). The Firebase and AWS SDK internals are not modelled.
- Storage.Table.FinalizeEntry: requires the key to exist, so DynamoDB's upsert of a missing key is not modelled. The handler only calls it after a successful `getEntry`.
- Concurrency is not modelled: the race between the status read and the update of two concurrent exits. Calls are sequential.
- A failing store call is modelled as writing nothing. Partial writes by the store itself are not modelled.
- Exotic query values are not modelled: a repeated query parameter (an array), and a non-numeric `_seconds`.
- DEBUG-dependent `details`/`stack` fields in error bodies carry no logic and are omitted.
