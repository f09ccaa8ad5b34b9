/** The combined Firestore service: the `/entry` and `/exit` handlers, with
    input validation, the entry-time fallback, and every store failure
    reported as 503. */
module CombinedService {
  import opened Http
  import opened Ceiling
  import opened Firestore
  import opened Proration

  const ONE_HOUR_MS := 60 * 60 * 1000
  /** The largest distance from the epoch, in milliseconds, that a JavaScript
      Date can hold; `toISOString()` throws a RangeError beyond it. */
  const MAX_DATE_MS := 8_640_000_000_000_000

  predicate DateInRange(ms: int)
  {
    -MAX_DATE_MS <= ms <= MAX_DATE_MS
  }

  /** The JSON bodies the two handlers send. Times are milliseconds; the
      source formats them with toISOString(). */
  datatype Body =
    | MissingParameter(message: string, param: string)
    | Unavailable(message: string)
    | NotFound
    | InvalidStatus(status: string)
    | EntryReceipt(ticketId: string, plate: string, parkingLot: string, timestamp: int)
    | ExitReceipt(ticketId: string, plate: string, parkingLot: string, entryTime: int,
                  exitTime: int, totalTimeMinutes: int, charge: int)

  /** What one request leaves behind: the reply and the collection. */
  datatype Outcome = Outcome(reply: Reply<Body>, docs: map<string, Ticket>)

  // ---------------------------------------------------------------- /entry

  /** The `/entry` handler as a function of the collection before the request.
      `freshId` is the generated uuid, `serverNow` the time the store gives the
      server timestamp, `clock` the local clock, `writeFault` whether `set` throws.
      Every outcome of `/entry`: a missing parameter is a 400 and a failed write
      a 503, neither touching the collection; a success stores an active ticket
      under the fresh id, keeps every other document, and echoes the request. */
  function EntryOutcome(docs: map<string, Ticket>, plate: Option<string>, lotId: Option<string>,
                        freshId: string, serverNow: int, clock: int, writeFault: bool): (o: Outcome)
    ensures o.reply.status == 400 <==> !Present(plate) || !Present(lotId)
    ensures o.reply.status == 503 <==> Present(plate) && Present(lotId) && writeFault
    ensures o.reply.status == 200 <==> Present(plate) && Present(lotId) && !writeFault
    ensures o.reply.status != 200 ==> o.docs == docs
    ensures o.reply.status == 200 ==>
      && o.docs.Keys == docs.Keys + {freshId}
      && o.docs[freshId] == Ticket(plate.value, lotId.value, Timestamp(serverNow), ACTIVE, None, None, None)
      && (forall k :: k in docs && k != freshId ==> o.docs[k] == docs[k])
      && o.reply.body == EntryReceipt(freshId, plate.value, lotId.value, clock)
  {
    if !Present(plate) then
      Outcome(Reply(400, MissingParameter("License plate is required", "plate")), docs)
    else if !Present(lotId) then
      Outcome(Reply(400, MissingParameter("Parking lot ID is required", "parkingLot")), docs)
    else if writeFault then
      Outcome(Reply(503, Unavailable("Could not save entry ticket at this time")), docs)
    else
      Outcome(Reply(200, EntryReceipt(freshId, plate.value, lotId.value, clock)),
              docs[freshId := NewTicket(plate.value, lotId.value, Timestamp(serverNow))])
  }

  /** The store calls `/entry` makes. */
  function EntryCalls(plate: Option<string>, lotId: Option<string>, freshId: string, serverNow: int): seq<Call>
  {
    if Present(plate) && Present(lotId) then [SetCall(freshId, NewTicket(plate.value, lotId.value, Timestamp(serverNow)))]
    else []
  }

  method Entry(db: Collection, plate: Option<string>, lotId: Option<string>,
               freshId: string, serverNow: int, clock: int, writeFault: bool)
    returns (reply: Reply<Body>)
    modifies db
    ensures Outcome(reply, db.docs) == EntryOutcome(old(db.docs), plate, lotId, freshId, serverNow, clock, writeFault)
    ensures db.log == old(db.log) + EntryCalls(plate, lotId, freshId, serverNow)
  {
    if !Present(plate) {
      return Reply(400, MissingParameter("License plate is required", "plate"));
    }
    if !Present(lotId) {
      return Reply(400, MissingParameter("Parking lot ID is required", "parkingLot"));
    }
    var ticketId := freshId;
    var ok := db.Set(ticketId, NewTicket(plate.value, lotId.value, Timestamp(serverNow)), writeFault);
    if !ok {
      return Reply(503, Unavailable("Could not save entry ticket at this time"));
    }
    reply := Reply(200, EntryReceipt(ticketId, plate.value, lotId.value, clock));
  }

  // ----------------------------------------------------------------- /exit

  /** The entry time in milliseconds: `toMillis()` when the stored value is a
      Timestamp, else `_seconds * 1000` when that is truthy, else one hour
      before `fallbackNow`. */
  function ResolveEntryMs(entryTime: Stamp, fallbackNow: int): int
  {
    match entryTime
    case Timestamp(ms) => ms
    case RawSeconds(s) => if s != 0 then s * 1000 else fallbackNow - ONE_HOUR_MS
    case NoStamp => fallbackNow - ONE_HOUR_MS
  }

  /** The update `/exit` writes for an active ticket. */
  function Settlement(t: Ticket, fallbackNow: int, now: int, serverNow: int): Patch
  {
    var diffMs := now - ResolveEntryMs(t.entryTime, fallbackNow);
    Patch(PROCESSED, serverNow, ProratedFee(diffMs), TotalMinutes(diffMs))
  }

  /** Whether `/exit` reaches a successful `update`: an id is given, the read
      succeeds, the ticket exists and is active, and the update does not throw. */
  predicate Commits(docs: map<string, Ticket>, ticketId: Option<string>, readFault: bool, updateFault: bool)
  {
    Present(ticketId) && !readFault && !updateFault && ticketId.value in docs && docs[ticketId.value].status == ACTIVE
  }

  /** The `/exit` handler as a function of the collection before the request.
      `fallbackNow` and `now` are the two reads of the local clock (the first one
      made only on the fallback path), `serverNow` the time the store gives the
      exit's server timestamp, `clock` the clock read for the receipt.
      Every outcome of `/exit`: 400 for a missing id or a ticket that is not
      active, 404 for an unknown id, 503 for a failed read or update, each
      leaving the collection as it was. Once the update commits, the ticket is
      processed with the prorated fee and the started minutes, keeps its plate,
      lot and entry time, and every other document is kept; the reply is the
      receipt, unless the resolved entry time is beyond a Date's range, when
      formatting the receipt throws inside the same `try` and the reply is a
      503 although the ticket is already settled. */
  function ExitOutcome(docs: map<string, Ticket>, ticketId: Option<string>,
                       fallbackNow: int, now: int, serverNow: int, clock: int,
                       readFault: bool, updateFault: bool): (o: Outcome)
    ensures o.reply.status == 400 <==>
      !Present(ticketId) || (!readFault && ticketId.value in docs && docs[ticketId.value].status != ACTIVE)
    ensures o.reply.status == 404 <==> Present(ticketId) && !readFault && ticketId.value !in docs
    ensures o.reply.status == 503 <==>
      || (Present(ticketId) && (readFault || (ticketId.value in docs && docs[ticketId.value].status == ACTIVE && updateFault)))
      || (Commits(docs, ticketId, readFault, updateFault)
          && !DateInRange(ResolveEntryMs(docs[ticketId.value].entryTime, fallbackNow)))
    ensures o.reply.status == 200 <==>
      Commits(docs, ticketId, readFault, updateFault)
      && DateInRange(ResolveEntryMs(docs[ticketId.value].entryTime, fallbackNow))
    ensures !Commits(docs, ticketId, readFault, updateFault) ==> o.docs == docs
    ensures Commits(docs, ticketId, readFault, updateFault) ==>
      var id := ticketId.value;
      var t := docs[id];
      var entryMs := ResolveEntryMs(t.entryTime, fallbackNow);
      && o.docs.Keys == docs.Keys
      && (forall k :: k in docs && k != id ==> o.docs[k] == docs[k])
      && o.docs[id] == Ticket(t.plate, t.lotId, t.entryTime, PROCESSED, Some(serverNow),
                              Some(ProratedFee(now - entryMs)), Some(TotalMinutes(now - entryMs)))
    ensures o.reply.status == 200 ==>
      var t := docs[ticketId.value];
      var entryMs := ResolveEntryMs(t.entryTime, fallbackNow);
      o.reply.body == ExitReceipt(ticketId.value, t.plate, t.lotId, entryMs, clock,
                                  TotalMinutes(now - entryMs), ProratedFee(now - entryMs))
  {
    if !Present(ticketId) then
      Outcome(Reply(400, MissingParameter("Ticket ID is required", "ticketId")), docs)
    else if readFault then
      Outcome(Reply(503, Unavailable("Could not retrieve ticket information at this time")), docs)
    else if ticketId.value !in docs then
      Outcome(Reply(404, NotFound), docs)
    else
      var id := ticketId.value;
      var t := docs[id];
      if t.status != ACTIVE then
        Outcome(Reply(400, InvalidStatus(t.status)), docs)
      else if updateFault then
        Outcome(Reply(503, Unavailable("Could not process exit at this time")), docs)
      else
        var p := Settlement(t, fallbackNow, now, serverNow);
        var entryMs := ResolveEntryMs(t.entryTime, fallbackNow);
        if !DateInRange(entryMs) then
          Outcome(Reply(503, Unavailable("Could not process exit at this time")), docs[id := Merge(t, p)])
        else
          Outcome(Reply(200, ExitReceipt(id, t.plate, t.lotId, entryMs, clock, p.totalMinutes, p.fee)),
                  docs[id := Merge(t, p)])
  }

  /** The store calls `/exit` makes: none without an id, then a read, then an
      update only for an active ticket. */
  function ExitCalls(docs: map<string, Ticket>, ticketId: Option<string>,
                     fallbackNow: int, now: int, serverNow: int, readFault: bool): seq<Call>
  {
    if !Present(ticketId) then []
    else
      var id := ticketId.value;
      if readFault || id !in docs || docs[id].status != ACTIVE then [GetCall(id)]
      else [GetCall(id), UpdateCall(id, Settlement(docs[id], fallbackNow, now, serverNow))]
  }

  method Exit(db: Collection, ticketId: Option<string>,
              fallbackNow: int, now: int, serverNow: int, clock: int,
              readFault: bool, updateFault: bool)
    returns (reply: Reply<Body>)
    modifies db
    ensures Outcome(reply, db.docs)
         == ExitOutcome(old(db.docs), ticketId, fallbackNow, now, serverNow, clock, readFault, updateFault)
    ensures db.log == old(db.log) + ExitCalls(old(db.docs), ticketId, fallbackNow, now, serverNow, readFault)
  {
    if !Present(ticketId) {
      return Reply(400, MissingParameter("Ticket ID is required", "ticketId"));
    }
    var id := ticketId.value;
    var doc := db.Get(id, readFault);
    if doc.Threw? {
      return Reply(503, Unavailable("Could not retrieve ticket information at this time"));
    }
    if doc.value.None? {
      return Reply(404, NotFound);
    }
    var ticketData := doc.value.value;
    if ticketData.status != ACTIVE {
      return Reply(400, InvalidStatus(ticketData.status));
    }

    var entryMs: int;
    if ticketData.entryTime.Timestamp? {
      entryMs := ticketData.entryTime.millis;
    } else if ticketData.entryTime.RawSeconds? && ticketData.entryTime.seconds != 0 {
      entryMs := ticketData.entryTime.seconds * 1000;
    } else {
      entryMs := fallbackNow - ONE_HOUR_MS;
    }
    var nowMs := now;

    var diffMs := nowMs - entryMs;
    var intervals := CeilDiv(diffMs, INTERVAL_MS);
    var fee := (intervals * HOURLY_RATE_CENTS) / 4;
    var totalMinutes := CeilDiv(diffMs, MINUTE_MS);

    var ok := db.Update(id, Patch(PROCESSED, serverNow, fee, totalMinutes), updateFault);
    if !ok {
      return Reply(503, Unavailable("Could not process exit at this time"));
    }
    if !DateInRange(entryMs) {
      // `new Date(entryMs).toISOString()` throws after the update committed
      return Reply(503, Unavailable("Could not process exit at this time"));
    }
    reply := Reply(200, ExitReceipt(id, ticketData.plate, ticketData.lotId, entryMs, clock, totalMinutes, fee));
  }

  /** Once an exit has succeeded, every later exit on the same id is refused
      and cannot overwrite the recorded fee and minutes. */
  lemma SecondExitRejected(docs: map<string, Ticket>, id: string,
                           fallbackNow: int, now: int, serverNow: int, clock: int,
                           fallbackNow': int, now': int, serverNow': int, clock': int,
                           readFault': bool, updateFault': bool)
    requires ExitOutcome(docs, Some(id), fallbackNow, now, serverNow, clock, false, false).reply.status == 200
    ensures var first := ExitOutcome(docs, Some(id), fallbackNow, now, serverNow, clock, false, false);
            var second := ExitOutcome(first.docs, Some(id), fallbackNow', now', serverNow', clock', readFault', updateFault');
      && second.docs == first.docs
      && second.reply.status != 200
      && (!readFault' ==> second.reply == Reply(400, InvalidStatus(PROCESSED)))
  {
  }

  /** A ticket issued at server time `t0` and then settled with the local clock
      at `now` is charged for `now - t0` and reports the plate and lot it was
      issued with; twenty minutes cost $5.00. */
  lemma EntryThenExit(docs: map<string, Ticket>, plate: string, lotId: string, freshId: string,
                      t0: int, clock0: int, fallbackNow: int, now: int, serverNow: int, clock: int)
    requires plate != "" && lotId != "" && freshId != ""
    ensures var entered := EntryOutcome(docs, Some(plate), Some(lotId), freshId, t0, clock0, false);
            var exited := ExitOutcome(entered.docs, Some(freshId), fallbackNow, now, serverNow, clock, false, false);
      && entered.reply == Reply(200, EntryReceipt(freshId, plate, lotId, clock0))
      && exited.docs[freshId].fee == Some(ProratedFee(now - t0))
      && (DateInRange(t0) ==>
            exited.reply == Reply(200, ExitReceipt(freshId, plate, lotId, t0, clock,
                                                    TotalMinutes(now - t0), ProratedFee(now - t0))))
      && (DateInRange(t0) && now - t0 == 20 * 60 * 1000 ==>
            exited.reply.body.totalTimeMinutes == 20 && exited.reply.body.charge == 500)
  {
    TwentyMinutes();
  }

  /** Without a usable stored entry time the stay counts as one hour from the
      fallback clock read; when that read equals the exit clock the ticket is
      settled at 60 minutes and four quarters, $10. */
  lemma FallbackIsOneHour(t: Ticket, fallbackNow: int, now: int, serverNow: int)
    requires t.entryTime.NoStamp? || (t.entryTime.RawSeconds? && t.entryTime.seconds == 0)
    ensures ResolveEntryMs(t.entryTime, fallbackNow) == fallbackNow - ONE_HOUR_MS
    ensures fallbackNow == now ==>
      Settlement(t, fallbackNow, now, serverNow) == Patch(PROCESSED, serverNow, 1000, 60)
  {
    OneHour();
  }

  /** A stored `_seconds` beyond a Date's range still settles the ticket, but
      the reply is a 503, so a client that retries is then refused with 400
      for a ticket whose fee is already recorded. */
  lemma SettledButUnavailable(fallbackNow: int, now: int, serverNow: int, clock: int)
    ensures var t := NewTicket("ABC123", "lot1", RawSeconds(9_000_000_000_000));
            var first := ExitOutcome(map["t1" := t], Some("t1"), fallbackNow, now, serverNow, clock, false, false);
            var retry := ExitOutcome(first.docs, Some("t1"), fallbackNow, now, serverNow, clock, false, false);
      && first.reply.status == 503
      && first.docs["t1"].status == PROCESSED
      && retry.reply == Reply(400, InvalidStatus(PROCESSED))
  {
    var t := NewTicket("ABC123", "lot1", RawSeconds(9_000_000_000_000));
    assert !DateInRange(ResolveEntryMs(t.entryTime, fallbackNow));
  }

  // ----------------------------------------------------------- the lifecycle

  /** One request to the service, with the clock reads, fresh id and store
      faults it meets. */
  datatype Request =
    | EntryRequest(plate: Option<string>, lotId: Option<string>, freshId: string,
                   serverNow: int, clock: int, writeFault: bool)
    | ExitRequest(ticketId: Option<string>, fallbackNow: int, now: int, serverNow: int, clock: int,
                  readFault: bool, updateFault: bool)

  function Step(docs: map<string, Ticket>, r: Request): map<string, Ticket>
  {
    match r
    case EntryRequest(plate, lotId, freshId, serverNow, clock, writeFault) =>
      EntryOutcome(docs, plate, lotId, freshId, serverNow, clock, writeFault).docs
    case ExitRequest(ticketId, fallbackNow, now, serverNow, clock, readFault, updateFault) =>
      ExitOutcome(docs, ticketId, fallbackNow, now, serverNow, clock, readFault, updateFault).docs
  }

  /** The collection after serving the requests one after another. */
  function Run(docs: map<string, Ticket>, rs: seq<Request>): map<string, Ticket>
    decreases |rs|
  {
    if rs == [] then docs else Run(Step(docs, rs[0]), rs[1..])
  }

  /** No entry request in `rs` draws `id` as its fresh ticket id (generated ids
      do not collide with existing ones). */
  predicate NeverIssued(rs: seq<Request>, id: string)
  {
    forall i :: 0 <= i < |rs| ==> !(rs[i].EntryRequest? && rs[i].freshId == id)
  }

  lemma NeverIssuedTail(rs: seq<Request>, id: string)
    requires rs != [] && NeverIssued(rs, id)
    ensures NeverIssued(rs[1..], id)
  {
    forall i | 0 <= i < |rs[1..]|
      ensures !(rs[1..][i].EntryRequest? && rs[1..][i].freshId == id)
    {
      assert rs[1..][i] == rs[i + 1];
    }
  }

  /** Over any sequence of requests a ticket is never deleted and its plate,
      lot and entry time never change; a ticket that is not active never
      changes at all, so a settled fee is never overwritten; and the only
      change an active ticket can undergo is settlement to "processed". */
  lemma {:induction false} TicketLifecycle(docs: map<string, Ticket>, rs: seq<Request>, id: string)
    requires id in docs && NeverIssued(rs, id)
    ensures id in Run(docs, rs)
    ensures var t, t' := docs[id], Run(docs, rs)[id];
      && t'.plate == t.plate && t'.lotId == t.lotId && t'.entryTime == t.entryTime
      && (t.status != ACTIVE ==> t' == t)
      && (t' != t ==> t.status == ACTIVE && t'.status == PROCESSED && t'.fee.Some? && t'.totalMinutes.Some?)
    decreases |rs|
  {
    if rs != [] {
      var next := Step(docs, rs[0]);
      assert id in next;
      assert next[id] != docs[id] ==> docs[id].status == ACTIVE && next[id].status == PROCESSED;
      NeverIssuedTail(rs, id);
      TicketLifecycle(next, rs[1..], id);
    }
  }

  lemma StepKeepsConsistent(docs: map<string, Ticket>, r: Request)
    requires AllConsistent(docs)
    ensures AllConsistent(Step(docs, r))
  {
    if r.ExitRequest? {
      var o := ExitOutcome(docs, r.ticketId, r.fallbackNow, r.now, r.serverNow, r.clock, r.readFault, r.updateFault);
      if Commits(docs, r.ticketId, r.readFault, r.updateFault) {
        var t := docs[r.ticketId.value];
        var diffMs := r.now - ResolveEntryMs(t.entryTime, r.fallbackNow);
        assert ProratedFee(diffMs) == CeilDiv(TotalMinutes(diffMs), 15) * 250;
      }
    }
  }

  /** Every request keeps every ticket consistent: active tickets unsettled,
      processed ones settled with a fee that matches their minutes. */
  lemma {:induction false} RunKeepsConsistent(docs: map<string, Ticket>, rs: seq<Request>)
    requires AllConsistent(docs)
    ensures AllConsistent(Run(docs, rs))
    decreases |rs|
  {
    if rs != [] {
      StepKeepsConsistent(docs, rs[0]);
      RunKeepsConsistent(Step(docs, rs[0]), rs[1..]);
    }
  }
}
