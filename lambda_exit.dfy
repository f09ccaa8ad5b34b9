/** The Lambda exit handler: looks the entry up, charges `calculateFee` on the
    time since entry, finalises the record, and maps any storage exception to
    500. It has no status check, so exiting again re-charges and overwrites. */
module LambdaExit {
  import opened Http
  import opened Billing
  import opened Storage
  import LambdaEntry

  datatype Body =
    | MissingTicketId
    | NotFound
    | Receipt(plate: string, parkingLot: string, parkedTimeMs: int, charge: int)
    | InternalError

  datatype Outcome = Outcome(reply: Reply<Body>, items: map<string, EntryRecord>)

  /** The handler as a function of the table before the request; `now` is the
      clock read made after the lookup. 400 for a missing id, 404 for an
      unknown one and 500 for a storage exception, none of them changing the
      table; a success sets the record's exit time to `now` and its fee to the
      charge for `now - entryTime`, keeps every other field and record, and
      reports that duration and charge with the stored plate and lot. */
  function ExitOutcome(items: map<string, EntryRecord>, ticketId: Option<string>, now: int,
                       readFault: bool, writeFault: bool): (o: Outcome)
    ensures o.reply.status == 400 <==> !Present(ticketId)
    ensures o.reply.status == 404 <==> Present(ticketId) && !readFault && ticketId.value !in items
    ensures o.reply.status == 500 <==> Present(ticketId) && (readFault || (ticketId.value in items && writeFault))
    ensures o.reply.status == 200 <==> Present(ticketId) && !readFault && !writeFault && ticketId.value in items
    ensures o.reply.status != 200 ==> o.items == items
    ensures o.reply.status == 200 ==>
      var id := ticketId.value;
      var e := items[id];
      && o.items.Keys == items.Keys
      && (forall k :: k in items && k != id ==> o.items[k] == items[k])
      && o.items[id] == EntryRecord(e.ticketId, e.plate, e.parkingLot, e.entryTime,
                                    Some(now), Some(CalculateFee(now - e.entryTime)))
      && o.reply.body == Receipt(e.plate, e.parkingLot, now - e.entryTime, CalculateFee(now - e.entryTime))
  {
    if !Present(ticketId) then
      Outcome(Reply(400, MissingTicketId), items)
    else if readFault then
      Outcome(Reply(500, InternalError), items)
    else if ticketId.value !in items then
      Outcome(Reply(404, NotFound), items)
    else
      var id := ticketId.value;
      var entry := items[id];
      var durationMs := now - entry.entryTime;
      var charge := CalculateFee(durationMs);
      if writeFault then
        Outcome(Reply(500, InternalError), items)
      else
        Outcome(Reply(200, Receipt(entry.plate, entry.parkingLot, durationMs, charge)),
                items[id := Finalized(entry, now, charge)])
  }

  /** The storage calls the handler makes: none without an id, a lookup, and
      a finalisation only for a record that was found. */
  function ExitCalls(items: map<string, EntryRecord>, ticketId: Option<string>, now: int, readFault: bool): seq<Call>
  {
    if !Present(ticketId) then []
    else
      var id := ticketId.value;
      if readFault || id !in items then [GetCall(id)]
      else [GetCall(id), UpdateCall(id, now, CalculateFee(now - items[id].entryTime))]
  }

  method Handler(table: Table, ticketId: Option<string>, now: int, readFault: bool, writeFault: bool)
    returns (reply: Reply<Body>)
    modifies table
    ensures Outcome(reply, table.items) == ExitOutcome(old(table.items), ticketId, now, readFault, writeFault)
    ensures table.log == old(table.log) + ExitCalls(old(table.items), ticketId, now, readFault)
  {
    if !Present(ticketId) {
      return Reply(400, MissingTicketId);
    }
    var id := ticketId.value;
    var entry := table.GetEntry(id, readFault);
    if entry.Threw? {
      return Reply(500, InternalError);
    }
    if entry.value.None? {
      return Reply(404, NotFound);
    }
    var record := entry.value.value;
    var durationMs := now - record.entryTime;
    var charge := CalculateFee(durationMs);
    var ok := table.FinalizeEntry(id, now, charge, writeFault);
    if !ok {
      return Reply(500, InternalError);
    }
    reply := Reply(200, Receipt(record.plate, record.parkingLot, durationMs, charge));
  }

  /** There is no already-exited check: a second exit succeeds again and
      replaces the first exit time and fee by ones computed from the new clock. */
  lemma ReExitOverwrites(items: map<string, EntryRecord>, id: string, now: int, now': int)
    requires ExitOutcome(items, Some(id), now, false, false).reply.status == 200
    ensures var first := ExitOutcome(items, Some(id), now, false, false);
            var second := ExitOutcome(first.items, Some(id), now', false, false);
            var e := items[id];
      && second.reply == Reply(200, Receipt(e.plate, e.parkingLot, now' - e.entryTime, CalculateFee(now' - e.entryTime)))
      && second.items[id].exitTime == Some(now')
      && second.items[id].fee == Some(CalculateFee(now' - e.entryTime))
      && second.items == items[id := Finalized(e, now', CalculateFee(now' - e.entryTime))]
  {
  }

  /** A ticket issued by the entry handler at `t0` and exited at `now` reports
      the plate and lot it was issued with and is charged for `now - t0`;
      twenty minutes cost $5.00. */
  lemma EntryThenExit(items: map<string, EntryRecord>, plate: string, parkingLot: string,
                      freshId: string, t0: int, now: int)
    requires plate != "" && parkingLot != "" && freshId != ""
    ensures var entered := LambdaEntry.EntryOutcome(items, Some(plate), Some(parkingLot), freshId, t0, false);
            var exited := ExitOutcome(entered.items, Some(freshId), now, false, false);
      && entered.reply == Reply(200, LambdaEntry.Issued(freshId))
      && exited.reply == Reply(200, Receipt(plate, parkingLot, now - t0, CalculateFee(now - t0)))
      && (now - t0 == 20 * 60 * 1000 ==> exited.reply.body.charge == 500)
  {
    FirstTwoQuarters(now - t0);
  }

  // ----------------------------------------------------------- the lifecycle

  /** One request to either Lambda handler; both share the table. */
  datatype Request =
    | EntryRequest(plate: Option<string>, parkingLot: Option<string>, freshId: string, now: int, fault: bool)
    | ExitRequest(ticketId: Option<string>, now: int, readFault: bool, writeFault: bool)

  function Step(items: map<string, EntryRecord>, r: Request): map<string, EntryRecord>
  {
    match r
    case EntryRequest(plate, parkingLot, freshId, now, fault) =>
      LambdaEntry.EntryOutcome(items, plate, parkingLot, freshId, now, fault).items
    case ExitRequest(ticketId, now, readFault, writeFault) =>
      ExitOutcome(items, ticketId, now, readFault, writeFault).items
  }

  /** The table after serving the requests one after another. */
  function Run(items: map<string, EntryRecord>, rs: seq<Request>): map<string, EntryRecord>
    decreases |rs|
  {
    if rs == [] then items else Run(Step(items, rs[0]), rs[1..])
  }

  /** The shape the handlers keep every record in: stored under its own id,
      and either not yet exited or carrying an exit time together with the
      fee `calculateFee` charges for the time from entry to that exit. */
  predicate WellFormed(items: map<string, EntryRecord>)
  {
    forall k :: k in items ==>
      && items[k].ticketId == k
      && (items[k].exitTime.Some? <==> items[k].fee.Some?)
      && (items[k].fee.Some? ==> items[k].fee.value == CalculateFee(items[k].exitTime.value - items[k].entryTime))
  }

  lemma StepKeepsWellFormed(items: map<string, EntryRecord>, r: Request)
    requires WellFormed(items)
    ensures WellFormed(Step(items, r))
  {
  }

  /** Over any mix of entries and exits, every record stays under its own id,
      and every fee stored is the charge for the last recorded stay. */
  lemma {:induction false} RunKeepsWellFormed(items: map<string, EntryRecord>, rs: seq<Request>)
    requires WellFormed(items)
    ensures WellFormed(Run(items, rs))
    decreases |rs|
  {
    if rs != [] {
      StepKeepsWellFormed(items, rs[0]);
      RunKeepsWellFormed(Step(items, rs[0]), rs[1..]);
    }
  }

  /** No entry request in `rs` draws `id` as its uuid. */
  predicate NeverIssued(rs: seq<Request>, id: string)
  {
    forall i :: 0 <= i < |rs| ==> !(rs[i].EntryRequest? && rs[i].freshId == id)
  }

  lemma NeverIssuedTail(rs: seq<Request>, id: string)
    requires rs != [] && NeverIssued(rs, id)
    ensures NeverIssued(rs[1..], id)
  {
    forall i | 0 <= i < |rs[1..]|
      ensures !(rs[1..][i].EntryRequest? && rs[1..][i].freshId == id)
    {
      assert rs[1..][i] == rs[i + 1];
    }
  }

  /** Unless a later entry draws the same uuid, a record is never deleted and
      its id, plate, lot and entry time never change; only its exit time and
      fee can, and once it has exited it stays exited. */
  lemma {:induction false} RecordLifecycle(items: map<string, EntryRecord>, rs: seq<Request>, id: string)
    requires id in items && NeverIssued(rs, id)
    ensures id in Run(items, rs)
    ensures var e, e' := items[id], Run(items, rs)[id];
      && e'.ticketId == e.ticketId && e'.plate == e.plate && e'.parkingLot == e.parkingLot
      && e'.entryTime == e.entryTime
      && (e.exitTime.Some? ==> e'.exitTime.Some?)
    decreases |rs|
  {
    if rs != [] {
      var next := Step(items, rs[0]);
      assert id in next && next[id].entryTime == items[id].entryTime;
      NeverIssuedTail(rs, id);
      RecordLifecycle(next, rs[1..], id);
    }
  }
}
