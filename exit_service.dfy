/** The stand-alone Firestore exit service: the same state check and fee
    arithmetic as the combined service, without the entry-time fallback and
    without error mapping. A failing store call, or an entry time that is
    not a Timestamp (so `toMillis` is not a function), rejects the handler's
    promise and no reply is sent. */
module ExitService {
  import opened Http
  import opened Ceiling
  import opened Firestore
  import opened Proration
  import EntryService

  datatype Body =
    | MissingTicketId
    | TicketNotFound
    | AlreadyProcessed
    | Receipt(plate: string, parkingLot: string, totalTimeMinutes: int, charge: int)

  /** A reply, or a rejected handler promise (nothing catches it). */
  datatype Response = Replied(reply: Reply<Body>) | Rejected

  datatype Outcome = Outcome(response: Response, docs: map<string, Ticket>)

  /** The update `/exit` writes for an active ticket entered at `entryMs`;
      `stampNow` is the `Timestamp.now()` read stored as the exit time. */
  function Settlement(entryMs: int, now: int, stampNow: int): Patch
  {
    Patch(PROCESSED, stampNow, ProratedFee(now - entryMs), TotalMinutes(now - entryMs))
  }

  /** The `/exit` handler as a function of the collection before the request:
      400 for a missing id or a ticket that is not active, 404 for an unknown
      id, each leaving the collection as it was; a success marks the ticket
      processed with the prorated fee, the started minutes and the exit time,
      keeps every other field and document, and replies with exactly the
      stored plate, lot, minutes and fee. A failing store call or an entry
      time that is not a Timestamp rejects, and a rejection writes nothing. */
  function ExitOutcome(docs: map<string, Ticket>, ticketId: Option<string>, now: int, stampNow: int,
                       readFault: bool, updateFault: bool): (o: Outcome)
    ensures o.response == Replied(Reply(400, MissingTicketId)) <==> !Present(ticketId)
    ensures o.response == Replied(Reply(404, TicketNotFound)) <==>
      Present(ticketId) && !readFault && ticketId.value !in docs
    ensures o.response == Replied(Reply(400, AlreadyProcessed)) <==>
      Present(ticketId) && !readFault && ticketId.value in docs && docs[ticketId.value].status != ACTIVE
    ensures o.response.Replied? && o.response.reply.status == 200 <==>
      && Present(ticketId) && !readFault && !updateFault && ticketId.value in docs
      && docs[ticketId.value].status == ACTIVE && docs[ticketId.value].entryTime.Timestamp?
    ensures o.response == Rejected <==>
      Present(ticketId) &&
      (readFault ||
       (ticketId.value in docs && docs[ticketId.value].status == ACTIVE &&
        (!docs[ticketId.value].entryTime.Timestamp? || updateFault)))
    ensures !(o.response.Replied? && o.response.reply.status == 200) ==> o.docs == docs
    ensures o.response.Replied? && o.response.reply.status == 200 ==>
      var id := ticketId.value;
      var t := docs[id];
      var diffMs := now - t.entryTime.millis;
      && o.docs.Keys == docs.Keys
      && (forall k :: k in docs && k != id ==> o.docs[k] == docs[k])
      && o.docs[id] == Ticket(t.plate, t.lotId, t.entryTime, PROCESSED, Some(stampNow),
                              Some(ProratedFee(diffMs)), Some(TotalMinutes(diffMs)))
      && o.response.reply.body == Receipt(t.plate, t.lotId, TotalMinutes(diffMs), ProratedFee(diffMs))
  {
    if !Present(ticketId) then
      Outcome(Replied(Reply(400, MissingTicketId)), docs)
    else if readFault then
      Outcome(Rejected, docs)
    else if ticketId.value !in docs then
      Outcome(Replied(Reply(404, TicketNotFound)), docs)
    else
      var id := ticketId.value;
      var t := docs[id];
      if t.status != ACTIVE then
        Outcome(Replied(Reply(400, AlreadyProcessed)), docs)
      else if !t.entryTime.Timestamp? || updateFault then
        Outcome(Rejected, docs)
      else
        var p := Settlement(t.entryTime.millis, now, stampNow);
        Outcome(Replied(Reply(200, Receipt(t.plate, t.lotId, p.totalMinutes, p.fee))),
                docs[id := Merge(t, p)])
  }

  /** The store calls `/exit` makes: none without an id, then a read, then an
      update only for an active ticket whose entry time is a Timestamp (for any
      other, `toMillis` throws before the update). */
  function ExitCalls(docs: map<string, Ticket>, ticketId: Option<string>, now: int, stampNow: int,
                     readFault: bool): seq<Call>
  {
    if !Present(ticketId) then []
    else
      var id := ticketId.value;
      if readFault || id !in docs || docs[id].status != ACTIVE || !docs[id].entryTime.Timestamp? then [GetCall(id)]
      else [GetCall(id), UpdateCall(id, Settlement(docs[id].entryTime.millis, now, stampNow))]
  }

  method Exit(db: Collection, ticketId: Option<string>, now: int, stampNow: int,
              readFault: bool, updateFault: bool)
    returns (response: Response)
    modifies db
    ensures Outcome(response, db.docs) == ExitOutcome(old(db.docs), ticketId, now, stampNow, readFault, updateFault)
    ensures db.log == old(db.log) + ExitCalls(old(db.docs), ticketId, now, stampNow, readFault)
  {
    if !Present(ticketId) {
      return Replied(Reply(400, MissingTicketId));
    }
    var id := ticketId.value;
    var doc := db.Get(id, readFault);
    if doc.Threw? {
      return Rejected;
    }
    if doc.value.None? {
      return Replied(Reply(404, TicketNotFound));
    }
    var ticketData := doc.value.value;
    if ticketData.status != ACTIVE {
      return Replied(Reply(400, AlreadyProcessed));
    }
    if !ticketData.entryTime.Timestamp? {
      return Rejected;
    }
    var entryMs := ticketData.entryTime.millis;
    var nowMs := now;

    var diffMs := nowMs - entryMs;
    var intervals := CeilDiv(diffMs, INTERVAL_MS);
    var fee := (intervals * HOURLY_RATE_CENTS) / 4;
    var totalMinutes := CeilDiv(diffMs, MINUTE_MS);

    var ok := db.Update(id, Patch(PROCESSED, stampNow, fee, totalMinutes), updateFault);
    if !ok {
      return Rejected;
    }
    response := Replied(Reply(200, Receipt(ticketData.plate, ticketData.lotId, totalMinutes, fee)));
  }

  /** After one successful exit, every further exit on the same id is refused
      with 400 (or rejected by a failing read) and changes nothing. */
  lemma SecondExitRejected(docs: map<string, Ticket>, id: string, now: int, stampNow: int,
                           now': int, stampNow': int, readFault': bool, updateFault': bool)
    requires ExitOutcome(docs, Some(id), now, stampNow, false, false).response.Replied?
    requires ExitOutcome(docs, Some(id), now, stampNow, false, false).response.reply.status == 200
    ensures var first := ExitOutcome(docs, Some(id), now, stampNow, false, false);
            var second := ExitOutcome(first.docs, Some(id), now', stampNow', readFault', updateFault');
      && second.docs == first.docs
      && second.response == (if readFault' then Rejected else Replied(Reply(400, AlreadyProcessed)))
  {
  }

  // ----------------------------------------------------------- the lifecycle

  /** One request to either stand-alone service; both share the collection. */
  datatype Request =
    | EntryRequest(plate: Option<string>, lotId: Option<string>, freshId: string, now: int, writeFault: bool)
    | ExitRequest(ticketId: Option<string>, now: int, stampNow: int, readFault: bool, updateFault: bool)

  function Step(docs: map<string, Ticket>, r: Request): map<string, Ticket>
  {
    match r
    case EntryRequest(plate, lotId, freshId, now, writeFault) =>
      EntryService.EntryOutcome(docs, plate, lotId, freshId, now, writeFault).docs
    case ExitRequest(ticketId, now, stampNow, readFault, updateFault) =>
      ExitOutcome(docs, ticketId, now, stampNow, readFault, updateFault).docs
  }

  /** The collection after serving the requests one after another. */
  function Run(docs: map<string, Ticket>, rs: seq<Request>): map<string, Ticket>
    decreases |rs|
  {
    if rs == [] then docs else Run(Step(docs, rs[0]), rs[1..])
  }

  /** No entry request in `rs` draws `id` as its fresh ticket id. */
  predicate NeverIssued(rs: seq<Request>, id: string)
  {
    forall i :: 0 <= i < |rs| ==> !(rs[i].EntryRequest? && rs[i].freshId == id)
  }

  lemma NeverIssuedTail(rs: seq<Request>, id: string)
    requires rs != [] && NeverIssued(rs, id)
    ensures NeverIssued(rs[1..], id)
  {
    forall i | 0 <= i < |rs[1..]|
      ensures !(rs[1..][i].EntryRequest? && rs[1..][i].freshId == id)
    {
      assert rs[1..][i] == rs[i + 1];
    }
  }

  /** Over any mix of entry and exit requests a ticket is never deleted and
      its plate, lot and entry time never change; a ticket that is not active
      never changes at all; and an active one can only be settled. */
  lemma {:induction false} TicketLifecycle(docs: map<string, Ticket>, rs: seq<Request>, id: string)
    requires id in docs && NeverIssued(rs, id)
    ensures id in Run(docs, rs)
    ensures var t, t' := docs[id], Run(docs, rs)[id];
      && t'.plate == t.plate && t'.lotId == t.lotId && t'.entryTime == t.entryTime
      && (t.status != ACTIVE ==> t' == t)
      && (t' != t ==> t.status == ACTIVE && t'.status == PROCESSED && t'.fee.Some? && t'.totalMinutes.Some?)
    decreases |rs|
  {
    if rs != [] {
      var next := Step(docs, rs[0]);
      assert id in next;
      assert next[id] != docs[id] ==> docs[id].status == ACTIVE && next[id].status == PROCESSED;
      NeverIssuedTail(rs, id);
      TicketLifecycle(next, rs[1..], id);
    }
  }

  lemma StepKeepsConsistent(docs: map<string, Ticket>, r: Request)
    requires AllConsistent(docs)
    ensures AllConsistent(Step(docs, r))
  {
    if r.ExitRequest? {
      var o := ExitOutcome(docs, r.ticketId, r.now, r.stampNow, r.readFault, r.updateFault);
      if o.response.Replied? && o.response.reply.status == 200 {
        var diffMs := r.now - docs[r.ticketId.value].entryTime.millis;
        assert ProratedFee(diffMs) == CeilDiv(TotalMinutes(diffMs), 15) * 250;
      }
    }
  }

  /** Every request keeps every ticket consistent: active tickets unsettled,
      processed ones settled with a fee that matches their minutes. */
  lemma {:induction false} RunKeepsConsistent(docs: map<string, Ticket>, rs: seq<Request>)
    requires AllConsistent(docs)
    ensures AllConsistent(Run(docs, rs))
    decreases |rs|
  {
    if rs != [] {
      StepKeepsConsistent(docs, rs[0]);
      RunKeepsConsistent(Step(docs, rs[0]), rs[1..]);
    }
  }
}
