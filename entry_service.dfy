/** The stand-alone Firestore entry service. It has no error handling of its
    own: a failing write rejects the handler's promise and no reply is sent. */
module EntryService {
  import opened Http
  import opened Firestore

  datatype Body = MissingPlateOrLot | Issued(ticketId: string)

  /** A reply, or a rejected handler promise (nothing catches it). */
  datatype Response = Replied(reply: Reply<Body>) | Rejected

  datatype Outcome = Outcome(response: Response, docs: map<string, Ticket>)

  /** The `/entry` handler as a function of the collection before the request;
      `now` is the `Timestamp.now()` read stored as the entry time. A missing or
      empty parameter is a 400 and writes nothing; a success writes an active
      ticket exactly under the id it returns, and keeps every other document. */
  function EntryOutcome(docs: map<string, Ticket>, plate: Option<string>, lotId: Option<string>,
                        freshId: string, now: int, writeFault: bool): (o: Outcome)
    ensures o.response == Replied(Reply(400, MissingPlateOrLot)) <==> !Present(plate) || !Present(lotId)
    ensures o.response.Replied? && o.response.reply.status == 200 <==> Present(plate) && Present(lotId) && !writeFault
    ensures o.response == Rejected <==> Present(plate) && Present(lotId) && writeFault
    ensures o.response != Replied(Reply(200, Issued(freshId))) ==> o.docs == docs
    ensures o.response.Replied? && o.response.reply.status == 200 ==>
      && o.response.reply.body == Issued(freshId)
      && o.docs.Keys == docs.Keys + {freshId}
      && o.docs[freshId] == Ticket(plate.value, lotId.value, Timestamp(now), ACTIVE, None, None, None)
      && (forall k :: k in docs && k != freshId ==> o.docs[k] == docs[k])
  {
    if !Present(plate) || !Present(lotId) then
      Outcome(Replied(Reply(400, MissingPlateOrLot)), docs)
    else if writeFault then
      Outcome(Rejected, docs)
    else
      Outcome(Replied(Reply(200, Issued(freshId))),
              docs[freshId := NewTicket(plate.value, lotId.value, Timestamp(now))])
  }

  method Entry(db: Collection, plate: Option<string>, lotId: Option<string>,
               freshId: string, now: int, writeFault: bool)
    returns (response: Response)
    modifies db
    ensures Outcome(response, db.docs) == EntryOutcome(old(db.docs), plate, lotId, freshId, now, writeFault)
    ensures !Present(plate) || !Present(lotId) ==> db.log == old(db.log)
    ensures Present(plate) && Present(lotId) ==>
      db.log == old(db.log) + [SetCall(freshId, NewTicket(plate.value, lotId.value, Timestamp(now)))]
  {
    if !Present(plate) || !Present(lotId) {
      return Replied(Reply(400, MissingPlateOrLot));
    }
    var ticketId := freshId;
    var entryTime := Timestamp(now);
    var ok := db.Set(ticketId, NewTicket(plate.value, lotId.value, entryTime), writeFault);
    if !ok {
      return Rejected;
    }
    response := Replied(Reply(200, Issued(ticketId)));
  }

  /** Two entries for the same plate under distinct fresh ids leave two
      distinct active tickets, the first unaffected by the second. */
  lemma RepeatedEntries(docs: map<string, Ticket>, plate: string, lotId: string,
                        id1: string, now1: int, id2: string, now2: int)
    requires plate != "" && lotId != "" && id1 != id2
    ensures var first := EntryOutcome(docs, Some(plate), Some(lotId), id1, now1, false);
            var second := EntryOutcome(first.docs, Some(plate), Some(lotId), id2, now2, false);
      && second.response == Replied(Reply(200, Issued(id2)))
      && id1 in second.docs && id2 in second.docs
      && second.docs[id1] == NewTicket(plate, lotId, Timestamp(now1))
      && second.docs[id2] == NewTicket(plate, lotId, Timestamp(now2))
  {
  }
}
