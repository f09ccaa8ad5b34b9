/** The Lambda entry handler: validates the query, stores a new entry record,
    and maps any storage exception to 500. */
module LambdaEntry {
  import opened Http
  import opened Storage

  datatype Body = MissingParameter | Issued(ticketId: string) | InternalError

  datatype Outcome = Outcome(reply: Reply<Body>, items: map<string, EntryRecord>)

  /** The handler as a function of the table before the request; `freshId` and
      `now` are the uuid and clock read `storeEntry` makes. A missing parameter
      is a 400 and a storage exception a 500, neither changing the table; a
      success stores the plate and lot unchanged under the id the body
      carries, and keeps every other record. */
  function EntryOutcome(items: map<string, EntryRecord>, plate: Option<string>, parkingLot: Option<string>,
                        freshId: string, now: int, fault: bool): (o: Outcome)
    ensures o.reply.status == 400 <==> !Present(plate) || !Present(parkingLot)
    ensures o.reply.status == 500 <==> Present(plate) && Present(parkingLot) && fault
    ensures o.reply.status == 200 <==> Present(plate) && Present(parkingLot) && !fault
    ensures o.reply.status != 200 ==> o.items == items
    ensures o.reply.status == 200 ==>
      && o.reply.body == Issued(freshId)
      && o.items.Keys == items.Keys + {freshId}
      && o.items[freshId] == EntryRecord(freshId, plate.value, parkingLot.value, now, None, None)
      && (forall k :: k in items && k != freshId ==> o.items[k] == items[k])
  {
    if !Present(plate) || !Present(parkingLot) then
      Outcome(Reply(400, MissingParameter), items)
    else if fault then
      Outcome(Reply(500, InternalError), items)
    else
      Outcome(Reply(200, Issued(freshId)), items[freshId := NewEntry(freshId, plate.value, parkingLot.value, now)])
  }

  method Handler(table: Table, plate: Option<string>, parkingLot: Option<string>,
                 freshId: string, now: int, fault: bool)
    returns (reply: Reply<Body>)
    modifies table
    ensures Outcome(reply, table.items) == EntryOutcome(old(table.items), plate, parkingLot, freshId, now, fault)
    ensures !Present(plate) || !Present(parkingLot) ==> table.log == old(table.log)
    ensures Present(plate) && Present(parkingLot) ==>
      table.log == old(table.log) + [PutCall(NewEntry(freshId, plate.value, parkingLot.value, now))]
  {
    if !Present(plate) || !Present(parkingLot) {
      return Reply(400, MissingParameter);
    }
    var ticketId := table.StoreEntry(plate.value, parkingLot.value, freshId, now, fault);
    if ticketId.Threw? {
      return Reply(500, InternalError);
    }
    reply := Reply(200, Issued(ticketId.value));
  }
}
