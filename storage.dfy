/** The Lambda variant's DynamoDB table: entry records keyed by ticket id,
    with no status field. A record gains an exit time and a fee when it is
    finalised, and finalising again overwrites both. Fees are integer cents. */
module Storage {
  import opened Http

  datatype EntryRecord = EntryRecord(
    ticketId: string,
    plate: string,
    parkingLot: string,
    entryTime: int,
    exitTime: Option<int>,
    fee: Option<int>)

  /** The record `storeEntry` puts: no exit time and no fee yet. */
  function NewEntry(ticketId: string, plate: string, parkingLot: string, now: int): EntryRecord
  {
    EntryRecord(ticketId, plate, parkingLot, now, None, None)
  }

  /** `SET exitTime = :exit, fee = :fee` on an existing record. */
  function Finalized(r: EntryRecord, exitTime: int, fee: int): EntryRecord
  {
    r.(exitTime := Some(exitTime), fee := Some(fee))
  }

  /** One call made on the table, whether or not it succeeded. */
  datatype Call = PutCall(item: EntryRecord) | GetCall(ticketId: string) | UpdateCall(ticketId: string, exitTime: int, fee: int)

  class Table {
    var items: map<string, EntryRecord>
    /** Every call made on the table, oldest first. */
    ghost var log: seq<Call>

    constructor (initial: map<string, EntryRecord>)
      ensures items == initial && log == []
    {
      items := initial;
      log := [];
    }

    /** `storeEntry(plate, parkingLot)`: `freshId` is the generated uuid and
        `now` the clock read; a put replaces any record under the same key.
        When the put throws (`fault`) nothing is written. */
    method StoreEntry(plate: string, parkingLot: string, freshId: string, now: int, fault: bool)
      returns (r: Attempt<string>)
      modifies this
      ensures r == if fault then Threw else Done(freshId)
      ensures items == if fault then old(items) else old(items)[freshId := NewEntry(freshId, plate, parkingLot, now)]
      ensures log == old(log) + [PutCall(NewEntry(freshId, plate, parkingLot, now))]
    {
      var ticketId := freshId;
      var record := NewEntry(ticketId, plate, parkingLot, now);
      log := log + [PutCall(record)];
      if fault {
        return Threw;
      }
      items := items[record.ticketId := record];
      r := Done(ticketId);
    }

    /** `getEntry(ticketId)`: the record, or null when there is none. */
    method GetEntry(ticketId: string, fault: bool) returns (r: Attempt<Option<EntryRecord>>)
      modifies this`log
      ensures r == if fault then Threw else if ticketId in items then Done(Some(items[ticketId])) else Done(None)
      ensures log == old(log) + [GetCall(ticketId)]
    {
      log := log + [GetCall(ticketId)];
      if fault {
        r := Threw;
      } else if ticketId in items {
        r := Done(Some(items[ticketId]));
      } else {
        r := Done(None);
      }
    }

    /** `finalizeEntry(ticketId, exitTime, fee)`: sets the exit time and the fee
        of an existing record and nothing else. */
    method FinalizeEntry(ticketId: string, exitTime: int, fee: int, fault: bool) returns (ok: bool)
      requires ticketId in items
      modifies this
      ensures ok == !fault
      ensures items == if ok then old(items)[ticketId := Finalized(old(items)[ticketId], exitTime, fee)] else old(items)
      ensures log == old(log) + [UpdateCall(ticketId, exitTime, fee)]
    {
      log := log + [UpdateCall(ticketId, exitTime, fee)];
      ok := !fault;
      if ok {
        items := items[ticketId := Finalized(items[ticketId], exitTime, fee)];
      }
    }
  }

  /** Round trip: reading back the id `storeEntry` returns gives the record it
      stored, with the plate, lot and entry time it was given. */
  method StoreThenGet(table: Table, plate: string, parkingLot: string, freshId: string, now: int)
    returns (id: Attempt<string>, r: Attempt<Option<EntryRecord>>)
    modifies table
    ensures id == Done(freshId)
    ensures r == Done(Some(EntryRecord(freshId, plate, parkingLot, now, None, None)))
  {
    id := table.StoreEntry(plate, parkingLot, freshId, now, false);
    r := table.GetEntry(id.value, false);
  }

  /** Finalising touches only the exit time and fee of one record: the id,
      plate, lot and entry time stay, and so does every other record. */
  lemma FinalizeKeepsTheRest(items: map<string, EntryRecord>, ticketId: string, exitTime: int, fee: int)
    requires ticketId in items
    ensures var after := items[ticketId := Finalized(items[ticketId], exitTime, fee)];
            var r, r' := items[ticketId], after[ticketId];
      && after.Keys == items.Keys
      && (forall k :: k in items && k != ticketId ==> after[k] == items[k])
      && r'.ticketId == r.ticketId && r'.plate == r.plate && r'.parkingLot == r.parkingLot
      && r'.entryTime == r.entryTime
      && r'.exitTime == Some(exitTime) && r'.fee == Some(fee)
  {
  }
}
