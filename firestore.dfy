/** The `tickets` collection both Firestore variants use: documents keyed by
    ticket id, written whole by `set`, read by `get`, and partially
    overwritten by `update`. */
module Firestore {
  import opened Http
  import opened Ceiling

  /** The `entryTime` field as an exit handler reads it back. */
  datatype Stamp =
    | Timestamp(millis: int)     // a Firestore Timestamp; it has toMillis()
    | RawSeconds(seconds: int)   // a plain map carrying `_seconds`
    | NoStamp                    // absent, null, or any other value

  const ACTIVE := "active"
  const PROCESSED := "processed"

  /** A ticket document. `status` is free text: the handlers only compare it
      with "active". The settlement fields are absent until an exit. */
  datatype Ticket = Ticket(
    plate: string,
    lotId: string,
    entryTime: Stamp,
    status: string,
    exitTime: Option<int>,
    fee: Option<int>,
    totalMinutes: Option<int>)

  /** The document an entry handler writes. */
  function NewTicket(plate: string, lotId: string, entryTime: Stamp): Ticket
  {
    Ticket(plate, lotId, entryTime, ACTIVE, None, None, None)
  }

  /** The fields an exit handler's `update` call writes. */
  datatype Patch = Patch(status: string, exitTime: int, fee: int, totalMinutes: int)

  /** `update` overwrites the patched fields and keeps every other one. */
  function Merge(t: Ticket, p: Patch): Ticket
  {
    t.(status := p.status, exitTime := Some(p.exitTime), fee := Some(p.fee),
      totalMinutes := Some(p.totalMinutes))
  }

  /** The shape the handlers keep every ticket in: an active ticket carries
      no settlement, and a processed one carries all three settlement fields,
      its fee one quarter ($2.50) per started 15 of its minutes. */
  predicate Consistent(t: Ticket)
  {
    && (t.status == ACTIVE ==> t.exitTime.None? && t.fee.None? && t.totalMinutes.None?)
    && (t.status == PROCESSED ==>
          && t.exitTime.Some? && t.fee.Some? && t.totalMinutes.Some?
          && t.fee.value == CeilDiv(t.totalMinutes.value, 15) * 250)
  }

  predicate AllConsistent(docs: map<string, Ticket>)
  {
    forall id :: id in docs ==> Consistent(docs[id])
  }

  /** One call made on the collection, whether or not it succeeded. */
  datatype Call = SetCall(id: string, doc: Ticket) | GetCall(id: string) | UpdateCall(id: string, patch: Patch)

  class Collection {
    var docs: map<string, Ticket>
    /** Every call made on the collection, oldest first. */
    ghost var log: seq<Call>

    constructor (initial: map<string, Ticket>)
      ensures docs == initial && log == []
    {
      docs := initial;
      log := [];
    }

    /** `doc(id).set(doc)`: writes the whole document, replacing any old one.
        When the call throws (`fault`) nothing is written. */
    method Set(id: string, doc: Ticket, fault: bool) returns (ok: bool)
      modifies this
      ensures ok == !fault
      ensures docs == if ok then old(docs)[id := doc] else old(docs)
      ensures log == old(log) + [SetCall(id, doc)]
    {
      log := log + [SetCall(id, doc)];
      ok := !fault;
      if ok {
        docs := docs[id := doc];
      }
    }

    /** `doc(id).get()`: the document, or none when it does not exist. */
    method Get(id: string, fault: bool) returns (r: Attempt<Option<Ticket>>)
      modifies this`log
      ensures r == if fault then Threw else if id in docs then Done(Some(docs[id])) else Done(None)
      ensures log == old(log) + [GetCall(id)]
    {
      log := log + [GetCall(id)];
      if fault {
        r := Threw;
      } else if id in docs {
        r := Done(Some(docs[id]));
      } else {
        r := Done(None);
      }
    }

    /** `doc(id).update(patch)`: merges the patch into an existing document;
        it throws, writing nothing, when the document does not exist. */
    method Update(id: string, patch: Patch, fault: bool) returns (ok: bool)
      modifies this
      ensures ok == (!fault && id in old(docs))
      ensures docs == if ok then old(docs)[id := Merge(old(docs)[id], patch)] else old(docs)
      ensures log == old(log) + [UpdateCall(id, patch)]
    {
      log := log + [UpdateCall(id, patch)];
      ok := !fault && id in docs;
      if ok {
        docs := docs[id := Merge(docs[id], patch)];
      }
    }
  }
}
