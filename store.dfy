/** The document store the handlers share: one table per collection, keyed
    by identifier. New identifiers come from a counter, standing for the
    store's own identifier generation. */
module Store {
  import opened Vocabulary
  import opened EmotionRecordModel
  import opened AlertModel
  import opened UserModel

  /** The error answers of the handlers: 404, 403 and 500. */
  datatype HttpError = NotFound | Forbidden | ServerError

  class Db {
    var users: map<Id, User>
    var records: map<Id, EmotionRecord>
    var alerts: map<Id, Alert>
    var nextId: nat

    /** Identifiers in use are below the counter, emails are unique and
        every stored emotion record passed validation. */
    ghost predicate Valid()
      reads this
    {
      && (forall id :: id in users ==> id < nextId)
      && (forall id :: id in records ==> id < nextId)
      && (forall id :: id in alerts ==> id < nextId)
      && UniqueEmails(users)
      && (forall id :: id in records ==> ValidRecord(records[id]))
    }

    constructor ()
      ensures Valid()
      ensures users == map[] && records == map[] && alerts == map[] && nextId == 0
    {
      users, records, alerts, nextId := map[], map[], map[], 0;
    }

    /** A new identifier, used by no document. */
    method FreshId() returns (id: Id)
      requires Valid()
      modifies this`nextId
      ensures Valid()
      ensures id == old(nextId) && nextId == id + 1
      ensures id !in users && id !in records && id !in alerts
    {
      id := nextId;
      nextId := nextId + 1;
    }

    /** Saves a validated emotion record under an identifier handed out
        earlier. */
    method SaveRecord(id: Id, r: EmotionRecord)
      requires Valid() && id < nextId && ValidRecord(r)
      modifies this`records
      ensures Valid()
      ensures records == old(records)[id := r]
    {
      records := records[id := r];
    }

    /** Stores an alert under an identifier handed out earlier. */
    method CreateAlert(id: Id, a: Alert)
      requires Valid() && id < nextId && id !in alerts
      modifies this`alerts
      ensures Valid()
      ensures alerts == old(alerts)[id := a]
    {
      alerts := alerts[id := a];
    }
  }
  /** The timestamps of the documents of one collection, the sort key of
      every listing of them; `stamp` reads a document's timestamp. */
  function Stamps<T>(docs: map<Id, T>, stamp: T -> int): (m: map<Id, int>)
    ensures m.Keys == docs.Keys
    ensures forall id :: id in docs ==> m[id] == stamp(docs[id])
  {
    map id | id in docs :: stamp(docs[id])
  }

  function RecordStamp(r: EmotionRecord): int
  {
    r.timestamp
  }

  function AlertStamp(a: Alert): int
  {
    a.timestamp
  }

  /** The documents stored under the listed identifiers, in list order. */
  function DocsOf<T>(docs: map<Id, T>, ids: seq<Id>): (d: seq<T>)
    requires forall i :: 0 <= i < |ids| ==> ids[i] in docs
    ensures |d| == |ids| && forall i :: 0 <= i < |ids| ==> d[i] == docs[ids[i]]
  {
    seq(|ids|, i requires 0 <= i < |ids| => docs[ids[i]])
  }

  /** The emotion records of one user. */
  function RecordsOf(records: map<Id, EmotionRecord>, userId: Id): set<Id>
  {
    set id | id in records && records[id].userId == userId
  }
}
