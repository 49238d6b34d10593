/** The alert routes: listing one's own alerts, optionally filtered on the
    `resolved` flag, and resolving one of them. */
module AlertRoutes {
  import opened Wrappers
  import opened Vocabulary
  import opened AlertModel
  import opened Listing
  import opened Store

  const ListLimit: nat := 50

  /** The `resolved` query parameter: absent means no filter, `"true"`
      selects resolved alerts and any other text unresolved ones. */
  function ResolvedFilter(query: Option<string>): Option<bool>
  {
    if query.None? then None else Some(query.value == "true")
  }

  predicate Selected(a: Alert, userId: Id, filter: Option<bool>)
  {
    a.userId == userId && (filter.None? || a.resolved == filter.value)
  }

  lemma ResolvedFilterCases(s: string)
    ensures ResolvedFilter(None) == None
    ensures ResolvedFilter(Some("true")) == Some(true)
    ensures s != "true" ==> ResolvedFilter(Some(s)) == Some(false)
  {
  }

  /** The alerts of `userId` that pass the filter, newest first, at most 50. */
  method ListAlerts(db: Db, userId: Id, resolved: Option<string>) returns (ids: seq<Id>, docs: seq<Alert>)
    ensures var sel := set id | id in db.alerts && Selected(db.alerts[id], userId, ResolvedFilter(resolved));
      IsNewestFirst(Stamps(db.alerts, AlertStamp), sel, ListLimit, ids)
    ensures |docs| == |ids| && forall i :: 0 <= i < |ids| ==> ids[i] in db.alerts && docs[i] == db.alerts[ids[i]]
    ensures forall i :: 0 <= i < |docs| ==> docs[i].userId == userId
    ensures resolved.Some? ==> forall i :: 0 <= i < |docs| ==> docs[i].resolved == (resolved.value == "true")
  {
    var alerts := db.alerts;
    var filter := ResolvedFilter(resolved);
    var sel := set id | id in alerts && Selected(alerts[id], userId, filter);
    ids := NewestFirst(Stamps(alerts, AlertStamp), sel, ListLimit);
    docs := DocsOf(alerts, ids);
  }

  /** The stored alert after resolution with the given response. */
  function Resolved(a: Alert, response: Option<string>): Alert
  {
    a.(resolved := true, caregiverResponse := response, notifiedCaregiver := true)
  }

  /** The alert table after resolving `alertId` on behalf of `userId`; none
      when no alert with that identifier belongs to that user. */
  function ResolveIn(alerts: map<Id, Alert>, userId: Id, alertId: Id, response: Option<string>): (r: Option<map<Id, Alert>>)
    ensures r.Some? <==> alertId in alerts && alerts[alertId].userId == userId
    ensures r.Some? ==> r.value.Keys == alerts.Keys && r.value[alertId].resolved && r.value[alertId].userId == userId
  {
    if alertId in alerts && alerts[alertId].userId == userId
    then Some(alerts[alertId := Resolved(alerts[alertId], response)])
    else None
  }

  /** Only the owner can resolve; resolution sets the three fields, keeps
      every other field of the alert and every other alert. */
  lemma ResolveInSpec(alerts: map<Id, Alert>, userId: Id, alertId: Id, response: Option<string>)
    ensures ResolveIn(alerts, userId, alertId, response).Some? <==>
      alertId in alerts && alerts[alertId].userId == userId
    ensures ResolveIn(alerts, userId, alertId, response).Some? ==>
      var after := ResolveIn(alerts, userId, alertId, response).value;
      && after.Keys == alerts.Keys
      && (forall id :: id in alerts && id != alertId ==> after[id] == alerts[id])
      && after[alertId].resolved && after[alertId].notifiedCaregiver
      && after[alertId].caregiverResponse == response
      && after[alertId] == alerts[alertId].(resolved := true, notifiedCaregiver := true, caregiverResponse := response)
  {
  }

  /** Resolving twice with the same response is resolving once. */
  lemma ResolveIdempotent(alerts: map<Id, Alert>, userId: Id, alertId: Id, response: Option<string>)
    requires ResolveIn(alerts, userId, alertId, response).Some?
    ensures ResolveIn(ResolveIn(alerts, userId, alertId, response).value, userId, alertId, response) ==
      ResolveIn(alerts, userId, alertId, response)
  {
    var once := ResolveIn(alerts, userId, alertId, response).value;
    assert once[alertId := Resolved(once[alertId], response)] == once;
  }

  /** Resolves an alert of the signed-in user; `NotFound` leaves the store
      as it was. */
  method ResolveAlert(db: Db, userId: Id, alertId: Id, response: Option<string>) returns (res: Result<Alert, HttpError>)
    requires db.Valid()
    modifies db`alerts
    ensures db.Valid()
    ensures var r := ResolveIn(old(db.alerts), userId, alertId, response);
      && (r.None? ==> res == Failure(NotFound) && db.alerts == old(db.alerts))
      && (r.Some? ==> db.alerts == r.value && res == Success(db.alerts[alertId]))
  {
    if alertId in db.alerts && db.alerts[alertId].userId == userId {
      var updated := Resolved(db.alerts[alertId], response);
      db.alerts := db.alerts[alertId := updated];
      res := Success(updated);
    } else {
      res := Failure(NotFound);
    }
  }
}
