/** The caregiver routes: linking a caregiver to the signed-in user by
    email, and a caregiver's view of one of their patients. */
module CaregiverRoutes {
  import opened Wrappers
  import opened Vocabulary
  import opened EmotionRecordModel
  import opened AlertModel
  import opened UserModel
  import opened Listing
  import opened Store

  /** `$addToSet` on a list of references: appends `x` unless it is
      there, so the list afterwards holds `x` and keeps the old list as a
      prefix. */
  function AddToSet(s: seq<Id>, x: Id): (r: seq<Id>)
    ensures |r| == if x in s then |s| else |s| + 1
    ensures x in r && r[..|s|] == s
  {
    if x in s then s else s + [x]
  }

  /** The list afterwards holds what it held and `x`, each once if it held
      each once before, and adding again changes nothing. */
  lemma AddToSetSpec(s: seq<Id>, x: Id)
    ensures forall y :: y in AddToSet(s, x) <==> y in s || y == x
    ensures NoDuplicates(s) ==> NoDuplicates(AddToSet(s, x))
    ensures AddToSet(AddToSet(s, x), x) == AddToSet(s, x)
    ensures AddToSet(s, x)[..|s|] == s
  {
  }

  /** The user table after the two updates of the add handler, in their
      order: the requester (if found) gets the caregiver in `caregivers`,
      then the caregiver gets the requester in `patients`. */
  function Link(users: map<Id, User>, patient: Id, caregiver: Id): (after: map<Id, User>)
    requires caregiver in users
    ensures after.Keys == users.Keys
    ensures patient in after[caregiver].patients
    ensures patient in users ==> caregiver in after[patient].caregivers
  {
    var first := if patient in users
      then users[patient := users[patient].(caregivers := AddToSet(users[patient].caregivers, caregiver))]
      else users;
    first[caregiver := first[caregiver].(patients := AddToSet(first[caregiver].patients, patient))]
  }

  /** Both lists of every user are free of duplicates. */
  predicate LinksDistinct(users: map<Id, User>)
  {
    forall id :: id in users ==> NoDuplicates(users[id].caregivers) && NoDuplicates(users[id].patients)
  }

  /** The link is symmetric: the requester lists the caregiver and the
      caregiver lists the requester. */
  lemma LinkSymmetric(users: map<Id, User>, patient: Id, caregiver: Id)
    requires caregiver in users && patient in users
    ensures caregiver in Link(users, patient, caregiver)[patient].caregivers
    ensures patient in Link(users, patient, caregiver)[caregiver].patients
  {
    var first := users[patient := users[patient].(caregivers := AddToSet(users[patient].caregivers, caregiver))];
    AddToSetSpec(users[patient].caregivers, caregiver);
    AddToSetSpec(first[caregiver].patients, patient);
  }

  /** Only the two users are touched, only in their two lists, and every
      list only grows by the other party; emails stay as they were. */
  lemma LinkFrame(users: map<Id, User>, patient: Id, caregiver: Id)
    requires caregiver in users
    ensures var after := Link(users, patient, caregiver);
      && after.Keys == users.Keys
      && (forall id :: id in users && id != patient && id != caregiver ==> after[id] == users[id])
      && (forall id :: id in users ==>
            after[id] == users[id].(caregivers := after[id].caregivers, patients := after[id].patients))
      && (forall id, y :: id in users && y in after[id].caregivers ==>
            y in users[id].caregivers || (id == patient && y == caregiver))
      && (forall id, y :: id in users && y in after[id].patients ==>
            y in users[id].patients || (id == caregiver && y == patient))
      && (forall id :: id in users ==> after[id].email == users[id].email)
  {
    var after := Link(users, patient, caregiver);
    var first := if patient in users
      then users[patient := users[patient].(caregivers := AddToSet(users[patient].caregivers, caregiver))]
      else users;
    forall id, y | id in users && y in after[id].caregivers
      ensures y in users[id].caregivers || (id == patient && y == caregiver)
    {
      if id == patient {
        AddToSetSpec(users[patient].caregivers, caregiver);
      }
    }
    forall id, y | id in users && y in after[id].patients
      ensures y in users[id].patients || (id == caregiver && y == patient)
    {
      if id == caregiver {
        AddToSetSpec(first[caregiver].patients, patient);
      }
    }
  }

  /** `$addToSet` never creates a duplicate. */
  lemma LinkKeepsDistinct(users: map<Id, User>, patient: Id, caregiver: Id)
    requires caregiver in users && LinksDistinct(users)
    ensures LinksDistinct(Link(users, patient, caregiver))
  {
    var first := if patient in users
      then users[patient := users[patient].(caregivers := AddToSet(users[patient].caregivers, caregiver))]
      else users;
    if patient in users {
      AddToSetSpec(users[patient].caregivers, caregiver);
    }
    assert LinksDistinct(first);
    AddToSetSpec(first[caregiver].patients, patient);
  }

  /** Adding the same caregiver again leaves the users as they were. */
  lemma LinkIdempotent(users: map<Id, User>, patient: Id, caregiver: Id)
    requires caregiver in users
    ensures Link(Link(users, patient, caregiver), patient, caregiver) == Link(users, patient, caregiver)
  {
    var once := Link(users, patient, caregiver);
    var first := if patient in users
      then users[patient := users[patient].(caregivers := AddToSet(users[patient].caregivers, caregiver))]
      else users;
    if patient in users {
      AddToSetSpec(users[patient].caregivers, caregiver);
    }
    AddToSetSpec(first[caregiver].patients, patient);
    if patient in users {
      AddToSetSpec(once[patient].caregivers, caregiver);
      assert once[patient].caregivers == AddToSet(once[patient].caregivers, caregiver);
    }
    var first2 := if patient in once
      then once[patient := once[patient].(caregivers := AddToSet(once[patient].caregivers, caregiver))]
      else once;
    assert first2 == once;
    assert first2[caregiver].patients == AddToSet(first2[caregiver].patients, patient);
  }

  /** A linked users table keeps emails and identifiers, so the store's
      invariant survives the two updates. */
  lemma LinkKeepsValid(users: map<Id, User>, patient: Id, caregiver: Id)
    requires caregiver in users && UniqueEmails(users)
    ensures Link(users, patient, caregiver).Keys == users.Keys
    ensures UniqueEmails(Link(users, patient, caregiver))
  {
    LinkFrame(users, patient, caregiver);
  }

  /** The `caregiver` part of the answer. */
  datatype CaregiverView = CaregiverView(id: Id, name: string, email: string)

  /** Links the user with email `email` as a caregiver of `requester`; an
      unknown email is `NotFound` and changes nothing. */
  method AddCaregiver(db: Db, requester: Id, email: string) returns (res: Result<CaregiverView, HttpError>)
    requires db.Valid()
    modifies db`users
    ensures db.Valid()
    ensures res.Failure? <==> forall id :: id in old(db.users) ==> old(db.users)[id].email != email
    ensures res.Failure? ==> res.error == NotFound && db.users == old(db.users)
    ensures res.Success? ==>
      var c := res.value.id;
      && c in old(db.users) && old(db.users)[c].email == email
      && (forall id :: id in old(db.users) && old(db.users)[id].email == email ==> id == c)
      && res.value == CaregiverView(c, old(db.users)[c].name, email)
      && db.users == Link(old(db.users), requester, c)
  {
    if forall id :: id in db.users ==> db.users[id].email != email {
      return Failure(NotFound);
    }
    var c :| c in db.users && db.users[c].email == email;
    LinkKeepsValid(db.users, requester, c);
    var name := db.users[c].name;
    db.users := Link(db.users, requester, c);
    res := Success(CaregiverView(c, name, email));
  }

  /** The answer of the patient view. */
  datatype PatientView = PatientView(
    patient: Option<Profile>,
    recentEmotionIds: seq<Id>,
    recentEmotions: seq<EmotionRecord>,
    activeAlertIds: seq<Id>,
    activeAlerts: seq<Alert>)

  const RecentLimit: nat := 20

  /** The unresolved alerts of the patient. */
  function ActiveAlerts(alerts: map<Id, Alert>, patientId: Id): set<Id>
  {
    set id | id in alerts && alerts[id].userId == patientId && !alerts[id].resolved
  }

  /** May `requester` see `patientId`: only when the requester exists and
      lists `patientId` among their patients. */
  function Access(users: map<Id, User>, requester: Id, patientId: Id): Result<(), HttpError>
  {
    if requester !in users then Failure(ServerError)
    else if patientId !in users[requester].patients then Failure(Forbidden)
    else Success(())
  }

  /** A caregiver's view of one patient: the profile (none if the patient
      is gone), the 20 newest emotion records and every unresolved alert,
      newest first. A missing requester is a server error, a patient the
      requester does not list is forbidden. */
  method ViewPatient(db: Db, requester: Id, patientId: Id) returns (res: Result<PatientView, HttpError>)
    ensures Access(db.users, requester, patientId).Failure? ==>
      res == Failure(Access(db.users, requester, patientId).error)
    ensures Access(db.users, requester, patientId).Success? ==> res.Success?
    ensures res.Success? ==>
      var v := res.value;
      var emotionSel := RecordsOf(db.records, patientId);
      var alertSel := ActiveAlerts(db.alerts, patientId);
      && patientId in db.users[requester].patients
      && v.patient == (if patientId in db.users then Some(ProfileOf(db.users[patientId])) else None)
      && IsNewestFirst(Stamps(db.records, RecordStamp), emotionSel, RecentLimit, v.recentEmotionIds)
      && |v.recentEmotions| == |v.recentEmotionIds|
      && (forall i :: 0 <= i < |v.recentEmotionIds| ==> v.recentEmotions[i] == db.records[v.recentEmotionIds[i]])
      && IsNewestFirst(Stamps(db.alerts, AlertStamp), alertSel, |alertSel|, v.activeAlertIds)
      && |v.activeAlerts| == |v.activeAlertIds|
      && (forall i :: 0 <= i < |v.activeAlertIds| ==> v.activeAlerts[i] == db.alerts[v.activeAlertIds[i]])
  {
    var access := Access(db.users, requester, patientId);
    if access.Failure? {
      return Failure(access.error);
    }
    var users, records, alerts := db.users, db.records, db.alerts;
    var patient := if patientId in users then Some(ProfileOf(users[patientId])) else None;
    var emotionSel := RecordsOf(records, patientId);
    var emotionIds := NewestFirst(Stamps(records, RecordStamp), emotionSel, RecentLimit);
    var emotions := DocsOf(records, emotionIds);
    var alertSel := ActiveAlerts(alerts, patientId);
    var alertIds := NewestFirst(Stamps(alerts, AlertStamp), alertSel, |alertSel|);
    var activeAlerts := DocsOf(alerts, alertIds);
    res := Success(PatientView(patient, emotionIds, emotions, alertIds, activeAlerts));
  }

  /** The view shows at most 20 records, all of the patient, and only the
      patient's unresolved alerts, all of them. */
  lemma PatientViewBounds(records: map<Id, EmotionRecord>, alerts: map<Id, Alert>, patientId: Id,
                          emotionIds: seq<Id>, alertIds: seq<Id>)
    requires IsNewestFirst(Stamps(records, RecordStamp), RecordsOf(records, patientId), RecentLimit, emotionIds)
    requires IsNewestFirst(Stamps(alerts, AlertStamp), ActiveAlerts(alerts, patientId),
                           |ActiveAlerts(alerts, patientId)|, alertIds)
    ensures |emotionIds| <= 20
    ensures forall i :: 0 <= i < |emotionIds| ==> emotionIds[i] in records && records[emotionIds[i]].userId == patientId
    ensures forall i :: 0 <= i < |alertIds| ==>
      alertIds[i] in alerts && alerts[alertIds[i]].userId == patientId && !alerts[alertIds[i]].resolved
    ensures forall id :: id in alerts && alerts[id].userId == patientId && !alerts[id].resolved ==> id in alertIds
  {
    var alertSel := ActiveAlerts(alerts, patientId);
    forall id | id in alertSel
      ensures id in alertIds
    {
      DistinctCardinality(alertIds);
      assert Elements(alertIds) <= alertSel;
      SubsetOfSameSize(Elements(alertIds), alertSel);
    }
  }
}
