/** The emotion routes: the submission handler, which builds the record,
    runs the care-mode decision chain, raises the crisis alert, stores the
    record and answers with the intervention; the history listing; and the
    analytics answer. */
module EmotionRoutes {
  import opened Wrappers
  import opened Vocabulary
  import opened EmotionRecordModel
  import opened AlertModel
  import opened UserModel
  import opened Policy
  import opened Store
  import opened Listing
  import opened Analytics

  /** The `intervention` part of the answer. The record's music-therapy
      subdocument is always there; an absent ambient setting is left out of
      the answer. */
  datatype InterventionView = InterventionView(
    kind: string,
    musicTherapy: MusicTherapy,
    ambientSettings: Option<Ambience>)

  datatype Created = Created(recordId: Id, record: EmotionRecord, intervention: Option<InterventionView>)

  function KindName(k: Option<InterventionType>): Option<string>
  {
    if k.Some? then Some(InterventionName(k.value)) else None
  }

  /** The record as the handler leaves it before saving: the submission's
      fields, flagged exactly when the score is below the care mode's
      threshold, with the track, if any, not yet played. */
  function DecidedRecord(userId: Id, mode: CareMode, body: Submission, now: int): (r: EmotionRecord)
    ensures r.userId == userId && r.emotion == body.emotion && r.score == body.score && r.timestamp == now
    ensures r.interventionTriggered <==> body.score < Threshold(mode)
    ensures !r.musicTherapy.played
  {
    var o := Evaluate(mode, body.score, body.emotion);
    NewRecord(userId, body, now).(
      interventionTriggered := o != NoIntervention,
      interventionType := KindName(Kind(o)),
      musicTherapy := if o.PlayMusic? then MusicTherapy(Some(o.track.genre), Some(o.track.track), false)
                      else UnplayedMusic,
      ambientSettings := if o.PlayMusic? then Some(o.ambience) else None)
  }

  /** The answer's `intervention`, read off the record: null unless one was
      triggered. */
  function InterventionOf(r: EmotionRecord): Option<InterventionView>
  {
    if r.interventionTriggered && r.interventionType.Some? then
      Some(InterventionView(r.interventionType.value, r.musicTherapy, r.ambientSettings))
    else None
  }

  /** The record's intervention fields and the answer agree with the
      decision: the answer is null exactly when nothing was triggered and
      otherwise names the mode's kind and carries the record's music and
      ambient fields. In the normal branch these hold an unplayed track and
      an ambient setting from the tables; in the other branches the music
      field is the schema's bare `{played: false}` and there is no ambient
      setting. */
  lemma DecidedRecordSpec(userId: Id, mode: CareMode, body: Submission, now: int)
    ensures var r := DecidedRecord(userId, mode, body, now);
      && (r.interventionTriggered <==> body.score < Threshold(mode))
      && (InterventionOf(r).None? <==> Kind(Evaluate(mode, body.score, body.emotion)).None?)
      && (InterventionOf(r).Some? ==>
            && InterventionOf(r).value.kind == InterventionName(KindFor(mode))
            && InterventionOf(r).value.musicTherapy == r.musicTherapy
            && InterventionOf(r).value.ambientSettings == r.ambientSettings)
      && (mode == Normal && body.score < 60 ==>
            && r.musicTherapy == MusicTherapy(Some(MusicFor(body.emotion).genre), Some(MusicFor(body.emotion).track), false)
            && r.ambientSettings == Some(AmbientFor(body.emotion)))
      && (!(mode == Normal && body.score < 60) ==>
            r.musicTherapy == MusicTherapy(None, None, false) && r.ambientSettings.None?)
      && r.emotion == body.emotion && r.score == body.score && r.userId == userId
  {
    KindIsThreshold(mode, body.score, body.emotion);
  }

  /** The decision chain of the handler: it sets the intervention fields
      of `record` (and the payloads in the normal branch) and, in the
      clinical branch, stores the crisis alert that refers to `recordId`. */
  method ApplyCarePolicy(db: Db, userId: Id, mode: CareMode, recordId: Id, body: Submission, now: int)
    returns (record: EmotionRecord)
    requires db.Valid() && recordId < db.nextId
    modifies db`alerts, db`nextId
    ensures db.Valid() && recordId < db.nextId
    ensures record == DecidedRecord(userId, mode, body, now)
    ensures mode == Clinical && body.score < 50 ==>
      old(db.nextId) !in old(db.alerts)
      && db.alerts == old(db.alerts)[old(db.nextId) := CrisisAlertFor(userId, recordId, body.score, body.emotion, now)]
    ensures !(mode == Clinical && body.score < 50) ==> db.alerts == old(db.alerts)
  {
    record := NewRecord(userId, body, now);
    var interventionTriggered := false;
    var interventionType: Option<string> := None;

    if mode == Normal && body.score < 60 {
      interventionTriggered := true;
      interventionType := Some("music_therapy");
      var track := MusicFor(body.emotion);
      record := record.(musicTherapy := MusicTherapy(Some(track.genre), Some(track.track), false),
                        ambientSettings := Some(AmbientFor(body.emotion)));
    } else if mode == Moderate && body.score < 55 {
      interventionTriggered := true;
      interventionType := Some("guided_exercise");
    } else if mode == Clinical && body.score < 50 {
      interventionTriggered := true;
      interventionType := Some("crisis_alert");
      var alertId := db.FreshId();
      db.CreateAlert(alertId, CrisisAlertFor(userId, recordId, body.score, body.emotion, now));
    }

    record := record.(interventionTriggered := interventionTriggered, interventionType := interventionType);
  }

  /** Records a submission for the signed-in user `userId` at time `now`.
      A missing user makes the handler fail before anything is stored. The
      crisis alert is stored before the record is validated, so a record
      that fails validation can leave its alert behind. */
  method CreateEmotionRecord(db: Db, userId: Id, body: Submission, now: int) returns (res: Result<Created, HttpError>)
    requires db.Valid()
    modifies db
    ensures db.Valid()
    ensures db.users == old(db.users)
    ensures userId !in old(db.users) ==>
      res == Failure(ServerError) && db.records == old(db.records) && db.alerts == old(db.alerts)
    ensures userId in old(db.users) ==>
      var mode := old(db.users)[userId].careMode;
      var recordId := old(db.nextId);
      var record := DecidedRecord(userId, mode, body, now);
      && (mode == Clinical && body.score < 50 ==>
            recordId + 1 !in old(db.alerts)
            && db.alerts == old(db.alerts)[recordId + 1 := CrisisAlertFor(userId, recordId, body.score, body.emotion, now)])
      && (!(mode == Clinical && body.score < 50) ==> db.alerts == old(db.alerts))
      && (ValidRecord(record) ==>
            db.records == old(db.records)[recordId := record]
            && res == Success(Created(recordId, record, InterventionOf(record))))
      && (!ValidRecord(record) ==> db.records == old(db.records) && res == Failure(ServerError))
  {
    if userId !in db.users {
      return Failure(ServerError);
    }
    var user := db.users[userId];
    var recordId := db.FreshId();
    var record := ApplyCarePolicy(db, userId, user.careMode, recordId, body, now);
    if !ValidRecord(record) {
      return Failure(ServerError);
    }
    db.SaveRecord(recordId, record);
    res := Success(Created(recordId, record, InterventionOf(record)));
  }

  /** The default size of a history page. */
  const HistoryLimit: nat := 50

  /** How many records a history page may hold: the `limit` query, 50 when
      it is absent. The store reads a limit of 0 as no limit, and a
      negative limit as its absolute value. */
  function PageSize(limit: Option<int>, available: nat): nat
  {
    if limit.None? then HistoryLimit
    else if limit.value == 0 then available
    else if limit.value < 0 then -limit.value
    else limit.value
  }

  /** The signed-in user's emotion history: their records, newest first,
      as many as the page size allows. */
  method ListEmotions(db: Db, userId: Id, limit: Option<int>) returns (ids: seq<Id>, docs: seq<EmotionRecord>)
    ensures var sel := RecordsOf(db.records, userId);
      IsNewestFirst(Stamps(db.records, RecordStamp), sel, PageSize(limit, |sel|), ids)
    ensures limit.None? ==> |ids| == Min(50, |RecordsOf(db.records, userId)|)
    ensures limit == Some(0) ==> |ids| == |RecordsOf(db.records, userId)|
    ensures limit.Some? && limit.value < 0 ==> |ids| == Min(-limit.value, |RecordsOf(db.records, userId)|)
    ensures |docs| == |ids| && forall i :: 0 <= i < |ids| ==> ids[i] in db.records && docs[i] == db.records[ids[i]]
    ensures forall i :: 0 <= i < |docs| ==> docs[i].userId == userId
  {
    var records := db.records;
    var sel := RecordsOf(records, userId);
    ids := NewestFirst(Stamps(records, RecordStamp), sel, PageSize(limit, |sel|));
    docs := DocsOf(records, ids);
  }

  /** The `period` the analytics answer echoes when the query names none. */
  const DefaultPeriod: string := "7"

  /** The analytics answer for the signed-in user. `period` is the query
      parameter and `start` the moment that many days before now. The
      user's records stamped from `start` on are read in ascending
      identifier (insertion) order, which the model fixes, and folded; over the store the answer counts each of them once, its
      distribution adds up to that count, and its average is a score. */
  method GetAnalytics(db: Db, userId: Id, period: Option<string>, start: int) returns (report: Report)
    requires db.Valid()
    ensures report == AnalyticsOf(if period.Some? then period.value else DefaultPeriod,
                                  DocsOf(db.records, Window(db.records, db.nextId, userId, start)))
    ensures report.totalRecords == |set id | id in db.records && InWindow(db.records, id, userId, start)|
    ensures forall k :: k in report.distributionOrder ==> k in report.emotionDistribution
    ensures CountTotal(report.distributionOrder, report.emotionDistribution) == report.totalRecords
    ensures 0 <= report.averageScore <= 100
    ensures report.interventionsTriggered <= report.totalRecords
  {
    var p := if period.Some? then period.value else DefaultPeriod;
    report := AnalyticsOf(p, DocsOf(db.records, Window(db.records, db.nextId, userId, start)));
    WindowReport(db.records, db.nextId, userId, start, p);
  }
}
