/** The emotion-record document: what one submitted reading stores, the
    defaults the schema fills in, and the validation the schema applies
    when the document is saved. */
module EmotionRecordModel {
  import opened Wrappers
  import opened Vocabulary

  datatype Breakdown = Breakdown(facial: Option<int>, voice: Option<int>, behavior: Option<int>)

  datatype Context = Context(
    location: Option<string>,
    activity: Option<string>,
    timeOfDay: Option<string>,
    weather: Option<string>)

  /** The stored music-therapy subdocument. The schema gives `played` a
      default, so every new document carries it, even without a track. */
  datatype MusicTherapy = MusicTherapy(genre: Option<string>, track: Option<string>, played: bool)

  /** The subdocument a new record starts with: no track, not played. */
  const UnplayedMusic: MusicTherapy := MusicTherapy(None, None, false)

  /** Ambient lighting and background music, as stored and as suggested. */
  datatype Ambience = Ambience(lights: string, music: string)

  datatype EmotionRecord = EmotionRecord(
    userId: Id,
    emotion: string,
    score: int,
    scanMode: string,
    modalityBreakdown: Option<Breakdown>,
    context: Option<Context>,
    note: Option<string>,
    interventionTriggered: bool,
    interventionType: Option<string>,
    musicTherapy: MusicTherapy,
    ambientSettings: Option<Ambience>,
    timestamp: int)

  /** The fields a client submits for a new record. */
  datatype Submission = Submission(
    emotion: string,
    score: int,
    scanMode: Option<string>,
    modalityBreakdown: Option<Breakdown>,
    context: Option<Context>,
    note: Option<string>)

  const ScanModes: seq<string> := ["multimodal", "face", "voice", "behavior"]
  const DefaultScanMode: string := "multimodal"

  predicate InPercentRange(x: Option<int>)
  {
    x.Some? ==> 0 <= x.value <= 100
  }

  predicate ValidBreakdown(b: Option<Breakdown>)
  {
    b.Some? ==> InPercentRange(b.value.facial) && InPercentRange(b.value.voice) && InPercentRange(b.value.behavior)
  }

  /** What the schema's validators accept: a known emotion label, a score in
      [0, 100], a known scan mode and sub-scores in [0, 100]. */
  predicate ValidRecord(r: EmotionRecord)
  {
    && IsEmotionLabel(r.emotion)
    && 0 <= r.score <= 100
    && r.scanMode in ScanModes
    && ValidBreakdown(r.modalityBreakdown)
  }

  /** A new document built from a submission, before any intervention is
      decided: the schema's defaults fill what the client left out. */
  function NewRecord(userId: Id, body: Submission, now: int): (r: EmotionRecord)
    ensures r.userId == userId && r.emotion == body.emotion && r.score == body.score
    ensures r.scanMode == if body.scanMode.Some? then body.scanMode.value else DefaultScanMode
    ensures !r.interventionTriggered && r.interventionType.None?
    ensures r.musicTherapy == MusicTherapy(None, None, false) && r.ambientSettings.None?
  {
    EmotionRecord(
      userId, body.emotion, body.score,
      if body.scanMode.Some? then body.scanMode.value else DefaultScanMode,
      body.modalityBreakdown, body.context, body.note,
      false, None, UnplayedMusic, None, now)
  }

  /** A new record passes validation exactly when the submission names a
      known emotion, a score in [0, 100], a known scan mode or none, and
      sub-scores in [0, 100]; leaving the scan mode out is always accepted. */
  lemma NewRecordValidity(userId: Id, body: Submission, now: int)
    ensures ValidRecord(NewRecord(userId, body, now)) <==>
      && IsEmotionLabel(body.emotion)
      && 0 <= body.score <= 100
      && (body.scanMode.None? || body.scanMode.value in ScanModes)
      && ValidBreakdown(body.modalityBreakdown)
  {
  }
}
