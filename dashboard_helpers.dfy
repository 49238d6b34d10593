/** The pure helpers of the dashboard component: its own copies of the
    music and ambient tables, the emotion icon, the history transform, the
    average score, the simulated scan and the display thresholds, each set
    against what the server does. */
module DashboardHelpers {
  import opened Wrappers
  import opened Vocabulary
  import opened Numeric
  import opened EmotionRecordModel
  import opened Policy
  import opened Analytics

  /** A music suggestion as the dashboard shows it, with a text colour. */
  datatype MusicCard = MusicCard(genre: string, track: string, color: string)

  /** The dashboard's music table, keyed by the nine emotions: each card
      holds the genre and track of an entry the server's table has for the
      emotion's label. */
  function FrontMusic(e: Emotion): (c: MusicCard)
    ensures (Label(e), Track(c.genre, c.track)) in MusicTable
  {
    match e
    case Happy => MusicCard("Upbeat Pop", "Happy Vibes", "text-green-600")
    case Sad => MusicCard("Soothing Classical", "Moonlight Sonata", "text-blue-600")
    case Anxious => MusicCard("Ambient Calm", "Deep Breathing", "text-orange-600")
    case Calm => MusicCard("Nature Sounds", "Ocean Waves", "text-indigo-600")
    case Excited => MusicCard("Energetic Dance", "Electric Feel", "text-yellow-600")
    case Stressed => MusicCard("Relaxation Therapy", "Stress Relief", "text-red-600")
    case Neutral => MusicCard("Lo-fi Beats", "Study Music", "text-gray-600")
    case Depressed => MusicCard("Therapeutic Sounds", "Hope & Light", "text-purple-900")
    case Angry => MusicCard("Calming Piano", "Inner Peace", "text-red-700")
  }

  /** The dashboard's music table agrees with the server's on every
      emotion: same genre, same track. */
  lemma FrontMusicAgrees(e: Emotion)
    ensures FrontMusic(e).genre == MusicFor(Label(e)).genre
    ensures FrontMusic(e).track == MusicFor(Label(e)).track
  {
    var i := MusicForLabel(e);
    match e {
      case Happy => assert i == 0;
      case Sad => assert i == 1;
      case Anxious => assert i == 2;
      case Calm => assert i == 3;
      case Excited => assert i == 4;
      case Stressed => assert i == 5;
      case Neutral => assert i == 6;
      case Depressed => assert i == 7;
      case Angry => assert i == 8;
    }
  }

  /** The dashboard's ambient table: an entry for each of the nine labels. */
  const FrontAmbientTable: seq<(string, Ambience)> := [
    ("Happy", Ambience("bright yellow", "upbeat")),
    ("Sad", Ambience("soft blue", "soothing")),
    ("Anxious", Ambience("warm orange", "calming")),
    ("Calm", Ambience("cool blue", "nature sounds")),
    ("Stressed", Ambience("dim warm", "relaxation")),
    ("Depressed", Ambience("gentle warm", "therapeutic")),
    ("Excited", Ambience("bright white", "energetic")),
    ("Neutral", Ambience("neutral", "ambient")),
    ("Angry", Ambience("soft amber", "calming"))
  ]

  /** The ambient setting the dashboard applies: its table's entry for the
      name, or, when the table has none, the server's generic setting. */
  function FrontAmbient(name: string): (a: Ambience)
    ensures (name, a) in FrontAmbientTable ||
      (a == GenericAmbience && forall i :: 0 <= i < |FrontAmbientTable| ==> FrontAmbientTable[i].0 != name)
  {
    LookupSpec(FrontAmbientTable, name);
    var t := Lookup(FrontAmbientTable, name);
    if t.Some? then t.value else GenericAmbience
  }

  /** Every label has its own entry in the dashboard's table, so only a
      value outside the nine reaches the fallback. */
  lemma FrontAmbientTotal(name: string)
    ensures Lookup(FrontAmbientTable, name).Some? <==> IsEmotionLabel(name)
  {
    LookupKeys(FrontAmbientTable, name);
    var keys := ["Happy", "Sad", "Anxious", "Calm", "Stressed", "Depressed", "Excited", "Neutral", "Angry"];
    assert Keys(FrontAmbientTable) == keys;
    assert forall s :: s in keys <==> s in EmotionLabels;
  }

  /** On the six labels both tables list, and on Neutral, which only the
      dashboard lists but with the server's fallback value, the dashboard
      and the server suggest the same ambience. */
  lemma FrontAmbientSame(e: Emotion)
    requires e != Excited && e != Angry
    ensures FrontAmbient(Label(e)) == AmbientFor(Label(e))
  {
    match e {
      case Happy => SameOn(Label(e), 0);
      case Sad => SameOn(Label(e), 1);
      case Anxious => SameOn(Label(e), 2);
      case Calm => SameOn(Label(e), 3);
      case Stressed => SameOn(Label(e), 4);
      case Depressed => SameOn(Label(e), 5);
      case Neutral =>
        LookupFirst(FrontAmbientTable, Label(e), 7);
        AmbientTablePartial(Label(e));
    }
  }

  /** Both tables hold the same entry at position `k` and no earlier entry
      with its key. */
  lemma SameOn(name: string, k: nat)
    requires k < 6 && k < |AmbientTable| && AmbientTable[k].0 == name
    requires FrontAmbientTable[k] == AmbientTable[k]
    requires forall j :: 0 <= j < k ==> AmbientTable[j].0 != name && FrontAmbientTable[j].0 != name
    ensures FrontAmbient(name) == AmbientFor(name)
  {
    LookupFirst(FrontAmbientTable, name, k);
    LookupFirst(AmbientTable, name, k);
  }

  /** For Excited and Angry the dashboard shows its own entry where the
      server falls back to the generic ambience. */
  lemma FrontAmbientDiffers(e: Emotion)
    requires e == Excited || e == Angry
    ensures FrontAmbient(Label(e)) != AmbientFor(Label(e))
    ensures AmbientFor(Label(e)) == GenericAmbience
  {
    if e == Excited {
      assert FrontAmbient("Excited") == Ambience("bright white", "energetic");
    } else {
      assert FrontAmbient("Angry") == Ambience("soft amber", "calming");
    }
  }

  datatype Icon = Smile | Meh | Frown

  /** The icon shown next to an emotion: a list membership test on the
      label, first the cheerful ones, then the neutral one. */
  function EmotionIcon(e: Emotion): (i: Icon)
    ensures i == Smile <==> e == Happy || e == Excited || e == Calm
    ensures i == Meh <==> e == Neutral
  {
    if Label(e) in ["Happy", "Excited", "Calm"] then Smile
    else if Label(e) in ["Neutral"] then Meh
    else Frown
  }

  /** The icon splits the nine emotions three ways. */
  lemma EmotionIconSplit(e: Emotion)
    ensures EmotionIcon(e) == Smile <==> e == Happy || e == Excited || e == Calm
    ensures EmotionIcon(e) == Meh <==> e == Neutral
    ensures EmotionIcon(e) == Frown <==> e in {Sad, Anxious, Stressed, Depressed, Angry}
  {
    match e {
      case Happy =>
      case Sad =>
      case Anxious =>
      case Calm =>
      case Excited =>
      case Stressed =>
      case Neutral =>
      case Depressed =>
      case Angry =>
    }
  }

  /** One row of the dashboard's history. */
  datatype MoodEntry = MoodEntry(
    date: int,
    emotion: string,
    score: int,
    note: string,
    category: CareMode,
    context: string,
    time: int)

  /** The history transform of one stored record. `ownerMode` is the care
      mode of the record's owner when the owner reference is expanded into
      a user document, and none when it is a bare identifier. */
  function ToMoodEntry(r: EmotionRecord, ownerMode: Option<CareMode>): (m: MoodEntry)
    ensures m.emotion == r.emotion && m.score == r.score && m.date == r.timestamp
    ensures ownerMode.None? ==> m.category == Normal
    ensures r.note.None? ==> m.note == ""
    ensures r.context.None? ==> m.context == "Unknown"
  {
    var note := if r.note.Some? && r.note.value != "" then r.note.value else "";
    var location := if r.context.Some? && r.context.value.location.Some? && r.context.value.location.value != ""
      then r.context.value.location.value else "Unknown";
    MoodEntry(r.timestamp, r.emotion, r.score, note,
      if ownerMode.Some? then ownerMode.value else Normal, location, r.timestamp)
  }

  /** The dashboard's history, from the records the history route sends;
      that route sends the owner as a bare identifier. */
  function LoadHistory(records: seq<EmotionRecord>): (h: seq<MoodEntry>)
    ensures |h| == |records|
    ensures forall i :: 0 <= i < |records| ==>
      h[i].emotion == records[i].emotion && h[i].score == records[i].score && h[i].category == Normal
  {
    seq(|records|, i requires 0 <= i < |records| => ToMoodEntry(records[i], None))
  }

  /** The transform keeps emotion and score, fills a missing note with the
      empty text and a missing or empty location with `Unknown`, and, as
      the history route leaves owners unexpanded, files every entry under
      the normal category. */
  lemma LoadHistorySpec(records: seq<EmotionRecord>)
    ensures forall i :: 0 <= i < |records| ==>
      var r, m := records[i], LoadHistory(records)[i];
      && m.emotion == r.emotion && m.score == r.score && m.category == Normal
      && (r.note.None? ==> m.note == "")
      && (r.note.Some? ==> m.note == r.note.value)
      && (r.context.None? || r.context.value.location.None? ==> m.context == "Unknown")
      && (r.context.Some? && r.context.value.location.Some? && r.context.value.location.value != "" ==>
            m.context == r.context.value.location.value)
  {
  }

  function EntryScores(h: seq<MoodEntry>): (s: seq<int>)
    ensures |s| == |h| && forall i :: 0 <= i < |h| ==> s[i] == h[i].score
  {
    seq(|h|, i requires 0 <= i < |h| => h[i].score)
  }

  /** The average score tile: the rounded mean of the history's scores, 0
      for an empty history. */
  function AvgScore(h: seq<MoodEntry>): (a: int)
    ensures |h| == 0 ==> a == 0
    ensures |h| > 0 ==> 2 * Sum(EntryScores(h)) - |h| < 2 * |h| * a <= 2 * Sum(EntryScores(h)) + |h|
  {
    RoundedMean(EntryScores(h))
  }

  /** Shown over the same records, the tile agrees with the server's
      analytics average, and over valid records it lies in [0, 100]. */
  lemma AvgScoreAgrees(period: string, records: seq<EmotionRecord>)
    ensures AvgScore(LoadHistory(records)) == AnalyticsOf(period, records).averageScore
    ensures (forall i :: 0 <= i < |records| ==> ValidRecord(records[i])) ==>
      0 <= AvgScore(LoadHistory(records)) <= 100
  {
    assert EntryScores(LoadHistory(records)) == Scores(records);
    if forall i :: 0 <= i < |records| ==> ValidRecord(records[i]) {
      AverageInRange(period, records);
    }
  }

  /** The simulated scan's score: a draw in [0, 40) shifted up by 60. */
  function ScanScore(draw: nat): int
    requires draw < 40
  {
    draw + 60
  }

  /** A simulated score lies in [60, 99], so no care mode ever intervenes
      on it. */
  lemma ScanNeverIntervenes(draw: nat, mode: CareMode, emotion: string)
    requires draw < 40
    ensures 60 <= ScanScore(draw) <= 99
    ensures Evaluate(mode, ScanScore(draw), emotion) == NoIntervention
  {
  }

  /** The guided-exercise hint of the moderate mode. */
  predicate ModerateHint(score: int)
  {
    score < 60
  }

  /** The crisis banner of the clinical mode. */
  predicate ClinicalBanner(category: Option<CareMode>, score: int)
  {
    category == Some(Clinical) && score < 50
  }

  /** The moderate hint and the server's guided exercise disagree exactly
      on scores 55 to 59; the clinical banner shows exactly when the server
      raises a crisis alert. */
  lemma DisplayThresholds(score: int, emotion: string)
    ensures ModerateHint(score) != Evaluate(Moderate, score, emotion).Exercise? <==> 55 <= score < 60
    ensures ClinicalBanner(Some(Clinical), score) <==> Evaluate(Clinical, score, emotion).RaiseAlert?
    ensures forall m :: m != Clinical ==> !ClinicalBanner(Some(m), score)
  {
  }
}
