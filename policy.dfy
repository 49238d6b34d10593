/** The care-mode intervention policy of the emotion-submission handler:
    the two emotion-keyed tables with their fallbacks, the decision chain
    over (care mode, score), and the alert raised in the clinical case. */
module Policy {
  import opened Wrappers
  import opened Vocabulary
  import opened Numeric
  import opened EmotionRecordModel
  import opened AlertModel

  datatype Track = Track(genre: string, track: string)

  /** The first value stored under `key` in an association list, the way a
      lookup in an object literal finds a property. */
  function Lookup<V>(table: seq<(string, V)>, key: string): Option<V>
  {
    LookupFrom(table, key, 0)
  }

  /** The first value stored under `key` at position `i` or later. */
  function LookupFrom<V>(table: seq<(string, V)>, key: string, i: nat): Option<V>
    decreases |table| - i
  {
    if i >= |table| then None
    else if table[i].0 == key then Some(table[i].1)
    else LookupFrom(table, key, i + 1)
  }

  lemma {:induction false} LookupFromSpec<V>(table: seq<(string, V)>, key: string, i: nat)
    requires i <= |table|
    ensures LookupFrom(table, key, i).Some? <==> exists j :: i <= j < |table| && table[j].0 == key
    ensures LookupFrom(table, key, i).Some? ==>
      exists j :: i <= j < |table| && table[j] == (key, LookupFrom(table, key, i).value)
    decreases |table| - i
  {
    if i < |table| && table[i].0 != key {
      LookupFromSpec(table, key, i + 1);
    }
  }

  /** The lookup finds a value exactly when some entry has the key, and
      what it finds is the value of such an entry. */
  lemma LookupSpec<V>(table: seq<(string, V)>, key: string)
    ensures Lookup(table, key).Some? <==> exists i :: 0 <= i < |table| && table[i].0 == key
    ensures Lookup(table, key).Some? ==>
      exists i :: 0 <= i < |table| && table[i] == (key, Lookup(table, key).value)
  {
    LookupFromSpec(table, key, 0);
  }

  const MusicTable: seq<(string, Track)> := [
    ("Happy", Track("Upbeat Pop", "Happy Vibes")),
    ("Sad", Track("Soothing Classical", "Moonlight Sonata")),
    ("Anxious", Track("Ambient Calm", "Deep Breathing")),
    ("Calm", Track("Nature Sounds", "Ocean Waves")),
    ("Excited", Track("Energetic Dance", "Electric Feel")),
    ("Stressed", Track("Relaxation Therapy", "Stress Relief")),
    ("Neutral", Track("Lo-fi Beats", "Study Music")),
    ("Depressed", Track("Therapeutic Sounds", "Hope & Light")),
    ("Angry", Track("Calming Piano", "Inner Peace"))
  ]

  /** The music suggested for an emotion: the table's entry for it, or,
      when the table has none, the Neutral track. */
  function MusicFor(emotion: string): (r: Track)
    ensures (emotion, r) in MusicTable ||
      (r == Track("Lo-fi Beats", "Study Music") && forall i :: 0 <= i < |MusicTable| ==> MusicTable[i].0 != emotion)
  {
    LookupSpec(MusicTable, emotion);
    var t := Lookup(MusicTable, emotion);
    if t.Some? then t.value else Track("Lo-fi Beats", "Study Music")
  }

  const AmbientTable: seq<(string, Ambience)> := [
    ("Happy", Ambience("bright yellow", "upbeat")),
    ("Sad", Ambience("soft blue", "soothing")),
    ("Anxious", Ambience("warm orange", "calming")),
    ("Calm", Ambience("cool blue", "nature sounds")),
    ("Stressed", Ambience("dim warm", "relaxation")),
    ("Depressed", Ambience("gentle warm", "therapeutic"))
  ]

  const GenericAmbience: Ambience := Ambience("neutral", "ambient")

  /** The ambient setting suggested for an emotion: the table's entry for
      it, or, when the table has none, the generic setting. */
  function AmbientFor(emotion: string): (r: Ambience)
    ensures (emotion, r) in AmbientTable ||
      (r == GenericAmbience && forall i :: 0 <= i < |AmbientTable| ==> AmbientTable[i].0 != emotion)
  {
    LookupSpec(AmbientTable, emotion);
    var t := Lookup(AmbientTable, emotion);
    if t.Some? then t.value else GenericAmbience
  }

  /** The keys of an association list. */
  function Keys<V>(table: seq<(string, V)>): seq<string>
  {
    seq(|table|, i requires 0 <= i < |table| => table[i].0)
  }

  lemma {:induction false} LookupFromFirst<V>(table: seq<(string, V)>, key: string, start: nat, i: nat)
    requires start <= i < |table| && table[i].0 == key
    requires forall j :: start <= j < i ==> table[j].0 != key
    ensures LookupFrom(table, key, start) == Some(table[i].1)
    decreases i - start
  {
    if start < i {
      LookupFromFirst(table, key, start + 1, i);
    }
  }

  /** The lookup finds the first entry with the key. */
  lemma LookupFirst<V>(table: seq<(string, V)>, key: string, i: nat)
    requires i < |table| && table[i].0 == key
    requires forall j :: 0 <= j < i ==> table[j].0 != key
    ensures Lookup(table, key) == Some(table[i].1)
  {
    LookupFromFirst(table, key, 0, i);
  }

  /** The lookup finds a value exactly for the keys of the table. */
  lemma LookupKeys<V>(table: seq<(string, V)>, key: string)
    ensures Lookup(table, key).Some? <==> key in Keys(table)
  {
    LookupSpec(table, key);
    if Lookup(table, key).Some? {
      var i :| 0 <= i < |table| && table[i].0 == key;
      assert Keys(table)[i] == key;
    }
    if key in Keys(table) {
      var i :| 0 <= i < |Keys(table)| && Keys(table)[i] == key;
      assert table[i].0 == key;
    }
  }

  /** The music table has exactly the nine labels as keys, in the order
      of the schema's enum. */
  lemma MusicTableKeys()
    ensures Keys(MusicTable) == EmotionLabels
  {
  }

  /** Every value outside the nine labels falls back to the track of the
      Neutral entry. */
  lemma MusicFallback(other: string)
    ensures !IsEmotionLabel(other) ==> MusicFor(other) == MusicFor("Neutral")
  {
    if !IsEmotionLabel(other) {
      MusicTableKeys();
      forall i | 0 <= i < |MusicTable|
        ensures MusicTable[i].0 != other
      {
        assert MusicTable[i].0 == Keys(MusicTable)[i];
      }
      LookupSpec(MusicTable, other);
      MusicSamples();
    }
  }

  /** Two entries read off the music table: the Neutral track, which is
      also the fallback, and the Sad track. */
  lemma MusicSamples()
    ensures MusicFor("Neutral") == Track("Lo-fi Beats", "Study Music")
    ensures MusicFor("Sad") == Track("Soothing Classical", "Moonlight Sonata")
  {
  }

  /** No two entries of the music table share a key or a track. */
  lemma MusicTableDistinct()
    ensures forall i, j :: 0 <= i < j < |MusicTable| ==>
      MusicTable[i].0 != MusicTable[j].0 && MusicTable[i].1 != MusicTable[j].1
  {
  }

  /** Every label finds an entry of its own in the music table. */
  lemma MusicForLabel(e: Emotion) returns (i: nat)
    ensures i < |MusicTable| && MusicTable[i] == (Label(e), MusicFor(Label(e)))
  {
    var l := Label(e);
    LabelsRoundTrip(e, "");
    MusicTableKeys();
    var k :| 0 <= k < |EmotionLabels| && EmotionLabels[k] == l;
    assert MusicTable[k].0 == Keys(MusicTable)[k];
    var t := Lookup(MusicTable, l);
    LookupSpec(MusicTable, l);
    i :| 0 <= i < |MusicTable| && MusicTable[i] == (l, t.value);
  }

  /** Each of the nine labels has its own entry. */
  lemma MusicTableInjective(e1: Emotion, e2: Emotion)
    ensures MusicFor(Label(e1)) == MusicFor(Label(e2)) ==> e1 == e2
  {
    var i1 := MusicForLabel(e1);
    var i2 := MusicForLabel(e2);
    MusicTableDistinct();
    if MusicFor(Label(e1)) == MusicFor(Label(e2)) {
      assert i1 == i2;
      LabelsRoundTrip(e1, Label(e2));
    }
  }

  /** Only Happy, Sad, Anxious, Calm, Stressed and Depressed have their own
      ambient setting; every other value gets `neutral` lights and `ambient`
      music, and no explicit entry looks like that fallback. */
  lemma AmbientTablePartial(emotion: string)
    ensures AmbientFor(emotion) != GenericAmbience <==>
      emotion in ["Happy", "Sad", "Anxious", "Calm", "Stressed", "Depressed"]
  {
    LookupKeys(AmbientTable, emotion);
    LookupSpec(AmbientTable, emotion);
    assert Keys(AmbientTable) == ["Happy", "Sad", "Anxious", "Calm", "Stressed", "Depressed"];
    assert forall i :: 0 <= i < |AmbientTable| ==> AmbientTable[i].1 != GenericAmbience;
  }

  datatype InterventionType = MusicTherapyKind | GuidedExercise | CrisisAlert

  /** The name stored in `interventionType` and sent in the response. */
  function InterventionName(t: InterventionType): string
  {
    match t
    case MusicTherapyKind => "music_therapy"
    case GuidedExercise => "guided_exercise"
    case CrisisAlert => "crisis_alert"
  }

  /** What one submission leads to. */
  datatype Outcome =
    | NoIntervention
    | PlayMusic(track: Track, ambience: Ambience)
    | Exercise
    | RaiseAlert(severity: Severity, message: string)

  function Kind(o: Outcome): Option<InterventionType>
  {
    match o
    case NoIntervention => None
    case PlayMusic(_, _) => Some(MusicTherapyKind)
    case Exercise => Some(GuidedExercise)
    case RaiseAlert(_, _) => Some(CrisisAlert)
  }

  /** The text of the crisis alert, embedding the score and the emotion. */
  function AlertMessage(score: int, emotion: string): string
  {
    "Low wellness score detected: " + Decimal(score) + "%. Emotion: " + emotion
  }

  /** The decision chain of the submission handler, in the order the three
      care modes are tested: something happens exactly below the mode's
      threshold, and an alert carries the message for the score and the
      emotion, `critical` below 40. */
  function Evaluate(mode: CareMode, score: int, emotion: string): (o: Outcome)
    ensures o != NoIntervention <==> score < Threshold(mode)
    ensures o.RaiseAlert? ==> o.message == AlertMessage(score, emotion) && (o.severity == Critical <==> score < 40)
  {
    if mode == Normal && score < 60 then
      PlayMusic(MusicFor(emotion), AmbientFor(emotion))
    else if mode == Moderate && score < 55 then
      Exercise
    else if mode == Clinical && score < 50 then
      RaiseAlert(if score < 40 then Critical else High, AlertMessage(score, emotion))
    else
      NoIntervention
  }

  /** The threshold below which each care mode intervenes, and the kind of
      intervention it chooses: the per-mode reading of the decision chain. */
  function Threshold(mode: CareMode): int
  {
    match mode
    case Normal => 60
    case Moderate => 55
    case Clinical => 50
  }

  function KindFor(mode: CareMode): InterventionType
  {
    match mode
    case Normal => MusicTherapyKind
    case Moderate => GuidedExercise
    case Clinical => CrisisAlert
  }

  /** The intervention depends only on the care mode and the score: it is
      the mode's own kind exactly when the score is below the mode's
      threshold, and none otherwise. */
  lemma KindIsThreshold(mode: CareMode, score: int, emotion: string)
    ensures Kind(Evaluate(mode, score, emotion)) ==
      if score < Threshold(mode) then Some(KindFor(mode)) else None
  {
  }

  /** The emotion never decides whether or which intervention happens. */
  lemma EmotionNeverDecides(mode: CareMode, score: int, e1: string, e2: string)
    ensures Kind(Evaluate(mode, score, e1)) == Kind(Evaluate(mode, score, e2))
  {
    KindIsThreshold(mode, score, e1);
    KindIsThreshold(mode, score, e2);
  }

  /** The thresholds are strict. */
  lemma Boundaries(e: string)
    ensures Evaluate(Normal, 60, e) == NoIntervention && Evaluate(Normal, 59, e).PlayMusic?
    ensures Evaluate(Moderate, 55, e) == NoIntervention && Evaluate(Moderate, 54, e) == Exercise
    ensures Evaluate(Clinical, 50, e) == NoIntervention
    ensures Evaluate(Clinical, 49, e).RaiseAlert? && Evaluate(Clinical, 49, e).severity == High
    ensures Evaluate(Clinical, 40, e).severity == High && Evaluate(Clinical, 39, e).severity == Critical
  {
  }

  /** Music and ambient payloads come only from the normal branch and then
      follow the two tables; the alert is `critical` below 40 and `high`
      from 40 up. */
  lemma PayloadsByBranch(mode: CareMode, score: int, emotion: string)
    ensures Evaluate(mode, score, emotion).PlayMusic? <==> mode == Normal && score < 60
    ensures Evaluate(mode, score, emotion).PlayMusic? ==>
      Evaluate(mode, score, emotion) == PlayMusic(MusicFor(emotion), AmbientFor(emotion))
    ensures Evaluate(mode, score, emotion).RaiseAlert? <==> mode == Clinical && score < 50
    ensures Evaluate(mode, score, emotion).RaiseAlert? ==>
      (Evaluate(mode, score, emotion).severity == Critical <==> score < 40) &&
      (Evaluate(mode, score, emotion).severity == High <==> 40 <= score)
  {
  }

  /** Reads the score and the emotion back out of an alert message. */
  function ParseAlertMessage(m: string): Option<(int, string)>
  {
    var prefix := "Low wellness score detected: ";
    var sep := "%. Emotion: ";
    if |m| < |prefix| || m[..|prefix|] != prefix then None
    else
      var rest := m[|prefix|..];
      var k := IndexOf(rest, '%');
      if k + |sep| <= |rest| && rest[k..k + |sep|] == sep then
        var n := ParseDecimal(rest[..k]);
        if n.Some? then Some((n.value, rest[k + |sep|..])) else None
      else None
  }

  /** The index of the first `c` in `s`, or |s| when there is none. */
  function IndexOf(s: string, c: char): (k: nat)
    ensures k <= |s|
    ensures forall i :: 0 <= i < k ==> s[i] != c
    ensures k < |s| ==> s[k] == c
  {
    if s == [] then 0 else if s[0] == c then 0 else 1 + IndexOf(s[1..], c)
  }

  /** The message determines both the score and the emotion it embeds. */
  lemma AlertMessageRoundTrip(score: int, emotion: string)
    ensures ParseAlertMessage(AlertMessage(score, emotion)) == Some((score, emotion))
  {
    var prefix := "Low wellness score detected: ";
    var sep := "%. Emotion: ";
    var d := Decimal(score);
    var m := AlertMessage(score, emotion);
    assert m == prefix + (d + sep + emotion);
    var rest := m[|prefix|..];
    assert rest == d + sep + emotion;
    assert IndexOf(rest, '%') == |d| by {
      assert rest[|d|] == '%';
      assert forall i :: 0 <= i < |d| ==> rest[i] == d[i] && d[i] != '%';
    }
    assert rest[..|d|] == d;
    assert rest[|d|..|d| + |sep|] == sep;
    assert rest[|d| + |sep|..] == emotion;
    DecimalRoundTrip(score);
  }

  /** The alert stored in the clinical branch: a new low-wellness alert of
      the user about the record, `critical` below 40 and `high` otherwise,
      not resolved and not notified. */
  function CrisisAlertFor(userId: Id, recordId: Id, score: int, emotion: string, now: int): (a: Alert)
    ensures a.userId == userId && a.emotionRecordId == Some(recordId) && a.alertType == LowWellness
    ensures a.severity == (if score < 40 then Critical else High)
    ensures !a.resolved && !a.notifiedCaregiver && a.caregiverResponse.None? && a.timestamp == now
  {
    NewAlertDefaults(userId, LowWellness, now);
    NewAlert(userId, LowWellness, now).(
      emotionRecordId := Some(recordId),
      severity := if score < 40 then Critical else High,
      message := Some(AlertMessage(score, emotion)))
  }

  /** The crisis alert belongs to the submitting user and refers to the new
      record, is a low-wellness alert whose severity is critical below 40
      and high from 40 on, carries a message from which the score and the
      emotion can be read back, and starts unresolved and unnotified. */
  lemma CrisisAlertSpec(userId: Id, recordId: Id, score: int, emotion: string, now: int)
    ensures var a := CrisisAlertFor(userId, recordId, score, emotion, now);
      && a.userId == userId && a.emotionRecordId == Some(recordId)
      && a.alertType == LowWellness
      && (a.severity == Critical <==> score < 40)
      && (a.severity == High <==> 40 <= score)
      && a.message.Some? && ParseAlertMessage(a.message.value) == Some((score, emotion))
      && !a.resolved && !a.notifiedCaregiver && a.caregiverResponse.None?
  {
    AlertMessageRoundTrip(score, emotion);
  }
}
