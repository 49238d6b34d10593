/** The names shared by the server and the dashboard: the nine emotion
    labels, the three care modes (the dashboard calls them categories) and
    the document identifiers of the store. */
module Vocabulary {
  import opened Wrappers

  /** A document identifier (an ObjectId). */
  type Id = nat

  datatype Emotion = Happy | Sad | Anxious | Calm | Excited | Stressed | Neutral | Depressed | Angry

  datatype CareMode = Normal | Moderate | Clinical

  /** The label under which an emotion travels and is stored. */
  function Label(e: Emotion): string
  {
    match e
    case Happy => "Happy"
    case Sad => "Sad"
    case Anxious => "Anxious"
    case Calm => "Calm"
    case Excited => "Excited"
    case Stressed => "Stressed"
    case Neutral => "Neutral"
    case Depressed => "Depressed"
    case Angry => "Angry"
  }

  /** The accepted labels, in the order the schema lists them. */
  const EmotionLabels: seq<string> :=
    ["Happy", "Sad", "Anxious", "Calm", "Excited", "Stressed", "Neutral", "Depressed", "Angry"]

  /** The emotion a label names, if it is one of the nine. */
  function ParseEmotion(s: string): Option<Emotion>
  {
    if s == "Happy" then Some(Happy)
    else if s == "Sad" then Some(Sad)
    else if s == "Anxious" then Some(Anxious)
    else if s == "Calm" then Some(Calm)
    else if s == "Excited" then Some(Excited)
    else if s == "Stressed" then Some(Stressed)
    else if s == "Neutral" then Some(Neutral)
    else if s == "Depressed" then Some(Depressed)
    else if s == "Angry" then Some(Angry)
    else None
  }

  predicate IsEmotionLabel(s: string)
  {
    s in EmotionLabels
  }

  /** Labels and emotions are in one-to-one correspondence, and the labels
      that parse are exactly the nine the schema accepts. */
  lemma LabelsRoundTrip(e: Emotion, s: string)
    ensures ParseEmotion(Label(e)) == Some(e)
    ensures ParseEmotion(s) == Some(e) ==> Label(e) == s
    ensures ParseEmotion(s).Some? <==> IsEmotionLabel(s)
    ensures IsEmotionLabel(Label(e))
  {
  }

  function CareModeName(m: CareMode): string
  {
    match m
    case Normal => "normal"
    case Moderate => "moderate"
    case Clinical => "clinical"
  }
}
