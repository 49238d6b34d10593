/** The dashboard component's state and its handlers: sign-in and the
    restored session, the simulated scan, saving a reading, choosing a care
    mode and signing out. The server's answers, the random draws and the
    clock are parameters of the handlers. */
module Dashboard {
  import opened Wrappers
  import opened Vocabulary
  import opened EmotionRecordModel
  import opened Policy
  import opened EmotionRoutes
  import opened DashboardHelpers

  /** The signed-in user as the dashboard keeps it; a stored user may lack
      a care mode. */
  datatype Account = Account(id: Id, email: string, name: string, careMode: Option<CareMode>)

  /** The three scan modes the dashboard offers. */
  datatype ScanChoice = Multimodal | Face | Voice

  function ScanModeName(c: ScanChoice): string
  {
    match c
    case Multimodal => "multimodal"
    case Face => "face"
    case Voice => "voice"
  }

  /** One simulated reading: emotion, score, clock time, place and the
      three sub-scores. */
  datatype EmotionState = EmotionState(
    emotion: Emotion,
    score: int,
    timestamp: string,
    context: string,
    voice: int,
    facial: int,
    behavior: int)

  /** The dashboard's list of emotions, from which a scan draws one. */
  const ScanEmotions: seq<Emotion> := [Happy, Sad, Anxious, Calm, Excited, Stressed, Neutral, Depressed, Angry]

  /** The places a scan draws from. */
  const ScanContexts: seq<string> := ["Home", "Work", "Commute", "Social"]

  /** The emotion list is the schema's label list, so every emotion can be
      drawn, each at one position. */
  lemma ScanEmotionsLabels()
    ensures |ScanEmotions| == |EmotionLabels|
    ensures forall i :: 0 <= i < |ScanEmotions| ==> Label(ScanEmotions[i]) == EmotionLabels[i]
    ensures forall e: Emotion :: e in ScanEmotions
    ensures forall i, j :: 0 <= i < j < |ScanEmotions| ==> ScanEmotions[i] != ScanEmotions[j]
  {
    forall e: Emotion ensures e in ScanEmotions {
      match e {
        case Happy => assert ScanEmotions[0] == e;
        case Sad => assert ScanEmotions[1] == e;
        case Anxious => assert ScanEmotions[2] == e;
        case Calm => assert ScanEmotions[3] == e;
        case Excited => assert ScanEmotions[4] == e;
        case Stressed => assert ScanEmotions[5] == e;
        case Neutral => assert ScanEmotions[6] == e;
        case Depressed => assert ScanEmotions[7] == e;
        case Angry => assert ScanEmotions[8] == e;
      }
    }
  }

  /** The reading a scan makes from its draws: the emotion and place at the
      drawn positions, the score draw shifted up by 60 and the clock time. */
  function ScanState(emotionDraw: nat, scoreDraw: nat, contextDraw: nat,
                     voiceDraw: nat, facialDraw: nat, behaviorDraw: nat, clock: string): EmotionState
    requires emotionDraw < 9 && scoreDraw < 40 && contextDraw < 4
  {
    EmotionState(ScanEmotions[emotionDraw], ScanScore(scoreDraw), clock, ScanContexts[contextDraw],
      voiceDraw, facialDraw, behaviorDraw)
  }

  /** What every simulated reading satisfies. */
  predicate Scanned(s: EmotionState)
  {
    && 60 <= s.score <= 99
    && s.context in ScanContexts
    && 0 <= s.voice < 100 && 0 <= s.facial < 100 && 0 <= s.behavior < 100
  }

  /** Readings made from draws in range are simulated readings. */
  lemma ScanStateScanned(emotionDraw: nat, scoreDraw: nat, contextDraw: nat,
                         voiceDraw: nat, facialDraw: nat, behaviorDraw: nat, clock: string)
    requires emotionDraw < 9 && scoreDraw < 40 && contextDraw < 4
    requires voiceDraw < 100 && facialDraw < 100 && behaviorDraw < 100
    ensures Scanned(ScanState(emotionDraw, scoreDraw, contextDraw, voiceDraw, facialDraw, behaviorDraw, clock))
  {
  }

  /** The body the dashboard sends to save a reading: the reading's fields,
      the chosen scan mode, a fixed activity, the clock time as the time of
      day, and the journal text or, when it is empty, a stock note. */
  function SubmissionOf(s: EmotionState, choice: ScanChoice, journal: string): Submission
  {
    Submission(
      Label(s.emotion), s.score, Some(ScanModeName(choice)),
      Some(Breakdown(Some(s.facial), Some(s.voice), Some(s.behavior))),
      Some(Context(Some(s.context), Some("User Activity"), Some(s.timestamp), None)),
      Some(if journal == "" then "Quick emotion check" else journal))
  }

  /** A simulated reading always passes the server's validation and never
      triggers an intervention, whatever the care mode: its score is at
      least 60, above every threshold. */
  lemma ScannedEntryAccepted(s: EmotionState, choice: ScanChoice, journal: string,
                             userId: Id, mode: CareMode, now: int)
    requires Scanned(s)
    ensures var r := DecidedRecord(userId, mode, SubmissionOf(s, choice, journal), now);
      && ValidRecord(r)
      && !r.interventionTriggered && InterventionOf(r).None?
      && r.emotion == Label(s.emotion) && r.score == s.score
      && r.note == Some(if journal == "" then "Quick emotion check" else journal)
  {
    var body := SubmissionOf(s, choice, journal);
    LabelsRoundTrip(s.emotion, "");
    NewRecordValidity(userId, body, now);
    DecidedRecordSpec(userId, mode, body, now);
    KindIsThreshold(mode, body.score, body.emotion);
  }

  class Monitor {
    var isAuthenticated: bool
    var userData: Option<Account>
    var activeCategory: Option<CareMode>
    var isScanning: bool
    var currentEmotion: Option<EmotionState>
    var scanMode: ScanChoice
    var moodHistory: seq<MoodEntry>
    var journalEntry: string
    var musicPlaying: Option<MusicCard>
    var ambientMode: Ambience

    /** The reading on show, if any, is a simulated one. */
    ghost predicate Valid()
      reads this
    {
      currentEmotion.Some? ==> Scanned(currentEmotion.value)
    }

    /** Signed out, nothing scanned, warm lights with calm music. */
    constructor ()
      ensures Valid()
      ensures !isAuthenticated && userData.None? && activeCategory.None? && !isScanning
      ensures currentEmotion.None? && scanMode == Multimodal && moodHistory == [] && journalEntry == ""
      ensures musicPlaying.None? && ambientMode == Ambience("warm", "calm")
    {
      isAuthenticated := false;
      userData := None;
      activeCategory := None;
      isScanning := false;
      currentEmotion := None;
      scanMode := Multimodal;
      moodHistory := [];
      journalEntry := "";
      musicPlaying := None;
      ambientMode := Ambience("warm", "calm");
    }

    /** Replaces the history with the server's records, transformed; when
        the history could not be fetched (`None`) it stays as it was. */
    method LoadUserData(history: Option<seq<EmotionRecord>>)
      modifies this`moodHistory
      ensures moodHistory == if history.Some? then LoadHistory(history.value) else old(moodHistory)
    {
      if history.Some? {
        moodHistory := LoadHistory(history.value);
      }
    }

    /** The session restored on mount: with a stored token and user
        (`saved`), the dashboard signs in, takes the user's care mode as
        the category and loads the history. */
    method Restore(saved: Option<Account>, history: Option<seq<EmotionRecord>>)
      requires Valid()
      modifies this
      ensures Valid()
      ensures saved.None? ==> unchanged(this)
      ensures saved.Some? ==>
        && isAuthenticated && userData == saved && activeCategory == saved.value.careMode
        && moodHistory == (if history.Some? then LoadHistory(history.value) else old(moodHistory))
        && isScanning == old(isScanning) && currentEmotion == old(currentEmotion) && scanMode == old(scanMode)
        && journalEntry == old(journalEntry) && musicPlaying == old(musicPlaying) && ambientMode == old(ambientMode)
    {
      if saved.Some? {
        isAuthenticated := true;
        userData := saved;
        activeCategory := saved.value.careMode;
        LoadUserData(history);
      }
    }

    /** A sign-in or registration answer: with a token (`user` present) the
        dashboard signs in and loads the history, leaving the category as
        it was; an answer without a token changes nothing. */
    method SignIn(user: Option<Account>, history: Option<seq<EmotionRecord>>)
      requires Valid()
      modifies this
      ensures Valid()
      ensures user.None? ==> unchanged(this)
      ensures user.Some? ==>
        && isAuthenticated && userData == user && activeCategory == old(activeCategory)
        && moodHistory == (if history.Some? then LoadHistory(history.value) else old(moodHistory))
        && isScanning == old(isScanning) && currentEmotion == old(currentEmotion) && scanMode == old(scanMode)
        && journalEntry == old(journalEntry) && musicPlaying == old(musicPlaying) && ambientMode == old(ambientMode)
    {
      if user.Some? {
        isAuthenticated := true;
        userData := user;
        LoadUserData(history);
      }
    }

    /** Signing out forgets the user, the category and the history; the
        reading on show, the journal text, the music and the ambience stay. */
    method Logout()
      requires Valid()
      modifies this
      ensures Valid()
      ensures !isAuthenticated && userData.None? && activeCategory.None? && moodHistory == []
      ensures isScanning == old(isScanning) && currentEmotion == old(currentEmotion) && scanMode == old(scanMode)
      ensures journalEntry == old(journalEntry) && musicPlaying == old(musicPlaying) && ambientMode == old(ambientMode)
    {
      isAuthenticated := false;
      userData := None;
      activeCategory := None;
      moodHistory := [];
    }

    method SetScanMode(choice: ScanChoice)
      modifies this`scanMode
      ensures scanMode == choice
    {
      scanMode := choice;
    }

    method WriteJournal(text: string)
      modifies this`journalEntry
      ensures journalEntry == text
    {
      journalEntry := text;
    }

    /** The dashboard's own ambient table applied to an emotion. */
    method UpdateAmbientMode(e: Emotion)
      modifies this`ambientMode
      ensures ambientMode == FrontAmbient(Label(e))
    {
      ambientMode := FrontAmbient(Label(e));
    }

    /** A scan. When the camera cannot be opened, the scan ends with nothing
        else changed. Otherwise the reading made from the draws is shown,
        and only in the normal category the dashboard's own music and
        ambient tables are applied to its emotion. */
    method Scan(cameraOk: bool, emotionDraw: nat, scoreDraw: nat, contextDraw: nat,
                voiceDraw: nat, facialDraw: nat, behaviorDraw: nat, clock: string)
      requires Valid()
      requires emotionDraw < 9 && scoreDraw < 40 && contextDraw < 4
      requires voiceDraw < 100 && facialDraw < 100 && behaviorDraw < 100
      modifies this
      ensures Valid() && !isScanning
      ensures isAuthenticated == old(isAuthenticated) && userData == old(userData)
      ensures activeCategory == old(activeCategory) && scanMode == old(scanMode)
      ensures moodHistory == old(moodHistory) && journalEntry == old(journalEntry)
      ensures !cameraOk ==>
        currentEmotion == old(currentEmotion) && musicPlaying == old(musicPlaying) && ambientMode == old(ambientMode)
      ensures cameraOk ==>
        var s := ScanState(emotionDraw, scoreDraw, contextDraw, voiceDraw, facialDraw, behaviorDraw, clock);
        && currentEmotion == Some(s)
        && (activeCategory == Some(Normal) ==>
              musicPlaying == Some(FrontMusic(s.emotion)) && ambientMode == FrontAmbient(Label(s.emotion)))
        && (activeCategory != Some(Normal) ==>
              musicPlaying == old(musicPlaying) && ambientMode == old(ambientMode))
    {
      isScanning := true;
      if !cameraOk {
        isScanning := false;
        return;
      }
      var s := ScanState(emotionDraw, scoreDraw, contextDraw, voiceDraw, facialDraw, behaviorDraw, clock);
      ScanStateScanned(emotionDraw, scoreDraw, contextDraw, voiceDraw, facialDraw, behaviorDraw, clock);
      currentEmotion := Some(s);
      if activeCategory == Some(Normal) {
        musicPlaying := Some(FrontMusic(s.emotion));
        UpdateAmbientMode(s.emotion);
      }
      isScanning := false;
    }

    /** Saves the reading on show. Without one nothing is sent. Otherwise
        `sent` is the body sent; `response` is the server's answer when it
        holds a created record, and none for an error answer or no answer,
        which change nothing. On a created record the answer's ambient
        setting, if any, is applied, the history is reloaded from
        `history`, and the journal, the reading and the music are
        cleared. */
    method SaveEntry(response: Option<Created>, history: Option<seq<EmotionRecord>>)
      returns (sent: Option<Submission>)
      requires Valid()
      modifies this
      ensures Valid()
      ensures old(currentEmotion).None? ==> sent.None? && unchanged(this)
      ensures old(currentEmotion).Some? ==>
        sent == Some(SubmissionOf(old(currentEmotion).value, old(scanMode), old(journalEntry)))
      ensures old(currentEmotion).Some? && response.None? ==> unchanged(this)
      ensures old(currentEmotion).Some? && response.Some? ==>
        var iv := response.value.intervention;
        && ambientMode == (if iv.Some? && iv.value.ambientSettings.Some? then iv.value.ambientSettings.value
                           else old(ambientMode))
        && moodHistory == (if history.Some? then LoadHistory(history.value) else old(moodHistory))
        && journalEntry == "" && currentEmotion.None? && musicPlaying.None?
        && isAuthenticated == old(isAuthenticated) && userData == old(userData)
        && activeCategory == old(activeCategory) && isScanning == old(isScanning) && scanMode == old(scanMode)
    {
      if currentEmotion.None? {
        return None;
      }
      sent := Some(SubmissionOf(currentEmotion.value, scanMode, journalEntry));
      if response.None? {
        return;
      }
      var iv := response.value.intervention;
      if iv.Some? && iv.value.ambientSettings.Some? {
        ambientMode := iv.value.ambientSettings.value;
      }
      LoadUserData(history);
      journalEntry := "";
      currentEmotion := None;
      musicPlaying := None;
    }

    /** Choosing a care mode: once the server has answered (`answered`),
        whatever the answer, the category and the kept user's care mode
        become `c`; without an answer nothing changes. */
    method SelectCategory(c: CareMode, answered: bool)
      requires Valid()
      modifies this
      ensures Valid()
      ensures !answered ==> unchanged(this)
      ensures answered ==>
        && activeCategory == Some(c)
        && userData == (if old(userData).Some? then Some(old(userData).value.(careMode := Some(c))) else None)
        && isAuthenticated == old(isAuthenticated) && isScanning == old(isScanning)
        && currentEmotion == old(currentEmotion) && scanMode == old(scanMode) && moodHistory == old(moodHistory)
        && journalEntry == old(journalEntry) && musicPlaying == old(musicPlaying) && ambientMode == old(ambientMode)
    {
      if !answered {
        return;
      }
      activeCategory := Some(c);
      if userData.Some? {
        userData := Some(userData.value.(careMode := Some(c)));
      }
    }
  }
}
