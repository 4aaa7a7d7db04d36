/**
 * The audio-input part of the page script (static/script.js): which audio
 * source is held, whether the user is logged in, the microphone recorder and
 * its timer, and the analyze button's enabled flag. Each event handler is a
 * method; what it does to the DOM is left out, what it does to these
 * variables is stated in full.
 */
module AnalyzerPage {
  import opened Optional
  import RecordingTimer

  datatype AudioFile = AudioFile(name: string)
  type Chunk = seq<bv8>
  /** The Blob built from the recorded chunks. */
  datatype Blob = Blob(chunks: seq<Chunk>, mimeType: string)

  /** `mediaRecorder` not yet created, or its `state`. */
  datatype RecorderState = NoRecorder | Recording | Inactive

  /** What the analyze action puts in the request's `audio` field. */
  datatype AudioSource = UploadedFile(file: AudioFile) | RecordedAudio(blob: Blob)

  /** A snapshot of every page variable, to state "everything else stays the same". */
  datatype PageState = PageState(
    isUserLoggedIn: bool,
    selectedAudioFile: Option<AudioFile>,
    recordedAudioBlob: Option<Blob>,
    recorder: RecorderState,
    pendingStopEvents: nat,
    audioChunks: seq<Chunk>,
    seconds: nat,
    timerRunning: bool,
    analyzeEnabled: bool)

  /** The rule updateAnalyzeButtonState applies. */
  predicate AnalyzeAllowed(s: PageState)
  {
    s.isUserLoggedIn && (s.selectedAudioFile.Some? || s.recordedAudioBlob.Some?)
  }

  /** The source the analyze action picks: the uploaded file first, else the recording. */
  function SourceToAnalyze(s: PageState): (src: Option<AudioSource>)
    ensures src.None? <==> s.selectedAudioFile.None? && s.recordedAudioBlob.None?
    ensures s.selectedAudioFile.Some? ==> src == Some(UploadedFile(s.selectedAudioFile.value))
    ensures s.selectedAudioFile.None? && s.recordedAudioBlob.Some? ==>
      src == Some(RecordedAudio(s.recordedAudioBlob.value))
  {
    match s.selectedAudioFile
    case Some(f) => Some(UploadedFile(f))
    case None =>
      match s.recordedAudioBlob
      case Some(b) => Some(RecordedAudio(b))
      case None => None
  }

  /** A source is on offer exactly when the analyze rule's second half holds. */
  lemma SourceExistsIffAllowedWhenLoggedIn(s: PageState)
    requires s.isUserLoggedIn
    ensures SourceToAnalyze(s).Some? <==> AnalyzeAllowed(s)
  {
  }

  class Page {
    var isUserLoggedIn: bool
    var selectedAudioFile: Option<AudioFile>
    var recordedAudioBlob: Option<Blob>
    var recorder: RecorderState
    /** Recorders that were told to stop and whose `onstop` has not run yet. */
    var pendingStopEvents: nat
    var audioChunks: seq<Chunk>
    var seconds: nat
    /** Whether the one-second timer interval is installed. */
    var timerRunning: bool
    /** `!analyzeVoiceBtn.disabled`: the flag as last written, which may lag the state. */
    var analyzeEnabled: bool

    function State(): PageState
      reads this
    {
      PageState(isUserLoggedIn, selectedAudioFile, recordedAudioBlob, recorder,
                pendingStopEvents, audioChunks, seconds, timerRunning, analyzeEnabled)
    }

    /**
     * What the handlers keep true of the flag: it is never on while logged out,
     * never off when the rule allows analysis, and it is on without a source
     * only while a recording is under way (the record handler clears the
     * previous recording without recomputing the button).
     */
    predicate Valid()
      reads this
    {
      (analyzeEnabled ==> isUserLoggedIn)
      && (AnalyzeAllowed(State()) ==> analyzeEnabled)
      && (analyzeEnabled && !AnalyzeAllowed(State()) ==> recorder == Recording || pendingStopEvents > 0)
    }

    /** Page load: logged out, nothing selected, then updateAnalyzeButtonState. */
    constructor ()
      ensures Valid()
      ensures State() == PageState(false, None, None, NoRecorder, 0, [], 0, false, false)
    {
      isUserLoggedIn := false;
      selectedAudioFile := None;
      recordedAudioBlob := None;
      recorder := NoRecorder;
      pendingStopEvents := 0;
      audioChunks := [];
      seconds := 0;
      timerRunning := false;
      analyzeEnabled := false;
    }

    /** updateAnalyzeButtonState. */
    method UpdateAnalyzeButtonState()
      modifies this
      ensures State() == old(State()).(analyzeEnabled := AnalyzeAllowed(old(State())))
      ensures analyzeEnabled <==> isUserLoggedIn && (selectedAudioFile.Some? || recordedAudioBlob.Some?)
    {
      analyzeEnabled := isUserLoggedIn && (selectedAudioFile.Some? || recordedAudioBlob.Some?);
    }

    /**
     * checkUserLoginStatus: logged in exactly when the reply carries a
     * non-empty `user_email`; a failed request (None) counts as logged out.
     * The audio sources are kept; the button is recomputed.
     */
    method RefreshLoginStatus(userEmail: Option<string>)
      requires Valid()
      modifies this
      ensures Valid()
      ensures isUserLoggedIn <==> userEmail.Some? && userEmail.value != ""
      ensures State() == old(State()).(isUserLoggedIn := isUserLoggedIn, analyzeEnabled := AnalyzeAllowed(State()))
    {
      isUserLoggedIn := userEmail.Some? && userEmail.value != "";
      UpdateAnalyzeButtonState();
    }

    /**
     * The file input's change event. Logged out: nothing changes (the input
     * element is emptied, the variables are not, the button is not
     * recomputed). Logged in with a file: it becomes the selection and the
     * recording is dropped. Logged in with no file: the selection is cleared
     * and the recording kept.
     */
    method FileInputChanged(files: seq<AudioFile>)
      requires Valid()
      modifies this
      ensures Valid()
      ensures !old(isUserLoggedIn) ==> State() == old(State())
      ensures old(isUserLoggedIn) && |files| > 0 ==>
        State() == old(State()).(selectedAudioFile := Some(files[0]), recordedAudioBlob := None,
                                 analyzeEnabled := true)
      ensures old(isUserLoggedIn) && |files| == 0 ==>
        State() == old(State()).(selectedAudioFile := None, analyzeEnabled := old(recordedAudioBlob).Some?)
    {
      if !isUserLoggedIn {
        return;
      }
      if |files| > 0 {
        selectedAudioFile := Some(files[0]);
        recordedAudioBlob := None;
      } else {
        selectedAudioFile := None;
      }
      UpdateAnalyzeButtonState();
    }

    /** The clear-file button: the selection goes, the recording stays. */
    method ClearFileClicked()
      requires Valid()
      modifies this
      ensures Valid()
      ensures State() == old(State()).(selectedAudioFile := None,
                                       analyzeEnabled := isUserLoggedIn && recordedAudioBlob.Some?)
    {
      selectedAudioFile := None;
      UpdateAnalyzeButtonState();
    }

    /**
     * The record button. Logged out, or microphone access refused: nothing
     * changes. Otherwise a new recorder starts with no chunks, the previous
     * recording is dropped and the timer restarts from 0; the uploaded file
     * is NOT cleared and the button is NOT recomputed.
     */
    method RecordClicked(microphoneGranted: bool)
      requires Valid()
      modifies this
      ensures Valid()
      ensures !old(isUserLoggedIn) || !microphoneGranted ==> State() == old(State())
      ensures old(isUserLoggedIn) && microphoneGranted ==>
        State() == old(State()).(recorder := Recording, audioChunks := [], recordedAudioBlob := None,
                                 seconds := 0, timerRunning := true)
    {
      if !isUserLoggedIn || !microphoneGranted {
        return;
      }
      recorder := Recording;
      audioChunks := [];
      recordedAudioBlob := None;
      seconds := 0;
      timerRunning := true;
    }

    /** The recorder's `ondataavailable`: the chunk is appended to the current chunk list. */
    method OnDataAvailable(chunk: Chunk)
      requires Valid()
      modifies this
      ensures Valid()
      ensures State() == old(State()).(audioChunks := old(audioChunks) + [chunk])
    {
      audioChunks := audioChunks + [chunk];
    }

    /**
     * The stop button: acts only while the recorder is recording. The
     * recording itself appears later, at the recorder's stop event.
     */
    method StopClicked()
      requires Valid()
      modifies this
      ensures Valid()
      ensures old(recorder) != Recording ==> State() == old(State())
      ensures old(recorder) == Recording ==>
        State() == old(State()).(recorder := Inactive, pendingStopEvents := old(pendingStopEvents) + 1,
                                 timerRunning := false)
    {
      if recorder == Recording {
        recorder := Inactive;
        pendingStopEvents := pendingStopEvents + 1;
        timerRunning := false;
      }
    }

    /**
     * The recorder's `onstop`, which the browser delivers only after a stop:
     * the chunks gathered so far become the recording and the button is
     * recomputed.
     */
    method OnRecorderStop()
      requires Valid()
      requires pendingStopEvents > 0
      modifies this
      ensures Valid()
      ensures recordedAudioBlob == Some(Blob(old(audioChunks), "audio/wav"))
      ensures State() == old(State()).(recordedAudioBlob := recordedAudioBlob,
                                       pendingStopEvents := old(pendingStopEvents) - 1,
                                       analyzeEnabled := isUserLoggedIn)
    {
      recordedAudioBlob := Some(Blob(audioChunks, "audio/wav"));
      pendingStopEvents := pendingStopEvents - 1;
      UpdateAnalyzeButtonState();
    }

    /** One tick of the timer interval: the count goes up and its text is shown. */
    method TimerTick() returns (text: string)
      requires Valid()
      requires timerRunning
      modifies this
      ensures Valid()
      ensures State() == old(State()).(seconds := old(seconds) + 1)
      ensures text == RecordingTimer.TimerText(seconds)
    {
      seconds := seconds + 1;
      text := RecordingTimer.TimerText(seconds);
    }

    /** The clear-recording button: the recording goes, the file stays. */
    method ClearRecordingClicked()
      requires Valid()
      modifies this
      ensures Valid()
      ensures State() == old(State()).(recordedAudioBlob := None,
                                       analyzeEnabled := isUserLoggedIn && selectedAudioFile.Some?)
    {
      recordedAudioBlob := None;
      UpdateAnalyzeButtonState();
    }

    /**
     * The analyze button (a disabled button delivers no click). The file is
     * sent if there is one, else the recording; with neither, no request is
     * made. The request itself is left out; when one is made the button ends
     * up enabled again, whatever its outcome.
     */
    method AnalyzeClicked() returns (sent: Option<AudioSource>)
      requires Valid()
      requires analyzeEnabled
      modifies this
      ensures Valid()
      ensures sent == SourceToAnalyze(old(State()))
      ensures State() == old(State())
    {
      if selectedAudioFile.Some? {
        sent := Some(UploadedFile(selectedAudioFile.value));
      } else if recordedAudioBlob.Some? {
        sent := Some(RecordedAudio(recordedAudioBlob.value));
      } else {
        sent := None;
        return;
      }
      // Disabled for the duration of the request, enabled again in its `finally`.
      analyzeEnabled := true;
    }
  }

  /**
   * Exclusivity runs one way only: a file chosen before a recording survives
   * it, and the analyze action then sends the file, not the newer recording.
   */
  method FileSurvivesRecording(file: AudioFile, chunk: Chunk, email: string)
    returns (bothHeld: bool, sent: Option<AudioSource>)
    requires email != ""
    ensures bothHeld
    ensures sent == Some(UploadedFile(file))
  {
    var page := new Page();
    page.RefreshLoginStatus(Some(email));
    page.FileInputChanged([file]);
    page.RecordClicked(true);
    page.OnDataAvailable(chunk);
    page.StopClicked();
    page.OnRecorderStop();
    bothHeld := page.selectedAudioFile.Some? && page.recordedAudioBlob.Some?;
    sent := page.AnalyzeClicked();
  }

  /** The other direction does clear: choosing a file drops an existing recording. */
  method FileReplacesRecording(file: AudioFile, chunk: Chunk, email: string)
    returns (recordingHeld: bool, sent: Option<AudioSource>)
    requires email != ""
    ensures !recordingHeld
    ensures sent == Some(UploadedFile(file))
  {
    var page := new Page();
    page.RefreshLoginStatus(Some(email));
    page.RecordClicked(true);
    page.OnDataAvailable(chunk);
    page.StopClicked();
    page.OnRecorderStop();
    page.FileInputChanged([file]);
    recordingHeld := page.recordedAudioBlob.Some?;
    sent := page.AnalyzeClicked();
  }

  /**
   * Starting a second recording leaves the analyze button enabled with no
   * source behind it; clicking it then sends nothing.
   */
  method StaleAnalyzeButton(chunk: Chunk, email: string)
    returns (enabled: bool, allowed: bool, sent: Option<AudioSource>)
    requires email != ""
    ensures enabled && !allowed
    ensures sent.None?
  {
    var page := new Page();
    page.RefreshLoginStatus(Some(email));
    page.RecordClicked(true);
    page.OnDataAvailable(chunk);
    page.StopClicked();
    page.OnRecorderStop();
    page.RecordClicked(true);
    enabled := page.analyzeEnabled;
    allowed := AnalyzeAllowed(page.State());
    sent := page.AnalyzeClicked();
  }

  /** Logging out disables analysis but keeps the held sources. */
  method LogoutKeepsSources(file: AudioFile, email: string)
    returns (enabled: bool, fileHeld: bool)
    requires email != ""
    ensures !enabled && fileHeld
  {
    var page := new Page();
    page.RefreshLoginStatus(Some(email));
    page.FileInputChanged([file]);
    page.RefreshLoginStatus(None);
    enabled := page.analyzeEnabled;
    fileHeld := page.selectedAudioFile == Some(file);
  }
}
