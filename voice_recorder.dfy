/**
 * Model of the recording logic of components/VoiceRecorder.tsx: the flags
 * `granted`, `isRecording` and `isLoading`, and the handlers
 * `requestPermissions`, `record`, `stopRecording` and `toggleRecording`.
 * The permission dialog, the recorder, the MIME lookup and the transcription
 * request are inputs; the calls the component makes (speech stop, recorder,
 * upload, transcription callback, alerts) are recorded as events, in order.
 * `stopRecording` awaits the transcription request, so it is split in two:
 * up to the upload, and the reply to it; in between the upload is in flight.
 */
module VoiceRecorder {

  import opened Common

  /** A call the component makes to the outside. */
  datatype Event =
    | StopSpeaking                               // the stopSpeaking prop
    | PrepareRecorder                            // audioRecorder.prepareToRecordAsync()
    | StartRecorder                              // audioRecorder.record()
    | StopRecorder                               // audioRecorder.stop()
    | Upload(name: string, mimeType: string)     // getTextFromSpeech with the audio file
    | Transcribed(text: string)                  // the onTranscription prop
    | Alert(title: string, message: string)      // Alert.alert

  const PermissionTitle: string := "Permisos requeridos"
  const PermissionDenied: string := "Acceso al micrófono denegado."
  const ErrorTitle: string := "Error"
  const NoAudio: string := "No se detectó audio grabado"
  const RetryLater: string := "No se pudo procesar el audio, intentelo más tarde"
  const DefaultMimeType: string := "audio/mpeg"

  /** The three flags and the calls made so far. */
  datatype Recorder = Recorder(granted: bool, isRecording: bool, isLoading: bool, events: seq<Event>)

  // ---------------------------------------------------------------------------
  // The upload file

  /** `s.split(".").pop()`: the text after the last '.', or all of s when it has none. */
  function AfterLastDot(s: string): (ext: string)
    ensures '.' !in ext
    ensures |ext| <= |s| && s[|s| - |ext|..] == ext
    ensures |ext| < |s| ==> s[|s| - |ext| - 1] == '.'
    decreases |s|
  {
    if s == [] then []
    else if s[|s| - 1] == '.' then []
    else
      var init := AfterLastDot(s[..|s| - 1]);
      assert s[|s| - |init| - 1..] == s[..|s| - 1][|s| - 1 - |init|..] + [s[|s| - 1]];
      init + [s[|s| - 1]]
  }

  /** The `name` of the uploaded file: `audio.` followed by the extension of the URI. */
  function UploadName(uri: string): (name: string)
    // "audio." followed by a dot-free ending of the URI
    ensures |name| >= 6 && name[..6] == "audio." && '.' !in name[6..]
    ensures |name| - 6 <= |uri| && uri[|uri| - (|name| - 6)..] == name[6..]
  {
    var ext := AfterLastDot(uri);
    assert ("audio." + ext)[6..] == ext;
    "audio." + ext
  }

  /** The `type` of the uploaded file: `mime.getType(uri) || "audio/mpeg"`. */
  function UploadType(mimeType: Option<string>): string
  {
    if Truthy(mimeType) then mimeType.value else DefaultMimeType
  }

  // ---------------------------------------------------------------------------
  // The handlers, as functions of the component's state

  /** `requestPermissions()`, given the user's answer. */
  function AfterRequest(s: Recorder, answer: bool): (r: Recorder)
    ensures r.granted == answer && r.isRecording == s.isRecording && r.isLoading == s.isLoading
    // only a refusal makes a call: the alert
    ensures |s.events| <= |r.events| && r.events[..|s.events|] == s.events && (|r.events| == |s.events| <==> answer)
  {
    s.(granted := answer,
       events := s.events + (if answer then [] else [Alert(PermissionTitle, PermissionDenied)]))
  }

  /** `record()`; `prepareOk` says whether preparing the recorder succeeded. A failed
      preparation rejects the handler before the recorder starts. */
  function AfterRecord(s: Recorder, prepareOk: bool): (r: Recorder)
    ensures r.granted == s.granted && r.isLoading == s.isLoading
    // recording is on exactly when preparation worked (or it was on already)
    ensures r.isRecording == (prepareOk || s.isRecording)
    // speech is stopped first, then the recorder is prepared
    ensures |r.events| == |s.events| + (if prepareOk then 3 else 2)
    ensures r.events[..|s.events|] == s.events
    ensures r.events[|s.events|..|s.events| + 2] == [StopSpeaking, PrepareRecorder]
    // and, once prepared, the recorder is started
    ensures prepareOk ==> r.events[|s.events| + 2] == StartRecorder
  {
    if prepareOk then
      s.(isRecording := true, events := s.events + [StopSpeaking, PrepareRecorder, StartRecorder])
    else
      s.(events := s.events + [StopSpeaking, PrepareRecorder])
  }

  /** `stopRecording()` up to the upload: `stopOk` says whether the recorder stopped, `uri` is
      the recorder's URI afterwards and `mimeType` what the MIME lookup gives for it. */
  function AfterStop(s: Recorder, stopOk: bool, uri: Option<string>, mimeType: Option<string>): (r: Recorder)
    ensures r.granted == s.granted
    // the recording flag clears only once the recorder has stopped
    ensures r.isRecording <==> s.isRecording && !stopOk
    // the upload is in flight exactly when the recorder stopped and left a URI
    ensures r.isLoading <==> stopOk && Truthy(uri)
    // without a URI nothing is uploaded and the "no audio" alert is raised
    ensures stopOk && !Truthy(uri) ==> r.events == s.events + [StopRecorder, Alert(ErrorTitle, NoAudio)]
    ensures |r.events| == |s.events| + 2 && r.events[..|s.events|] == s.events
    ensures r.events[|s.events|] == StopRecorder
  {
    if !stopOk then
      s.(isLoading := false, events := s.events + [StopRecorder, Alert(ErrorTitle, RetryLater)])
    else if !Truthy(uri) then
      s.(isRecording := false, isLoading := false, events := s.events + [StopRecorder, Alert(ErrorTitle, NoAudio)])
    else
      s.(isRecording := false, isLoading := true,
         events := s.events + [StopRecorder, Upload(UploadName(uri.value), UploadType(mimeType))])
  }

  /** The rest of `stopRecording()`, once the transcription request answers. */
  function AfterUpload(s: Recorder, reply: Outcome<string>): (r: Recorder)
    // isLoading is reset whatever the reply, and no other flag changes
    ensures !r.isLoading && r.granted == s.granted && r.isRecording == s.isRecording
    // one call follows the reply of an upload in flight, none otherwise
    ensures |r.events| == |s.events| + (if s.isLoading then 1 else 0) && r.events[..|s.events|] == s.events
    // that call is onTranscription with the reply's text, or the retry-later alert on a rejection
    ensures s.isLoading && reply.Resolved? ==> r.events == s.events + [Transcribed(reply.value)]
    ensures s.isLoading && reply.Rejected? ==> r.events == s.events + [Alert(ErrorTitle, RetryLater)]
  {
    if !s.isLoading then s
    else
      match reply
      case Resolved(text) => s.(isLoading := false, events := s.events + [Transcribed(text)])
      case Rejected => s.(isLoading := false, events := s.events + [Alert(ErrorTitle, RetryLater)])
  }

  /** What a press of the button does. */
  datatype Action = Busy | Refused | Start | Stop

  /** The branch `toggleRecording` takes; `answer` is used only when permission is requested. */
  function ToggleAction(s: Recorder, answer: bool): (a: Action)
    ensures a == Busy <==> s.isLoading
    // a press starts or stops only with permission, given before or just now
    ensures a == Start || a == Stop ==> s.granted || answer
  {
    if s.isLoading then Busy
    else if !s.granted && !answer then Refused
    else if s.isRecording then Stop
    else Start
  }

  /** `toggleRecording()`, with the inputs of whichever handlers it reaches. */
  function AfterToggle(s: Recorder, answer: bool, prepareOk: bool, stopOk: bool,
                       uri: Option<string>, mimeType: Option<string>): (r: Recorder)
    // while the upload is in flight a press does nothing at all
    ensures s.isLoading ==> r == s
    // calls are only ever added after the earlier ones
    ensures |s.events| <= |r.events| && r.events[..|s.events|] == s.events
    // a press that starts or stops leaves the permission granted
    ensures ToggleAction(s, answer) == Start || ToggleAction(s, answer) == Stop ==> r.granted
  {
    if s.isLoading then s
    else
      var t := if s.granted then s else AfterRequest(s, answer);
      if !t.granted then t
      else if t.isRecording then AfterStop(t, stopOk, uri, mimeType)
      else AfterRecord(t, prepareOk)
  }

  // ---------------------------------------------------------------------------
  // The component

  class RecorderButton {
    var granted: bool
    var isRecording: bool
    var isLoading: bool
    var events: seq<Event>

    function State(): Recorder
      reads this
    {
      Recorder(granted, isRecording, isLoading, events)
    }

    /** The initial `useState` values. */
    constructor ()
      ensures State() == Recorder(false, false, false, [])
    {
      granted := false;
      isRecording := false;
      isLoading := false;
      events := [];
    }

    /** The mount effect: the current permission status is read. */
    method LoadPermission(status: bool)
      modifies this`granted
      ensures granted == status
    {
      granted := status;
    }

    method RequestPermissions(answer: bool) returns (ok: bool)
      modifies this`granted, this`events
      ensures ok == answer
      ensures State() == AfterRequest(old(State()), answer)
    {
      if !answer {
        events := events + [Alert(PermissionTitle, PermissionDenied)];
      }
      granted := answer;
      ok := answer;
    }

    method Record(prepareOk: bool)
      modifies this`isRecording, this`events
      ensures State() == AfterRecord(old(State()), prepareOk)
    {
      events := events + [StopSpeaking];
      events := events + [PrepareRecorder];
      if !prepareOk {
        return;
      }
      events := events + [StartRecorder];
      isRecording := true;
    }

    method StopRecording(stopOk: bool, uri: Option<string>, mimeType: Option<string>)
      modifies this`isRecording, this`isLoading, this`events
      ensures State() == AfterStop(old(State()), stopOk, uri, mimeType)
    {
      events := events + [StopRecorder];
      if !stopOk {
        events := events + [Alert(ErrorTitle, RetryLater)];
        isLoading := false;
        return;
      }
      isRecording := false;
      if !Truthy(uri) {
        events := events + [Alert(ErrorTitle, NoAudio)];
        isLoading := false;
        return;
      }
      isLoading := true;
      events := events + [Upload(UploadName(uri.value), UploadType(mimeType))];
    }

    /** The transcription request answers. */
    method FinishUpload(reply: Outcome<string>)
      modifies this`isLoading, this`events
      ensures State() == AfterUpload(old(State()), reply)
    {
      if !isLoading {
        return;
      }
      match reply {
        case Resolved(text) =>
          events := events + [Transcribed(text)];
        case Rejected =>
          events := events + [Alert(ErrorTitle, RetryLater)];
      }
      isLoading := false;
    }

    method ToggleRecording(answer: bool, prepareOk: bool, stopOk: bool, uri: Option<string>,
                           mimeType: Option<string>) returns (action: Action)
      modifies this
      ensures action == ToggleAction(old(State()), answer)
      ensures State() == AfterToggle(old(State()), answer, prepareOk, stopOk, uri, mimeType)
    {
      if isLoading {
        return Busy;
      }
      if !granted {
        var ok := RequestPermissions(answer);
        if !ok {
          return Refused;
        }
      }
      if isRecording {
        StopRecording(stopOk, uri, mimeType);
        action := Stop;
      } else {
        Record(prepareOk);
        action := Start;
      }
    }
  }

  // ---------------------------------------------------------------------------
  // Lemmas

  /** AfterLastDot is the only suffix without '.' that is all of s or follows a '.'. */
  lemma {:induction false} AfterLastDotUnique(s: string, e: string)
    requires '.' !in e
    requires |e| <= |s| && s[|s| - |e|..] == e
    requires |e| < |s| ==> s[|s| - |e| - 1] == '.'
    ensures AfterLastDot(s) == e
  {
    var ext := AfterLastDot(s);
    assert |ext| == |e|;
  }

  /** The upload name carries the URI's extension: the text after its last '.'. */
  lemma UploadNameOfExtension(path: string, ext: string)
    requires '.' !in ext
    ensures UploadName(path + "." + ext) == "audio." + ext
  {
    var s := path + "." + ext;
    assert s[|s| - |ext|..] == ext;
    assert s[|s| - |ext| - 1] == '.';
    AfterLastDotUnique(s, ext);
  }

  /** A URI without '.' is used whole as the extension. */
  lemma UploadNameWithoutDot(uri: string)
    requires '.' !in uri
    ensures UploadName(uri) == "audio." + uri
  {
    assert uri[0..] == uri;
    AfterLastDotUnique(uri, uri);
  }

  /** Without permission, a refused request raises the alert, records granted = false and
      neither starts nor stops anything. */
  lemma RefusedPermissionAborts(s: Recorder, prepareOk: bool, stopOk: bool,
                                uri: Option<string>, mimeType: Option<string>)
    requires !s.isLoading && !s.granted
    ensures ToggleAction(s, false) == Refused
    ensures AfterToggle(s, false, prepareOk, stopOk, uri, mimeType) ==
      s.(events := s.events + [Alert(PermissionTitle, PermissionDenied)])
  {
  }

  /** A press while recording stops the recording, otherwise it starts one. */
  lemma ToggleStopsOrStarts(s: Recorder, answer: bool, prepareOk: bool, stopOk: bool,
                            uri: Option<string>, mimeType: Option<string>)
    requires !s.isLoading && (s.granted || answer)
    ensures var t := AfterToggle(s, answer, prepareOk, stopOk, uri, mimeType);
      && (s.isRecording ==> ToggleAction(s, answer) == Stop && t.events[|s.events|] == StopRecorder)
      && (!s.isRecording ==> ToggleAction(s, answer) == Start && t.events[|s.events|] == StopSpeaking)
  {
  }

  /** Whatever the recorder and the transcription request do, stopping ends with isLoading
      false; onTranscription is called exactly when every step succeeded; a failed stop or a
      failed request ends with the retry-later alert, and a missing URI with the no-audio alert. */
  lemma StopAlwaysEndsIdle(s: Recorder, stopOk: bool, uri: Option<string>, mimeType: Option<string>,
                           reply: Outcome<string>)
    ensures var t := AfterUpload(AfterStop(s, stopOk, uri, mimeType), reply);
      && !t.isLoading
      && |t.events| == |s.events| + (if stopOk && Truthy(uri) then 3 else 2)
      && (t.events[|t.events| - 1].Transcribed? <==> stopOk && Truthy(uri) && reply.Resolved?)
      && (stopOk && Truthy(uri) && reply.Resolved? ==> t.events[|t.events| - 1] == Transcribed(reply.value))
      && (t.events[|t.events| - 1] == Alert(ErrorTitle, RetryLater) <==> !stopOk || (Truthy(uri) && reply.Rejected?))
  {
  }

  /** With a URI, the upload names the file by the URI's extension and falls back to audio/mpeg. */
  lemma UploadedFile(s: Recorder, uri: string, mimeType: Option<string>)
    requires uri != ""
    ensures AfterStop(s, true, Some(uri), mimeType).events ==
      s.events + [StopRecorder, Upload("audio." + AfterLastDot(uri), if Truthy(mimeType) then mimeType.value else "audio/mpeg")]
  {
  }
}
