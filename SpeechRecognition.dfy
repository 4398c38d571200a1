/** The `useSpeechRecognition` hook: a listening indicator and a transcript
    driven by the browser's recognition engine. The engine is not modelled
    beyond two facts the hook depends on: whether one was created, and
    whether it is capturing audio (its `start()` succeeded and it has not
    fired `end` since). The permission prompt and a throwing `start()` are
    parameters. */
module SpeechRecognition {
  import opened JsValues

  const AccessDenied := "Microphone access denied."
  const DeniedMessage := AccessDenied + " Please enable microphone permissions."
  const NotAllowedMessage := AccessDenied + " Please enable microphone permissions in your browser settings."
  const NetworkMessage := "Network error occurred." + " Please check your internet connection."
  const AudioCaptureMessage := "Audio capture failed." + " Please check your microphone."
  const ServiceMessage := "Speech recognition service not allowed."
  const GenericPrefix := "Speech recognition error: "
  const StartFailedPrefix := "Failed to start speech recognition: "
  const NotSupportedMessage := "Speech recognition is not supported in this browser"
  const InsecureMessage := "Speech recognition requires a secure context (HTTPS)"

  /** The hook's state, its two refs, and the engine's. */
  datatype Listener = Listener(
    hasEngine: bool,        // recognitionRef.current is set
    capturing: bool,        // the engine is running
    manuallyStopped: bool,  // isManuallyStoppedRef.current
    listening: bool,        // isListening
    transcript: string,
    error: Option<string>,
    permission: bool)       // hasMicrophonePermission

  /** What `onResult(transcript, isFinal)` receives. */
  datatype Delivery = Delivery(transcript: string, isFinal: bool)

  /** HTTPS, or one of the two loopback host names. */
  predicate SecureContext(protocol: string, hostname: string)
  {
    protocol == "https:" || hostname == "localhost" || hostname == "127.0.0.1"
  }

  /** The state after mounting: the initial `useState` values, then the
      effect, which either reports why no engine can exist or creates one. */
  function Mounted(supported: bool, protocol: string, hostname: string): (s: Listener)
    ensures !s.listening && !s.capturing && !s.manuallyStopped && !s.permission && s.transcript == ""
    ensures s.hasEngine <==> supported && SecureContext(protocol, hostname)
    ensures !supported ==> s.error == Some(NotSupportedMessage)
    ensures supported && !SecureContext(protocol, hostname) ==> s.error == Some(InsecureMessage)
    ensures s.hasEngine ==> s.error.None?
  {
    var initial := Listener(false, false, false, false, "", None, false);
    if !supported then initial.(error := Some(NotSupportedMessage))
    else if !SecureContext(protocol, hostname) then initial.(error := Some(InsecureMessage))
    else initial.(hasEngine := true)
  }

  /** `startRecognition` as written. `granted` is the outcome of the
      microphone prompt and `failure` the message `start()` throws, if any. */
  function Started(s: Listener, granted: bool, failure: Option<string>): Listener
  {
    if !s.hasEngine then s
    else if s.manuallyStopped then s.(manuallyStopped := false, listening := true)
    else if !granted then s.(error := Some(DeniedMessage), permission := false)
    else match failure
      case None => s.(permission := true, manuallyStopped := false, listening := true, capturing := true, error := None)
      case Some(m) => s.(permission := true, manuallyStopped := false, listening := false,
                         error := Some(StartFailedPrefix + m))
  }

  /** `stopRecognition`: raises the flag and clears the indicator; the
      engine is left running. */
  function Stopped(s: Listener): Listener
  {
    if !s.hasEngine then s else s.(manuallyStopped := true, listening := false)
  }

  /** `onresult`: ignored while manually stopped. */
  function Heard(s: Listener, text: string): Listener
  {
    if s.manuallyStopped then s else s.(transcript := text)
  }

  /** The call `onresult` makes to the `onResult` option, if one was given. */
  function Delivered(s: Listener, text: string, isFinal: bool, hasCallback: bool): Option<Delivery>
  {
    if s.manuallyStopped || !hasCallback then None else Some(Delivery(text, isFinal))
  }

  /** The message `onerror` shows for an error code other than "no-speech";
      `None` for "aborted", which only logs. */
  function ErrorMessage(code: string): Option<string>
  {
    if code == "not-allowed" then Some(NotAllowedMessage)
    else if code == "aborted" then None
    else if code == "network" then Some(NetworkMessage)
    else if code == "audio-capture" then Some(AudioCaptureMessage)
    else if code == "service-not-allowed" then Some(ServiceMessage)
    else Some(GenericPrefix + code)
  }

  /** `onerror`. */
  function Failed(s: Listener, code: string): Listener
  {
    if code == "no-speech" then s
    else
      var message := ErrorMessage(code);
      s.(error := if message.Some? then message else s.error,
         permission := if code == "not-allowed" then false else s.permission,
         listening := false)
  }

  /** `onend`: the engine has stopped. */
  function Ended(s: Listener): Listener
  {
    s.(listening := false, capturing := false)
  }

  /** The indicator is only on with an engine that was not stopped by hand,
      and without an engine there is nothing running or stopped. */
  predicate Consistent(s: Listener)
  {
    && (s.listening ==> s.hasEngine && !s.manuallyStopped)
    && (!s.hasEngine ==> !s.capturing && !s.manuallyStopped)
  }

  lemma StepsKeepConsistent(s: Listener, granted: bool, failure: Option<string>, text: string, code: string)
    requires Consistent(s)
    ensures Consistent(Started(s, granted, failure))
    ensures Consistent(Stopped(s)) && Consistent(Heard(s, text))
    ensures Consistent(Failed(s, code)) && Consistent(Ended(s))
  {
  }

  lemma MountedConsistent(supported: bool, protocol: string, hostname: string)
    ensures Consistent(Mounted(supported, protocol, hostname))
  {
  }

  /** Start and stop do nothing when no engine was created. */
  lemma NoEngineNoOp(s: Listener, granted: bool, failure: Option<string>)
    requires !s.hasEngine
    ensures Started(s, granted, failure) == s && Stopped(s) == s
  {
  }

  /** Stop raises the flag and turns the indicator off, and does not stop
      the engine: a running engine keeps running. */
  lemma StopLeavesEngineRunning(s: Listener)
    requires s.hasEngine
    ensures var t := Stopped(s);
      t.manuallyStopped && !t.listening && t.capturing == s.capturing
      && t.transcript == s.transcript && t.error == s.error && t.permission == s.permission
  {
  }

  /** After a manual stop, start clears the flag and turns the indicator on
      whatever the permission prompt or the engine would have done, and
      touches nothing else. */
  lemma ResumeSkipsPermission(s: Listener, g1: bool, f1: Option<string>, g2: bool, f2: Option<string>)
    requires s.hasEngine && s.manuallyStopped
    ensures Started(s, g1, f1) == Started(s, g2, f2)
    ensures var t := Started(s, g1, f1);
      t.listening && !t.manuallyStopped && t.capturing == s.capturing
      && t.error == s.error && t.permission == s.permission
  {
  }

  /** A refused prompt leaves the indicator as it was, shows the denial
      and records that there is no permission. */
  lemma DeniedStart(s: Listener, failure: Option<string>)
    requires s.hasEngine && !s.manuallyStopped
    ensures var t := Started(s, false, failure);
      t.listening == s.listening && t.capturing == s.capturing
      && t.error == Some(DeniedMessage) && !t.permission
  {
  }

  /** A granted start either runs the engine with the indicator on and the
      error cleared, or reports the thrown message with the indicator off. */
  lemma GrantedStart(s: Listener, failure: Option<string>)
    requires s.hasEngine && !s.manuallyStopped
    ensures var t := Started(s, true, failure);
      && t.permission && !t.manuallyStopped
      && (t.listening <==> failure.None?)
      && (failure.None? ==> t.capturing && t.error.None?)
      && (failure.Some? ==> t.error == Some(StartFailedPrefix + failure.value))
  {
  }

  /** Results are ignored while manually stopped; otherwise the transcript
      is replaced and the callback, if any, gets the text and finality. */
  lemma ResultGating(s: Listener, text: string, isFinal: bool, hasCallback: bool)
    ensures s.manuallyStopped ==> Heard(s, text) == s && Delivered(s, text, isFinal, hasCallback).None?
    ensures !s.manuallyStopped ==>
      && Heard(s, text) == s.(transcript := text)
      && (Delivered(s, text, isFinal, hasCallback).Some? <==> hasCallback)
      && (hasCallback ==> Delivered(s, text, isFinal, hasCallback).value == Delivery(text, isFinal))
  {
  }

  /** "no-speech" changes nothing. Every other code turns the indicator off;
      "aborted" keeps the previous message, "not-allowed" also withdraws the
      permission, and every code but "aborted" shows its message. */
  lemma ErrorHandling(s: Listener, code: string)
    ensures code == "no-speech" ==> Failed(s, code) == s
    ensures code != "no-speech" ==>
      var t := Failed(s, code);
      && !t.listening && t.capturing == s.capturing && t.transcript == s.transcript
      && (code == "aborted" ==> t.error == s.error)
      && (code != "aborted" ==> t.error.Some? && t.error == ErrorMessage(code))
      && (t.permission <==> s.permission && code != "not-allowed")
  {
  }

  /** Distinct codes show distinct messages, so the message names the code. */
  lemma ErrorMessagesDistinct(c1: string, c2: string)
    requires ErrorMessage(c1).Some? && ErrorMessage(c1) == ErrorMessage(c2)
    ensures c1 == c2
  {
    var m := ErrorMessage(c1).value;
    if IsNamedCode(c1) || IsNamedCode(c2) {
      if !IsNamedCode(c1) {
        NamedNotGeneric(c2, c1);
      } else if !IsNamedCode(c2) {
        NamedNotGeneric(c1, c2);
      }
    } else {
      assert m == GenericPrefix + c1 && m == GenericPrefix + c2;
      assert c1 == m[|GenericPrefix|..] == c2;
    }
  }

  predicate IsNamedCode(code: string)
  {
    code == "not-allowed" || code == "network" || code == "audio-capture" || code == "service-not-allowed"
  }

  /** No fixed message starts like the generic one. */
  lemma NamedNotGeneric(named: string, other: string)
    requires IsNamedCode(named)
    ensures ErrorMessage(named) != Some(GenericPrefix + other)
  {
    var g := GenericPrefix + other;
    assert g[0] == 'S' && g[19] == 'e';
    if named == "service-not-allowed" {
      assert ServiceMessage[19] == 's';
    } else {
      assert NotAllowedMessage[0] == 'M' && NetworkMessage[0] == 'N' && AudioCaptureMessage[0] == 'A';
    }
  }

  /** The end event turns the indicator off and stops the engine. */
  lemma EndStopsEverything(s: Listener)
    ensures !Ended(s).listening && !Ended(s).capturing
    ensures Ended(s).manuallyStopped == s.manuallyStopped && Ended(s).error == s.error
  {
  }

  // ---------------------------------------------------------------------
  // The indicator can claim to listen with nothing running

  /** The indicator is on only while the engine captures audio. */
  predicate Honest(s: Listener)
  {
    s.listening ==> s.capturing
  }

  /** Start as written breaks it: start, stop by hand, the engine ends (it
      times out, or the network drops), start again. The resume branch
      turns the indicator on without starting the engine. */
  lemma ResumeAfterEndIsNotListening()
    ensures var s0 := Mounted(true, "https:", "example.com");
      var s1 := Started(s0, true, None);
      var s4 := Started(Ended(Stopped(s1)), true, None);
      Honest(s1) && s4.listening && !s4.capturing
  {
  }

  /** Start as intended: resume only an engine that is still running, and
      otherwise go through the prompt and `start()` again. */
  function StartedFixed(s: Listener, granted: bool, failure: Option<string>): Listener
  {
    if !s.hasEngine then s
    else if s.manuallyStopped && s.capturing then s.(manuallyStopped := false, listening := true)
    else if !granted then s.(error := Some(DeniedMessage), permission := false)
    else match failure
      case None => s.(permission := true, manuallyStopped := false, listening := true, capturing := true, error := None)
      case Some(m) => s.(permission := true, manuallyStopped := false, listening := false,
                         error := Some(StartFailedPrefix + m))
  }

  /** With the corrected start every step keeps the indicator honest, and
      it still agrees with the original whenever the engine is running. */
  lemma FixedKeepsHonest(s: Listener, granted: bool, failure: Option<string>, text: string, code: string)
    requires Honest(s)
    ensures Honest(StartedFixed(s, granted, failure))
    ensures Honest(Stopped(s)) && Honest(Heard(s, text)) && Honest(Failed(s, code)) && Honest(Ended(s))
    ensures s.capturing ==> StartedFixed(s, granted, failure) == Started(s, granted, failure)
  {
  }

  /** The hook instance: the state React keeps, plus the engine. */
  class SpeechHook {
    var hasEngine: bool
    var capturing: bool
    var manuallyStopped: bool
    var listening: bool
    var transcript: string
    var error: Option<string>
    var permission: bool

    function State(): Listener
      reads this
    {
      Listener(hasEngine, capturing, manuallyStopped, listening, transcript, error, permission)
    }

    ghost predicate Valid()
      reads this
    {
      Consistent(State())
    }

    /** First render and the mount effect. */
    constructor Mount(supported: bool, protocol: string, hostname: string)
      ensures Valid()
      ensures State() == Mounted(supported, protocol, hostname)
    {
      hasEngine, capturing, manuallyStopped, listening := false, false, false, false;
      transcript, error, permission := "", None, false;
      if !supported {
        error := Some(NotSupportedMessage);
      } else if protocol != "https:" && hostname != "localhost" && hostname != "127.0.0.1" {
        error := Some(InsecureMessage);
      } else {
        hasEngine := true;
      }
    }

    /** `checkMicrophonePermission`, given the prompt's outcome. */
    method CheckPermission(granted: bool) returns (ok: bool)
      modifies this
      ensures ok == granted
      ensures granted ==> State() == old(State()).(permission := true)
      ensures !granted ==> State() == old(State()).(error := Some(DeniedMessage), permission := false)
    {
      if granted {
        permission := true;
        return true;
      }
      error := Some(DeniedMessage);
      permission := false;
      return false;
    }

    /** `startRecognition`. */
    method Start(granted: bool, failure: Option<string>)
      requires Valid()
      modifies this
      ensures Valid()
      ensures State() == Started(old(State()), granted, failure)
    {
      if !hasEngine {
        return;
      }
      if manuallyStopped {
        manuallyStopped := false;
        listening := true;
        return;
      }
      var hasPermission := CheckPermission(granted);
      if !hasPermission {
        return;
      }
      manuallyStopped := false;
      listening := true;
      if failure.Some? {
        error := Some(StartFailedPrefix + failure.value);
        listening := false;
        return;
      }
      capturing := true;
      error := None;
    }

    /** `stopRecognition`. */
    method Stop()
      requires Valid()
      modifies this
      ensures Valid()
      ensures State() == Stopped(old(State()))
    {
      if !hasEngine {
        return;
      }
      manuallyStopped := true;
      listening := false;
    }

    /** `recognition.onresult` for the result at `resultIndex`. */
    method OnResult(text: string, isFinal: bool, hasCallback: bool) returns (delivered: Option<Delivery>)
      requires Valid()
      modifies this
      ensures Valid()
      ensures State() == Heard(old(State()), text)
      ensures delivered == Delivered(old(State()), text, isFinal, hasCallback)
    {
      if manuallyStopped {
        return None;
      }
      transcript := text;
      delivered := None;
      if hasCallback {
        delivered := Some(Delivery(text, isFinal));
      }
    }

    /** `recognition.onerror`. */
    method OnError(code: string)
      requires Valid()
      modifies this
      ensures Valid()
      ensures State() == Failed(old(State()), code)
    {
      if code == "no-speech" {
        return;
      }
      if code == "not-allowed" {
        error := Some(NotAllowedMessage);
        permission := false;
      } else if code == "aborted" {
      } else if code == "network" {
        error := Some(NetworkMessage);
      } else if code == "audio-capture" {
        error := Some(AudioCaptureMessage);
      } else if code == "service-not-allowed" {
        error := Some(ServiceMessage);
      } else {
        error := Some(GenericPrefix + code);
      }
      listening := false;
    }

    /** `recognition.onend`. */
    method OnEnd()
      requires Valid()
      modifies this
      ensures Valid()
      ensures State() == Ended(old(State()))
    {
      listening := false;
      capturing := false;
    }
  }
}
