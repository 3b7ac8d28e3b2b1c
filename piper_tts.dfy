/**
 * `PiperTTSPlugin` (plugins/core_plugins/piper_tts.py): which AI messages are queued for speech,
 * the speech queue and its background consumer run one step at a time, and the early exits of
 * `initialize`, `text_to_speech` and `get_voice_info`. Loading a voice, synthesis, the file
 * system and `hash` are parameters; the queue's lock and the thread's sleep are not modelled.
 */
module PiperTts {
  import opened Collections
  import opened Text
  import PluginBase

  /** The attributes of a loaded Piper voice that `get_voice_info` reads with `getattr`. */
  datatype Voice = Voice(name: Option<string>, language: Option<string>, sampleRate: Option<int>)

  /** `get_voice_info()`: `{}` without a voice, else the four entries. */
  datatype VoiceInfo = NoInfo | Info(name: string, language: string, sampleRate: int, available: bool)

  /** Messages whose stripped text is shorter than this are not spoken. */
  const MinSpokenLength: nat := 5

  /** `on_message_sent` queues `message`. */
  predicate Speaks(enabled: bool, message: string, messageType: string, speakResponses: bool) {
    enabled && messageType == "ai" && |Strip(message)| >= MinSpokenLength && speakResponses
  }

  /** A reply padded with ideographic spaces to more than five characters but only "hi" inside is not spoken. */
  lemma PaddedShortReplySilent()
    ensures !Speaks(true, "\U{3000}\U{3000}hi\U{3000}\U{3000}", "ai", true)
  {
    IdeographicSpacesStrip();
  }

  /** The file `text_to_speech` writes when no output file is given: `tts_<hash % 10000>.wav`. */
  function TempFileName(textHash: int): string {
    "tts_" + NatToString(textHash % 10000) + ".wav"
  }

  /** The texts the consumer hands to `speak_text`, in order: `if text:` skips empty ones. */
  function Spoken(texts: seq<string>): (r: seq<string>)
    ensures |r| <= |texts|
    ensures forall i :: 0 <= i < |r| ==> r[i] != ""
  {
    if texts == [] then []
    else Spoken(texts[..|texts| - 1]) + (if texts[|texts| - 1] == "" then [] else [texts[|texts| - 1]])
  }

  /** Speaking a concatenation speaks each part in turn. */
  lemma {:induction false} SpokenAppend(a: seq<string>, b: seq<string>)
    ensures Spoken(a + b) == Spoken(a) + Spoken(b)
    decreases |b|
  {
    if b != [] {
      var b' := b[..|b| - 1];
      assert (a + b)[..|a + b| - 1] == a + b';
      assert (a + b)[|a + b| - 1] == b[|b| - 1];
      SpokenAppend(a, b');
    } else {
      assert a + b == a;
    }
  }

  /** Spoken text is exactly the queued text, in queue order, once empty strings are dropped. */
  lemma {:induction false} SpokenIsQueued(texts: seq<string>)
    requires forall i :: 0 <= i < |texts| ==> texts[i] != ""
    ensures Spoken(texts) == texts
  {
    if texts != [] {
      SpokenIsQueued(texts[..|texts| - 1]);
    }
  }

  /** A message that passes the gate is not empty, so the consumer speaks it. */
  lemma SpeaksNonEmpty(enabled: bool, message: string, messageType: string, speakResponses: bool)
    requires Speaks(enabled, message, messageType, speakResponses)
    ensures message != "" && Spoken([message]) == [message]
  {
    assert Spoken([message][..0]) == [];
  }

  class Tts {
    const base: PluginBase.Plugin
    /** `self.voice` */
    var voice: Option<Voice>
    /** `self.temp_dir` */
    var tempDir: Option<string>
    /** `self.audio_queue`, oldest first. */
    var audioQueue: seq<string>
    /** `self.should_process` */
    var shouldProcess: bool
    /** The processing thread has been started. */
    var started: bool
    /** The texts handed to `speak_text`, oldest first. */
    var spoken: seq<string>

    constructor ()
      ensures fresh(base) && base.name == "piper_tts" && base.enabled
      ensures voice.None? && tempDir.None? && audioQueue == [] && shouldProcess && !started && spoken == []
    {
      base := new PluginBase.Plugin("piper_tts");
      voice := None;
      tempDir := None;
      audioQueue := [];
      shouldProcess := true;
      started := false;
      spoken := [];
    }

    /**
     * `initialize`: true when the integration is off; false when the Piper package is missing or
     * no voice loads; otherwise the voice, a fresh temporary directory and a running consumer.
     */
    method Initialize(ttsEnabled: bool, piperAvailable: bool, loaded: Option<Voice>, newTempDir: string)
      returns (ok: bool)
      modifies this
      ensures ok <==> !ttsEnabled || (piperAvailable && loaded.Some?)
      ensures voice == if ttsEnabled && piperAvailable then loaded else old(voice)
      ensures tempDir == if ttsEnabled && ok then Some(newTempDir) else old(tempDir)
      ensures started == (old(started) || (ttsEnabled && ok))
      ensures audioQueue == old(audioQueue) && shouldProcess == old(shouldProcess) && spoken == old(spoken)
    {
      if !ttsEnabled {
        return true;
      }
      if !piperAvailable {
        return false;
      }
      voice := loaded;
      if voice.None? {
        return false;
      }
      tempDir := Some(newTempDir);
      started := true;
      return true;
    }

    /**
     * `text_to_speech`: None without a voice or when synthesis fails; otherwise the file written,
     * the given one or `tts_<hash % 10000>.wav` in the temporary directory. Without a directory
     * (a state `Initialize` never leaves a loaded voice in) Python raises TypeError at `Path(None)`;
     * the model then names the file under "/".
     */
    method TextToSpeech(text: string, outputFile: string, textHash: int, synthesisOk: bool)
      returns (file: Option<string>)
      ensures voice.None? ==> file.None?
      ensures file.Some? <==> voice.Some? && synthesisOk
      ensures file.Some? && outputFile != "" ==> file.value == outputFile
      ensures file.Some? && outputFile == "" ==>
        file.value == (if tempDir.Some? then tempDir.value else "") + "/" + TempFileName(textHash)
    {
      if voice.None? {
        return None;
      }
      var target := outputFile;
      if target == "" {
        target := (if tempDir.Some? then tempDir.value else "") + "/" + TempFileName(textHash);
      }
      if !synthesisOk {
        return None;
      }
      return Some(target);
    }

    /** `get_voice_info`: `{}` exactly when no voice is loaded, the `getattr` defaults otherwise. */
    function GetVoiceInfo(): (info: VoiceInfo)
      reads this
      ensures info.NoInfo? <==> voice.None?
      ensures info.Info? ==> info.available
      ensures info.Info? ==> info.name == GetDefault(voice.value.name, "Unknown")
      ensures info.Info? ==> info.language == GetDefault(voice.value.language, "Unknown")
      ensures info.Info? ==> info.sampleRate == GetDefault(voice.value.sampleRate, 0)
    {
      match voice
      case None => NoInfo
      case Some(v) => Info(GetDefault(v.name, "Unknown"), GetDefault(v.language, "Unknown"), GetDefault(v.sampleRate, 0), true)
    }

    /** `queue_speech`: the text joins the back of the queue. */
    method QueueSpeech(text: string)
      modifies this
      ensures audioQueue == old(audioQueue) + [text]
      ensures voice == old(voice) && shouldProcess == old(shouldProcess) && spoken == old(spoken)
      ensures tempDir == old(tempDir) && started == old(started)
    {
      audioQueue := audioQueue + [text];
    }

    /**
     * `on_message_sent`: the message is queued only when the plugin is enabled, the message is
     * the AI's, its stripped text has at least five characters and responses are to be spoken.
     */
    method OnMessageSent(message: string, messageType: string, speakResponses: bool)
      modifies this
      ensures audioQueue == old(audioQueue) +
        (if Speaks(base.enabled, message, messageType, speakResponses) then [message] else [])
      ensures voice == old(voice) && shouldProcess == old(shouldProcess) && spoken == old(spoken)
      ensures tempDir == old(tempDir) && started == old(started)
    {
      if !base.enabled || messageType != "ai" {
        return;
      }
      if |Strip(message)| < MinSpokenLength {
        return;
      }
      if !speakResponses {
        return;
      }
      QueueSpeech(message);
    }

    /**
     * One turn of `process_audio_queue`: the oldest text leaves the queue and, when not empty, is
     * spoken; an empty queue yields nothing.
     */
    method ProcessStep() returns (text: Option<string>)
      modifies this
      ensures old(audioQueue) == [] ==> text.None? && audioQueue == [] && spoken == old(spoken)
      ensures old(audioQueue) != [] ==>
        text == Some(old(audioQueue)[0]) && audioQueue == old(audioQueue)[1..] &&
        spoken == old(spoken) + Spoken([old(audioQueue)[0]])
      ensures voice == old(voice) && shouldProcess == old(shouldProcess)
      ensures tempDir == old(tempDir) && started == old(started)
    {
      if audioQueue == [] {
        return None;
      }
      var t := audioQueue[0];
      audioQueue := audioQueue[1..];
      if t != "" {
        spoken := spoken + [t];
      }
      assert Spoken([t][..0]) == [];
      return Some(t);
    }

    /**
     * `process_audio_queue` for `turns` turns: while `should_process` holds, each turn takes the
     * oldest text, so the first `n` queued texts are spoken in the order they were queued.
     */
    method ProcessAudioQueue(turns: nat)
      modifies this
      ensures var n := if shouldProcess then MinNat(turns, |old(audioQueue)|) else 0;
        && audioQueue == old(audioQueue)[n..]
        && spoken == old(spoken) + Spoken(old(audioQueue)[..n])
      ensures voice == old(voice) && shouldProcess == old(shouldProcess)
      ensures tempDir == old(tempDir) && started == old(started)
    {
      var start := audioQueue;
      var k := 0;
      var n := if shouldProcess then MinNat(turns, |start|) else 0;
      while k < turns && shouldProcess
        invariant 0 <= k <= turns
        invariant voice == old(voice) && shouldProcess == old(shouldProcess)
        invariant tempDir == old(tempDir) && started == old(started)
        invariant shouldProcess ==> audioQueue == start[MinNat(k, |start|)..]
        invariant shouldProcess ==> spoken == old(spoken) + Spoken(start[..MinNat(k, |start|)])
        invariant !shouldProcess ==> k == 0 && audioQueue == start && spoken == old(spoken)
      {
        var m := MinNat(k, |start|);
        var text := ProcessStep();
        if m < |start| {
          assert start[..m + 1] == start[..m] + [start[m]];
          SpokenAppend(start[..m], [start[m]]);
        }
        k := k + 1;
      }
      assert start[..n] == start[..MinNat(k, |start|)];
    }

    /** `cleanup`: the consumer is told to stop; the queue is left as it is. */
    method Cleanup()
      modifies this
      ensures !shouldProcess
      ensures audioQueue == old(audioQueue) && voice == old(voice) && spoken == old(spoken)
      ensures tempDir == old(tempDir) && started == old(started)
    {
      shouldProcess := false;
    }
  }

  /** `min` on naturals. */
  function MinNat(a: nat, b: nat): (m: nat)
    ensures m <= a && m <= b && (m == a || m == b)
  {
    if a <= b then a else b
  }

  /** `getattr(voice, attr, default)` */
  function GetDefault<T>(o: Option<T>, default: T): T {
    if o.Some? then o.value else default
  }

  /**
   * The gate and the queue together: after the AI's messages are offered in turn, the consumer
   * speaks exactly those that pass the gate, in the order they were sent.
   */
  lemma {:induction false} GateThenQueue(enabled: bool, messages: seq<string>, speakResponses: bool)
    ensures Spoken(Admitted(enabled, messages, speakResponses)) == Admitted(enabled, messages, speakResponses)
  {
    var q := Admitted(enabled, messages, speakResponses);
    forall i | 0 <= i < |q| ensures q[i] != "" {
      AdmittedPass(enabled, messages, speakResponses, i);
    }
    SpokenIsQueued(q);
  }

  /** The AI messages that `on_message_sent` queues, in order. */
  function Admitted(enabled: bool, messages: seq<string>, speakResponses: bool): (q: seq<string>)
    ensures |q| <= |messages|
  {
    if messages == [] then []
    else
      var last := messages[|messages| - 1];
      Admitted(enabled, messages[..|messages| - 1], speakResponses) +
      (if Speaks(enabled, last, "ai", speakResponses) then [last] else [])
  }

  lemma {:induction false} AdmittedPass(enabled: bool, messages: seq<string>, speakResponses: bool, i: nat)
    requires i < |Admitted(enabled, messages, speakResponses)|
    ensures Speaks(enabled, Admitted(enabled, messages, speakResponses)[i], "ai", speakResponses)
    ensures Admitted(enabled, messages, speakResponses)[i] != ""
  {
    var init := messages[..|messages| - 1];
    if i < |Admitted(enabled, init, speakResponses)| {
      AdmittedPass(enabled, init, speakResponses, i);
    }
    var m := Admitted(enabled, messages, speakResponses)[i];
    assert |Strip(m)| <= |m|;
  }
}
