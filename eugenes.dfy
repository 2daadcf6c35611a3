/** The Eugenes adapter (`TTSService3`, the one registered as `service3`):
    configuration, defaulting, the API stub that always returns simulated
    audio, the simulation's parameter tables, its emotion modulation
    applied in place, and voice cloning. */
module Eugenes {
  import opened Wrappers
  import opened Strs
  import opened Simulation

  const SampleRate: nat := 22050

  /** `voices.get(language, voices["zh"])[0]["id"]`. */
  function DefaultVoiceId(language: string): (id: string)
    ensures language !in {"zh-tw", "en"} ==> id == "zh-female-sweet"
  {
    if language == "zh-tw" then "tw-female-gentle"
    else if language == "en" then "en-female-clear"
    else "zh-female-sweet"
  }

  /** `base_freq_map.get(language, 200)`. */
  function BaseFreq(language: string): (f: real)
    ensures language !in {"zh-tw", "en"} ==> f == 200.0
  {
    if language == "zh-tw" then 210.0 else if language == "en" then 180.0 else 200.0
  }

  /** `emotion_freq_adjust.get(emotion, 1.0)`. */
  function EmotionFactor(emotion: string): (k: real)
    ensures emotion !in {"happy", "excited", "sad", "angry", "calm", "gentle", "serious"} ==> k == 1.0
    ensures k > 0.0
  {
    if emotion == "happy" then 1.2
    else if emotion == "excited" then 1.3
    else if emotion == "sad" then 0.8
    else if emotion == "angry" then 1.1
    else if emotion == "calm" then 0.9
    else if emotion == "gentle" then 0.95
    else if emotion == "serious" then 1.05
    else 1.0
  }

  /** What `_generate_simulation_audio` derives before building the
      waveform. */
  datatype SimParams = SimParams(duration: real, numSamples: nat, freq: real, toneModulation: bool, emotion: string)

  function SimulationParams(textLength: nat, emotion: string, language: string): (p: SimParams)
    ensures p.duration >= 2.5 && p.duration >= 0.18 * textLength as real
    ensures p.numSamples == SampleCount(p.duration, SampleRate)
    ensures p.freq == BaseFreq(language) * EmotionFactor(emotion)
    ensures p.toneModulation <==> "zh" <= language
    ensures p.emotion == emotion
  {
    var duration := SimDuration(textLength, 0.18, 2.5);
    SimParams(duration, SampleCount(duration, SampleRate), BaseFreq(language) * EmotionFactor(emotion),
              "zh" <= language, emotion)
  }

  lemma SimulationGrowsWithText(a: nat, b: nat, emotion: string, language: string)
    requires a <= b
    ensures SimulationParams(a, emotion, language).numSamples <= SimulationParams(b, emotion, language).numSamples
  {
    SimDurationMonotone(a, b, 0.18, 2.5);
    SampleCountMonotone(SimDuration(a, 0.18, 2.5), SimDuration(b, 0.18, 2.5), SampleRate);
  }

  /** An emotion's modulation: each sample is multiplied by
      `1 + depth * sin(2π · freq · t)`. */
  datatype Modulation = Modulation(freq: real, depth: real)

  /** The emotions `_apply_emotion_modulation` knows; "neutral" is not one. */
  function EmotionModulation(emotion: string): (m: Option<Modulation>)
    ensures m.None? <==> emotion !in {"happy", "sad", "angry", "excited", "calm", "gentle", "serious"}
  {
    if emotion == "happy" then Some(Modulation(6.0, 0.15))
    else if emotion == "sad" then Some(Modulation(1.5, -0.2))
    else if emotion == "angry" then Some(Modulation(12.0, 0.25))
    else if emotion == "excited" then Some(Modulation(10.0, 0.2))
    else if emotion == "calm" then Some(Modulation(0.8, 0.08))
    else if emotion == "gentle" then Some(Modulation(2.0, 0.1))
    else if emotion == "serious" then Some(Modulation(1.0, 0.05))
    else None
  }

  /** `_apply_emotion_modulation`, in place.  `sine(f, i)` stands for
      `sin(2π · f · t[i])`.  A known emotion scales every sample by its
      modulation; "neutral" and any unknown emotion leave the buffer
      untouched. */
  method ApplyEmotionModulation(audio: array<real>, emotion: string, sine: (real, nat) -> real)
    modifies audio
    ensures EmotionModulation(emotion).None? ==> audio[..] == old(audio[..])
    ensures EmotionModulation(emotion).Some? ==>
      var m := EmotionModulation(emotion).value;
      forall i :: 0 <= i < audio.Length ==> audio[i] == old(audio[i]) * (1.0 + m.depth * sine(m.freq, i))
  {
    var mod := EmotionModulation(emotion);
    if mod.None? {
      return;
    }
    var m := mod.value;
    var i := 0;
    while i < audio.Length
      invariant 0 <= i <= audio.Length
      invariant forall j :: 0 <= j < i ==> audio[j] == old(audio[j]) * (1.0 + m.depth * sine(m.freq, j))
      invariant forall j :: i <= j < audio.Length ==> audio[j] == old(audio[j])
    {
      audio[i] := audio[i] * (1.0 + m.depth * sine(m.freq, i));
      i := i + 1;
    }
  }

  /** The keys of `voice_config` the adapter reads. */
  datatype VoiceConfig = VoiceConfig(voiceId: Option<string>, emotion: Option<string>, speed: Option<real>,
                                     pitch: Option<real>, energy: Option<real>)

  datatype Speech =
    | SpeechOk(audio: seq<byte>, duration: real, sampleRate: nat, format: string, textLength: nat,
               language: string, voiceId: string, emotion: string, speed: real, pitch: real,
               energy: real, mode: string)
    | SpeechFailed(message: string)

  datatype Clone = Clone(success: bool, audio: seq<byte>, message: string, referenceAudio: string, clonedText: string)

  class EugenesService {
    var isInitialized: bool
    var apiKey: Option<string>

    constructor()
      ensures !isInitialized && apiKey.None?
    {
      isInitialized := false;
      apiKey := None;
    }

    /** `initialize`: always ends initialised, in simulation mode when no
        key is configured. */
    method Initialize(env: map<string, string>)
      modifies this
      ensures isInitialized && apiKey == Get(env, "EUGENES_API_KEY")
    {
      apiKey := Get(env, "EUGENES_API_KEY");
      isInitialized := true;
    }

    /** `health_check`: the shared report with this adapter's memory
        estimate. */
    function Health(): (r: HealthReport)
      reads this
      ensures r == Simulation.Health(isInitialized, apiKey, "約 150MB")
    {
      Simulation.Health(isInitialized, apiKey, "約 150MB")
    }

    /** `generate_speech`; `synth` is the simulation's output for the
        parameters it is given.  `_call_eugenes_api` returns the simulation
        too, so the key changes only the reported mode. */
    function GenerateSpeech(text: string, cfg: VoiceConfig, format: string, language: string,
                            synth: SimParams -> seq<byte>): (r: Speech)
      reads this
      ensures !isInitialized <==> r.SpeechFailed?
      ensures r.SpeechFailed? ==> r.message == "語音生成失敗: 服務尚未初始化"
      ensures r.SpeechOk? ==>
        r.voiceId == (if Truthy(cfg.voiceId) then cfg.voiceId.value else DefaultVoiceId(language))
        && r.emotion == GetOr(cfg.emotion, "neutral") && r.speed == GetOr(cfg.speed, 1.0)
        && r.pitch == GetOr(cfg.pitch, 0.0) && r.energy == GetOr(cfg.energy, 1.0)
        && r.audio == synth(SimulationParams(|text|, r.emotion, language))
        && r.mode == Mode(Truthy(apiKey))
        && r.duration == BufferDuration(|r.audio|, SampleRate) && r.sampleRate == SampleRate
        && r.format == format && r.textLength == |text| && r.language == language
    {
      if !isInitialized then SpeechFailed("語音生成失敗: 服務尚未初始化")
      else
        var voiceId := if Truthy(cfg.voiceId) then cfg.voiceId.value else DefaultVoiceId(language);
        var emotion := GetOr(cfg.emotion, "neutral");
        var audio := synth(SimulationParams(|text|, emotion, language));
        SpeechOk(audio, BufferDuration(|audio|, SampleRate), SampleRate, format, |text|, language, voiceId,
                 emotion, GetOr(cfg.speed, 1.0), GetOr(cfg.pitch, 0.0), GetOr(cfg.energy, 1.0),
                 Mode(Truthy(apiKey)))
    }

    /** `clone_voice`: always succeeds, with neutral Chinese simulated audio
        whatever the reference and whether or not a key is set. */
    function CloneVoice(referenceAudio: string, text: string, synth: SimParams -> seq<byte>): (r: Clone)
      ensures r.success && r.audio == synth(SimulationParams(|text|, "neutral", "zh"))
      ensures r.referenceAudio == referenceAudio && r.clonedText == text
    {
      Clone(true, synth(SimulationParams(|text|, "neutral", "zh")), "語音克隆完成 (模擬)", referenceAudio, text)
    }
  }

  /** The configured key never changes the audio: two initialised adapters
      that differ only in their key produce the same bytes. */
  lemma KeyDoesNotChangeAudio(s1: EugenesService, s2: EugenesService, text: string, cfg: VoiceConfig,
                              format: string, language: string, synth: SimParams -> seq<byte>)
    requires s1.isInitialized && s2.isInitialized
    ensures s1.GenerateSpeech(text, cfg, format, language, synth).audio
         == s2.GenerateSpeech(text, cfg, format, language, synth).audio
  {
  }
}
