/** The MiniMax adapter (`TTSService2`): configuration from the
    environment, voice and parameter defaulting, the API call that falls
    back to simulated audio on every failure, the simulation's parameter
    selection and its anti-clipping rescale. */
module Minimax {
  import opened Wrappers
  import opened NumFmt
  import opened Simulation

  const SampleRate: nat := 24000
  const DefaultBaseUrl := "https://api.minimaxi.chat/v1/t2a_v2"
  const DefaultModel := "speech-02-turbo"

  /** The first voice of both the "zh" and the "en" list. */
  const FirstVoiceId := "moss_audio_069e7ef7-45ab-11f0-b24c-2e48b7cbf811"

  datatype Voice = Voice(id: string, name: string, gender: string)

  const ZhVoices: seq<Voice> := [
    Voice(FirstVoiceId, "小安", "female"),
    Voice("moss_audio_e2651ab2-50e2-11f0-8bff-3ee21232901d", "小賴", "male"),
    Voice("moss_audio_9e3d9106-42a6-11f0-b6c4-9e15325fe584", "Hayley", "female")]
  const EnVoices: seq<Voice> := ZhVoices

  /** `voices.get(language, voices["zh"])`. */
  function VoicesFor(language: string): (r: seq<Voice>)
    ensures |r| == 3 && r[0].id == FirstVoiceId
  {
    if language == "en" then EnVoices else ZhVoices
  }

  /** One row of the simulation's emotion table. */
  datatype EmotionConfig = EmotionConfig(freqMod: real, ampMod: real, noiseLevel: real)

  const Neutral := EmotionConfig(1.0, 1.0, 0.02)

  /** `emotion_config.get(emotion, emotion_config["neutral"])`. */
  function EmotionConfigOf(emotion: string): (c: EmotionConfig)
    ensures emotion !in {"happy", "sad", "angry", "surprised", "calm"} ==> c == Neutral
    ensures c.freqMod > 0.0 && c.ampMod > 0.0 && c.noiseLevel > 0.0
  {
    if emotion == "happy" then EmotionConfig(1.2, 1.1, 0.015)
    else if emotion == "sad" then EmotionConfig(0.8, 0.9, 0.025)
    else if emotion == "angry" then EmotionConfig(1.3, 1.2, 0.03)
    else if emotion == "surprised" then EmotionConfig(1.4, 1.15, 0.02)
    else if emotion == "calm" then EmotionConfig(0.9, 0.95, 0.01)
    else Neutral
  }

  /** The parameters `_generate_simulation_audio` derives from its inputs
      before building the waveform. */
  datatype SimParams = SimParams(duration: real, numSamples: nat, baseFreq: real, freq: real,
                                 config: EmotionConfig, modulationFreq: real, volume: real)

  function SimulationParams(textLength: nat, language: string, emotion: string, volume: real): (p: SimParams)
    ensures p.duration >= 2.0 && p.duration >= 0.15 * textLength as real
    ensures p.numSamples == SampleCount(p.duration, SampleRate)
    ensures p.baseFreq == if language == "zh" then 220.0 else 200.0
    ensures p.config == EmotionConfigOf(emotion) && p.freq == p.baseFreq * p.config.freqMod
    ensures p.modulationFreq == if emotion == "sad" then 2.0 else 3.0
    ensures 0.1 <= p.volume <= 2.0 && (0.1 <= volume <= 2.0 ==> p.volume == volume)
  {
    var duration := SimDuration(textLength, 0.15, 2.0);
    var baseFreq := if language == "zh" then 220.0 else 200.0;
    var config := EmotionConfigOf(emotion);
    SimParams(duration, SampleCount(duration, SampleRate), baseFreq, baseFreq * config.freqMod, config,
              if emotion != "sad" then 3.0 else 2.0, Clamp(0.1, 2.0, volume))
  }

  /** The simulated speech lasts at least two seconds (48000 samples) and
      grows with the text. */
  lemma SimulationGrowsWithText(a: nat, b: nat, language: string, emotion: string, volume: real)
    requires a <= b
    ensures SimulationParams(a, language, emotion, volume).numSamples <= SimulationParams(b, language, emotion, volume).numSamples
    ensures SimulationParams(a, language, emotion, volume).numSamples >= 48000
  {
    SimDurationMonotone(a, b, 0.15, 2.0);
    SampleCountMonotone(SimDuration(a, 0.15, 2.0), SimDuration(b, 0.15, 2.0), SampleRate);
    SampleCountMonotone(2.0, SimDuration(a, 0.15, 2.0), SampleRate);
  }

  // ---------------------------------------------------------------------
  // Anti-clipping

  /** `np.max(np.abs(audio))`, taken as 0 for an empty buffer. */
  function Peak(s: seq<real>): (m: real)
    ensures m >= 0.0
  {
    if s == [] then 0.0
    else
      var m := Peak(s[..|s| - 1]);
      if Abs(s[|s| - 1]) > m then Abs(s[|s| - 1]) else m
  }

  lemma {:induction false} PeakBounds(s: seq<real>)
    ensures forall i :: 0 <= i < |s| ==> Abs(s[i]) <= Peak(s)
  {
    if s != [] {
      PeakBounds(s[..|s| - 1]);
      assert forall i :: 0 <= i < |s| - 1 ==> s[..|s| - 1][i] == s[i];
    }
  }

  /** The clipping guard: when the peak magnitude exceeds 0.95 the buffer is
      rescaled in place so that its peak is 0.95; otherwise it is left
      alone.  Either way no sample exceeds 0.95 in magnitude afterwards. */
  method Declip(audio: array<real>)
    modifies audio
    ensures Peak(old(audio[..])) <= 0.95 ==> audio[..] == old(audio[..])
    ensures Peak(old(audio[..])) > 0.95 ==>
      forall i :: 0 <= i < audio.Length ==> audio[i] == old(audio[i]) * 0.95 / Peak(old(audio[..]))
    ensures forall i :: 0 <= i < audio.Length ==> Abs(audio[i]) <= 0.95
  {
    var peak := 0.0;
    var i := 0;
    while i < audio.Length
      invariant 0 <= i <= audio.Length
      invariant peak == Peak(audio[..i])
    {
      assert audio[..i + 1][..i] == audio[..i];
      if Abs(audio[i]) > peak {
        peak := Abs(audio[i]);
      }
      i := i + 1;
    }
    assert audio[..i] == audio[..];
    PeakBounds(audio[..]);
    if peak > 0.95 {
      i := 0;
      while i < audio.Length
        invariant 0 <= i <= audio.Length
        invariant forall j :: 0 <= j < i ==> audio[j] == old(audio[j]) * 0.95 / peak
        invariant forall j :: i <= j < audio.Length ==> audio[j] == old(audio[j])
      {
        ScaledWithinBound(audio[i], peak);
        audio[i] := audio[i] * 0.95 / peak;
        i := i + 1;
      }
      forall j | 0 <= j < audio.Length
        ensures Abs(audio[j]) <= 0.95
      {
        ScaledWithinBound(old(audio[j]), peak);
      }
    }
  }

  lemma ScaledWithinBound(x: real, peak: real)
    requires Abs(x) <= peak && peak > 0.95
    ensures Abs(x * 0.95 / peak) <= 0.95
  {
    var q := x / peak;
    assert -1.0 <= q <= 1.0;
    assert x * 0.95 / peak == q * 0.95;
  }

  // ---------------------------------------------------------------------
  // The API call and its fallback

  datatype DownloadReply = DownloadRaised(reason: string) | DownloadHttp(status: int, body: seq<byte>)

  /** What the t2a_v2 endpoint does: raise, or answer with an HTTP status,
      the `base_resp.status_code` and `data.audio` of its JSON body, and
      what fetching that audio URL gives. */
  datatype ApiReply =
    | ApiRaised(reason: string)
    | ApiHttp(status: int, statusCode: Option<int>, audioUrl: Option<string>, download: DownloadReply)

  /** The one path on which the API's own audio is used. */
  predicate Delivered(reply: ApiReply)
  {
    reply.ApiHttp? && reply.status == 200 && reply.statusCode == Some(0) && Truthy(reply.audioUrl)
    && reply.download.DownloadHttp? && reply.download.status == 200
  }

  /** `_call_minimax_api`: never raises; every failure (an exception, a
      non-200 reply, a non-zero status code, no audio URL, a failed
      download) yields the simulated audio instead. */
  function CallMinimaxApi(reply: ApiReply, simulated: seq<byte>): (r: seq<byte>)
    ensures Delivered(reply) ==> r == reply.download.body
    ensures !Delivered(reply) ==> r == simulated
  {
    match reply
    case ApiRaised(_) => simulated
    case ApiHttp(status, statusCode, audioUrl, download) =>
      if status != 200 then simulated
      else if statusCode != Some(0) then simulated
      else if !Truthy(audioUrl) then simulated
      else match download
        case DownloadRaised(_) => simulated
        case DownloadHttp(s, body) => if s == 200 then body else simulated
  }

  // ---------------------------------------------------------------------
  // The adapter

  /** The keys of `voice_config` the adapter reads. */
  datatype VoiceConfig = VoiceConfig(voiceId: Option<string>, speed: Option<real>, pitch: Option<real>)

  datatype Speech =
    | SpeechOk(audio: seq<byte>, duration: real, sampleRate: nat, format: string, textLength: nat,
               language: string, voiceId: string, speed: real, pitch: real, emotion: string,
               volume: real, mode: string)
    | SpeechFailed(message: string)

  class MinimaxService {
    var isInitialized: bool
    var apiKey: Option<string>
    var groupId: Option<string>
    var baseUrl: string
    var model: string

    constructor()
      ensures !isInitialized && apiKey.None? && groupId.None?
    {
      isInitialized := false;
      apiKey := None;
      groupId := None;
      baseUrl := DefaultBaseUrl;
      model := DefaultModel;
    }

    /** `initialize`: reads its configuration from the environment and ends
        initialised whatever happens, with or without a key. */
    method Initialize(env: map<string, string>)
      modifies this
      ensures isInitialized
      ensures apiKey == Get(env, "MINIMAX_API_KEY") && groupId == Get(env, "MINIMAX_GROUP_ID")
      ensures baseUrl == GetEnvOr(env, "MINIMAX_BASE_URL", DefaultBaseUrl)
      ensures model == GetEnvOr(env, "MINIMAX_MODEL", DefaultModel)
    {
      apiKey := Get(env, "MINIMAX_API_KEY");
      groupId := Get(env, "MINIMAX_GROUP_ID");
      baseUrl := GetEnvOr(env, "MINIMAX_BASE_URL", DefaultBaseUrl);
      model := GetEnvOr(env, "MINIMAX_MODEL", DefaultModel);
      isInitialized := true;
    }

    /** `health_check`: the shared report with this adapter's memory
        estimate. */
    function Health(): (r: HealthReport)
      reads this
      ensures r == Simulation.Health(isInitialized, apiKey, "約 100MB")
    {
      Simulation.Health(isInitialized, apiKey, "約 100MB")
    }

    /** `generate_speech`.  `reply` is what the API does when a key is set;
        `synth` is the simulation's output for the parameters it is given. */
    function GenerateSpeech(text: string, cfg: VoiceConfig, format: string, language: string,
                            emotion: string, volume: real, reply: ApiReply,
                            synth: SimParams -> seq<byte>): (r: Speech)
      reads this
      ensures !isInitialized <==> r.SpeechFailed?
      ensures r.SpeechFailed? ==> r.message == "語音生成失敗: 服務尚未初始化"
      ensures r.SpeechOk? ==>
        var simulated := synth(SimulationParams(|text|, language, emotion, volume));
        r.voiceId == (if Truthy(cfg.voiceId) then cfg.voiceId.value else FirstVoiceId)
        && r.speed == GetOr(cfg.speed, 1.0) && r.pitch == GetOr(cfg.pitch, 0.0)
        && r.mode == Mode(Truthy(apiKey))
        && r.audio == (if Truthy(apiKey) then CallMinimaxApi(reply, simulated) else simulated)
        && r.duration == BufferDuration(|r.audio|, SampleRate) && r.sampleRate == SampleRate
        && r.format == format && r.textLength == |text| && r.volume == volume
    {
      if !isInitialized then SpeechFailed("語音生成失敗: 服務尚未初始化")
      else
        var voiceId := if Truthy(cfg.voiceId) then cfg.voiceId.value else VoicesFor(language)[0].id;
        var simulated := synth(SimulationParams(|text|, language, emotion, volume));
        var audio := if Truthy(apiKey) then CallMinimaxApi(reply, simulated) else simulated;
        SpeechOk(audio, BufferDuration(|audio|, SampleRate), SampleRate, format, |text|, language, voiceId,
                 GetOr(cfg.speed, 1.0), GetOr(cfg.pitch, 0.0), emotion, volume, Mode(Truthy(apiKey)))
    }
  }

  /** With a key configured the result claims "real" mode even when the API
      failed and the audio is the simulation's. */
  lemma RealModeOverSimulatedAudio(s: MinimaxService, text: string, cfg: VoiceConfig, format: string,
                                   language: string, emotion: string, volume: real, reply: ApiReply,
                                   synth: SimParams -> seq<byte>)
    requires s.isInitialized && Truthy(s.apiKey) && !Delivered(reply)
    ensures var r := s.GenerateSpeech(text, cfg, format, language, emotion, volume, reply, synth);
      r.SpeechOk? && r.mode == "real" && r.audio == synth(SimulationParams(|text|, language, emotion, volume))
  {
  }
}
