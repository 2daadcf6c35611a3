/** The OpenAI adapter (`TTSService4`): the length limit per model, the
    speed clamp, the simulation's voice table and its tanh compression,
    and the cost estimate. */
module OpenAiTts {
  import opened Wrappers
  import opened Strs
  import opened NumFmt
  import opened Simulation

  const SampleRate: nat := 24000
  const MaxChars: nat := 4096

  /** `models.get(model, {}).get("max_chars", 4096)`: both known models and
      every unknown one allow 4096 characters. */
  function MaxCharsOf(model: string): (n: nat)
    ensures n == MaxChars
  {
    if model == "tts-1" || model == "tts-1-hd" then 4096 else 4096
  }

  /** A row of the simulation's voice table. */
  datatype VoiceTraits = VoiceTraits(baseFreq: real, modulation: real, warmth: real)

  const Alloy := VoiceTraits(200.0, 0.1, 0.8)

  /** `voice_characteristics.get(voice, voice_characteristics["alloy"])`. */
  function TraitsOf(voice: string): (t: VoiceTraits)
    ensures voice !in {"echo", "fable", "onyx", "nova", "shimmer"} ==> t == Alloy
  {
    if voice == "echo" then VoiceTraits(150.0, 0.05, 0.6)
    else if voice == "fable" then VoiceTraits(160.0, 0.08, 0.7)
    else if voice == "onyx" then VoiceTraits(120.0, 0.03, 0.5)
    else if voice == "nova" then VoiceTraits(220.0, 0.12, 0.9)
    else if voice == "shimmer" then VoiceTraits(240.0, 0.15, 1.0)
    else Alloy
  }

  datatype SimParams = SimParams(duration: real, numSamples: nat, traits: VoiceTraits)

  function SimulationParams(textLength: nat, voice: string): (p: SimParams)
    ensures p.duration >= 1.8 && p.duration >= 0.12 * textLength as real
    ensures p.numSamples == SampleCount(p.duration, SampleRate)
    ensures p.traits == TraitsOf(voice)
  {
    var duration := SimDuration(textLength, 0.12, 1.8);
    SimParams(duration, SampleCount(duration, SampleRate), TraitsOf(voice))
  }

  /** A function bounded strictly inside (-1, 1), as `tanh` is. */
  ghost predicate BoundedByOne(f: real -> real)
  {
    forall y :: -1.0 < f(y) < 1.0
  }

  /** `np.tanh(audio * 1.2) * 0.8`: every output sample has magnitude
      strictly below 0.8. */
  function Compress(audio: seq<real>, tanh: real -> real): (r: seq<real>)
    requires BoundedByOne(tanh)
    ensures |r| == |audio|
    ensures forall i :: 0 <= i < |r| ==> -0.8 < r[i] < 0.8
  {
    seq(|audio|, i requires 0 <= i < |audio| => tanh(audio[i] * 1.2) * 0.8)
  }

  /** The keys of `voice_config` the adapter reads. */
  datatype VoiceConfig = VoiceConfig(voice: Option<string>, model: Option<string>, speed: Option<real>)

  datatype Speech =
    | SpeechOk(audio: seq<byte>, duration: real, sampleRate: nat, format: string, textLength: nat,
               language: string, voice: string, model: string, speed: real, mode: string)
    | SpeechFailed(message: string)

  class OpenAiService {
    var isInitialized: bool
    var apiKey: Option<string>
    /** Whether an `AsyncOpenAI` client was constructed. */
    var hasClient: bool

    constructor()
      ensures !isInitialized && apiKey.None? && !hasClient
    {
      isInitialized := false;
      apiKey := None;
      hasClient := false;
    }

    /** `initialize`: the key is read first; with a key a client is built
        (`clientOk` says whether its constructor succeeds).  The adapter
        ends initialised either way. */
    method Initialize(env: map<string, string>, clientOk: bool)
      modifies this
      ensures isInitialized && apiKey == Get(env, "OPENAI_API_KEY")
      ensures hasClient == (old(hasClient) || (Truthy(apiKey) && clientOk))
    {
      apiKey := Get(env, "OPENAI_API_KEY");
      if Truthy(apiKey) && clientOk {
        hasClient := true;
      }
      isInitialized := true;
    }

    /** `health_check`: the shared report with this adapter's memory
        estimate. */
    function Health(): (r: HealthReport)
      reads this
      ensures r == Simulation.Health(isInitialized, apiKey, "約 80MB")
    {
      Simulation.Health(isInitialized, apiKey, "約 80MB")
    }

    /** `generate_speech`; `synth` is the simulation's output for the
        parameters it is given (`_call_openai_api` returns the simulation
        as well). */
    function GenerateSpeech(text: string, cfg: VoiceConfig, format: string, language: string,
                            synth: SimParams -> seq<byte>): (r: Speech)
      reads this
      ensures r.SpeechFailed? <==> !isInitialized || |text| > MaxChars
      ensures !isInitialized ==> r == SpeechFailed("語音生成失敗: 服務尚未初始化")
      ensures isInitialized && |text| > MaxChars ==>
        r == SpeechFailed("語音生成失敗: 文本長度超過限制 (4096 字符)")
      ensures r.SpeechOk? ==>
        r.voice == GetOr(cfg.voice, "alloy") && r.model == GetOr(cfg.model, "tts-1")
        && r.speed == Clamp(0.25, 4.0, GetOr(cfg.speed, 1.0))
        && r.audio == synth(SimulationParams(|text|, r.voice))
        && r.mode == Mode(Truthy(apiKey))
        && r.duration == BufferDuration(|r.audio|, SampleRate) && r.sampleRate == SampleRate
        && r.format == format && r.textLength == |text|
    {
      if !isInitialized then SpeechFailed("語音生成失敗: 服務尚未初始化")
      else
        var voice := GetOr(cfg.voice, "alloy");
        var model := GetOr(cfg.model, "tts-1");
        var maxChars := MaxCharsOf(model);
        if |text| > maxChars then SpeechFailed("語音生成失敗: 文本長度超過限制 (" + NatToString(maxChars) + " 字符)")
        else
          var audio := synth(SimulationParams(|text|, voice));
          SpeechOk(audio, BufferDuration(|audio|, SampleRate), SampleRate, format, |text|, language, voice, model,
                   Clamp(0.25, 4.0, GetOr(cfg.speed, 1.0)), Mode(Truthy(apiKey)))
    }
  }

  /** The `estimate_cost` result. */
  datatype CostEstimate = CostEstimate(characterCount: nat, model: string, pricePer1k: real, estimatedCostUsd: real)

  /** `pricing.get(model, 0.015)`. */
  function PricePer1k(model: string): (p: real)
    ensures p == if model == "tts-1-hd" then 0.030 else 0.015
  {
    if model == "tts-1" then 0.015 else if model == "tts-1-hd" then 0.030 else 0.015
  }

  /** `round(x, 4)`, in exact arithmetic: a multiple of 0.0001 within half
      of one of `x`, an exact tie going to the even multiple. */
  function Round4(x: real): (r: real)
    ensures x - 0.00005 <= r <= x + 0.00005
    ensures (r * 10000.0).Floor as real == r * 10000.0
    ensures var t := x * 10000.0; t - t.Floor as real == 1.0 / 2.0 ==> (r * 10000.0).Floor % 2 == 0
  {
    var n := RoundHalfEven(x * 10000.0);
    assert n as real / 10000.0 * 10000.0 == n as real;
    n as real / 10000.0
  }

  /** `estimate_cost`: characters / 1000 × the model's price, rounded to
      four decimals. */
  function EstimateCost(text: string, model: string): (r: CostEstimate)
    ensures r.characterCount == |text| && r.model == model && r.pricePer1k == PricePer1k(model)
    ensures var exact := |text| as real / 1000.0 * r.pricePer1k;
      exact - 0.00005 <= r.estimatedCostUsd <= exact + 0.00005
    ensures (r.estimatedCostUsd * 10000.0).Floor as real == r.estimatedCostUsd * 10000.0
  {
    var price := PricePer1k(model);
    CostEstimate(|text|, model, price, Round4(|text| as real / 1000.0 * price))
  }
}
