/** The Edge TTS adapter (`TTSService1`, registered as `service1`): the
    self-test at initialisation, voice selection, the prosody wrapper,
    collection of the streamed audio chunks and the optional WAV
    conversion with its fallback to the original MP3. */
module EdgeTts {
  import opened Wrappers
  import opened Strs

  const ZhVoices: seq<string> := ["zh-CN-XiaoxiaoNeural", "zh-CN-YunxiNeural", "zh-CN-YunjianNeural",
    "zh-CN-XiaoyiNeural", "zh-CN-YunyangNeural", "zh-TW-HsiaoyuNeural", "zh-TW-YunjieNeural"]
  const EnVoices: seq<string> := ["en-US-AriaNeural", "en-US-DavisNeural", "en-US-GuyNeural",
    "en-US-JennyNeural", "en-US-JasonNeural"]

  /** One item of `communicate.stream()`. */
  datatype Chunk = Chunk(kind: string, data: seq<byte>)

  /** What streaming a text in a voice gives: the chunks, or an error. */
  datatype Stream = Streamed(chunks: seq<Chunk>) | StreamRaised(reason: string)

  /** The audio bytes of a chunk sequence, in order. */
  function AudioOf(chunks: seq<Chunk>): seq<byte>
  {
    if chunks == [] then []
    else AudioOf(chunks[..|chunks| - 1]) + (if chunks[|chunks| - 1].kind == "audio" then chunks[|chunks| - 1].data else [])
  }

  /** The collected audio is empty exactly when no audio chunk carries data. */
  lemma {:induction false} AudioOfEmpty(chunks: seq<Chunk>)
    ensures AudioOf(chunks) == [] <==> forall i :: 0 <= i < |chunks| && chunks[i].kind == "audio" ==> chunks[i].data == []
  {
    if chunks != [] {
      var init := chunks[..|chunks| - 1];
      AudioOfEmpty(init);
      assert forall i :: 0 <= i < |init| ==> init[i] == chunks[i];
    }
  }

  /** The `async for chunk in communicate.stream()` accumulation. */
  method CollectAudio(chunks: seq<Chunk>) returns (audio: seq<byte>)
    ensures audio == AudioOf(chunks)
  {
    audio := [];
    var i := 0;
    while i < |chunks|
      invariant 0 <= i <= |chunks|
      invariant audio == AudioOf(chunks[..i])
    {
      assert chunks[..i + 1][..i] == chunks[..i];
      if chunks[i].kind == "audio" {
        audio := audio + chunks[i].data;
      }
      i := i + 1;
    }
    assert chunks[..i] == chunks;
  }

  /** The voice used when none is given. */
  function DefaultVoice(language: string): (v: string)
    ensures v == if language == "zh" then "zh-CN-XiaoxiaoNeural" else "en-US-AriaNeural"
  {
    if language == "zh" then ZhVoices[0] else if language == "en" then EnVoices[0] else "en-US-AriaNeural"
  }

  /** The default voice of every language is one the adapter lists as
      supported, a Chinese one for "zh". */
  lemma DefaultVoiceSupported(language: string)
    ensures DefaultVoice(language) in ZhVoices + EnVoices
    ensures language == "zh" <==> DefaultVoice(language) in ZhVoices
  {
    assert EnVoices[0] == (ZhVoices + EnVoices)[|ZhVoices|];
    assert DefaultVoice(language) != "zh-CN-XiaoxiaoNeural" ==> DefaultVoice(language) !in ZhVoices;
  }

  /** The text sent to the service: wrapped in a prosody element only when
      the rate or the pitch differs from its neutral value. */
  function SsmlText(text: string, rate: string, pitch: string): (s: string)
    ensures rate == "+0%" && pitch == "+0Hz" ==> s == text
    ensures !(rate == "+0%" && pitch == "+0Hz") ==>
      s == "<prosody rate=\"" + rate + "\" pitch=\"" + pitch + "\">" + text + "</prosody>"
  {
    if rate != "+0%" || pitch != "+0Hz" then "<prosody rate=\"" + rate + "\" pitch=\"" + pitch + "\">" + text + "</prosody>"
    else text
  }

  /** What the ffmpeg conversion gives: the WAV bytes, or a failure (a
      non-zero exit or any other error). */
  datatype Conversion = Converted(wav: seq<byte>) | ConversionFailed(reason: string)

  /** `_convert_mp3_to_wav`: never fails, returning the MP3 unchanged when
      the conversion does. */
  function ConvertToWav(mp3: seq<byte>, conversion: Conversion): (r: seq<byte>)
    ensures conversion.Converted? ==> r == conversion.wav
    ensures conversion.ConversionFailed? ==> r == mp3
  {
    match conversion
    case Converted(wav) => wav
    case ConversionFailed(_) => mp3
  }

  /** The keys of `voice_config` the adapter reads. */
  datatype VoiceConfig = VoiceConfig(voice: Option<string>, rate: Option<string>, pitch: Option<string>)

  datatype Speech =
    | SpeechOk(audio: seq<byte>, duration: real, sampleRate: nat, format: string, textLength: nat,
               language: string, voice: string, rate: string, pitch: string)
    | SpeechFailed(message: string)

  /** `_generate_edge_tts`: streams the (possibly wrapped) text, fails on
      empty audio, and converts to WAV only for a "wav" format in any
      letter case. */
  method GenerateEdgeTts(text: string, voice: string, rate: string, pitch: string, format: string,
                         speak: (string, string) -> Stream, conversion: Conversion) returns (r: Result<seq<byte>>)
    ensures var stream := speak(SsmlText(text, rate, pitch), voice);
      (stream.StreamRaised? ==> r == Err(stream.reason))
      && (stream.Streamed? && AudioOf(stream.chunks) == [] ==> r == Err("EdgeTTS 返回空音頻數據"))
      && (stream.Streamed? && AudioOf(stream.chunks) != [] ==>
            r == Ok(if ToLower(format) == "wav" then ConvertToWav(AudioOf(stream.chunks), conversion)
                    else AudioOf(stream.chunks)))
  {
    var stream := speak(SsmlText(text, rate, pitch), voice);
    if stream.StreamRaised? {
      return Err(stream.reason);
    }
    var audio := CollectAudio(stream.chunks);
    if |audio| == 0 {
      return Err("EdgeTTS 返回空音頻數據");
    }
    if ToLower(format) == "wav" {
      audio := ConvertToWav(audio, conversion);
    }
    return Ok(audio);
  }

  class EdgeTtsService {
    var isInitialized: bool

    constructor()
      ensures !isInitialized
    {
      isInitialized := false;
    }

    /** `initialize`: streams "Hello" in en-US-AriaNeural; audio back
        initialises the adapter, anything else is raised (and aborts the
        gateway's startup). */
    method Initialize(speak: (string, string) -> Stream) returns (error: Option<string>)
      modifies this
      ensures var stream := speak("Hello", "en-US-AriaNeural");
        error.None? <==> stream.Streamed? && AudioOf(stream.chunks) != []
      ensures error.None? ==> isInitialized
      ensures error.Some? ==> isInitialized == old(isInitialized)
    {
      var stream := speak("Hello", "en-US-AriaNeural");
      if stream.StreamRaised? {
        return Some(stream.reason);
      }
      var audio := CollectAudio(stream.chunks);
      if |audio| > 0 {
        isInitialized := true;
        return None;
      }
      return Some("EdgeTTS 測試失敗");
    }

    function Health(): (r: (string, nat))
      reads this
      ensures r.0 == "healthy" <==> isInitialized
      ensures r.1 == 12
    {
      (if isInitialized then "healthy" else "unhealthy", |ZhVoices| + |EnVoices|)
    }

    /** `generate_speech`: picks the voice, defaults rate "+0%" and pitch
        "+0Hz", and reports `len / 16000` seconds at 24000 Hz; every error
        becomes a failed result. */
    method GenerateSpeech(text: string, cfg: VoiceConfig, format: string, language: string,
                          speak: (string, string) -> Stream, conversion: Conversion) returns (r: Speech)
      ensures !isInitialized ==> r == SpeechFailed("語音生成失敗: 服務尚未初始化")
      ensures isInitialized ==>
        var voice := if Truthy(cfg.voice) then cfg.voice.value else DefaultVoice(language);
        var rate := GetOr(cfg.rate, "+0%");
        var pitch := GetOr(cfg.pitch, "+0Hz");
        var stream := speak(SsmlText(text, rate, pitch), voice);
        (r.SpeechFailed? <==> stream.StreamRaised? || AudioOf(stream.chunks) == [])
        && (r.SpeechOk? ==>
              r.voice == voice && r.rate == rate && r.pitch == pitch
              && r.audio == (if ToLower(format) == "wav" then ConvertToWav(AudioOf(stream.chunks), conversion)
                             else AudioOf(stream.chunks))
              && r.duration == |r.audio| as real / 16000.0 && r.sampleRate == 24000
              && r.format == format && r.textLength == |text| && r.language == language)
    {
      if !isInitialized {
        return SpeechFailed("語音生成失敗: 服務尚未初始化");
      }
      var voice := if Truthy(cfg.voice) then cfg.voice.value else DefaultVoice(language);
      var rate := GetOr(cfg.rate, "+0%");
      var pitch := GetOr(cfg.pitch, "+0Hz");
      var audio := GenerateEdgeTts(text, voice, rate, pitch, format, speak, conversion);
      match audio
      case Err(e) =>
        r := SpeechFailed("語音生成失敗: " + e);
      case Ok(bytes) =>
        r := SpeechOk(bytes, |bytes| as real / 16000.0, 24000, format, |text|, language, voice, rate, pitch);
    }
  }
}
