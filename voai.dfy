/** The VoAI adapter (`VoAIService`): key-gated initialisation, the
    parameter clamps and endpoint choice of `text_to_speech`, its reply
    handling, `generate_speech` defaults, the voice list built from the
    speakers, and the quota probe. */
module Voai {
  import opened Wrappers
  import opened Strs
  import opened NumFmt

  const BaseUrl := "https://connect.voai.ai"

  /** A speaker record; `gender`, `language` and `styles` may be absent. */
  datatype Speaker = Speaker(name: string, gender: Option<string>, language: Option<string>,
                             styles: Option<seq<string>>)

  const DefaultSpeakers: seq<Speaker> := [
    Speaker("佑希", Some("female"), Some("zh-TW"), Some(["預設", "可愛", "聊天"])),
    Speaker("小雅", Some("female"), Some("zh-TW"), Some(["預設", "溫柔", "專業"])),
    Speaker("志明", Some("male"), Some("zh-TW"), Some(["預設", "沉穩", "活潑"]))]

  /** One entry of `get_voices`. */
  datatype VoiceEntry = VoiceEntry(id: string, name: string, language: string, gender: string,
                                   speaker: string, style: string)

  /** `speaker.get('styles', ['預設'])`. */
  function StylesOf(s: Speaker): seq<string>
  {
    GetOr(s.styles, ["預設"])
  }

  function Entry(s: Speaker, style: string): (e: VoiceEntry)
    ensures e.id == "voai-" + s.name + "-" + style && e.speaker == s.name && e.style == style
    ensures e.language == GetOr(s.language, "zh-TW") && e.gender == GetOr(s.gender, "unknown")
  {
    VoiceEntry("voai-" + s.name + "-" + style, s.name + " (" + style + ")", GetOr(s.language, "zh-TW"),
               GetOr(s.gender, "unknown"), s.name, style)
  }

  /** The entries of one speaker, one per style, in style order. */
  function SpeakerEntries(s: Speaker, styles: seq<string>): (r: seq<VoiceEntry>)
    ensures |r| == |styles|
    ensures forall j :: 0 <= j < |styles| ==> r[j] == Entry(s, styles[j])
  {
    if styles == [] then [] else SpeakerEntries(s, styles[..|styles| - 1]) + [Entry(s, styles[|styles| - 1])]
  }

  /** The voice list: the speakers' entries, speaker after speaker. */
  function AllEntries(speakers: seq<Speaker>): seq<VoiceEntry>
  {
    if speakers == [] then []
    else AllEntries(speakers[..|speakers| - 1]) + SpeakerEntries(speakers[|speakers| - 1], StylesOf(speakers[|speakers| - 1]))
  }

  function StyleCount(speakers: seq<Speaker>): nat
  {
    if speakers == [] then 0 else StyleCount(speakers[..|speakers| - 1]) + |StylesOf(speakers[|speakers| - 1])|
  }

  /** Exactly one entry per (speaker, style) pair: the list is as long as
      the styles together, and the pair's entry sits at its offset. */
  lemma {:induction false} AllEntriesPairs(speakers: seq<Speaker>, k: nat, j: nat)
    requires k < |speakers| && j < |StylesOf(speakers[k])|
    ensures |AllEntries(speakers)| == StyleCount(speakers)
    ensures StyleCount(speakers[..k]) + j < StyleCount(speakers)
    ensures AllEntries(speakers)[StyleCount(speakers[..k]) + j] == Entry(speakers[k], StylesOf(speakers[k])[j])
  {
    var n := |speakers|;
    var init := speakers[..n - 1];
    AllEntriesLength(speakers);
    if k == n - 1 {
      assert speakers[..k] == init;
      AllEntriesLength(init);
    } else {
      assert init[k] == speakers[k];
      assert init[..k] == speakers[..k];
      AllEntriesPairs(init, k, j);
    }
  }

  lemma {:induction false} AllEntriesLength(speakers: seq<Speaker>)
    ensures |AllEntries(speakers)| == StyleCount(speakers)
  {
    if speakers != [] {
      AllEntriesLength(speakers[..|speakers| - 1]);
    }
  }

  /** The request `text_to_speech` posts: texts over 200 characters or
      containing "[:" go to the advanced endpoint with a nested body,
      others to the simple endpoint with a flat body carrying the model as
      `version`. */
  datatype Request =
    | GenerateVoice(url: string, scriptText: string, voiceName: string, style: string, model: string,
                    speed: real, pitchShift: real, styleWeight: real, breathPause: real)
    | Speech(url: string, version: string, text: string, speaker: string, style: string,
             speed: real, pitchShift: real, styleWeight: real, breathPause: real)

  /** What `response.json()` gives: not JSON, or an object whose "message"
      may be absent. */
  datatype JsonBody = NotJson | Json(message: Option<string>)

  datatype Reply =
    | Raised(reason: string)
    | Http(status: int, contentType: Option<string>, content: seq<byte>, body: JsonBody)

  /** The knobs `text_to_speech` receives. */
  datatype Knobs = Knobs(style: string, model: string, speed: real, pitchShift: real, styleWeight: real,
                         breathPause: real)

  function BuildRequest(text: string, voice: string, k: Knobs): (r: Request)
    ensures r.GenerateVoice? <==> |text| > 200 || Contains(text, "[:")
    ensures r.GenerateVoice? ==>
      r.url == BaseUrl + "/TTS/generate-voice" && r.scriptText == text
      && r.voiceName == voice && r.style == k.style && r.model == k.model
    ensures r.Speech? ==>
      r.url == BaseUrl + "/TTS/Speech" && r.version == k.model && r.text == text
      && r.speaker == voice && r.style == k.style
    ensures 0.5 <= r.speed <= 1.5 && -5.0 <= r.pitchShift <= 5.0
    ensures 0.0 <= r.styleWeight <= 1.0 && 0.0 <= r.breathPause <= 10.0
    ensures r.speed == Clamp(0.5, 1.5, k.speed) && r.pitchShift == Clamp(-5.0, 5.0, k.pitchShift)
    ensures r.styleWeight == Clamp(0.0, 1.0, k.styleWeight) && r.breathPause == Clamp(0.0, 10.0, k.breathPause)
  {
    var speed := Clamp(0.5, 1.5, k.speed);
    var pitch := Clamp(-5.0, 5.0, k.pitchShift);
    var weight := Clamp(0.0, 1.0, k.styleWeight);
    var pause := Clamp(0.0, 10.0, k.breathPause);
    if |text| > 200 || Contains(text, "[:") then
      GenerateVoice(BaseUrl + "/TTS/generate-voice", text, voice, k.style, k.model, speed, pitch, weight, pause)
    else
      Speech(BaseUrl + "/TTS/Speech", k.model, text, voice, k.style, speed, pitch, weight, pause)
  }

  predicate IsAudio(contentType: Option<string>)
  {
    var t := GetOr(contentType, "");
    Contains(t, "audio") || Contains(t, "wav")
  }

  /** The error for a 200 reply that is not audio, as written: the inner
      `raise` sits inside a bare `try/except` that swallows it, so every
      such reply ends with the format error, whatever its body says. */
  function NonAudioErrorAsWritten(body: JsonBody): (e: string)
    ensures e == "VoAI API 回應格式錯誤"
  {
    match body
    case NotJson => "VoAI API 回應格式錯誤"
    case Json(_) => "VoAI API 回應格式錯誤"
  }

  /** A JSON error reply carrying a message loses it. */
  lemma NonAudioMessageLost(m: string)
    ensures NonAudioErrorAsWritten(Json(Some(m))) != "VoAI API 錯誤: " + m
  {
    assert "VoAI API 錯誤: "[9] != "VoAI API 回應格式錯誤"[9];
  }

  /** The error for a 200 reply that is not audio as the handler means it:
      a JSON body reports its message (or "未知錯誤"), and only a body that
      is not JSON is a format error. */
  function NonAudioError(body: JsonBody): (e: string)
    ensures body.Json? && body.message.Some? ==> e == "VoAI API 錯誤: " + body.message.value
    ensures body.Json? && body.message.None? ==> e == "VoAI API 錯誤: 未知錯誤"
    ensures body.NotJson? ==> e == NonAudioErrorAsWritten(body)
  {
    match body
    case NotJson => "VoAI API 回應格式錯誤"
    case Json(m) => "VoAI API 錯誤: " + GetOr(m, "未知錯誤")
  }

  /** The detail of a non-200 reply: the JSON body's message, or
      "HTTP {status}" when there is none or the body is not JSON. */
  function FailureDetail(status: int, body: JsonBody): (d: string)
    ensures body.Json? && body.message.Some? ==> d == body.message.value
    ensures !(body.Json? && body.message.Some?) ==> d == "HTTP " + IntToString(status)
  {
    if body.Json? && body.message.Some? then body.message.value else "HTTP " + IntToString(status)
  }

  /** Maps the reply to the audio bytes or the error raised; a 200 reply
      that is not audio always ends with the format error, whatever its
      body says (`NonAudioErrorAsWritten`). */
  function HandleReply(reply: Reply): (r: Result<seq<byte>>)
    ensures r.Ok? <==> reply.Http? && reply.status == 200 && IsAudio(reply.contentType)
    ensures r.Ok? ==> r.value == reply.content
    ensures reply.Raised? ==> r == Err(reply.reason)
    ensures reply.Http? && reply.status == 200 && !IsAudio(reply.contentType) ==> r == Err("VoAI API 回應格式錯誤")
    ensures reply.Http? && reply.status != 200 ==> r == Err("VoAI API 請求失敗: " + FailureDetail(reply.status, reply.body))
  {
    match reply
    case Raised(reason) => Err(reason)
    case Http(status, contentType, content, body) =>
      if status == 200 then
        if IsAudio(contentType) then Ok(content) else Err(NonAudioErrorAsWritten(body))
      else Err("VoAI API 請求失敗: " + FailureDetail(status, body))
  }

  /** The keys of `voice_config` the adapter reads. */
  datatype VoiceConfig = VoiceConfig(voice: Option<string>, style: Option<string>, model: Option<string>,
                                     speed: Option<real>, pitchShift: Option<real>, styleWeight: Option<real>,
                                     breathPause: Option<real>)

  datatype SpeechResult =
    | SpeechOk(audio: seq<byte>, duration: real, sampleRate: nat, format: string, textLength: nat,
               language: string, voice: string, style: string, model: string)
    | SpeechFailed(message: string)

  /** What `check_quota` returns, and whether it sent a request. */
  datatype QuotaReply = QuotaRaised(reason: string) | QuotaHttp(status: int, json: string)

  class VoaiService {
    var isInitialized: bool
    var apiKey: Option<string>
    var speakers: seq<Speaker>

    constructor()
      ensures !isInitialized && apiKey.None? && speakers == DefaultSpeakers
    {
      isInitialized := false;
      apiKey := None;
      speakers := DefaultSpeakers;
    }

    /** `initialize`: a key already held is kept, otherwise it is read from
        `VOAI_API_KEY`; the adapter is initialised iff it ends with a key. */
    method Initialize(env: map<string, string>) returns (ok: bool)
      modifies this
      ensures apiKey == if Truthy(old(apiKey)) then old(apiKey) else Get(env, "VOAI_API_KEY")
      ensures ok == isInitialized == Truthy(apiKey)
      ensures speakers == old(speakers)
    {
      if !Truthy(apiKey) {
        apiKey := Get(env, "VOAI_API_KEY");
      }
      if !Truthy(apiKey) {
        isInitialized := false;
        return false;
      }
      isInitialized := true;
      return true;
    }

    function Health(): (r: (string, nat))
      reads this
      ensures r.0 == "healthy" <==> isInitialized
      ensures r.1 == |speakers|
    {
      (if isInitialized then "healthy" else "unhealthy", |speakers|)
    }

    /** `text_to_speech`; `send` is what posting a request gives.  An
        uninitialised adapter and an empty text fail before any request. */
    function TextToSpeech(text: string, voice: string, k: Knobs, send: Request -> Reply): (r: Result<seq<byte>>)
      reads this
      ensures !isInitialized ==> r == Err("VoAI 服務尚未初始化")
      ensures isInitialized && text == [] ==> r == Err("文本不能為空")
      ensures isInitialized && text != [] ==> r == HandleReply(send(BuildRequest(text, voice, k)))
    {
      if !isInitialized then Err("VoAI 服務尚未初始化")
      else if text == [] then Err("文本不能為空")
      else HandleReply(send(BuildRequest(text, voice, k)))
    }

    /** `generate_speech`: defaults voice 佑希, style 預設, model Neo and
        zero knobs apart from speed 1.0; reports `len / 16000` seconds at
        24000 Hz. */
    function GenerateSpeech(text: string, cfg: VoiceConfig, format: string, language: string,
                            send: Request -> Reply): (r: SpeechResult)
      reads this
      ensures var voice := GetOr(cfg.voice, "佑希");
        var k := Knobs(GetOr(cfg.style, "預設"), GetOr(cfg.model, "Neo"), GetOr(cfg.speed, 1.0),
                       GetOr(cfg.pitchShift, 0.0), GetOr(cfg.styleWeight, 0.0), GetOr(cfg.breathPause, 0.0));
        var tts := TextToSpeech(text, voice, k, send);
        (tts.Err? <==> r.SpeechFailed?)
        && (tts.Err? ==> r.message == "語音生成失敗: " + tts.message)
        && (tts.Ok? ==>
              r.audio == tts.value && r.duration == |tts.value| as real / 16000.0
              && r.sampleRate == 24000 && r.voice == voice && r.style == k.style && r.model == k.model
              && r.format == format && r.textLength == |text| && r.language == language)
    {
      var voice := GetOr(cfg.voice, "佑希");
      var k := Knobs(GetOr(cfg.style, "預設"), GetOr(cfg.model, "Neo"), GetOr(cfg.speed, 1.0),
                     GetOr(cfg.pitchShift, 0.0), GetOr(cfg.styleWeight, 0.0), GetOr(cfg.breathPause, 0.0));
      match TextToSpeech(text, voice, k, send)
      case Err(e) => SpeechFailed("語音生成失敗: " + e)
      case Ok(audio) => SpeechOk(audio, |audio| as real / 16000.0, 24000, format, |text|, language, voice, k.style, k.model)
    }

    /** `get_voices`: a nested loop over the speakers and their styles. */
    method GetVoices() returns (voices: seq<VoiceEntry>)
      ensures voices == AllEntries(speakers)
      ensures |voices| == StyleCount(speakers)
    {
      voices := [];
      var k := 0;
      while k < |speakers|
        invariant 0 <= k <= |speakers|
        invariant voices == AllEntries(speakers[..k])
      {
        var speaker := speakers[k];
        var styles := StylesOf(speaker);
        var j := 0;
        while j < |styles|
          invariant 0 <= j <= |styles|
          invariant voices == AllEntries(speakers[..k]) + SpeakerEntries(speaker, styles[..j])
        {
          assert styles[..j + 1][..j] == styles[..j];
          voices := voices + [Entry(speaker, styles[j])];
          j := j + 1;
        }
        assert styles[..j] == styles;
        assert speakers[..k + 1][..k] == speakers[..k];
        k := k + 1;
      }
      assert speakers[..k] == speakers;
      AllEntriesLength(speakers);
    }

    /** `check_quota`: without a key it reports the error and sends
        nothing; otherwise one request, whose JSON is returned on 200. */
    function CheckQuota(reply: QuotaReply): (r: (Result<string>, bool))
      reads this
      ensures !Truthy(apiKey) <==> !r.1
      ensures !Truthy(apiKey) ==> r.0 == Err("API Key 未設置")
      ensures Truthy(apiKey) && reply.QuotaHttp? ==>
        r.0 == if reply.status == 200 then Ok(reply.json) else Err("HTTP " + IntToString(reply.status))
      ensures Truthy(apiKey) && reply.QuotaRaised? ==> r.0 == Err(reply.reason)
    {
      if !Truthy(apiKey) then (Err("API Key 未設置"), false)
      else match reply
        case QuotaRaised(reason) => (Err(reason), true)
        case QuotaHttp(status, json) =>
          (if status == 200 then Ok(json) else Err("HTTP " + IntToString(status)), true)
    }
  }
}
