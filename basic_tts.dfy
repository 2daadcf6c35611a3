/** The basic text-to-speech panel (client/src/components/tts/basic-tts.tsx):
    the request body it assembles for each service, how it turns the
    response into a playable URL, the voice chosen when the service
    changes, and the check of the text. The fetch response and the page
    origin are parameters; a blob URL is an opaque value. */
module BasicTts {
  import opened Wrappers
  import Strs

  /** The JSON values the request body holds. */
  datatype Json = JStr(s: string) | JNum(n: real) | JObj(fields: map<string, Json>)

  /** The slider and select values the body reads (`volume[0]`, …). */
  datatype Settings = Settings(emotion: string, volume: real, speed: real, pitch: real)

  /** An entry of the voice list: ATEN entries name their voice by
      `model_id`, VoAI entries by `id`, with a speaker and a style. */
  datatype VoiceEntry = VoiceEntry(id: string, modelId: string, speaker: string, style: string)

  const MiniMax := "service2"
  const Aten := "service3"
  const VoAi := "service6"

  /** The fixed VoAI voice list. */
  const VoAiVoices: seq<VoiceEntry> := [
    VoiceEntry("佑希-預設", "", "佑希", "預設"), VoiceEntry("佑希-可愛", "", "佑希", "可愛"),
    VoiceEntry("佑希-聊天", "", "佑希", "聊天"), VoiceEntry("小雅-預設", "", "小雅", "預設"),
    VoiceEntry("小雅-溫柔", "", "小雅", "溫柔"), VoiceEntry("小雅-專業", "", "小雅", "專業"),
    VoiceEntry("志明-預設", "", "志明", "預設"), VoiceEntry("志明-沉穩", "", "志明", "沉穩"),
    VoiceEntry("志明-活潑", "", "志明", "活潑")]

  /** `voicesData.find(v => v.id === id)`: the first entry with that id. */
  function FindVoice(voices: seq<VoiceEntry>, id: string): (r: Option<VoiceEntry>)
    ensures r.Some? ==> r.value in voices && r.value.id == id
    ensures r.None? <==> forall i :: 0 <= i < |voices| ==> voices[i].id != id
    ensures r.Some? ==> exists i :: (0 <= i < |voices| && voices[i] == r.value
                                     && forall j :: 0 <= j < i ==> voices[j].id != id)
  {
    if voices == [] then None
    else if voices[0].id == id then Some(voices[0])
    else
      var r := FindVoice(voices[1..], id);
      assert forall i :: 1 <= i < |voices| ==> voices[i] == voices[1..][i - 1];
      r
  }

  /** The `voice_config` of each service. */
  function MiniMaxConfig(voice: string, s: Settings): Json
  {
    JObj(map["voice_id" := JStr(voice), "speed" := JNum(s.speed), "pitch" := JNum(s.pitch)])
  }

  /** ATEN wants pitch in -2..2 and volume in -6..6. */
  function AtenConfig(voice: string, s: Settings): Json
  {
    JObj(map["voice_name" := JStr(voice), "pitch" := JNum(s.pitch / 6.0), "rate" := JNum(s.speed),
             "volume" := JNum((s.volume - 1.0) * 6.0), "silence_scale" := JNum(1.0)])
  }

  function VoAiConfig(v: VoiceEntry, s: Settings): Json
  {
    JObj(map["voice" := JStr(v.speaker), "style" := JStr(v.style), "model" := JStr("Neo"),
             "speed" := JNum(s.speed), "pitch_shift" := JNum(s.pitch),
             "style_weight" := JNum(0.0), "breath_pause" := JNum(0.0)])
  }

  /** Whether a VoAI request carries a voice: a voice is selected and found
      in the list. */
  predicate VoAiVoiceFound(selectedVoice: string, voices: seq<VoiceEntry>)
  {
    selectedVoice != "" && FindVoice(voices, selectedVoice).Some?
  }

  /** `requestBody`, built field by field as the mutation does. */
  method BuildRequestBody(text: string, service: string, s: Settings, selectedVoice: string, voices: seq<VoiceEntry>)
    returns (body: map<string, Json>)
    ensures "text" in body && body["text"] == JStr(text)
    ensures "service" in body && body["service"] == JStr(service)
    ensures "format" in body && body["format"] == JStr("wav")
    ensures "language" in body && body["language"] == JStr(if service == Aten then "zh-TW" else "zh")
    ensures ("emotion" in body <==> service == MiniMax) && ("volume" in body <==> service == MiniMax)
    ensures "voice_config" in body <==>
      (service == MiniMax || service == Aten || (service == VoAi && VoAiVoiceFound(selectedVoice, voices)))
    ensures service == MiniMax ==> body == map["text" := JStr(text), "service" := JStr(service),
      "format" := JStr("wav"), "language" := JStr("zh"), "emotion" := JStr(s.emotion),
      "volume" := JNum(s.volume), "voice_config" := MiniMaxConfig(selectedVoice, s)]
    ensures service == Aten ==> body["voice_config"] == AtenConfig(selectedVoice, s)
    ensures service == VoAi && VoAiVoiceFound(selectedVoice, voices) ==>
      body["voice_config"] == VoAiConfig(FindVoice(voices, selectedVoice).value, s)
    ensures body.Keys <= {"text", "service", "format", "language", "emotion", "volume", "voice_config"}
  {
    body := map["text" := JStr(text), "service" := JStr(service), "format" := JStr("wav"), "language" := JStr("zh")];
    if service == MiniMax {
      body := body["emotion" := JStr(s.emotion)];
      body := body["volume" := JNum(s.volume)];
      body := body["voice_config" := MiniMaxConfig(selectedVoice, s)];
    }
    if service == Aten {
      body := body["language" := JStr("zh-TW")];
      body := body["voice_config" := AtenConfig(selectedVoice, s)];
    }
    if service == VoAi {
      if selectedVoice != "" {
        var v := FindVoice(voices, selectedVoice);
        if v.Some? {
          body := body["voice_config" := VoAiConfig(v.value, s)];
        }
      }
    }
  }

  /** The ATEN conversion maps the sliders' ranges (pitch -12..12, volume
      0..2) onto ATEN's (-2..2 and -6..6), with the neutral settings
      going to 0. */
  lemma AtenRanges(s: Settings)
    requires -12.0 <= s.pitch <= 12.0 && 0.0 <= s.volume <= 2.0
    ensures var c := AtenConfig("", s).fields;
      -2.0 <= c["pitch"].n <= 2.0 && -6.0 <= c["volume"].n <= 6.0
      && (s.pitch == 0.0 ==> c["pitch"].n == 0.0) && (s.volume == 1.0 ==> c["volume"].n == 0.0)
  {
  }

  /** The voice selected after the service (or its voice list) changes:
      the first ATEN model, the first VoAI voice, else none. */
  function ResetVoice(service: string, voicesData: Option<seq<VoiceEntry>>): (r: string)
    ensures service == Aten && voicesData.Some? && voicesData.value != [] ==> r == voicesData.value[0].modelId
    ensures service == VoAi && voicesData.Some? && voicesData.value != [] ==> r == voicesData.value[0].id
    ensures (service != Aten && service != VoAi) || voicesData.None? || voicesData.value == [] ==> r == ""
  {
    if service == Aten && voicesData.Some? && |voicesData.value| > 0 then voicesData.value[0].modelId
    else if service == VoAi && voicesData.Some? && |voicesData.value| > 0 then voicesData.value[0].id
    else ""
  }

  /** Once the VoAI list is loaded, the voice picked on switching to VoAI
      is found, so the request carries a voice configuration for the
      list's first entry. */
  lemma VoAiResetFindsVoice(voices: seq<VoiceEntry>)
    requires voices != [] && voices[0].id != ""
    ensures var v := ResetVoice(VoAi, Some(voices));
      VoAiVoiceFound(v, voices) && FindVoice(voices, v) == Some(voices[0])
  {
  }

  /** The fixed list qualifies: its first voice is "佑希-預設". */
  lemma DefaultVoAiVoice()
    ensures ResetVoice(VoAi, Some(VoAiVoices)) == "佑希-預設"
    ensures FindVoice(VoAiVoices, "佑希-預設") == Some(VoAiVoices[0])
  {
  }

  // ---------------------------------------------------------------------
  // Response handling

  /** What the panel reads of the fetch response. */
  datatype TtsResponse = TtsResponse(ok: bool, contentType: Option<string>, filename: Option<string>,
                                     audioPath: Option<string>, body: string)

  /** The playable source: a server URL or an object URL of the body. */
  datatype AudioSource = ServerUrl(url: string) | BlobUrl

  const FailedText := "TTS 生成失敗"

  predicate IsAudioType(contentType: Option<string>)
  {
    contentType.Some? && "audio/" <= contentType.value
  }

  /** The mutation's result: an error unless the response is ok and audio;
      then the server file named by `X-Filename`, else `X-Audio-Path`
      (absolute or under the origin), else a blob. */
  function ResolveAudio(origin: string, resp: TtsResponse): (r: Result<AudioSource>)
    ensures r.Ok? <==> resp.ok && IsAudioType(resp.contentType)
    ensures !resp.ok ==> r == Err(FailedText)
    ensures resp.ok && !IsAudioType(resp.contentType) ==> r == Err(FailedText + ": " + resp.body)
    ensures r.Ok? && Truthy(resp.filename) ==> r.value == ServerUrl(origin + "/audios/" + resp.filename.value)
    ensures r.Ok? && r.value.BlobUrl? <==> r.Ok? && !Truthy(resp.filename) && !Truthy(resp.audioPath)
  {
    if !resp.ok then Err(FailedText)
    else if !IsAudioType(resp.contentType) then Err(FailedText + ": " + resp.body)
    else if Truthy(resp.filename) then Ok(ServerUrl(origin + "/audios/" + resp.filename.value))
    else if Truthy(resp.audioPath) then
      var p := resp.audioPath.value;
      Ok(ServerUrl(if "http" <= p then p else origin + p))
    else Ok(BlobUrl)
  }

  /** With an `http…` origin every server URL is absolute, and `X-Filename`
      wins over `X-Audio-Path`. */
  lemma ServerUrlsAbsolute(origin: string, resp: TtsResponse)
    requires "http" <= origin
    ensures var r := ResolveAudio(origin, resp);
      (r.Ok? && r.value.ServerUrl? ==> "http" <= r.value.url)
      && (r.Ok? && Truthy(resp.filename) ==> r == ResolveAudio(origin, resp.(audioPath := None)))
  {
  }

  // ---------------------------------------------------------------------
  // Text check

  const NoTextTitle := "請輸入文字"

  /** `handleGenerate`'s check: the error toast title, or `None` when the
      request is sent. */
  function TextError(text: string): (r: Option<string>)
    ensures r.None? <==> !Strs.IsBlank(text)
    ensures r.Some? ==> r.value == NoTextTitle
  {
    if Strs.Trim(text) == "" then Some(NoTextTitle) else None
  }

  /** Text made only of blanks is refused. */
  lemma BlankTextRefused(text: string)
    requires forall i :: 0 <= i < |text| ==> Strs.IsSpace(text[i])
    ensures TextError(text) == Some(NoTextTitle)
  {
    Strs.BlankIffAllSpace(text);
  }
}
