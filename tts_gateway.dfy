/** The TTS gateway: the registry of provider adapters filled at startup,
    the aggregated health and service listings, the `/api/tts/generate`
    dispatcher and the per-service info endpoint.  The adapters themselves
    are seen here only through what their calls return, given as oracle
    functions from the service id. */
module TtsGateway {
  import opened Wrappers
  import opened Strs

  /** The ids startup registers, in order; `service3` is bound to the
      Eugenes adapter and no id is bound to the ATEN adapter. */
  const ServiceIds: seq<string> := ["service1", "service2", "service3", "service4"]

  /** The adapter class each id is bound to. */
  datatype Adapter = EdgeTts | Minimax | Eugenes | OpenAi | Aten

  function AdapterOf(id: string): (r: Option<Adapter>)
    ensures r.Some? <==> id in ServiceIds
    ensures r != Some(Aten)
  {
    if id == "service1" then Some(EdgeTts)
    else if id == "service2" then Some(Minimax)
    else if id == "service3" then Some(Eugenes)
    else if id == "service4" then Some(OpenAi)
    else None
  }

  /** Keys of a Python dict after `d[id] = ...`: a new key goes last, an
      existing key keeps its place. */
  function Assign(keys: seq<string>, id: string): (r: seq<string>)
    ensures id in r && (forall k :: k in keys ==> k in r)
    ensures id in keys ==> r == keys
    ensures id !in keys ==> r == keys + [id]
  {
    if id in keys then keys else keys + [id]
  }

  function AssignAll(keys: seq<string>, ids: seq<string>): (r: seq<string>)
    ensures forall k :: k in ids ==> k in r
    ensures forall k :: k in keys ==> k in r
    decreases |ids|
  {
    if ids == [] then keys else Assign(AssignAll(keys, ids[..|ids| - 1]), ids[|ids| - 1])
  }

  predicate Distinct(keys: seq<string>)
  {
    forall i, j :: 0 <= i < j < |keys| ==> keys[i] != keys[j]
  }

  lemma {:induction false} AssignAllDistinct(keys: seq<string>, ids: seq<string>)
    requires Distinct(keys)
    ensures Distinct(AssignAll(keys, ids))
    decreases |ids|
  {
    if ids != [] {
      AssignAllDistinct(keys, ids[..|ids| - 1]);
    }
  }

  /** What an adapter's `health_check` does: raise, or return a dict whose
      "status" entry may be absent. */
  datatype HealthProbe = HealthRaised(error: string) | HealthReported(status: Option<string>)

  /** One entry of the `/health` "services" map. */
  datatype StatusEntry = StatusEntry(status: Option<string>, error: Option<string>)

  /** What an adapter's `get_info` does: raise, or return a dict in which
      each of the listed keys may be absent. */
  datatype InfoProbe =
    | InfoRaised(reason: string)
    | InfoReturned(name: Option<string>, description: Option<string>,
                   languages: Option<seq<string>>, features: Option<seq<string>>)

  /** A `ServiceInfo` row of `/api/services`. */
  datatype ServiceInfo = ServiceInfo(id: string, name: string, description: string, status: string,
                                     languages: seq<string>, features: seq<string>)

  /** The `/api/services` row for one registered adapter: an adapter whose
      `get_info` raises is listed as unhealthy with no languages or
      features; every other one is listed as healthy, whatever its health
      probe says, with defaults for the missing keys. */
  function InfoRow(id: string, probe: InfoProbe): (r: ServiceInfo)
    ensures r.id == id
    ensures r.status == "healthy" <==> probe.InfoReturned?
    ensures r.status != "healthy" ==>
      r.status == "unhealthy" && r.languages == [] && r.features == []
      && r.name == "TTS Service " + id && r.description == "服務暫時不可用"
    ensures probe.InfoReturned? ==>
      r.name == (if probe.name.Some? then probe.name.value else "TTS Service " + id)
      && r.description == (if probe.description.Some? then probe.description.value else "自定義 TTS 服務")
      && r.languages == (if probe.languages.Some? then probe.languages.value else ["zh", "en"])
      && r.features == (if probe.features.Some? then probe.features.value else ["text_to_speech"])
  {
    match probe
    case InfoRaised(_) => ServiceInfo(id, "TTS Service " + id, "服務暫時不可用", "unhealthy", [], [])
    case InfoReturned(name, description, languages, features) =>
      ServiceInfo(id, if name.Some? then name.value else "TTS Service " + id,
                  if description.Some? then description.value else "自定義 TTS 服務",
                  "healthy",
                  if languages.Some? then languages.value else ["zh", "en"],
                  if features.Some? then features.value else ["text_to_speech"])
  }

  /** The `/health` entry for one probe: a raising probe never propagates,
      it is recorded as unhealthy with its message. */
  function HealthEntry(probe: HealthProbe): (e: StatusEntry)
    ensures e.status == Some("healthy") <==> probe == HealthReported(Some("healthy"))
    ensures probe.HealthRaised? ==> e == StatusEntry(Some("unhealthy"), Some(probe.error))
  {
    match probe
    case HealthRaised(error) => StatusEntry(Some("unhealthy"), Some(error))
    case HealthReported(status) => StatusEntry(status, None)
  }

  /** Python's `all(status.get("status") == "healthy" for ...)`. */
  predicate AllHealthy(entries: seq<StatusEntry>)
  {
    forall i | 0 <= i < |entries| :: entries[i].status == Some("healthy")
  }

  /** A `generate_tts` request; `service` may be sent as null. */
  datatype TtsRequest = TtsRequest(text: string, service: Option<string>, format: string, language: Option<string>)

  /** What the adapter's `generate_speech` does: raise, or return a result
      dict; `audio_data` and `message` may be missing from it and
      `duration` is carried as the text `str()` makes of it. */
  datatype SpeechCall =
    | SpeechRaised(reason: string)
    | SpeechReturned(success: bool, audioData: Option<seq<byte>>, duration: Option<string>, message: Option<string>)

  /** The audio response's headers. */
  datatype AudioHeaders = AudioHeaders(contentDisposition: string, xService: string, xDuration: string,
                                       xFilename: string, xAudioPath: string)

  datatype TtsResponse =
    | AudioResponse(content: seq<byte>, mediaType: string, headers: AudioHeaders)
    | HttpError(status: nat, detail: string)

  /** What the handler writes to disk. */
  datatype SavedFile = SavedFile(path: string, data: seq<byte>)

  /** `repr()` of a list of strings without quotes in them. */
  function PyListRepr(items: seq<string>): string
  {
    "[" + Join(QuoteEach(items), ", ") + "]"
  }

  function QuoteEach(items: seq<string>): (r: seq<string>)
    ensures |r| == |items|
  {
    if items == [] then [] else ["'" + items[0] + "'"] + QuoteEach(items[1..])
  }

  /** Python's `str()` of the optional service id. */
  function ServiceText(s: Option<string>): string
  {
    if s.Some? then s.value else "None"
  }

  /** `tts_{service}_{YYYYmmdd_HHMMSS}_{8 hex}.{format}`. */
  function AudioFilename(service: string, timestamp: string, hex8: string, format: string): string
  {
    "tts_" + service + "_" + timestamp + "_" + hex8 + "." + format
  }

  const AudioDir := "/app/data/audios"

  /** Position in `ServiceIds` of the first service whose initialisation
      raises, or 4 when none does. */
  function FirstFailure(initError: string -> Option<string>): (k: nat)
    ensures k <= 4
    ensures forall j | 0 <= j < k :: initError(ServiceIds[j]).None?
    ensures k < 4 ==> initError(ServiceIds[k]).Some?
  {
    if initError("service1").Some? then 0
    else if initError("service2").Some? then 1
    else if initError("service3").Some? then 2
    else if initError("service4").Some? then 3
    else 4
  }

  class Gateway {
    /** The keys of the global `tts_services` dict, in insertion order. */
    var services: seq<string>

    constructor()
      ensures services == []
    {
      services := [];
    }

    ghost predicate Valid()
      reads this
    {
      Distinct(services)
    }

    /** `startup_event`: each adapter is stored under its id and then
        initialised, service1 to service4 in order; the first
        initialisation that raises aborts startup with its error, leaving
        its own id (but none after it) registered. */
    method Startup(initError: string -> Option<string>) returns (error: Option<string>)
      requires Valid()
      modifies this
      ensures Valid()
      ensures var k := FirstFailure(initError);
        error == (if k < 4 then initError(ServiceIds[k]) else None)
        && services == AssignAll(old(services), ServiceIds[..if k < 4 then k + 1 else 4])
    {
      ghost var keys0 := services;
      services := Assign(services, "service1");
      assert services == AssignAll(keys0, ServiceIds[..1]);
      error := initError("service1");
      if error.Some? { AssignAllDistinct(keys0, ServiceIds[..1]); return; }
      services := Assign(services, "service2");
      assert ServiceIds[..2][..1] == ServiceIds[..1];
      assert services == AssignAll(keys0, ServiceIds[..2]);
      error := initError("service2");
      if error.Some? { AssignAllDistinct(keys0, ServiceIds[..2]); return; }
      services := Assign(services, "service3");
      assert ServiceIds[..3][..2] == ServiceIds[..2];
      assert services == AssignAll(keys0, ServiceIds[..3]);
      error := initError("service3");
      if error.Some? { AssignAllDistinct(keys0, ServiceIds[..3]); return; }
      services := Assign(services, "service4");
      assert ServiceIds[..4][..3] == ServiceIds[..3];
      assert services == AssignAll(keys0, ServiceIds[..4]);
      AssignAllDistinct(keys0, ServiceIds[..4]);
      error := initError("service4");
    }

    /** `/health`: every registered adapter is probed in turn; the overall
        status is "healthy" iff every probe reported "healthy" (vacuously
        so with no adapters), "degraded" otherwise. */
    method HealthCheck(probe: string -> HealthProbe) returns (overall: string, entries: seq<StatusEntry>)
      ensures |entries| == |services|
      ensures forall i | 0 <= i < |services| :: entries[i] == HealthEntry(probe(services[i]))
      ensures overall == "healthy" <==> forall i | 0 <= i < |services| :: probe(services[i]) == HealthReported(Some("healthy"))
      ensures overall != "healthy" ==> overall == "degraded"
    {
      entries := [];
      var i := 0;
      while i < |services|
        invariant 0 <= i <= |services|
        invariant |entries| == i
        invariant forall j | 0 <= j < i :: entries[j] == HealthEntry(probe(services[j]))
      {
        entries := entries + [HealthEntry(probe(services[i]))];
        i := i + 1;
      }
      overall := if AllHealthy(entries) then "healthy" else "degraded";
    }

    /** `/api/services`: one row per registered adapter, in registry order. */
    method ListServices(info: string -> InfoProbe) returns (rows: seq<ServiceInfo>)
      ensures |rows| == |services|
      ensures forall i | 0 <= i < |services| :: rows[i] == InfoRow(services[i], info(services[i]))
    {
      rows := [];
      var i := 0;
      while i < |services|
        invariant 0 <= i <= |services|
        invariant |rows| == i
        invariant forall j | 0 <= j < i :: rows[j] == InfoRow(services[j], info(services[j]))
      {
        rows := rows + [InfoRow(services[i], info(services[i]))];
        i := i + 1;
      }
    }

    /** `/api/tts/generate`.  `timestamp` and `hex8` are the clock reading
        and uuid fragment the filename is made of; `writeError` is what
        saving the file raises, if anything.  Returns the response and the
        file written. */
    function GenerateTts(request: TtsRequest, speech: string -> SpeechCall, timestamp: string, hex8: string,
                         writeError: Option<string>): (r: (TtsResponse, Option<SavedFile>))
      reads this
      ensures request.service.None? || request.service.value !in services ==>
        r == (HttpError(400, "服務 '" + ServiceText(request.service) + "' 不存在。可用服務: " + PyListRepr(services)), None)
    {
      if request.service.None? || request.service.value !in services then
        (HttpError(400, "服務 '" + ServiceText(request.service) + "' 不存在。可用服務: " + PyListRepr(services)), None)
      else
        var service := request.service.value;
        match speech(service)
        case SpeechRaised(reason) => (HttpError(500, "TTS 生成失敗: " + reason), None)
        case SpeechReturned(success, audioData, duration, message) =>
          if !success then
            if message.Some? then (HttpError(500, message.value), None)
            else (HttpError(500, "TTS 生成失敗: 'message'"), None)
          else if audioData.None? then (HttpError(500, "TTS 生成失敗: 'audio_data'"), None)
          else
            var filename := AudioFilename(service, timestamp, hex8, request.format);
            if writeError.Some? then (HttpError(500, "TTS 生成失敗: " + writeError.value), None)
            else
              (AudioResponse(audioData.value, "audio/" + request.format,
                             AudioHeaders("attachment; filename=" + filename, service,
                                          if duration.Some? then duration.value else "0",
                                          filename, "/data/audios/" + filename)),
               Some(SavedFile(AudioDir + "/" + filename, audioData.value)))
    }

    /** `/api/tts/services/{id}/info`. */
    function GetServiceInfo(serviceId: string, info: string -> InfoProbe): (r: Result<InfoProbe>)
      reads this
      ensures serviceId !in services ==> r == Err("404: 服務 '" + serviceId + "' 不存在")
      ensures serviceId in services && info(serviceId).InfoRaised? ==>
        r == Err("500: 獲取服務信息失敗: " + info(serviceId).reason)
      ensures serviceId in services && info(serviceId).InfoReturned? ==> r == Ok(info(serviceId))
    {
      if serviceId !in services then Err("404: 服務 '" + serviceId + "' 不存在")
      else if info(serviceId).InfoRaised? then Err("500: 獲取服務信息失敗: " + info(serviceId).reason)
      else Ok(info(serviceId))
    }
  }

  /** The request is routed by its service id alone: for an unregistered id
      the outcome is the same whatever the adapters would do, so none is
      invoked, and nothing is written. */
  lemma UnknownServiceInvokesNoAdapter(g: Gateway, request: TtsRequest, s1: string -> SpeechCall, s2: string -> SpeechCall,
                                       t: string, h: string, w: Option<string>)
    requires request.service.None? || request.service.value !in g.services
    ensures g.GenerateTts(request, s1, t, h, w) == g.GenerateTts(request, s2, t, h, w)
    ensures g.GenerateTts(request, s1, t, h, w).0.HttpError? && g.GenerateTts(request, s1, t, h, w).0.status == 400
    ensures g.GenerateTts(request, s1, t, h, w).1.None?
  {
  }

  /** On adapter success (with audio, and a successful write) the response
      carries exactly the bytes written, as `audio/{format}` with the format
      passed through unchanged, under the generated filename. */
  lemma GenerateTtsSuccess(g: Gateway, request: TtsRequest, speech: string -> SpeechCall, t: string, h: string)
    requires request.service.Some? && request.service.value in g.services
    requires speech(request.service.value).SpeechReturned? && speech(request.service.value).success
    requires speech(request.service.value).audioData.Some?
    ensures var (resp, saved) := g.GenerateTts(request, speech, t, h, None);
      var service := request.service.value;
      var filename := AudioFilename(service, t, h, request.format);
      resp.AudioResponse? && saved.Some?
      && resp.content == saved.value.data == speech(service).audioData.value
      && resp.mediaType == "audio/" + request.format
      && saved.value.path == "/app/data/audios/" + filename
      && resp.headers.xService == service && resp.headers.xFilename == filename
      && resp.headers.xAudioPath == "/data/audios/" + filename
      && resp.headers.xDuration == (if speech(service).duration.Some? then speech(service).duration.value else "0")
  {
  }

  /** Every failure of a registered service is a 500: the adapter's own
      message when it reports failure, "TTS 生成失敗: …" when it raises or
      when saving the file fails. */
  lemma GenerateTtsFailures(g: Gateway, request: TtsRequest, speech: string -> SpeechCall, t: string, h: string,
                            w: Option<string>)
    requires request.service.Some? && request.service.value in g.services
    ensures var (resp, saved) := g.GenerateTts(request, speech, t, h, w);
      var call := speech(request.service.value);
      (resp.HttpError? ==> resp.status == 500 && saved.None?)
      && (call.SpeechRaised? ==> resp == HttpError(500, "TTS 生成失敗: " + call.reason))
      && (call.SpeechReturned? && !call.success && call.message.Some? ==> resp == HttpError(500, call.message.value))
      && (call.SpeechReturned? && call.success && call.audioData.Some? && w.Some? ==>
            resp == HttpError(500, "TTS 生成失敗: " + w.value))
      && (resp.AudioResponse? <==> call.SpeechReturned? && call.success && call.audioData.Some? && w.None?)
  {
  }
}
