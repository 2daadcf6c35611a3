/** The Express server of the Vue front end (V/web-vue/server.js): the model
    catalogue kept in data/database/models.json (create, delete, list), the
    copy of uploads into the shared data folder, the video-task submission to
    the face2face service and the TTS generation endpoint. Remote services,
    the clock and the uuid generator are parameters. Timestamps are the
    millisecond values the ISO strings denote. */
module WebVueServer {
  import opened Wrappers
  import Strs
  import Sorting
  import Paging

  /** A catalogue entry of models.json. `audioQuality` is carried through
      as the JSON text the client sent. */
  datatype VueModel = VueModel(id: string, name: string, kind: string, description: string,
                               videoPath: Option<string>, audioPath: Option<string>,
                               audioQuality: Option<string>, status: string,
                               createdAt: int, updatedAt: int)

  /** The body of `POST /api/model/create`; absent fields are `None`. */
  datatype CreateRequest = CreateRequest(name: Option<string>, videoPath: Option<string>,
                                         audioPath: Option<string>, kind: Option<string>,
                                         description: Option<string>, audioQuality: Option<string>)

  const EmptyName := "模特名稱不能為空"
  const ReadFailed := "無法讀取數據庫"
  const NameExists := "模特名稱已存在"
  const SaveFailed := "保存數據失敗"
  const EmptyId := "模特 ID 不能為空"
  const NoSuchModel := "模特不存在"

  /** Some model already carries this name. */
  predicate NameTaken(models: seq<VueModel>, name: string)
  {
    exists i :: 0 <= i < |models| && models[i].name == name
  }

  /** No two models share a name. */
  predicate DistinctNames(models: seq<VueModel>)
  {
    forall i, j :: 0 <= i < j < |models| ==> models[i].name != models[j].name
  }

  /** No two models share an id. */
  predicate DistinctIds(models: seq<VueModel>)
  {
    forall i, j :: 0 <= i < j < |models| ==> models[i].id != models[j].id
  }

  /** `x || null` on an optional string. */
  function OrNull(x: Option<string>): (r: Option<string>)
    ensures r.Some? <==> Truthy(x)
    ensures r.Some? ==> r == x
  {
    if Truthy(x) then x else None
  }

  /** The entry `create` appends: trimmed name and description, type
      "person" unless given, empty paths as null, status "active". */
  function NewModel(req: CreateRequest, id: string, now: int): (m: VueModel)
    requires req.name.Some?
    ensures m.name == Strs.Trim(req.name.value) && m.id == id
    ensures m.status == "active" && m.createdAt == now && m.updatedAt == now
    ensures m.videoPath.Some? <==> Truthy(req.videoPath)
    ensures m.audioPath.Some? <==> Truthy(req.audioPath)
  {
    VueModel(id, Strs.Trim(req.name.value), GetOr(req.kind, "person"),
             Strs.Trim(GetOr(req.description, "")), OrNull(req.videoPath), OrNull(req.audioPath),
             req.audioQuality, "active", now, now)
  }

  /** Appending an entry whose name is not taken keeps names distinct. */
  lemma AppendKeepsNamesDistinct(models: seq<VueModel>, m: VueModel)
    requires DistinctNames(models) && !NameTaken(models, m.name)
    ensures DistinctNames(models + [m])
  {
    var t := models + [m];
    forall i, j | 0 <= i < j < |t| ensures t[i].name != t[j].name {
      if j == |models| {
        assert t[i] == models[i];
      }
    }
  }

  /** Index of the entry with this id, or -1 (`findIndex`). */
  function IndexOfId(models: seq<VueModel>, id: string): (i: int)
    ensures -1 <= i < |models|
    ensures i == -1 <==> forall j :: 0 <= j < |models| ==> models[j].id != id
    ensures i >= 0 ==> models[i].id == id && forall j :: 0 <= j < i ==> models[j].id != id
  {
    if models == [] then -1
    else
      var i := IndexOfId(models[..|models| - 1], id);
      if i >= 0 then i
      else if models[|models| - 1].id == id then |models| - 1
      else -1
  }

  /** Splicing out the entry with a given id, when ids are distinct, leaves
      no entry with that id and every other entry in its order. */
  lemma SpliceRemovesExactlyThatModel(models: seq<VueModel>, id: string)
    requires DistinctIds(models) && IndexOfId(models, id) >= 0
    ensures var i := IndexOfId(models, id);
      var r := models[..i] + models[i + 1..];
      (forall m :: m in r ==> m.id != id)
      && (forall m :: m in models && m.id != id ==> m in r)
      && DistinctIds(r)
  {
    var i := IndexOfId(models, id);
    var r := models[..i] + models[i + 1..];
    assert forall j :: 0 <= j < i ==> r[j] == models[j];
    assert forall j :: i <= j < |r| ==> r[j] == models[j + 1];
    forall m | m in models && m.id != id ensures m in r {
      var k :| 0 <= k < |models| && models[k] == m;
      if k < i {
        assert r[k] == m;
      } else {
        assert k != i;
        assert r[k - 1] == m;
      }
    }
  }

  /** The search parameters of `GET /api/models`; absent ones are `None`. */
  datatype ListQuery = ListQuery(page: Option<int>, pageSize: Option<int>, name: Option<string>, kind: Option<string>)

  /** The filter of the list endpoint: the name contains the trimmed query
      ignoring case, the type equals the trimmed type, and the entry is
      active; an empty or blank query or type does not filter. */
  predicate Matches(m: VueModel, name: string, kind: string)
  {
    (Strs.Trim(name) != "" ==> Strs.ContainsIgnoreCase(m.name, Strs.Trim(name)))
    && (Strs.Trim(kind) != "" ==> m.kind == Strs.Trim(kind))
    && m.status == "active"
  }

  /** `models.filter(...)` with `Matches`. */
  function FilterModels(models: seq<VueModel>, name: string, kind: string): (r: seq<VueModel>)
    ensures |r| <= |models|
    ensures forall m :: m in r <==> m in models && Matches(m, name, kind)
  {
    if models == [] then []
    else
      var init := FilterModels(models[..|models| - 1], name, kind);
      var last := models[|models| - 1];
      assert models == models[..|models| - 1] + [last];
      if Matches(last, name, kind) then init + [last] else init
  }

  /** Newest first: the key of an ascending sort that orders by descending
      creation time. */
  function NewestFirst(m: VueModel): int { -m.createdAt }

  /** `GET /api/models` on the entries read: filter, newest first, then the
      page window; `total` counts all entries that pass the filter. */
  function ListModels(models: seq<VueModel>, q: ListQuery): (r: Paging.Listing<VueModel>)
    ensures r.page == GetOr(q.page, 1) && r.pageSize == GetOr(q.pageSize, 20)
    ensures r.total == |FilterModels(models, GetOr(q.name, ""), GetOr(q.kind, ""))| && r.total <= |models|
  {
    var name := GetOr(q.name, "");
    var kind := GetOr(q.kind, "");
    var page := GetOr(q.page, 1);
    var pageSize := GetOr(q.pageSize, 20);
    var filtered := FilterModels(models, name, kind);
    var sorted := Sorting.SortBy(filtered, NewestFirst);
    Paging.Listing(Paging.Page(sorted, page, pageSize), |filtered|, page, pageSize)
  }

  /** What the list returns: entries of the catalogue that pass the filter,
      newest first, at most a page of them, and the full match count. */
  lemma ListModelsSound(models: seq<VueModel>, q: ListQuery)
    ensures var r := ListModels(models, q);
      var name := GetOr(q.name, "");
      var kind := GetOr(q.kind, "");
      (forall m :: m in r.list ==> m in models && Matches(m, name, kind))
      && Sorting.SortedBy(r.list, NewestFirst)
      && (r.page >= 1 && r.pageSize >= 0 ==> |r.list| <= r.pageSize)
      && r.total == |FilterModels(models, name, kind)|
  {
    var name := GetOr(q.name, "");
    var kind := GetOr(q.kind, "");
    var page := GetOr(q.page, 1);
    var pageSize := GetOr(q.pageSize, 20);
    var filtered := FilterModels(models, name, kind);
    var sorted := Sorting.SortBy(filtered, NewestFirst);
    Sorting.SortByMembers(filtered, NewestFirst);
    Paging.SortedPage(sorted, page, pageSize, NewestFirst);
    if page >= 1 && pageSize >= 0 {
      Paging.PageWindow(sorted, page, pageSize);
    }
  }

  /** Every entry the filter keeps is listed on some page: the one its
      position in the newest-first order falls on. */
  lemma ListModelsComplete(models: seq<VueModel>, q: ListQuery, m: VueModel)
    requires m in FilterModels(models, GetOr(q.name, ""), GetOr(q.kind, ""))
    requires q.pageSize.Some? && q.pageSize.value > 0
    ensures exists page: nat :: m in ListModels(models, q.(page := Some(page))).list
  {
    var name, kind := GetOr(q.name, ""), GetOr(q.kind, "");
    var filtered := FilterModels(models, name, kind);
    var sorted := Sorting.SortBy(filtered, NewestFirst);
    Sorting.SortByMembers(filtered, NewestFirst);
    Paging.ItemOnSomePage(sorted, m, q.pageSize.value);
    var page: nat :| page >= 1 && m in Paging.Page(sorted, page, q.pageSize.value);
    ListModelsIsPage(models, q.(page := Some(page)));
  }

  /** The list is the page window of the sorted matches. */
  lemma ListModelsIsPage(models: seq<VueModel>, q: ListQuery)
    ensures ListModels(models, q).list
      == Paging.Page(Sorting.SortBy(FilterModels(models, GetOr(q.name, ""), GetOr(q.kind, "")), NewestFirst),
                     GetOr(q.page, 1), GetOr(q.pageSize, 20))
  {
  }

  /** The models file: the entries of `{ models: [...] }`, or `None` when
      `readJsonSync` fails. */
  class ModelsDatabase {
    var file: Option<seq<VueModel>>

    constructor (initial: Option<seq<VueModel>>)
      ensures file == initial
    {
      file := initial;
    }

    /** `POST /api/model/create`. The new entry gets the id `newId` and the
        time `now`; `writeOk` says whether `writeJsonSync` succeeds. */
    method CreateModel(req: CreateRequest, newId: string, now: int, writeOk: bool)
      returns (r: Reply<VueModel>)
      modifies this
      ensures !Truthy(req.name) || Strs.Trim(req.name.value) == "" ==> r == Failure(400, EmptyName)
      ensures Truthy(req.name) && Strs.Trim(req.name.value) != "" ==>
        if old(file).None? then r == Failure(500, ReadFailed)
        else if NameTaken(old(file).value, Strs.Trim(req.name.value)) then r == Failure(400, NameExists)
        else if !writeOk then r == Failure(500, SaveFailed)
        else r == Success(NewModel(req, newId, now)) && file == Some(old(file).value + [NewModel(req, newId, now)])
      ensures r.Failure? ==> file == old(file)
    {
      if !Truthy(req.name) || Strs.Trim(req.name.value) == "" {
        return Failure(400, EmptyName);
      }
      if file.None? {
        return Failure(500, ReadFailed);
      }
      var models := file.value;
      var name := Strs.Trim(req.name.value);
      if IndexOfName(models, name) != -1 {
        return Failure(400, NameExists);
      }
      var m := NewModel(req, newId, now);
      models := models + [m];
      if !writeOk {
        return Failure(500, SaveFailed);
      }
      file := Some(models);
      r := Success(m);
    }

    /** `DELETE /api/model/:id`. */
    method DeleteModel(id: string, writeOk: bool) returns (r: Reply<()>)
      modifies this
      ensures id == "" ==> r == Failure(400, EmptyId)
      ensures id != "" ==>
        if old(file).None? then r == Failure(500, ReadFailed)
        else
          var i := IndexOfId(old(file).value, id);
          if i == -1 then r == Failure(404, NoSuchModel)
          else if !writeOk then r == Failure(500, SaveFailed)
          else r == Success(()) && file == Some(old(file).value[..i] + old(file).value[i + 1..])
      ensures r.Failure? ==> file == old(file)
    {
      if id == "" {
        return Failure(400, EmptyId);
      }
      if file.None? {
        return Failure(500, ReadFailed);
      }
      var models := file.value;
      var i := IndexOfId(models, id);
      if i == -1 {
        return Failure(404, NoSuchModel);
      }
      models := models[..i] + models[i + 1..];
      if !writeOk {
        return Failure(500, SaveFailed);
      }
      file := Some(models);
      r := Success(());
    }

    /** `GET /api/models`. */
    method ListModelsHandler(q: ListQuery) returns (r: Reply<Paging.Listing<VueModel>>)
      ensures file.None? ==> r == Failure(500, ReadFailed)
      ensures file.Some? ==> r == Success(ListModels(file.value, q))
    {
      if file.None? {
        return Failure(500, ReadFailed);
      }
      r := Success(ListModels(file.value, q));
    }
  }

  /** Index of the first entry with this name, or -1 (`find`). */
  function IndexOfName(models: seq<VueModel>, name: string): (i: int)
    ensures -1 <= i < |models|
    ensures i == -1 <==> !NameTaken(models, name)
    ensures i >= 0 ==> models[i].name == name
  {
    if models == [] then -1
    else
      var i := IndexOfName(models[..|models| - 1], name);
      if i >= 0 then i
      else if models[|models| - 1].name == name then |models| - 1
      else -1
  }

  /** The data folder shared with the containers, relative to the server. */
  const SharedDir := "../data"

  /** Where `copyFileToShared` puts a file: voice/ for audio, face2face/ for
      anything else. */
  function CopyTarget(filePath: string, kind: string): (r: string)
    ensures Strs.PathBasename(filePath) != [] ==> Strs.Basename(r) == Strs.PathBasename(filePath)
  {
    var dir := if kind == "audio" then SharedDir + "/voice" else SharedDir + "/face2face";
    Strs.BasenameAfterSlash(dir, Strs.PathBasename(filePath));
    dir + "/" + Strs.PathBasename(filePath)
  }

  /** The shared folder as the containers mount it. */
  const ContainerDataDir := "/code/data"

  /** `copyFileToShared`: the path the containers see, or null when the
      copy (`copyOk` false) fails. */
  function CopyFileToShared(filePath: string, kind: string, copyOk: bool): (r: Option<string>)
    ensures r.Some? <==> copyOk
  {
    if copyOk then Some(ContainerDataDir + "/" + Strs.PathBasename(filePath)) else None
  }

  /** Both branches of the container path are the same: the path names
      the file directly under /code/data whatever the type, although the
      copy went into voice/ or face2face/. */
  lemma SharedPathIgnoresType(filePath: string, kind: string)
    ensures CopyFileToShared(filePath, kind, true) == CopyFileToShared(filePath, "audio", true)
    ensures Strs.Basename(CopyFileToShared(filePath, kind, true).value) == Strs.PathBasename(filePath)
  {
    Strs.BasenameAfterSlash(ContainerDataDir, Strs.PathBasename(filePath));
  }

  /** The `options` of a video submission. */
  datatype SubmitOptions = SubmitOptions(chaofen: Option<int>, watermark: Option<int>, pn: Option<int>)

  /** The body sent to face2face's `/submit`. */
  datatype FaceRequest = FaceRequest(audioUrl: Option<string>, videoUrl: Option<string>, code: string,
                                     chaofen: int, watermarkSwitch: int, pn: int)

  /** face2face's answer: its `code` and optional `msg`. */
  datatype FaceReply = FaceReply(code: int, msg: Option<string>)

  /** JavaScript `x || d` on an optional number: absent and 0 give `d`. */
  function OrNumber(x: Option<int>, d: int): (r: int)
    ensures x.Some? && x.value != 0 ==> r == x.value
    ensures x.None? || x.value == 0 ==> r == d
  {
    if x.Some? && x.value != 0 then x.value else d
  }

  function SubmitRequest(audioPath: Option<string>, videoPath: Option<string>, options: SubmitOptions,
                         taskCode: string): (f: FaceRequest)
    ensures f.code == taskCode && f.audioUrl == audioPath && f.videoUrl == videoPath
    ensures options == SubmitOptions(None, None, None) ==> f.chaofen == 0 && f.watermarkSwitch == 0 && f.pn == 1
    ensures f.pn != 0
  {
    FaceRequest(audioPath, videoPath, taskCode, OrNumber(options.chaofen, 0), OrNumber(options.watermark, 0),
                OrNumber(options.pn, 1))
  }

  /** `POST /api/video/submit`: the generated task code on code 10000, 400
      with face2face's message (or a default) otherwise, and 500 when the
      call fails. */
  function SubmitVideo(audioPath: Option<string>, videoPath: Option<string>, options: SubmitOptions,
                       taskCode: string, face2face: FaceRequest -> Result<FaceReply>): (r: Reply<string>)
    ensures var answer := face2face(SubmitRequest(audioPath, videoPath, options, taskCode));
      (r.Success? <==> answer.Ok? && answer.value.code == 10000)
      && (r.Success? ==> r.body == taskCode)
      && (answer.Err? ==> r == Failure(500, "服務器錯誤"))
      && (answer.Ok? && answer.value.code != 10000 ==>
            r.status == 400 && r.message == GetOr(Or(answer.value.msg, Some("任務提交失敗")), ""))
  {
    var answer := face2face(SubmitRequest(audioPath, videoPath, options, taskCode));
    if answer.Err? then Failure(500, "服務器錯誤")
    else if answer.value.code == 10000 then Success(taskCode)
    else Failure(400, if Truthy(answer.value.msg) then answer.value.msg.value else "任務提交失敗")
  }

  /** The body sent to the TTS service's `/v1/invoke`. */
  datatype TtsRequest = TtsRequest(text: string, format: string, chunkLength: nat, maxNewTokens: nat,
                                   topP: real, repetitionPenalty: real, temperature: real,
                                   streaming: bool, normalize: bool, reference: Option<(string, string)>)

  /** `voiceConfig` of the request. */
  datatype VoiceConfig = VoiceConfig(referenceAudio: Option<string>, referenceText: Option<string>)

  /** The error body of a failed TTS call: text, or an object that may have
      `message` or `detail` (a binary body is an object with neither). */
  datatype ErrorData = TextData(text: string) | ObjectData(message: Option<string>, detail: Option<string>)

  /** The outcome of the TTS call: a reply with its content type, body and
      the body decoded as UTF-8; an HTTP error; or no response at all. */
  datatype TtsCall = Replied(contentType: Option<string>, body: seq<byte>, bodyText: string)
                   | HttpError(status: Option<int>, data: ErrorData)
                   | NoResponse(message: string)

  /** The JSON body of a successful generation. */
  datatype TtsSaved = TtsSaved(audioUrl: string, filename: string, size: nat)

  function TtsBody(text: string, voice: VoiceConfig): (b: TtsRequest)
    ensures b.text == Strs.Trim(text)
    ensures b.reference.Some? <==> Truthy(voice.referenceAudio) && Truthy(voice.referenceText)
    ensures b.reference.Some? ==> b.reference.value == (voice.referenceAudio.value, voice.referenceText.value)
  {
    TtsRequest(Strs.Trim(text), "wav", 200, 1024, 0.7, 1.2, 0.7, false, true,
               if Truthy(voice.referenceAudio) && Truthy(voice.referenceText)
               then Some((voice.referenceAudio.value, voice.referenceText.value)) else None)
  }

  /** `tts_{ms}_{first 8 characters of a uuid}.wav`. */
  function TtsFileName(ms: nat, uuid: string): (r: string)
    ensures |uuid| >= 8 ==> |r| == 17 + |Strs.NatToString(ms)|
  {
    "tts_" + Strs.NatToString(ms) + "_" + uuid[..Paging.Min(8, |uuid|)] + ".wav"
  }

  /** Two saved files get the same name only when they were saved in the
      same millisecond with the same uuid prefix. */
  lemma TtsFileNamesDiffer(ms1: nat, u1: string, ms2: nat, u2: string)
    requires |u1| >= 8 && |u2| >= 8
    requires TtsFileName(ms1, u1) == TtsFileName(ms2, u2)
    ensures ms1 == ms2 && u1[..8] == u2[..8]
  {
    var n := TtsFileName(ms1, u1);
    var d1, d2 := Strs.NatToString(ms1), Strs.NatToString(ms2);
    assert |d1| == |d2|;
    assert n[4..4 + |d1|] == d1;
    assert n[4..4 + |d2|] == d2;
    Strs.NatToStringInjective(ms1, ms2);
    assert n[5 + |d1|..13 + |d1|] == u1[..8];
    assert n[5 + |d2|..13 + |d2|] == u2[..8];
  }

  /** The message of a failed call that did get an HTTP response. */
  function ErrorMessage(data: ErrorData): string
  {
    match data
    case TextData(t) => t
    case ObjectData(message, detail) => GetOr(Or(Or(message, detail), Some("未知錯誤")), "")
  }

  /** `POST /api/tts/generate`: blank text is refused; otherwise the trimmed
      text is sent, an audio reply is saved under a fresh name in uploads/
      (`writeError` is the error writing it raises, if any), and any other
      reply or failure is reported. */
  function TtsGenerate(text: Option<string>, voice: VoiceConfig, tts: TtsRequest -> TtsCall,
                       nowMs: nat, uuid: string, writeError: Option<string>): (r: Reply<TtsSaved>)
    ensures !Truthy(text) || Strs.Trim(text.value) == "" ==> r == Failure(400, "文本不能為空")
    ensures r.Success? ==>
      Truthy(text) && Strs.Trim(text.value) != ""
      && tts(TtsBody(text.value, voice)).Replied?
      && r.body.filename == TtsFileName(nowMs, uuid)
      && r.body.audioUrl == "/uploads/" + r.body.filename
      && r.body.size == |tts(TtsBody(text.value, voice)).body|
  {
    if !Truthy(text) || Strs.Trim(text.value) == "" then Failure(400, "文本不能為空")
    else
      match tts(TtsBody(text.value, voice))
      case Replied(contentType, body, bodyText) =>
        if Truthy(contentType) && "audio/" <= contentType.value then
          var name := TtsFileName(nowMs, uuid);
          if writeError.Some? then Failure(500, "TTS服務連接失敗: " + writeError.value)
          else Success(TtsSaved("/uploads/" + name, name, |body|))
        else Failure(400, "TTS生成失敗: " + bodyText)
      case HttpError(status, data) =>
        Failure(if status.Some? && status.value > 0 then status.value else 500, "TTS服務錯誤: " + ErrorMessage(data))
      case NoResponse(message) => Failure(500, "TTS服務連接失敗: " + message)
  }

  /** A reply is saved exactly when its content type starts with "audio/"
      (and the file can be written). */
  lemma TtsSavedIffAudio(text: string, voice: VoiceConfig, tts: TtsRequest -> TtsCall, nowMs: nat, uuid: string)
    requires Strs.Trim(text) != ""
    ensures var call := tts(TtsBody(text, voice));
      TtsGenerate(Some(text), voice, tts, nowMs, uuid, None).Success?
      <==> call.Replied? && Truthy(call.contentType) && "audio/" <= call.contentType.value
  {
  }
}
