/** The backup Express server (V/tools/backup/server_fixed.js): models are
    kept as a JSON array in models.json; creating one from an uploaded video
    always yields a face model and, when the heuristics of
    `SimpleAudioCheck` find audio, a voice model too. The upload folder is
    the set of paths it holds; the clock and the uuid generator are
    parameters. */
module ServerFixed {
  import opened Wrappers
  import Strs
  import Sorting
  import Paging
  import SimpleAudioCheck

  /** An entry of models.json. `fileSize` is `metadata.fileSize`; the other
      metadata (`createdBy` "user", `version` "1.0", `modelType` equal to
      the type) is constant. */
  datatype FixedModel = FixedModel(id: string, name: string, kind: string, videoPath: string,
                                   originalFilename: string, createdAt: int, status: string,
                                   audioCheck: SimpleAudioCheck.AudioCheck,
                                   audioQuality: SimpleAudioCheck.QualityEstimate, fileSize: nat)

  /** The body of `POST /api/model/create`. */
  datatype CreateRequest = CreateRequest(name: Option<string>, videoPath: Option<string>, originalFilename: Option<string>)

  /** The success body of a create. */
  datatype Created = Created(modelsCreated: nat, models: seq<FixedModel>, message: string)

  const UploadDir := "uploads"
  const SharedPrefix := "/code/data/"
  const MissingParams := "缺少必要參數: name 和 videoPath"
  const CreateFailed := "創建模特失敗"
  const NoSuchModel := "模特不存在"
  const NoFilePath := "請提供文件路徑"

  /** `loadModels`: the stored entries, or none when the file cannot be read
      or parsed (`None`). */
  function LoadModels(file: Option<seq<FixedModel>>): (r: seq<FixedModel>)
    ensures file.None? ==> r == []
    ensures file.Some? ==> r == file.value
  {
    if file.Some? then file.value else []
  }

  /** The upload a `videoPath` names: a shared container path is reduced to
      its file name. */
  function ActualVideoPath(videoPath: string): (r: string)
    ensures SharedPrefix <= videoPath ==> '/' !in r
    ensures !(SharedPrefix <= videoPath) ==> r == videoPath
  {
    if SharedPrefix <= videoPath then Strs.PathBasename(videoPath) else videoPath
  }

  /** `path.join(uploadDir, p)`. */
  function UploadPath(p: string): string
  {
    UploadDir + "/" + p
  }

  /** The voice model is created when audio was found, unless the verdict is
      a low-confidence guess on a too-small file. */
  predicate WantsVoice(check: SimpleAudioCheck.AudioCheck)
  {
    check.hasAudio && !(check.confidence == Some("low") && check.sizeHint == Some("too_small"))
  }

  /** The models a create makes: the face model, then the voice model when
      `WantsVoice`; both with the same time and file facts. */
  function NewModels(baseName: string, videoPath: string, originalFilename: string,
                     check: SimpleAudioCheck.AudioCheck, quality: SimpleAudioCheck.QualityEstimate,
                     size: nat, faceId: string, voiceId: string, now: int): (r: seq<FixedModel>)
    ensures |r| == if WantsVoice(check) then 2 else 1
    ensures r[0].kind == "face" && r[0].id == faceId && r[0].name == baseName + " (人物)"
    ensures |r| == 2 ==> r[1].kind == "voice" && r[1].id == voiceId && r[1].name == baseName + " (聲音)"
    ensures forall m :: m in r ==>
      m.createdAt == now && m.status == "ready" && m.videoPath == videoPath && m.audioCheck == check && m.fileSize == size
  {
    var face := FixedModel(faceId, baseName + " (人物)", "face", videoPath, originalFilename, now, "ready",
                           check, quality, size);
    var voice := FixedModel(voiceId, baseName + " (聲音)", "voice", videoPath, originalFilename, now, "ready",
                            check, quality, size);
    if WantsVoice(check) then [face, voice] else [face]
  }

  /** `createdModels.map(m => m.type).join(' + ')`. */
  function KindsText(models: seq<FixedModel>): string
  {
    if models == [] then ""
    else if |models| == 1 then models[0].kind
    else models[0].kind + " + " + KindsText(models[1..])
  }

  /** With the verdicts `simpleAudioCheck` can give, the low-and-too-small
      exception never applies: a voice model is made exactly when audio was
      found. */
  lemma VoiceIffAudio(path: string, probe: SimpleAudioCheck.FileProbe, hints: nat)
    ensures WantsVoice(SimpleAudioCheck.Verdict(path, probe, hints))
      <==> SimpleAudioCheck.Verdict(path, probe, hints).hasAudio
  {
    SimpleAudioCheck.LowConfidenceIsNeverTooSmall(path, probe, hints);
  }

  /** The search parameters of `GET /api/models`. */
  datatype ListQuery = ListQuery(page: Option<int>, pageSize: Option<int>, name: Option<string>)

  /** `model.name.toLowerCase().includes(name.toLowerCase())`, applied only
      when the query is not blank; the query itself is not trimmed. */
  predicate NameMatches(m: FixedModel, name: string)
  {
    Strs.Trim(name) != "" ==> Strs.ContainsIgnoreCase(m.name, name)
  }

  function FilterByName(models: seq<FixedModel>, name: string): (r: seq<FixedModel>)
    ensures |r| <= |models|
    ensures forall m :: m in r <==> m in models && NameMatches(m, name)
  {
    if models == [] then []
    else
      var init := FilterByName(models[..|models| - 1], name);
      var last := models[|models| - 1];
      assert models == models[..|models| - 1] + [last];
      if NameMatches(last, name) then init + [last] else init
  }

  function NewestFirst(m: FixedModel): int { -m.createdAt }

  /** `GET /api/models` on the loaded entries. */
  function ListModels(models: seq<FixedModel>, q: ListQuery): (r: Paging.Listing<FixedModel>)
    ensures r.page == GetOr(q.page, 1) && r.pageSize == GetOr(q.pageSize, 20)
    ensures r.total == |FilterByName(models, GetOr(q.name, ""))| && r.total <= |models|
  {
    var page := GetOr(q.page, 1);
    var pageSize := GetOr(q.pageSize, 20);
    var filtered := FilterByName(models, GetOr(q.name, ""));
    var sorted := Sorting.SortBy(filtered, NewestFirst);
    Paging.Listing(Paging.Page(sorted, page, pageSize), |filtered|, page, pageSize)
  }

  /** The list holds stored entries that match the name, newest first, at
      most a page of them; `total` counts every match. */
  lemma ListModelsSound(models: seq<FixedModel>, q: ListQuery)
    ensures var r := ListModels(models, q);
      (forall m :: m in r.list ==> m in models && NameMatches(m, GetOr(q.name, "")))
      && Sorting.SortedBy(r.list, NewestFirst)
      && (r.page >= 1 && r.pageSize >= 0 ==> |r.list| <= r.pageSize)
      && r.total == |FilterByName(models, GetOr(q.name, ""))|
  {
    var page := GetOr(q.page, 1);
    var pageSize := GetOr(q.pageSize, 20);
    var filtered := FilterByName(models, GetOr(q.name, ""));
    var sorted := Sorting.SortBy(filtered, NewestFirst);
    Sorting.SortByMembers(filtered, NewestFirst);
    Paging.SortedPage(sorted, page, pageSize, NewestFirst);
    if page >= 1 && pageSize >= 0 {
      Paging.PageWindow(sorted, page, pageSize);
    }
  }

  /** Index of the entry with this id, or -1 (`findIndex`). */
  function IndexOfId(models: seq<FixedModel>, id: string): (i: int)
    ensures -1 <= i < |models|
    ensures i == -1 <==> forall j :: 0 <= j < |models| ==> models[j].id != id
    ensures i >= 0 ==> models[i].id == id && forall j :: 0 <= j < i ==> models[j].id != id
  {
    if models == [] then -1
    else
      var i := IndexOfId(models[..|models| - 1], id);
      if i >= 0 then i
      else if models[|models| - 1].id == id then |models| - 1
      else -1
  }

  /** The file a delete removes, as written: the stored `videoPath` joined
      to the upload folder. It is the upload the create checked exactly when
      the path is not a shared container path. */
  function DeleteTargetAsWritten(videoPath: string): (r: string)
    ensures !(SharedPrefix <= videoPath) ==> r == DeleteTarget(videoPath)
    ensures SharedPrefix <= videoPath ==> r != DeleteTarget(videoPath)
  {
    var r := UploadPath(videoPath);
    var n := |UploadDir + "/"|;
    var checked := ActualVideoPath(videoPath);
    assert r[n..] == videoPath;
    assert UploadPath(checked)[n..] == checked;
    assert SharedPrefix <= videoPath ==> videoPath[0] == '/' && '/' !in checked;
    r
  }

  /** The file a delete removes: the upload the create checked. */
  function DeleteTarget(videoPath: string): (r: string)
    ensures r == UploadPath(ActualVideoPath(videoPath))
  {
    UploadPath(ActualVideoPath(videoPath))
  }

  /** A model made from a shared path `/code/data/...` was checked against
      the upload named by the path's base name, but the delete as written
      looks for the whole shared path under the upload folder, which is
      never that file: the checked upload stays. The corrected target is
      that upload. */
  lemma SharedPathUploadNotRemoved(v: string)
    requires SharedPrefix <= v
    ensures DeleteTargetAsWritten(v) != UploadPath(ActualVideoPath(v))
    ensures DeleteTarget(v) == UploadPath(ActualVideoPath(v))
  {
  }

  /** The models file and the upload folder. */
  class BackupStore {
    var file: Option<seq<FixedModel>>
    var uploads: set<string>

    constructor (initial: Option<seq<FixedModel>>, files: set<string>)
      ensures file == initial && uploads == files
    {
      file := initial;
      uploads := files;
    }

    /** `POST /api/model/create`. `probe` is what the file system says about
        the upload's size and header (its presence is whether it is in
        `uploads`); the voice model's `asrResult` (always null) is not
        kept. `saveOk` says whether writing models.json succeeds, which the
        reply does not depend on. */
    method CreateModel(req: CreateRequest, probe: SimpleAudioCheck.FileProbe,
                       faceId: string, voiceId: string, now: int, saveOk: bool)
      returns (r: Reply<Created>)
      modifies this
      ensures uploads == old(uploads)
      ensures !Truthy(req.name) || !Truthy(req.videoPath) ==> r == Failure(400, MissingParams) && file == old(file)
      ensures Truthy(req.name) && Truthy(req.videoPath) ==>
        var actual := ActualVideoPath(req.videoPath.value);
        if UploadPath(actual) !in old(uploads) then
          r == Failure(400, "影片文件不存在: " + actual) && file == old(file)
        else if probe.stat.Err? then r == Failure(500, CreateFailed) && file == old(file)
        else
          r.Success? && 1 <= r.body.modelsCreated <= 2 && r.body.modelsCreated == |r.body.models|
          && r.body.models == NewModels(Strs.Trim(req.name.value), req.videoPath.value,
               GetOr(Or(req.originalFilename, req.videoPath), ""),
               r.body.models[0].audioCheck, SimpleAudioCheck.EstimateAudioQuality(probe.stat),
               probe.stat.value, faceId, voiceId, now)
          && r.body.models[0].audioCheck == SimpleAudioCheck.Verdict(UploadPath(actual), probe.(present := true),
               if probe.head.Ok? then SimpleAudioCheck.HintCount(SimpleAudioCheck.HeaderText(probe.head.value),
                 SimpleAudioCheck.AudioSignatures) else 0)
          && file == if saveOk then Some(LoadModels(old(file)) + r.body.models) else old(file)
    {
      if !Truthy(req.name) || !Truthy(req.videoPath) {
        return Failure(400, MissingParams);
      }
      var videoPath := req.videoPath.value;
      var actual := ActualVideoPath(videoPath);
      var full := UploadPath(actual);
      if full !in uploads {
        return Failure(400, "影片文件不存在: " + actual);
      }
      var check := SimpleAudioCheck.Check(full, probe.(present := true));
      var quality := SimpleAudioCheck.EstimateAudioQuality(probe.stat);
      if probe.stat.Err? {
        return Failure(500, CreateFailed);
      }
      var created := NewModels(Strs.Trim(req.name.value), videoPath, GetOr(Or(req.originalFilename, req.videoPath), ""),
                               check, quality, probe.stat.value, faceId, voiceId, now);
      var models := LoadModels(file) + created;
      if saveOk {
        file := Some(models);
      }
      r := Success(Created(|created|, created,
                           "成功創建 " + Strs.NatToString(|created|) + " 個模特: " + KindsText(created)));
    }

    /** `DELETE /api/models/:id`: an unknown id gives 404; otherwise the
        file `path.join(uploadDir, videoPath)` is removed when it is there
        (`unlinkOk` false: the removal fails, which is only logged) and the
        entry is spliced out whether or not saving succeeds. For a model made
        from a shared path that file is not the upload the create checked,
        so that upload stays. */
    method DeleteModel(id: string, unlinkOk: bool, saveOk: bool) returns (r: Reply<()>)
      modifies this
      ensures IndexOfId(LoadModels(old(file)), id) == -1 ==>
        r == Failure(404, NoSuchModel) && file == old(file) && uploads == old(uploads)
      ensures var models := LoadModels(old(file));
        var i := IndexOfId(models, id);
        i >= 0 ==>
          r == Success(())
          && file == (if saveOk then Some(models[..i] + models[i + 1..]) else old(file))
      ensures var models := LoadModels(old(file));
        var i := IndexOfId(models, id);
        i >= 0 ==>
          var target := DeleteTargetAsWritten(models[i].videoPath);
          uploads == if unlinkOk && target in old(uploads) then old(uploads) - {target} else old(uploads)
      ensures var models := LoadModels(old(file));
        var i := IndexOfId(models, id);
        i >= 0 && SharedPrefix <= models[i].videoPath ==>
          var checked := UploadPath(ActualVideoPath(models[i].videoPath));
          checked in old(uploads) ==> checked in uploads
    {
      var models := LoadModels(file);
      var i := IndexOfId(models, id);
      if i == -1 {
        return Failure(404, NoSuchModel);
      }
      var target := DeleteTargetAsWritten(models[i].videoPath);
      if target in uploads && unlinkOk {
        uploads := uploads - {target};
      }
      models := models[..i] + models[i + 1..];
      if saveOk {
        file := Some(models);
      }
      r := Success(());
    }

    /** `GET /api/models`. */
    method ListModelsHandler(q: ListQuery) returns (r: Reply<Paging.Listing<FixedModel>>)
      ensures r == Success(ListModels(LoadModels(file), q))
    {
      r := Success(ListModels(LoadModels(file), q));
    }
  }

  /** `POST /api/audio/check` as written: `canUseForVoiceCloning` is called
      but never imported, so every request with a path ends in the
      ReferenceError's 500. */
  function AudioCheckAsWritten(filePath: Option<string>): (r: Reply<()>)
    ensures !Truthy(filePath) ==> r == Failure(400, NoFilePath)
    ensures Truthy(filePath) ==> r.Failure? && r.status == 500
  {
    if !Truthy(filePath) then Failure(400, NoFilePath)
    else Failure(500, "音頻檢測失敗: canUseForVoiceCloning is not defined")
  }

  /** `POST /api/audio/quick-check` as written: `quickAudioCheck` is not
      imported either. */
  function QuickCheckAsWritten(filePath: Option<string>): (r: Reply<()>)
    ensures !Truthy(filePath) ==> r == Failure(400, NoFilePath)
    ensures Truthy(filePath) ==> r.Failure? && r.status == 500
  {
    if !Truthy(filePath) then Failure(400, NoFilePath)
    else Failure(500, "檢測失敗: quickAudioCheck is not defined")
  }

  /** Neither endpoint as written can succeed. */
  lemma AudioEndpointsAlwaysFail(filePath: Option<string>)
    ensures AudioCheckAsWritten(filePath).Failure? && QuickCheckAsWritten(filePath).Failure?
    ensures Truthy(filePath) ==>
      AudioCheckAsWritten(filePath).status == 500 && QuickCheckAsWritten(filePath).status == 500
  {
  }

  /** The endpoints with the checker imported: the upload path is handed to
      `check` and its verdict returned; its error becomes a 500 with the
      endpoint's prefix. */
  function AudioEndpoint<T>(filePath: Option<string>, prefix: string, check: string -> Result<T>): (r: Reply<T>)
    ensures !Truthy(filePath) ==> r == Failure(400, NoFilePath)
    ensures Truthy(filePath) && check(UploadPath(filePath.value)).Ok? ==>
      r == Success(check(UploadPath(filePath.value)).value)
    ensures Truthy(filePath) && check(UploadPath(filePath.value)).Err? ==>
      r == Failure(500, prefix + check(UploadPath(filePath.value)).message)
  {
    if !Truthy(filePath) then Failure(400, NoFilePath)
    else
      var verdict := check(UploadPath(filePath.value));
      if verdict.Err? then Failure(500, prefix + verdict.message) else Success(verdict.value)
  }

  /** `POST /api/audio/check` with the checker imported. */
  function AudioCheck<T>(filePath: Option<string>, canUseForVoiceCloning: string -> Result<T>): (r: Reply<T>)
    ensures r.Success? <==> Truthy(filePath) && canUseForVoiceCloning(UploadPath(filePath.value)).Ok?
  {
    AudioEndpoint(filePath, "音頻檢測失敗: ", canUseForVoiceCloning)
  }

  /** `POST /api/audio/quick-check` with the checker imported. */
  function QuickCheck<T>(filePath: Option<string>, quickAudioCheck: string -> Result<T>): (r: Reply<T>)
    ensures r.Success? <==> Truthy(filePath) && quickAudioCheck(UploadPath(filePath.value)).Ok?
  {
    AudioEndpoint(filePath, "檢測失敗: ", quickAudioCheck)
  }
}
