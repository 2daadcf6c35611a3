/** The in-memory store of the web server (server/storage.ts): `MemStorage`
    keeps users, voice/character models and generated content in three
    id-keyed maps with one id counter each. A JavaScript `Map` iterates in
    insertion order; the model keeps that order as a sequence of keys beside
    each map. Since ids are handed out in increasing order and re-`set`ting an
    existing key keeps its place, that order is increasing id order. Times are
    milliseconds; `new Date()` is the parameter `now`. */
module Storage {
  import opened Wrappers
  import Sorting

  const DayMs := 86400000
  const HourMs := 3600000

  datatype User = User(id: int, username: string, password: Option<string>, role: string, note: Option<string>)

  /** What `createUser` is given (the insert schema defaults `role` to "user"). */
  datatype NewUser = NewUser(username: string, password: Option<string>, role: string, note: Option<string>)

  datatype Model = Model(
    id: int,
    userId: Option<string>,
    name: string,
    kind: string,                  // "voice" or "character"
    provider: string,
    language: string,
    description: Option<string>,
    status: string,
    voiceSettings: Option<string>,
    characterSettings: Option<string>,
    trainingFiles: Option<seq<string>>,
    isShared: Option<bool>,
    createdAt: int)

  /** The insert schema: everything but `id` and `createdAt`. */
  datatype NewModel = NewModel(
    userId: Option<string>,
    name: string,
    kind: string,
    provider: Option<string>,
    language: string,
    description: Option<string>,
    status: Option<string>,
    voiceSettings: Option<string>,
    characterSettings: Option<string>,
    trainingFiles: Option<seq<string>>,
    isShared: Option<bool>)

  /** `Partial<Model>`: `Some` for each key present in the update object (a
      nullable field may be set to `null`, the inner `None`). */
  datatype ModelUpdate = ModelUpdate(
    id: Option<int>,
    userId: Option<Option<string>>,
    name: Option<string>,
    kind: Option<string>,
    provider: Option<string>,
    language: Option<string>,
    description: Option<Option<string>>,
    status: Option<string>,
    voiceSettings: Option<Option<string>>,
    characterSettings: Option<Option<string>>,
    trainingFiles: Option<Option<seq<string>>>,
    isShared: Option<Option<bool>>,
    createdAt: Option<int>)

  /** A `modelId` as stored: the schema declares it text, while the lookup by
      model is given a number, and `===` tells the two apart. */
  datatype ModelRef = Num(n: int) | Text(s: string)

  datatype Content = Content(
    id: int,
    userId: Option<string>,
    modelId: Option<ModelRef>,
    kind: string,                  // "audio" or "video"
    inputText: string,
    outputPath: Option<string>,
    emotion: Option<string>,
    status: string,
    duration: Option<int>,
    isFavorite: Option<bool>,
    createdAt: int)

  datatype NewContent = NewContent(
    userId: Option<string>,
    modelId: Option<ModelRef>,
    kind: string,
    inputText: string,
    outputPath: Option<string>,
    emotion: Option<string>,
    status: Option<string>,
    duration: Option<int>,
    isFavorite: Option<bool>)

  datatype ContentUpdate = ContentUpdate(
    id: Option<int>,
    userId: Option<Option<string>>,
    modelId: Option<Option<ModelRef>>,
    kind: Option<string>,
    inputText: Option<string>,
    outputPath: Option<Option<string>>,
    emotion: Option<Option<string>>,
    status: Option<string>,
    duration: Option<Option<int>>,
    isFavorite: Option<Option<bool>>,
    createdAt: Option<int>)

  /** `x || null` on a string. */
  function OrNull(s: Option<string>): (r: Option<string>)
    ensures r.Some? <==> Truthy(s)
    ensures r.Some? ==> r == s
  {
    if Truthy(s) then s else None
  }

  /** `x || d` on a string. */
  function OrDefault(s: Option<string>, d: string): (r: string)
    ensures Truthy(s) ==> r == s.value
    ensures !Truthy(s) ==> r == d
  {
    if Truthy(s) then s.value else d
  }

  predicate Falsy(r: ModelRef) { r == Num(0) || r == Text("") }

  /** `{...existing, ...updates}`. */
  function ApplyModel(m: Model, u: ModelUpdate): Model
  {
    Model(
      GetOr(u.id, m.id), GetOr(u.userId, m.userId), GetOr(u.name, m.name),
      GetOr(u.kind, m.kind), GetOr(u.provider, m.provider), GetOr(u.language, m.language),
      GetOr(u.description, m.description), GetOr(u.status, m.status),
      GetOr(u.voiceSettings, m.voiceSettings), GetOr(u.characterSettings, m.characterSettings),
      GetOr(u.trainingFiles, m.trainingFiles), GetOr(u.isShared, m.isShared),
      GetOr(u.createdAt, m.createdAt))
  }

  function ApplyContent(c: Content, u: ContentUpdate): Content
  {
    Content(
      GetOr(u.id, c.id), GetOr(u.userId, c.userId), GetOr(u.modelId, c.modelId),
      GetOr(u.kind, c.kind), GetOr(u.inputText, c.inputText), GetOr(u.outputPath, c.outputPath),
      GetOr(u.emotion, c.emotion), GetOr(u.status, c.status), GetOr(u.duration, c.duration),
      GetOr(u.isFavorite, c.isFavorite), GetOr(u.createdAt, c.createdAt))
  }

  const NoModelUpdate := ModelUpdate(None, None, None, None, None, None, None, None, None, None, None, None, None)

  /** The empty update leaves a model alone, and applying an update twice is
      applying it once. */
  lemma ApplyModelLaws(m: Model, u: ModelUpdate)
    ensures ApplyModel(m, NoModelUpdate) == m
    ensures ApplyModel(ApplyModel(m, u), u) == ApplyModel(m, u)
  {
  }

  /** The update wins on each key it carries, the `id` key included: a stored
      model can end up with an `id` other than its map key. */
  lemma ApplyModelOverrides(m: Model, u: ModelUpdate)
    ensures u.id.Some? ==> ApplyModel(m, u).id == u.id.value
    ensures u.id.None? ==> ApplyModel(m, u).id == m.id
    ensures u.createdAt.None? ==> ApplyModel(m, u).createdAt == m.createdAt
  {
  }

  predicate Increasing(keys: seq<int>)
  {
    forall i, j :: 0 <= i < j < |keys| ==> keys[i] < keys[j]
  }

  /** `Map.delete` on the insertion order. */
  function RemoveKey(keys: seq<int>, x: int): (r: seq<int>)
    ensures forall y :: y in r <==> y in keys && y != x
    ensures Increasing(keys) ==> Increasing(r)
  {
    if keys == [] then []
    else
      var rest := RemoveKey(keys[1..], x);
      if keys[0] == x then rest
      else
        assert Increasing(keys) ==> Increasing([keys[0]] + rest) by {
          if Increasing(keys) {
            forall y | y in rest ensures keys[0] < y {
              var j :| 0 <= j < |keys[1..]| && keys[1..][j] == y;
              assert keys[j + 1] == y;
            }
            forall i, j | 0 <= i < j < |[keys[0]] + rest|
              ensures ([keys[0]] + rest)[i] < ([keys[0]] + rest)[j]
            {
              assert ([keys[0]] + rest)[j] == rest[j - 1];
              if i > 0 {
                assert ([keys[0]] + rest)[i] == rest[i - 1];
              } else {
                assert rest[j - 1] in rest;
              }
            }
          }
        }
        [keys[0]] + rest
  }

  /** `Array.from(map.values())`. */
  function InOrder<V>(m: map<int, V>, keys: seq<int>): (r: seq<V>)
    requires forall i :: 0 <= i < |keys| ==> keys[i] in m
    ensures |r| == |keys|
    ensures forall i :: 0 <= i < |keys| ==> r[i] == m[keys[i]]
  {
    seq(|keys|, i requires 0 <= i < |keys| => m[keys[i]])
  }

  /** The comparator `b.createdAt - a.createdAt` as an ascending key. */
  function NewestFirst(m: Model): int { -m.createdAt }

  function ContentNewestFirst(c: Content): int { -c.createdAt }

  /** `Array.prototype.find` by user name: the index of the first match, or -1. */
  function FirstNamed(users: seq<User>, name: string): (i: int)
    ensures -1 <= i < |users|
    ensures i == -1 <==> forall j :: 0 <= j < |users| ==> users[j].username != name
    ensures i >= 0 ==> users[i].username == name && forall j :: 0 <= j < i ==> users[j].username != name
  {
    if users == [] then -1
    else if users[0].username == name then 0
    else
      var i := FirstNamed(users[1..], name);
      if i == -1 then -1 else i + 1
  }

  /** `.filter(content => content.modelId === modelId)`. */
  function WithModel(s: seq<Content>, modelId: int): (r: seq<Content>)
    ensures forall c :: c in r <==> c in s && c.modelId == Some(Num(modelId))
    ensures multiset(r) <= multiset(s)
  {
    if s == [] then []
    else
      assert s == s[..|s| - 1] + [s[|s| - 1]];
      var rest := WithModel(s[..|s| - 1], modelId);
      if s[|s| - 1].modelId == Some(Num(modelId)) then rest + [s[|s| - 1]] else rest
  }

  /** Content stored with its model id as text is never found by the lookup
      by model number. */
  lemma TextModelIdNeverMatches(s: seq<Content>, c: Content, modelId: int)
    requires c in s && c.modelId.Some? && c.modelId.value.Text?
    ensures c !in WithModel(s, modelId)
  {
  }

  /** The seven sample models of `initializeSampleData`, with ids 1..7. */
  function SampleModels(now: int): (r: seq<Model>)
    ensures |r| == 7
    ensures forall i :: 0 <= i < 7 ==> r[i].id == i + 1 && r[i].status == "ready"
  {
    [ Model(1, None, "溫柔女聲", "voice", "heygem", "zh-TW",
            Some("溫和親切的女性聲音，適合客服和教學內容"), "ready",
            Some("{\"pitch\":50,\"speed\":60,\"emotion\":\"gentle\"}"), None,
            Some(["sample_voice_1.mp3", "sample_voice_2.mp3"]), None, now - 3 * DayMs),
      Model(2, None, "專業男聲", "voice", "heygem", "zh-TW",
            Some("沉穩專業的男性聲音，適合商務和新聞播報"), "ready",
            Some("{\"pitch\":30,\"speed\":55,\"emotion\":\"professional\"}"), None,
            Some(["male_voice_1.mp3"]), None, now - 5 * DayMs),
      Model(3, None, "EdgeTTS 中文女聲", "voice", "edgetts", "zh-CN",
            Some("Microsoft EdgeTTS 中文女性聲音"), "ready",
            Some("{\"voice\":\"zh-CN-XiaoxiaoNeural\",\"rate\":\"0%\",\"pitch\":\"0%\"}"), None,
            None, None, now - 2 * DayMs),
      Model(4, None, "EdgeTTS 英文女聲", "voice", "edgetts", "en-US",
            Some("Microsoft EdgeTTS 英文女性聲音"), "ready",
            Some("{\"voice\":\"en-US-JennyNeural\",\"rate\":\"0%\",\"pitch\":\"0%\"}"), None,
            None, None, now - 1 * DayMs),
      Model(5, None, "MiniMax 智能語音", "voice", "minimax", "zh-CN",
            Some("MiniMax 高品質中文語音合成 (自訓練)"), "ready",
            Some("{\"model\":\"speech-01\",\"speed\":1,\"vol\":0.8}"), None,
            Some(["minimax_custom_voice.wav"]), None, now - 6 * HourMs),
      Model(6, None, "活潑主播", "character", "heygem", "zh-TW",
            Some("年輕活潑的女性角色，適合娛樂和推廣內容"), "ready",
            None, Some("{\"age\":\"young\",\"gender\":\"female\",\"style\":\"energetic\"}"),
            Some(["character_data_1.zip", "character_data_2.zip"]), None, now - 7 * DayMs),
      Model(7, None, "商務精英", "character", "heygem", "zh-TW",
            Some("專業商務人士形象，適合企業宣傳和培訓"), "ready",
            None, Some("{\"age\":\"middle\",\"gender\":\"male\",\"style\":\"professional\"}"),
            Some(["business_character.zip"]), None, now - 10 * DayMs) ]
  }

  /** The insertion order of a map: increasing keys, exactly the map's keys,
      all below the next id to hand out. */
  ghost predicate Indexed<V>(m: map<int, V>, keys: seq<int>, next: int)
  {
    next >= 1 && Increasing(keys)
    && (forall k :: k in keys <==> k in m)
    && (forall i :: 0 <= i < |keys| ==> keys[i] in m)
    && (forall k :: k in m ==> 1 <= k < next)
  }

  /** Handing out the next id keeps a map's insertion order indexed. */
  lemma IndexedAppend<V>(m: map<int, V>, keys: seq<int>, next: int, v: V)
    requires Indexed(m, keys, next)
    ensures Indexed(m[next := v], keys + [next], next + 1)
  {
    forall i, j | 0 <= i < j < |keys + [next]| ensures (keys + [next])[i] < (keys + [next])[j] {
      if j == |keys| {
        assert keys[i] in m;
      }
    }
  }

  /** `sampleModels.forEach(model => this.models.set(model.id, model))` for
      seed models numbered 1..7. */
  function SeedMap(sample: seq<Model>): (m: map<int, Model>)
    requires |sample| == 7
    ensures Indexed(m, [1, 2, 3, 4, 5, 6, 7], 8)
    ensures forall i :: 0 <= i < 7 ==> m[i + 1] == sample[i]
  {
    map[1 := sample[0], 2 := sample[1], 3 := sample[2], 4 := sample[3],
        5 := sample[4], 6 := sample[5], 7 := sample[6]]
  }

  class MemStorage {
    var users: map<int, User>
    var userKeys: seq<int>
    var models: map<int, Model>
    var modelKeys: seq<int>
    var contents: map<int, Content>
    var contentKeys: seq<int>
    var currentUserId: int
    var currentModelId: int
    var currentContentId: int

    ghost predicate Valid()
      reads this
    {
      Indexed(users, userKeys, currentUserId)
      && Indexed(models, modelKeys, currentModelId)
      && Indexed(contents, contentKeys, currentContentId)
      && (forall k :: k in users ==> users[k].id == k)
    }

    /** The counters start at 1 and the seven sample models take ids 1..7. */
    constructor (now: int)
      ensures Valid()
      ensures users == map[] && contents == map[]
      ensures currentUserId == 1 && currentContentId == 1 && currentModelId == 8
      ensures modelKeys == [1, 2, 3, 4, 5, 6, 7]
      ensures forall i :: 0 <= i < 7 ==> models[i + 1] == SampleModels(now)[i]
    {
      users, userKeys := map[], [];
      contents, contentKeys := map[], [];
      currentUserId, currentContentId := 1, 1;
      models := SeedMap(SampleModels(now));
      modelKeys := [1, 2, 3, 4, 5, 6, 7];
      currentModelId := 8;
    }

    function GetUser(id: int): (r: Option<User>)
      reads this
      requires Valid()
      ensures r.Some? <==> id in users
      ensures r.Some? ==> r.value == users[id] && r.value.id == id
    {
      if id in users then Some(users[id]) else None
    }

    /** The first user, in insertion order, with that name. */
    function GetUserByUsername(username: string): (r: Option<User>)
      reads this
      requires Valid()
      ensures r.None? <==> forall k :: k in users ==> users[k].username != username
      ensures r.Some? ==>
        r.value.username == username
        && (exists i :: 0 <= i < |userKeys| && r.value == users[userKeys[i]]
              && forall j :: 0 <= j < i ==> users[userKeys[j]].username != username)
    {
      var all := InOrder(users, userKeys);
      var i := FirstNamed(all, username);
      assert forall k :: k in users ==> exists j :: 0 <= j < |userKeys| && userKeys[j] == k;
      if i == -1 then None else Some(all[i])
    }

    /** Ids strictly increase: the new user's id is above every stored one. */
    method CreateUser(insertUser: NewUser) returns (user: User)
      requires Valid()
      modifies this
      ensures Valid()
      ensures user == User(old(currentUserId), insertUser.username, insertUser.password, insertUser.role, insertUser.note)
      ensures forall k :: k in old(users) ==> k < user.id
      ensures users == old(users)[user.id := user] && userKeys == old(userKeys) + [user.id]
      ensures currentUserId == old(currentUserId) + 1
      ensures models == old(models) && modelKeys == old(modelKeys) && currentModelId == old(currentModelId)
      ensures contents == old(contents) && contentKeys == old(contentKeys) && currentContentId == old(currentContentId)
    {
      var id := currentUserId;
      IndexedAppend(users, userKeys, id, User(id, insertUser.username, insertUser.password, insertUser.role, insertUser.note));
      currentUserId := currentUserId + 1;
      user := User(id, insertUser.username, insertUser.password, insertUser.role, insertUser.note);
      users := users[id := user];
      userKeys := userKeys + [id];
    }

    /** All models, newest first; equal times keep insertion order. */
    function GetModels(): (r: seq<Model>)
      reads this
      requires Valid()
      ensures multiset(r) == multiset(InOrder(models, modelKeys))
      ensures forall i, j :: 0 <= i < j < |r| ==> r[i].createdAt >= r[j].createdAt
    {
      var all := InOrder(models, modelKeys);
      var r := Sorting.SortBy(all, NewestFirst);
      assert forall i, j :: 0 <= i < j < |r| ==> NewestFirst(r[i]) <= NewestFirst(r[j]);
      r
    }

    function GetModel(id: int): (r: Option<Model>)
      reads this
      ensures r.Some? <==> id in models
      ensures r.Some? ==> r.value == models[id]
    {
      if id in models then Some(models[id]) else None
    }

    /** A fresh id, `createdAt` now, and the defaults for absent or empty
        fields. */
    method CreateModel(insertModel: NewModel, now: int) returns (model: Model)
      requires Valid()
      modifies this
      ensures Valid()
      ensures model.id == old(currentModelId) && old(currentModelId) !in old(models)
      ensures model.createdAt == now
      ensures model.description == OrNull(insertModel.description)
      ensures model.status == OrDefault(insertModel.status, "training")
      ensures model.provider == OrDefault(insertModel.provider, "heygem")
      ensures model.voiceSettings == OrNull(insertModel.voiceSettings)
      ensures model.characterSettings == OrNull(insertModel.characterSettings)
      ensures model.trainingFiles == insertModel.trainingFiles
      ensures model.name == insertModel.name && model.kind == insertModel.kind
      ensures model.language == insertModel.language && model.userId == insertModel.userId
      ensures model.isShared == insertModel.isShared
      ensures models == old(models)[model.id := model] && modelKeys == old(modelKeys) + [model.id]
      ensures currentModelId == old(currentModelId) + 1
      ensures users == old(users) && userKeys == old(userKeys) && currentUserId == old(currentUserId)
      ensures contents == old(contents) && contentKeys == old(contentKeys) && currentContentId == old(currentContentId)
    {
      var id := currentModelId;
      IndexedAppend(models, modelKeys, id, Model(id, insertModel.userId, insertModel.name, insertModel.kind,
                     OrDefault(insertModel.provider, "heygem"), insertModel.language,
                     OrNull(insertModel.description), OrDefault(insertModel.status, "training"),
                     OrNull(insertModel.voiceSettings), OrNull(insertModel.characterSettings),
                     insertModel.trainingFiles, insertModel.isShared, now));
      currentModelId := currentModelId + 1;
      model := Model(id, insertModel.userId, insertModel.name, insertModel.kind,
                     OrDefault(insertModel.provider, "heygem"), insertModel.language,
                     OrNull(insertModel.description), OrDefault(insertModel.status, "training"),
                     OrNull(insertModel.voiceSettings), OrNull(insertModel.characterSettings),
                     insertModel.trainingFiles, insertModel.isShared, now);
      models := models[id := model];
      modelKeys := modelKeys + [id];
    }

    /** A missing id changes nothing; otherwise the merged object replaces the
        entry under the same key and place. */
    method UpdateModel(id: int, updates: ModelUpdate) returns (r: Option<Model>)
      requires Valid()
      modifies this
      ensures Valid()
      ensures id !in old(models) ==> r == None && models == old(models)
      ensures id in old(models) ==>
        r == Some(ApplyModel(old(models)[id], updates)) && models == old(models)[id := r.value]
      ensures modelKeys == old(modelKeys) && currentModelId == old(currentModelId)
      ensures users == old(users) && userKeys == old(userKeys) && currentUserId == old(currentUserId)
      ensures contents == old(contents) && contentKeys == old(contentKeys) && currentContentId == old(currentContentId)
    {
      if id !in models {
        return None;
      }
      var updated := ApplyModel(models[id], updates);
      models := models[id := updated];
      r := Some(updated);
    }

    /** `Map.delete`: true iff the id was present; only that entry goes. */
    method DeleteModel(id: int) returns (removed: bool)
      requires Valid()
      modifies this
      ensures Valid()
      ensures removed <==> id in old(models)
      ensures models == old(models) - {id}
      ensures modelKeys == RemoveKey(old(modelKeys), id)
      ensures currentModelId == old(currentModelId)
      ensures users == old(users) && userKeys == old(userKeys) && currentUserId == old(currentUserId)
      ensures contents == old(contents) && contentKeys == old(contentKeys) && currentContentId == old(currentContentId)
    {
      removed := id in models;
      models := models - {id};
      modelKeys := RemoveKey(modelKeys, id);
    }

    /** All generated content, newest first. */
    function GetGeneratedContent(): (r: seq<Content>)
      reads this
      requires Valid()
      ensures multiset(r) == multiset(InOrder(contents, contentKeys))
      ensures forall i, j :: 0 <= i < j < |r| ==> r[i].createdAt >= r[j].createdAt
    {
      var r := Sorting.SortBy(InOrder(contents, contentKeys), ContentNewestFirst);
      assert forall i, j :: 0 <= i < j < |r| ==> ContentNewestFirst(r[i]) <= ContentNewestFirst(r[j]);
      r
    }

    /** The content whose `modelId` is the number `modelId`, newest first. */
    function GetGeneratedContentByModel(modelId: int): (r: seq<Content>)
      reads this
      requires Valid()
      ensures forall c :: c in r <==> c in InOrder(contents, contentKeys) && c.modelId == Some(Num(modelId))
      ensures multiset(r) <= multiset(InOrder(contents, contentKeys))
      ensures forall i, j :: 0 <= i < j < |r| ==> r[i].createdAt >= r[j].createdAt
    {
      var matching := WithModel(InOrder(contents, contentKeys), modelId);
      var r := Sorting.SortBy(matching, ContentNewestFirst);
      Sorting.SortByMembers(matching, ContentNewestFirst);
      assert forall i, j :: 0 <= i < j < |r| ==> ContentNewestFirst(r[i]) <= ContentNewestFirst(r[j]);
      r
    }

    /** A fresh id, `createdAt` now, status "generating" unless given, and
        `null` for an absent or falsy model id, output path, emotion or
        duration. */
    method CreateGeneratedContent(insertContent: NewContent, now: int) returns (content: Content)
      requires Valid()
      modifies this
      ensures Valid()
      ensures content.id == old(currentContentId) && old(currentContentId) !in old(contents)
      ensures content.createdAt == now
      ensures content.status == OrDefault(insertContent.status, "generating")
      ensures content.modelId == if insertContent.modelId.Some? && !Falsy(insertContent.modelId.value)
                                 then insertContent.modelId else None
      ensures content.outputPath == OrNull(insertContent.outputPath)
      ensures content.emotion == OrNull(insertContent.emotion)
      ensures content.duration == if insertContent.duration.Some? && insertContent.duration.value != 0
                                  then insertContent.duration else None
      ensures content.userId == insertContent.userId && content.kind == insertContent.kind
      ensures content.inputText == insertContent.inputText && content.isFavorite == insertContent.isFavorite
      ensures contents == old(contents)[content.id := content] && contentKeys == old(contentKeys) + [content.id]
      ensures currentContentId == old(currentContentId) + 1
      ensures users == old(users) && userKeys == old(userKeys) && currentUserId == old(currentUserId)
      ensures models == old(models) && modelKeys == old(modelKeys) && currentModelId == old(currentModelId)
    {
      var id := currentContentId;
      var modelRef := if insertContent.modelId.Some? && !Falsy(insertContent.modelId.value)
                      then insertContent.modelId else None;
      var duration := if insertContent.duration.Some? && insertContent.duration.value != 0
                      then insertContent.duration else None;
      content := Content(id, insertContent.userId, modelRef, insertContent.kind, insertContent.inputText,
                         OrNull(insertContent.outputPath), OrNull(insertContent.emotion),
                         OrDefault(insertContent.status, "generating"), duration,
                         insertContent.isFavorite, now);
      IndexedAppend(contents, contentKeys, id, content);
      currentContentId := currentContentId + 1;
      contents := contents[id := content];
      contentKeys := contentKeys + [id];
    }

    method UpdateGeneratedContent(id: int, updates: ContentUpdate) returns (r: Option<Content>)
      requires Valid()
      modifies this
      ensures Valid()
      ensures id !in old(contents) ==> r == None && contents == old(contents)
      ensures id in old(contents) ==>
        r == Some(ApplyContent(old(contents)[id], updates)) && contents == old(contents)[id := r.value]
      ensures contentKeys == old(contentKeys) && currentContentId == old(currentContentId)
      ensures users == old(users) && userKeys == old(userKeys) && currentUserId == old(currentUserId)
      ensures models == old(models) && modelKeys == old(modelKeys) && currentModelId == old(currentModelId)
    {
      if id !in contents {
        return None;
      }
      var updated := ApplyContent(contents[id], updates);
      contents := contents[id := updated];
      r := Some(updated);
    }
  }

  /** A fresh store hands out model id 8 to the first created model. */
  method FirstCreatedModelId(now: int, insertModel: NewModel) returns (id: int)
    ensures id == 8
  {
    var store := new MemStorage(now);
    var model := store.CreateModel(insertModel, now);
    id := model.id;
  }
}
