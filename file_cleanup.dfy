/** The periodic clean-up of the web server (server/file-cleanup.ts): expiry
    and overflow removal of never-favourited records from the content
    database, the three directory sweeps, and the statistics endpoint.
    The database is a sequence of records; directory listings, file times and
    the outcome of each `unlink` are parameters. Times are milliseconds. */
module FileCleanup {
  import opened Wrappers
  import opened Strs
  import Sorting

  // Lifetimes in seconds and record limits of the clean-up configuration.
  const UnfavoritedTtl: int := 604800
  const TtsFileTtl: int := 7200
  const TempFileTtl: int := 3600
  const MaxAudioFiles: nat := 100
  const MaxVideoFiles: nat := 50

  // Directories under the server's data directory.
  const AudiosDir := "data/audios"
  const VideosDir := "data/videos"
  const TempDir := "data/temp"

  /** `path.join(dir, name)` for a plain file name. */
  function PathJoin(dir: string, name: string): string { dir + "/" + name }

  /** One entry of the content database's `videos` list. */
  datatype Content = Content(
    id: int,
    kind: string,            // "audio" or "video"
    createdAt: int,
    isFavorite: bool,
    everFavorited: bool,
    outputPath: Option<string>,
    audioPath: Option<string>)

  function CreatedAt(c: Content): int { c.createdAt }

  /** Records that are or ever were favourited are kept forever. */
  predicate Protected(c: Content) { c.isFavorite || c.everFavorited }

  /** `(now - t) / 1000 < ttl`, the age in seconds below a lifetime. */
  predicate YoungerThan(t: int, now: int, ttl: int) { now - t < ttl * 1000 }

  /** `(now - t) / 1000 > ttl`. */
  predicate OlderThan(t: int, now: int, ttl: int) { now - t > ttl * 1000 }

  predicate UniqueIds(s: seq<Content>)
  {
    forall i, j :: 0 <= i < j < |s| ==> s[i].id != s[j].id
  }

  /** In a list with unique ids a record is determined by its id. */
  lemma IdsIdentify(s: seq<Content>, a: Content, b: Content)
    requires UniqueIds(s) && a in s && b in s && a.id == b.id
    ensures a == b
  {
    var i :| 0 <= i < |s| && s[i] == a;
    var j :| 0 <= j < |s| && s[j] == b;
  }

  lemma UniqueSnoc(t: seq<Content>, x: Content)
    requires UniqueIds(t) && forall c :: c in t ==> c.id != x.id
    ensures UniqueIds(t + [x])
  {
    forall i, j | 0 <= i < j < |t| + 1 ensures (t + [x])[i].id != (t + [x])[j].id {
      if j == |t| {
        assert (t + [x])[i] in t;
      }
    }
  }

  lemma UniqueLast(s: seq<Content>)
    requires s != [] && UniqueIds(s)
    ensures UniqueIds(s[..|s| - 1])
    ensures forall c :: c in s[..|s| - 1] ==> c.id != s[|s| - 1].id
  {
    forall c | c in s[..|s| - 1] ensures c.id != s[|s| - 1].id {
      var i :| 0 <= i < |s| - 1 && s[..|s| - 1][i] == c;
      assert s[i] == c;
    }
  }

  /** The groups the clean-up and the statistics sort records into. */
  datatype Bucket =
    | Retained(now: int)         // kept by the classification loop
    | Expired(now: int)          // never favourited and at least 7 days old
    | Unfavorited(kind: string)  // never favourited, of one type (overflow groups)
    | Favorited                  // statistics: `isFavorite`
    | NotFavorited               // statistics: not `isFavorite`
    | StaleAt(now: int)          // statistics: not `isFavorite`, older than 7 days

  predicate InBucket(c: Content, b: Bucket)
  {
    match b
    case Retained(now) => Protected(c) || YoungerThan(c.createdAt, now, UnfavoritedTtl)
    case Expired(now) => !Protected(c) && !YoungerThan(c.createdAt, now, UnfavoritedTtl)
    case Unfavorited(kind) => !Protected(c) && c.kind == kind
    case Favorited => c.isFavorite
    case NotFavorited => !c.isFavorite
    case StaleAt(now) => !c.isFavorite && OlderThan(c.createdAt, now, UnfavoritedTtl)
  }

  /** The records of `s` in bucket `b`, in their order. */
  function Select(s: seq<Content>, b: Bucket): (r: seq<Content>)
    ensures forall c :: c in r <==> c in s && InBucket(c, b)
    ensures |r| <= |s|
  {
    if s == [] then []
    else
      assert s == s[..|s| - 1] + [s[|s| - 1]];
      var rest := Select(s[..|s| - 1], b);
      if InBucket(s[|s| - 1], b) then rest + [s[|s| - 1]] else rest
  }

  lemma {:induction false} SelectUnique(s: seq<Content>, b: Bucket)
    requires UniqueIds(s)
    ensures UniqueIds(Select(s, b))
  {
    if s != [] {
      UniqueLast(s);
      SelectUnique(s[..|s| - 1], b);
      if InBucket(s[|s| - 1], b) {
        UniqueSnoc(Select(s[..|s| - 1], b), s[|s| - 1]);
      }
    }
  }

  /** Every record is favourited or not: the statistics' two counts add up. */
  lemma {:induction false} FavoritedPartition(s: seq<Content>)
    ensures |Select(s, Favorited)| + |Select(s, NotFavorited)| == |s|
  {
    if s != [] {
      FavoritedPartition(s[..|s| - 1]);
    }
  }

  /** `findIndex(v => v.id === id)` followed by `splice(index, 1)`. */
  function RemoveFirstId(s: seq<Content>, id: int): (r: seq<Content>)
    ensures forall c :: c in r ==> c in s
    ensures forall c :: c in s && c.id != id ==> c in r
    ensures (forall i :: 0 <= i < |s| ==> s[i].id != id) ==> r == s
    ensures |s| - 1 <= |r| <= |s|
  {
    if s == [] then []
    else if s[0].id == id then s[1..]
    else
      assert s == [s[0]] + s[1..];
      [s[0]] + RemoveFirstId(s[1..], id)
  }

  lemma UniqueFirst(s: seq<Content>)
    requires s != [] && UniqueIds(s)
    ensures UniqueIds(s[1..])
    ensures forall c :: c in s[1..] ==> c.id != s[0].id
  {
    forall i, j | 0 <= i < j < |s[1..]| ensures s[1..][i].id != s[1..][j].id {
      assert s[1..][i] == s[i + 1] && s[1..][j] == s[j + 1];
    }
    forall c | c in s[1..] ensures c.id != s[0].id {
      var j :| 0 <= j < |s[1..]| && s[1..][j] == c;
      assert s[j + 1] == c;
    }
  }

  lemma UniqueCons(x: Content, t: seq<Content>)
    requires UniqueIds(t) && forall c :: c in t ==> c.id != x.id
    ensures UniqueIds([x] + t)
  {
    forall i, j | 0 <= i < j < |[x] + t| ensures ([x] + t)[i].id != ([x] + t)[j].id {
      if i == 0 {
        assert ([x] + t)[j] in t;
      } else {
        assert ([x] + t)[i] == t[i - 1] && ([x] + t)[j] == t[j - 1];
      }
    }
  }

  lemma {:induction false} RemoveFirstIdUnique(s: seq<Content>, id: int)
    requires UniqueIds(s)
    ensures UniqueIds(RemoveFirstId(s, id))
    ensures forall c :: c in RemoveFirstId(s, id) ==> c.id != id
  {
    if s != [] {
      UniqueFirst(s);
      if s[0].id != id {
        RemoveFirstIdUnique(s[1..], id);
        UniqueCons(s[0], RemoveFirstId(s[1..], id));
      }
    }
  }

  /** The splice loop: one `RemoveFirstId` per record to delete, in order. */
  function RemoveAll(valid: seq<Content>, doomed: seq<Content>): (r: seq<Content>)
    ensures forall c :: c in r ==> c in valid
    ensures forall c :: c in valid && (forall e :: e in doomed ==> e.id != c.id) ==> c in r
  {
    if doomed == [] then valid
    else
      var last := doomed[|doomed| - 1];
      assert doomed == doomed[..|doomed| - 1] + [last];
      RemoveFirstId(RemoveAll(valid, doomed[..|doomed| - 1]), last.id)
  }

  lemma {:induction false} RemoveAllUnique(valid: seq<Content>, doomed: seq<Content>)
    requires UniqueIds(valid)
    ensures UniqueIds(RemoveAll(valid, doomed))
    ensures forall c, e :: c in RemoveAll(valid, doomed) && e in doomed ==> c.id != e.id
  {
    if doomed != [] {
      var init, last := doomed[..|doomed| - 1], doomed[|doomed| - 1];
      assert doomed == init + [last];
      RemoveAllUnique(valid, init);
      RemoveFirstIdUnique(RemoveAll(valid, init), last.id);
    }
  }

  /** The oldest `|group| - max` records of an over-full group (empty when the
      group is within its limit): `sort` by `createdAt`, then `slice(0, excess)`. */
  function Overflow(group: seq<Content>, max: nat): (r: seq<Content>)
    ensures |r| == if |group| > max then |group| - max else 0
    ensures forall c :: c in r ==> c in group
  {
    if |group| > max then
      var sorted := Sorting.SortBy(group, CreatedAt);
      Sorting.SortByMembers(group, CreatedAt);
      assert forall c :: c in sorted[..|group| - max] ==> c in sorted;
      sorted[..|group| - max]
    else []
  }

  /** What goes is the oldest: nothing left in the group is older than
      anything cut from it. */
  lemma OverflowIsOldest(group: seq<Content>, max: nat, x: Content, y: Content)
    requires x in Overflow(group, max) && y in group && y !in Overflow(group, max)
    ensures x.createdAt <= y.createdAt
  {
    var sorted := Sorting.SortBy(group, CreatedAt);
    var k := |group| - max;
    Sorting.SortByMembers(group, CreatedAt);
    var j :| 0 <= j < |sorted| && sorted[j] == y;
    var i :| 0 <= i < k && sorted[..k][i] == x;
    assert sorted[i] == x;
    assert CreatedAt(sorted[i]) <= CreatedAt(sorted[j]);
  }

  lemma OverflowUnique(group: seq<Content>, max: nat)
    requires UniqueIds(group)
    ensures UniqueIds(Overflow(group, max))
  {
    if |group| > max {
      var sorted := Sorting.SortBy(group, CreatedAt);
      var o := Overflow(group, max);
      assert Sorting.Distinct(group) by {
        forall i, j | 0 <= i < j < |group| ensures group[i] != group[j] {
          assert group[i].id != group[j].id;
        }
      }
      Sorting.PermutationPrefixDistinct(group, sorted, |group| - max);
      forall i, j | 0 <= i < j < |o| ensures o[i].id != o[j].id {
        if o[i].id == o[j].id {
          IdsIdentify(group, o[i], o[j]);
        }
      }
    }
  }

  /** `[...expiredContent, ...audioToDelete, ...videoToDelete]`. */
  function ToDelete(videos: seq<Content>, now: int): seq<Content>
  {
    Select(videos, Expired(now))
      + Overflow(Select(videos, Unfavorited("audio")), MaxAudioFiles)
      + Overflow(Select(videos, Unfavorited("video")), MaxVideoFiles)
  }

  /** The `videos` list written back after the splice loop. */
  function Survivors(videos: seq<Content>, now: int): seq<Content>
  {
    RemoveAll(Select(videos, Retained(now)), ToDelete(videos, now))
  }

  /** Everything scheduled for deletion is a never-favourited record of the
      database. */
  lemma ToDeleteFacts(videos: seq<Content>, now: int)
    ensures forall e :: e in ToDelete(videos, now) ==> e in videos && !Protected(e)
  {
  }

  /** With unique ids a record survives exactly when the loop retained it and
      no record to delete shares its id. */
  lemma SurvivorsFacts(videos: seq<Content>, now: int)
    requires UniqueIds(videos)
    ensures UniqueIds(Survivors(videos, now))
    ensures forall c :: c in Survivors(videos, now) <==>
      c in Select(videos, Retained(now)) && forall e :: e in ToDelete(videos, now) ==> e.id != c.id
  {
    SelectUnique(videos, Retained(now));
    RemoveAllUnique(Select(videos, Retained(now)), ToDelete(videos, now));
  }

  /** A favourited or once-favourited record is never removed. */
  lemma ProtectedNeverRemoved(videos: seq<Content>, now: int, c: Content)
    requires UniqueIds(videos) && c in videos && Protected(c)
    ensures c in Survivors(videos, now)
  {
    SurvivorsFacts(videos, now);
    ToDeleteFacts(videos, now);
    forall e | e in ToDelete(videos, now) ensures e.id != c.id {
      if e.id == c.id {
        IdsIdentify(videos, e, c);
      }
    }
  }

  /** A never-favourited record survives iff it is younger than 7 days and
      not among the oldest records cut from its over-full type group. */
  lemma UnfavoritedKeptIff(videos: seq<Content>, now: int, c: Content)
    requires UniqueIds(videos) && c in videos && !Protected(c)
    ensures c in Survivors(videos, now) <==>
      YoungerThan(c.createdAt, now, UnfavoritedTtl)
      && c !in Overflow(Select(videos, Unfavorited("audio")), MaxAudioFiles)
      && c !in Overflow(Select(videos, Unfavorited("video")), MaxVideoFiles)
  {
    SurvivorsFacts(videos, now);
    ToDeleteFacts(videos, now);
    var d := ToDelete(videos, now);
    if YoungerThan(c.createdAt, now, UnfavoritedTtl)
      && c !in Overflow(Select(videos, Unfavorited("audio")), MaxAudioFiles)
      && c !in Overflow(Select(videos, Unfavorited("video")), MaxVideoFiles)
    {
      forall e | e in d ensures e.id != c.id {
        if e.id == c.id {
          IdsIdentify(videos, e, c);
        }
      }
    }
  }

  function IdSet(s: seq<Content>): set<int> { set c | c in s :: c.id }

  lemma {:induction false} UniqueIdsCard(s: seq<Content>)
    requires UniqueIds(s)
    ensures |IdSet(s)| == |s|
  {
    if s != [] {
      var init, last := s[..|s| - 1], s[|s| - 1];
      assert s == init + [last];
      UniqueLast(s);
      UniqueIdsCard(init);
      assert IdSet(s) == IdSet(init) + {last.id};
      assert last.id !in IdSet(init);
    }
  }

  lemma SubsetCard(a: set<int>, b: set<int>)
    requires a <= b
    ensures |a| <= |b|
  {
    assert b == a + (b - a);
  }

  lemma DifferenceCard(a: set<int>, b: set<int>)
    requires b <= a
    ensures |a - b| == |a| - |b|
  {
    assert a == (a - b) + b;
  }

  /** After the clean-up at most `max` never-favourited records of the type
      remain: 100 audio and 50 video. */
  lemma {:induction false} OverflowCap(videos: seq<Content>, now: int, kind: string, max: nat)
    requires UniqueIds(videos)
    requires (kind == "audio" && max == MaxAudioFiles) || (kind == "video" && max == MaxVideoFiles)
    ensures |Select(Survivors(videos, now), Unfavorited(kind))| <= max
  {
    var group := Select(videos, Unfavorited(kind));
    var cut := Overflow(group, max);
    var rest := Select(Survivors(videos, now), Unfavorited(kind));
    var d := ToDelete(videos, now);
    assert forall e :: e in cut ==> e in d;
    SurvivorsFacts(videos, now);
    SelectUnique(Survivors(videos, now), Unfavorited(kind));
    SelectUnique(videos, Unfavorited(kind));
    OverflowUnique(group, max);
    UniqueIdsCard(rest);
    UniqueIdsCard(group);
    UniqueIdsCard(cut);
    forall id | id in IdSet(rest) ensures id in IdSet(group) - IdSet(cut) {
      var c :| c in rest && c.id == id;
      assert c in group;
    }
    SubsetCard(IdSet(rest), IdSet(group) - IdSet(cut));
    DifferenceCard(IdSet(group), IdSet(cut));
  }

  /** Statistics count a never-favourited record exactly 7 days old as not
      expired (strict `>`), while the clean-up keeps only strictly younger
      ones (`<`), so that record is removed all the same. */
  lemma StatsBoundary(videos: seq<Content>, now: int, c: Content)
    requires c in videos && !Protected(c) && now - c.createdAt == UnfavoritedTtl * 1000
    ensures c !in Select(videos, StaleAt(now))
    ensures c !in Survivors(videos, now)
  {
  }

  /** Statistics look at `isFavorite` only: a record that was favourited once
      and is old is reported as an expired unfavorited record, yet the
      clean-up never removes it. */
  lemma StatsCountOnceFavorited(videos: seq<Content>, now: int, c: Content)
    requires UniqueIds(videos) && c in videos
    requires !c.isFavorite && c.everFavorited && OlderThan(c.createdAt, now, UnfavoritedTtl)
    ensures c in Select(videos, StaleAt(now)) && c in Survivors(videos, now)
  {
    ProtectedNeverRemoved(videos, now, c);
  }

  // ---- files of a record ----

  /** The file behind a record's `outputPath`: `/audios/` and `/uploads/` in
      the audios directory, `/videos/` in the videos directory. */
  function OutputFile(p: Option<string>): seq<string>
  {
    if !Truthy(p) then []
    else if "/audios/" <= p.value then [PathJoin(AudiosDir, p.value[8..])]
    else if "/videos/" <= p.value then [PathJoin(VideosDir, p.value[8..])]
    else if "/uploads/" <= p.value then [PathJoin(AudiosDir, p.value[9..])]
    else []
  }

  /** The file behind a record's `audioPath`: only `/audios/` and `/uploads/`. */
  function AudioFile(p: Option<string>): seq<string>
  {
    if !Truthy(p) then []
    else if "/audios/" <= p.value then [PathJoin(AudiosDir, p.value[8..])]
    else if "/uploads/" <= p.value then [PathJoin(AudiosDir, p.value[9..])]
    else []
  }

  function FilesOf(c: Content): (r: seq<string>)
    ensures |r| <= 2
  {
    OutputFile(c.outputPath) + AudioFile(c.audioPath)
  }

  /** The files the delete loop visits, record by record. */
  function FilesOfAll(s: seq<Content>): seq<string>
  {
    if s == [] then [] else FilesOfAll(s[..|s| - 1]) + FilesOf(s[|s| - 1])
  }

  /** The TTS sweep's reference test for file name `f`. */
  predicate References(c: Content, f: string)
  {
    c.outputPath == Some("/audios/" + f) || c.audioPath == Some("/audios/" + f)
    || c.outputPath == Some("/uploads/" + f) || c.audioPath == Some("/uploads/" + f)
  }

  predicate Referenced(videos: seq<Content>, f: string)
  {
    exists i :: 0 <= i < |videos| && References(videos[i], f)
  }

  lemma AudiosJoinInjective(x: string, y: string)
    requires PathJoin(AudiosDir, x) == PathJoin(AudiosDir, y)
    ensures x == y
  {
    assert x == PathJoin(AudiosDir, x)[12..];
  }

  /** The audios-directory files a record's removal deletes are exactly the
      files the TTS sweep treats as referenced by that record. */
  lemma AudioFilesAreReferences(c: Content, f: string)
    ensures PathJoin(AudiosDir, f) in FilesOf(c) <==> References(c, f)
  {
    var target := PathJoin(AudiosDir, f);
    assert target[5] == 'a';
    forall x | true ensures PathJoin(VideosDir, x) != target {
      assert PathJoin(VideosDir, x)[5] == 'v';
    }
    forall p: string | "/audios/" <= p ensures PathJoin(AudiosDir, p[8..]) == target <==> p == "/audios/" + f {
      assert p == "/audios/" + p[8..];
      if PathJoin(AudiosDir, p[8..]) == target {
        AudiosJoinInjective(p[8..], f);
      }
    }
    forall p: string | "/uploads/" <= p ensures PathJoin(AudiosDir, p[9..]) == target <==> p == "/uploads/" + f {
      assert p == "/uploads/" + p[9..];
      if PathJoin(AudiosDir, p[9..]) == target {
        AudiosJoinInjective(p[9..], f);
      }
    }
    assert ("/uploads/" + f)[1] == 'u';
    assert !("/audios/" <= "/uploads/" + f) && !("/videos/" <= "/uploads/" + f);
  }

  // ---- the clean-up of never-favourited records ----

  /** The classification loop over `db.videos`. */
  method Classify(videos: seq<Content>, now: int)
    returns (valid: seq<Content>, expired: seq<Content>, audio: seq<Content>, video: seq<Content>)
    ensures valid == Select(videos, Retained(now))
    ensures expired == Select(videos, Expired(now))
    ensures audio == Select(videos, Unfavorited("audio"))
    ensures video == Select(videos, Unfavorited("video"))
  {
    valid, expired, audio, video := [], [], [], [];
    var i := 0;
    while i < |videos|
      invariant 0 <= i <= |videos|
      invariant valid == Select(videos[..i], Retained(now))
      invariant expired == Select(videos[..i], Expired(now))
      invariant audio == Select(videos[..i], Unfavorited("audio"))
      invariant video == Select(videos[..i], Unfavorited("video"))
    {
      var content := videos[i];
      assert videos[..i + 1][..i] == videos[..i];
      if Protected(content) {
        valid := valid + [content];
      } else {
        if content.kind == "audio" {
          audio := audio + [content];
        } else if content.kind == "video" {
          video := video + [content];
        }
        if YoungerThan(content.createdAt, now, UnfavoritedTtl) {
          valid := valid + [content];
        } else {
          expired := expired + [content];
        }
      }
      i := i + 1;
    }
    assert videos[..i] == videos;
  }

  /** The overflow cut and the merge of the three deletion lists. */
  method ScheduleDeletion(videos: seq<Content>, now: int) returns (valid: seq<Content>, doomed: seq<Content>)
    ensures valid == Select(videos, Retained(now))
    ensures doomed == ToDelete(videos, now)
  {
    var expired, audio, video;
    valid, expired, audio, video := Classify(videos, now);
    var audioToDelete: seq<Content> := [];
    var videoToDelete: seq<Content> := [];
    if |audio| > MaxAudioFiles {
      audio := Sorting.SortBy(audio, CreatedAt);
      audioToDelete := audio[..|audio| - MaxAudioFiles];
    }
    if |video| > MaxVideoFiles {
      video := Sorting.SortBy(video, CreatedAt);
      videoToDelete := video[..|video| - MaxVideoFiles];
    }
    doomed := expired + audioToDelete + videoToDelete;
  }

  /** The delete loop: the files of each record to delete are handed to
      `deleteFile`, and the first retained record with its id is spliced out. */
  method SpliceAll(retained: seq<Content>, doomed: seq<Content>)
    returns (valid: seq<Content>, targets: seq<string>)
    ensures valid == RemoveAll(retained, doomed)
    ensures targets == FilesOfAll(doomed)
  {
    valid, targets := retained, [];
    var k := 0;
    while k < |doomed|
      invariant 0 <= k <= |doomed|
      invariant targets == FilesOfAll(doomed[..k])
      invariant valid == RemoveAll(retained, doomed[..k])
    {
      var content := doomed[k];
      assert doomed[..k + 1][..k] == doomed[..k];
      targets := targets + FilesOf(content);
      valid := RemoveFirstId(valid, content.id);
      k := k + 1;
    }
    assert doomed[..k] == doomed;
  }

  /** `cleanupUnfavoritedContent`. `db` is the database as read (`None` when it
      cannot be read). The result is what is written back (`None`: nothing is
      written) and the files the delete loop passes to `deleteFile`, in order. */
  method CleanupUnfavoritedContent(db: Option<seq<Content>>, now: int)
    returns (written: Option<seq<Content>>, targets: seq<string>)
    ensures db.None? ==> written == None && targets == []
    ensures db.Some? ==> targets == FilesOfAll(ToDelete(db.value, now))
    ensures db.Some? ==>
      written == if ToDelete(db.value, now) == [] then None else Some(Survivors(db.value, now))
  {
    if db.None? {
      return None, [];
    }
    var valid, doomed := ScheduleDeletion(db.value, now);
    if doomed == [] {
      return None, [];
    }
    valid, targets := SpliceAll(valid, doomed);
    written := Some(valid);
  }

  // ---- directory sweeps ----

  /** The modification time of file `f` is more than `ttl` seconds old; `None`
      from `mtime` is an `fs.stat` that throws. */
  predicate Stale(mtime: string -> Option<int>, f: string, now: int, ttl: int)
  {
    mtime(f).Some? && OlderThan(mtime(f).value, now, ttl)
  }

  /** The index of the first file that is `stat`ed and whose `stat` throws:
      the exception ends the sweep's `try` block there. */
  function StatCutoff(files: seq<string>, statted: string -> bool, mtime: string -> Option<int>): (k: nat)
    ensures k <= |files|
    ensures forall i :: 0 <= i < k ==> !statted(files[i]) || mtime(files[i]).Some?
    ensures k < |files| ==> statted(files[k]) && mtime(files[k]).None?
  {
    if files == [] then 0
    else if statted(files[0]) && mtime(files[0]).None? then 0
    else 1 + StatCutoff(files[1..], statted, mtime)
  }

  /** The loop shared by the three sweeps: a file whose name passes `statted`
      is `stat`ed, and is deleted when it is older than `ttl` seconds and
      passes `eligible`; `removable` says whether `deleteFile` succeeds. */
  method Sweep(dirExists: bool, files: seq<string>, now: int, ttl: int,
               statted: string -> bool, eligible: string -> bool,
               mtime: string -> Option<int>, removable: string -> bool)
    returns (deleted: seq<string>)
    ensures !dirExists ==> deleted == []
    ensures dirExists ==> forall f :: f in deleted <==>
      f in files[..StatCutoff(files, statted, mtime)]
      && statted(f) && Stale(mtime, f, now, ttl) && eligible(f) && removable(f)
  {
    deleted := [];
    if !dirExists {
      return;
    }
    var cutoff := StatCutoff(files, statted, mtime);
    var i := 0;
    while i < |files|
      invariant 0 <= i <= cutoff
      invariant forall f :: f in deleted <==>
        f in files[..i] && statted(f) && Stale(mtime, f, now, ttl) && eligible(f) && removable(f)
      decreases |files| - i
    {
      var file := files[i];
      assert files[..i + 1] == files[..i] + [file];
      if statted(file) {
        if mtime(file).None? {
          break;
        }
        if OlderThan(mtime(file).value, now, ttl) && eligible(file) && removable(file) {
          deleted := deleted + [file];
        }
      }
      i := i + 1;
    }
  }

  /** File names the TTS sweep and the statistics treat as TTS output. */
  predicate TtsName(f: string) { "audio_" <= f || Contains(f, "tts_") || Contains(f, "video_audio_") }

  predicate TempName(f: string) { "temp_" <= f }

  predicate TaskName(f: string) { "task_" <= f }

  predicate AnyName(f: string) { true }

  /** `cleanupTempTTSFiles`: a file of the audios directory is deleted only when
      its name marks it as TTS output, it is more than 2 hours old, the
      database is readable and no record references it. */
  method CleanupTempTtsFiles(dirExists: bool, files: seq<string>, now: int,
                             mtime: string -> Option<int>, db: Option<seq<Content>>,
                             removable: string -> bool)
    returns (deleted: seq<string>)
    ensures forall f :: f in deleted ==>
      f in files && TtsName(f) && Stale(mtime, f, now, TtsFileTtl) && db.Some? && !Referenced(db.value, f)
    ensures dirExists ==> forall f ::
      f in files[..StatCutoff(files, TtsName, mtime)] && TtsName(f) && Stale(mtime, f, now, TtsFileTtl)
      && db.Some? && !Referenced(db.value, f) && removable(f)
      ==> f in deleted
  {
    deleted := Sweep(dirExists, files, now, TtsFileTtl, TtsName,
                     f => db.Some? && !Referenced(db.value, f), mtime, removable);
  }

  /** `cleanupTempFiles`: `temp_*` files of the audios directory more than an
      hour old. */
  method CleanupTempFiles(dirExists: bool, files: seq<string>, now: int,
                          mtime: string -> Option<int>, removable: string -> bool)
    returns (deleted: seq<string>)
    ensures forall f :: f in deleted ==> f in files && TempName(f) && Stale(mtime, f, now, TempFileTtl)
    ensures dirExists ==> forall f ::
      f in files[..StatCutoff(files, TempName, mtime)] && TempName(f) && Stale(mtime, f, now, TempFileTtl) && removable(f)
      ==> f in deleted
  {
    deleted := Sweep(dirExists, files, now, TempFileTtl, TempName, AnyName, mtime, removable);
  }

  /** `cleanupTempDirectory`: every file of the temp directory is `stat`ed; the
      `task_*` ones more than an hour old are deleted. */
  method CleanupTempDirectory(dirExists: bool, files: seq<string>, now: int,
                              mtime: string -> Option<int>, removable: string -> bool)
    returns (deleted: seq<string>)
    ensures forall f :: f in deleted ==> f in files && TaskName(f) && Stale(mtime, f, now, TempFileTtl)
    ensures dirExists ==> forall f ::
      f in files[..StatCutoff(files, AnyName, mtime)] && TaskName(f) && Stale(mtime, f, now, TempFileTtl) && removable(f)
      ==> f in deleted
  {
    deleted := Sweep(dirExists, files, now, TempFileTtl, AnyName, TaskName, mtime, removable);
  }

  // ---- statistics ----

  datatype ContentStats = ContentStats(total: nat, favorited: nat, unfavorited: nat, unfavoritedExpired: nat)
  datatype FileStats = FileStats(ttsFiles: nat, expiredTtsFiles: nat)
  datatype CleanupStats = CleanupStats(content: ContentStats, files: FileStats)

  function CountTts(files: seq<string>): (n: nat)
    ensures n <= |files|
  {
    if files == [] then 0
    else CountTts(files[..|files| - 1]) + (if TtsName(files[|files| - 1]) then 1 else 0)
  }

  function CountStaleTts(files: seq<string>, now: int, mtime: string -> Option<int>): (n: nat)
    ensures n <= CountTts(files)
  {
    if files == [] then 0
    else
      var f := files[|files| - 1];
      CountStaleTts(files[..|files| - 1], now, mtime) + (if TtsName(f) && Stale(mtime, f, now, TtsFileTtl) then 1 else 0)
  }

  /** The loop over the records of `getCleanupStats`. */
  method CountContent(videos: seq<Content>, now: int) returns (stats: ContentStats)
    ensures stats == ContentStats(|videos|, |Select(videos, Favorited)|, |Select(videos, NotFavorited)|,
                                  |Select(videos, StaleAt(now))|)
    ensures stats.favorited + stats.unfavorited == stats.total
    ensures stats.unfavoritedExpired <= stats.unfavorited
  {
    var favorited, unfavorited, expired := 0, 0, 0;
    var i := 0;
    while i < |videos|
      invariant 0 <= i <= |videos|
      invariant favorited == |Select(videos[..i], Favorited)|
      invariant unfavorited == |Select(videos[..i], NotFavorited)|
      invariant expired == |Select(videos[..i], StaleAt(now))|
      invariant expired <= unfavorited
    {
      var content := videos[i];
      assert videos[..i + 1][..i] == videos[..i];
      if content.isFavorite {
        favorited := favorited + 1;
      } else {
        unfavorited := unfavorited + 1;
        if OlderThan(content.createdAt, now, UnfavoritedTtl) {
          expired := expired + 1;
        }
      }
      i := i + 1;
    }
    assert videos[..i] == videos;
    FavoritedPartition(videos);
    stats := ContentStats(|videos|, favorited, unfavorited, expired);
  }

  /** The loop over the audios directory of `getCleanupStats`: TTS files are
      counted up to and including the first one whose `stat` throws. */
  method CountTtsFiles(files: seq<string>, now: int, mtime: string -> Option<int>) returns (stats: FileStats)
    ensures var k := StatCutoff(files, TtsName, mtime);
      stats == FileStats(CountTts(files[..k]) + (if k < |files| then 1 else 0),
                         CountStaleTts(files[..k], now, mtime))
    ensures stats.expiredTtsFiles <= stats.ttsFiles
  {
    var k := StatCutoff(files, TtsName, mtime);
    var ttsFiles, expiredTtsFiles := 0, 0;
    var j := 0;
    while j < |files|
      invariant 0 <= j <= k
      invariant ttsFiles == CountTts(files[..j])
      invariant expiredTtsFiles == CountStaleTts(files[..j], now, mtime)
      decreases |files| - j
    {
      var file := files[j];
      assert files[..j + 1][..j] == files[..j];
      if TtsName(file) {
        ttsFiles := ttsFiles + 1;
        if mtime(file).None? {
          break;
        }
        if OlderThan(mtime(file).value, now, TtsFileTtl) {
          expiredTtsFiles := expiredTtsFiles + 1;
        }
      }
      j := j + 1;
    }
    stats := FileStats(ttsFiles, expiredTtsFiles);
  }

  /** `getCleanupStats`: `None` when the database cannot be read. */
  method GetCleanupStats(db: Option<seq<Content>>, now: int, dirExists: bool,
                         files: seq<string>, mtime: string -> Option<int>)
    returns (r: Option<CleanupStats>)
    ensures db.None? <==> r.None?
    ensures r.Some? ==> r.value.content == ContentStats(
      |db.value|, |Select(db.value, Favorited)|, |Select(db.value, NotFavorited)|,
      |Select(db.value, StaleAt(now))|)
    ensures r.Some? ==> r.value.content.favorited + r.value.content.unfavorited == r.value.content.total
    ensures r.Some? && !dirExists ==> r.value.files == FileStats(0, 0)
    ensures r.Some? && dirExists ==>
      var k := StatCutoff(files, TtsName, mtime);
      r.value.files == FileStats(CountTts(files[..k]) + (if k < |files| then 1 else 0),
                                 CountStaleTts(files[..k], now, mtime))
  {
    if db.None? {
      return None;
    }
    var content := CountContent(db.value, now);
    var fileStats := FileStats(0, 0);
    if dirExists {
      fileStats := CountTtsFiles(files, now, mtime);
    }
    r := Some(CleanupStats(content, fileStats));
  }
}
