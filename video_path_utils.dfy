/** The repair pass over the videos database (server/video-path-utils.ts):
    video records that never got an output path are pointed at the file the
    generator left behind, and audio records that still point at the old
    upload or voice folders are pointed at where the file now is. The file
    system is the probe of `ServerConfig`; the clock is the parameter `now`
    (the ISO time `new Date().toISOString()` would give). */
module VideoPathUtils {
  import opened Wrappers
  import Strs
  import opened ServerConfig

  /** A record of data/database/videos.json, reduced to the fields the pass
      reads or writes. */
  datatype Item = Item(kind: string, taskCode: Option<string>, outputPath: Option<string>,
                       status: string, progress: Option<int>, updatedAt: Option<string>)

  /** What the pass returns: `{success: true, updatedCount}` or
      `{success: false, error}`. */
  datatype Outcome = Fixed(updatedCount: nat) | Failed(error: string)

  const UnknownError := "未知錯誤"

  /** `error?.message || '未知錯誤'`. */
  function ErrorText(message: string): (r: string)
    ensures r != ""
    ensures message != "" ==> r == message
  {
    if message != "" then message else UnknownError
  }

  /** The audio lookup of `findAudioFile`: like `FirstExisting`, except that a
      check that throws ends the whole search with that error. */
  function AudioLookup(dirs: seq<string>, dataDir: string, name: string, probe: Probe): (r: Result<Option<string>>)
    ensures (forall i :: 0 <= i < |dirs| ==> probe(JoinPath(dataDir, dirs[i], name)).Ok?)
      ==> r == Ok(FirstExisting(dirs, dataDir, name, probe))
    ensures r.Err? ==> exists i :: 0 <= i < |dirs| && probe(JoinPath(dataDir, dirs[i], name)) == Err(r.message)
  {
    if dirs == [] then Ok(None)
    else
      var answer := probe(JoinPath(dataDir, dirs[0], name));
      if answer.Err? then Err(answer.message)
      else if answer.value then Ok(Some(dirs[0] + "/" + name))
      else
        assert forall i :: 1 <= i < |dirs| ==> dirs[i] == dirs[1..][i - 1];
        AudioLookup(dirs[1..], dataDir, name, probe)
  }

  /** `findAudioFile`: the first of audios, voice, uploads holding the file,
      as `{dir}/{fileName}`. */
  method FindAudioFile(fileName: string, dataDir: string, probe: Probe) returns (r: Result<Option<string>>)
    ensures r == AudioLookup(AudioAlternativeDirs, dataDir, fileName, probe)
  {
    var dirs := AudioAlternativeDirs;
    var i := 0;
    while i < |dirs|
      invariant 0 <= i <= |dirs|
      invariant AudioLookup(dirs, dataDir, fileName, probe) == AudioLookup(dirs[i..], dataDir, fileName, probe)
    {
      assert dirs[i..][1..] == dirs[i + 1..];
      var answer := probe(JoinPath(dataDir, dirs[i], fileName));
      if answer.Err? {
        return Err(answer.message);
      }
      if answer.value {
        return Ok(Some(dirs[i] + "/" + fileName));
      }
      i := i + 1;
    }
    r := Ok(None);
  }

  /** The video half of the repair: a video record with a task code and no
      output path whose file is found gets the access URL of that file, status
      "completed", progress 100 and a new `updatedAt`; any other record is
      left alone. The flag says whether the record was changed. */
  function FixVideo(item: Item, dataDir: string, probe: Probe, now: string): (r: (Item, bool))
    ensures r.1 <==> r.0 != item
    ensures !r.1 ==> r.0 == item
    ensures r.1 <==> (item.kind == "video" && Truthy(item.taskCode) && !Truthy(item.outputPath)
      && FirstExisting(VideoAlternativeDirs, dataDir, item.taskCode.value + VideoSuffix, probe).Some?)
    ensures r.1 ==> r.0 == item.(outputPath := Some(GetVideoAccessUrl(
        FirstExisting(VideoAlternativeDirs, dataDir, item.taskCode.value + VideoSuffix, probe).value)),
      status := "completed", progress := Some(100), updatedAt := Some(now))
  {
    if item.kind == "video" && Truthy(item.taskCode) && !Truthy(item.outputPath) then
      var found := FirstExisting(VideoAlternativeDirs, dataDir, item.taskCode.value + VideoSuffix, probe);
      if found.Some? then
        (item.(outputPath := Some(GetVideoAccessUrl(found.value)), status := "completed",
               progress := Some(100), updatedAt := Some(now)), true)
      else (item, false)
    else (item, false)
  }

  /** The output path points at one of the old folders. */
  predicate OldLocation(path: string)
  {
    Strs.Contains(path, "/uploads/") || Strs.Contains(path, "/voice/")
  }

  /** The audio half of the repair: an audio record whose output path points
      at an old folder is given `/results/{dir}/{basename}` when the file is
      found and that path differs; the lookup's error is passed on. */
  function FixAudio(item: Item, dataDir: string, probe: Probe, now: string): (r: Result<(Item, bool)>)
    ensures r.Ok? ==> (r.value.1 <==> r.value.0 != item)
    ensures r.Ok? && !r.value.1 ==> r.value.0 == item
    ensures r.Err? ==> item.kind == "audio" && Truthy(item.outputPath) && OldLocation(item.outputPath.value)
    ensures r.Ok? && r.value.1 ==> (item.kind == "audio" && Truthy(item.outputPath)
      && OldLocation(item.outputPath.value)
      && r.value.0 == item.(outputPath := r.value.0.outputPath, updatedAt := Some(now)))
  {
    if item.kind == "audio" && Truthy(item.outputPath) && OldLocation(item.outputPath.value) then
      var current := item.outputPath.value;
      var fileName := Strs.PathBasename(current);
      var found := AudioLookup(AudioAlternativeDirs, dataDir, fileName, probe);
      if found.Err? then Err(found.message)
      else if found.value.Some? && AccessUrlPrefix + "/" + found.value.value != current then
        Ok((item.(outputPath := Some(AccessUrlPrefix + "/" + found.value.value), updatedAt := Some(now)), true))
      else Ok((item, false))
    else Ok((item, false))
  }

  /** One record through both halves, in the order of the loop body. */
  function FixItem(item: Item, dataDir: string, probe: Probe, now: string): (r: Result<(Item, bool)>)
    ensures r.Ok? ==> (r.value.1 <==> r.value.0 != item)
  {
    var (v, videoFixed) := FixVideo(item, dataDir, probe, now);
    var audio := FixAudio(v, dataDir, probe, now);
    if audio.Err? then Err(audio.message)
    else
      assert videoFixed ==> v.kind == "video" && !audio.value.1;
      Ok((audio.value.0, videoFixed || audio.value.1))
  }

  /** Records are repaired front to back; the first error ends the pass.
      Yields the repaired records and how many were changed. */
  function FixAll(items: seq<Item>, dataDir: string, probe: Probe, now: string): (r: Result<(seq<Item>, nat)>)
    ensures r.Ok? ==> |r.value.0| == |items| && r.value.1 <= |items|
  {
    if items == [] then Ok(([], 0))
    else
      var before := FixAll(items[..|items| - 1], dataDir, probe, now);
      var last := FixItem(items[|items| - 1], dataDir, probe, now);
      if before.Err? then Err(before.message)
      else if last.Err? then Err(last.message)
      else Ok((before.value.0 + [last.value.0], before.value.1 + if last.value.1 then 1 else 0))
  }

  /** Number of positions where two sequences of equal length differ. */
  function Changed(a: seq<Item>, b: seq<Item>): (n: nat)
    requires |a| == |b|
    ensures n <= |a|
    ensures n == 0 <==> a == b
  {
    if a == [] then 0
    else
      var n := Changed(a[..|a| - 1], b[..|b| - 1]);
      assert a == a[..|a| - 1] + [a[|a| - 1]] && b == b[..|b| - 1] + [b[|b| - 1]];
      n + if a[|a| - 1] != b[|b| - 1] then 1 else 0
  }

  /** `updatedCount` is the number of records the pass changed: each changed
      record is counted once, and an unchanged one not at all. */
  lemma {:induction false} CountIsChangedRecords(items: seq<Item>, dataDir: string, probe: Probe, now: string)
    requires FixAll(items, dataDir, probe, now).Ok?
    ensures FixAll(items, dataDir, probe, now).value.1 == Changed(items, FixAll(items, dataDir, probe, now).value.0)
  {
    if items != [] {
      var init := items[..|items| - 1];
      CountIsChangedRecords(init, dataDir, probe, now);
      var out := FixAll(items, dataDir, probe, now).value.0;
      assert out[..|out| - 1] == FixAll(init, dataDir, probe, now).value.0;
    }
  }

  /** The audio half leaves its own output alone: a rewritten path names
      the same file, which the lookup finds in the same place. */
  lemma FixAudioIdempotent(v: Item, dataDir: string, probe: Probe, now: string, now2: string)
    requires FixAudio(v, dataDir, probe, now).Ok?
    ensures FixAudio(FixAudio(v, dataDir, probe, now).value.0, dataDir, probe, now2)
      == Ok((FixAudio(v, dataDir, probe, now).value.0, false))
  {
    var a := FixAudio(v, dataDir, probe, now).value;
    if a.1 {
      var current := v.outputPath.value;
      var fileName := Strs.PathBasename(current);
      var found := AudioLookup(AudioAlternativeDirs, dataDir, fileName, probe).value.value;
      OldLocationHasName(current);
      var dir := FoundDir(AudioAlternativeDirs, dataDir, fileName, probe);
      var path := AccessUrlPrefix + "/" + found;
      assert a.0.outputPath == Some(path);
      assert path == (AccessUrlPrefix + "/" + dir) + "/" + fileName;
      Strs.BasenameAfterSlash(AccessUrlPrefix + "/" + dir, fileName);
      assert Strs.TrimTrailingSlashes(path) == path;
      assert Strs.PathBasename(path) == fileName;
    }
  }

  /** A repaired record is left alone by a second repair with the same file
      system. */
  lemma FixItemIdempotent(item: Item, dataDir: string, probe: Probe, now: string, now2: string)
    requires FixItem(item, dataDir, probe, now).Ok?
    ensures FixItem(FixItem(item, dataDir, probe, now).value.0, dataDir, probe, now2)
      == Ok((FixItem(item, dataDir, probe, now).value.0, false))
  {
    var v := FixVideo(item, dataDir, probe, now).0;
    var out := FixAudio(v, dataDir, probe, now).value.0;
    assert FixItem(item, dataDir, probe, now).value.0 == out;
    assert FixVideo(out, dataDir, probe, now2) == (out, false);
    FixAudioIdempotent(v, dataDir, probe, now, now2);
  }

  /** A path that points at an old folder has a non-empty base name. */
  lemma OldLocationHasName(path: string)
    requires OldLocation(path)
    ensures Strs.PathBasename(path) != []
  {
    var sub := if Strs.Contains(path, "/uploads/") then "/uploads/" else "/voice/";
    var i := Strs.IndexOf(path, sub);
    assert path[i + 1] == sub[1];
    Strs.PathBasenameNonEmpty(path, i + 1);
  }

  /** The directory part of a successful lookup: the answer is
      `{dir}/{name}` for a `dir` of the list. */
  function FoundDir(dirs: seq<string>, dataDir: string, name: string, probe: Probe): (dir: string)
    requires AudioLookup(dirs, dataDir, name, probe).Ok? && AudioLookup(dirs, dataDir, name, probe).value.Some?
    ensures AudioLookup(dirs, dataDir, name, probe).value.value == dir + "/" + name
  {
    var answer := probe(JoinPath(dataDir, dirs[0], name));
    if answer.value then dirs[0] else FoundDir(dirs[1..], dataDir, name, probe)
  }

  /** A whole second pass changes nothing and counts nothing. */
  lemma {:induction false} FixAllIdempotent(items: seq<Item>, dataDir: string, probe: Probe, now: string, now2: string)
    requires FixAll(items, dataDir, probe, now).Ok?
    ensures FixAll(FixAll(items, dataDir, probe, now).value.0, dataDir, probe, now2)
      == Ok((FixAll(items, dataDir, probe, now).value.0, 0))
  {
    if items != [] {
      var init := items[..|items| - 1];
      var out := FixAll(items, dataDir, probe, now).value.0;
      FixAllIdempotent(init, dataDir, probe, now, now2);
      FixItemIdempotent(items[|items| - 1], dataDir, probe, now, now2);
      assert out[..|out| - 1] == FixAll(init, dataDir, probe, now).value.0;
    }
  }

  /** The loop of `fixVideoPathsInDatabase`: every record is repaired in
      place, front to back, and `updatedCount` counts the changed ones; an
      error from an audio lookup ends the loop. */
  method FixRecords(items: array<Item>, dataDir: string, probe: Probe, now: string) returns (r: Result<nat>)
    modifies items
    ensures var spec := FixAll(old(items[..]), dataDir, probe, now);
      if spec.Ok? then r == Ok(spec.value.1) && items[..] == spec.value.0
      else r == Err(spec.message)
  {
    ghost var original := items[..];
    var updatedCount := 0;
    var i := 0;
    while i < items.Length
      invariant 0 <= i <= items.Length
      invariant forall j :: i <= j < items.Length ==> items[j] == original[j]
      invariant FixAll(original[..i], dataDir, probe, now) == Ok((items[..i], updatedCount))
    {
      assert original[..i + 1][..i] == original[..i];
      assert original[..i + 1][i] == items[i];
      var fixed := FixItem(items[i], dataDir, probe, now);
      if fixed.Err? {
        FixAllErrorPersists(original, i + 1, dataDir, probe, now);
        return Err(fixed.message);
      }
      items[i] := fixed.value.0;
      if fixed.value.1 {
        updatedCount := updatedCount + 1;
      }
      assert items[..i + 1] == items[..i] + [items[i]];
      i := i + 1;
    }
    assert original[..items.Length] == original;
    assert items[..items.Length] == items[..];
    r := Ok(updatedCount);
  }

  /** Once a prefix fails, the whole pass fails with the same error. */
  lemma {:induction false} FixAllErrorPersists(items: seq<Item>, k: nat, dataDir: string, probe: Probe, now: string)
    requires k <= |items| && FixAll(items[..k], dataDir, probe, now).Err?
    ensures FixAll(items, dataDir, probe, now) == FixAll(items[..k], dataDir, probe, now)
    decreases |items| - k
  {
    if k < |items| {
      assert items[..k + 1][..k] == items[..k];
      FixAllErrorPersists(items, k + 1, dataDir, probe, now);
    } else {
      assert items[..k] == items;
    }
  }

  /** The database file: its records, or the error reading it raises. */
  class VideosDatabase {
    var file: Result<seq<Item>>

    constructor (initial: Result<seq<Item>>)
      ensures file == initial
    {
      file := initial;
    }

    /** `fixVideoPathsInDatabase`: reads the records, repairs them, and writes
        them back only when at least one changed. Any error (reading, a
        lookup, writing, as `writeError` says) gives `Failed` with its message
        and leaves the file as it was. */
    method FixVideoPaths(dataDir: string, probe: Probe, now: string, writeError: Option<string>)
      returns (r: Outcome)
      modifies this
      ensures old(file).Err? ==> r == Failed(ErrorText(old(file).message)) && file == old(file)
      ensures old(file).Ok? ==>
        var spec := FixAll(old(file).value, dataDir, probe, now);
        if spec.Err? then r == Failed(ErrorText(spec.message)) && file == old(file)
        else if spec.value.1 == 0 then r == Fixed(0) && file == old(file)
        else if writeError.Some? then r == Failed(ErrorText(writeError.value)) && file == old(file)
        else r == Fixed(spec.value.1) && file == Ok(spec.value.0)
    {
      if file.Err? {
        return Failed(ErrorText(file.message));
      }
      var records := file.value;
      var items := new Item[|records|](j requires 0 <= j < |records| => records[j]);
      assert items[..] == records;
      var count := FixRecords(items, dataDir, probe, now);
      if count.Err? {
        return Failed(ErrorText(count.message));
      }
      if count.value > 0 {
        if writeError.Some? {
          return Failed(ErrorText(writeError.value));
        }
        file := Ok(items[..]);
      }
      r := Fixed(count.value);
    }
  }
}
