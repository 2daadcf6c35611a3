/** Where generated videos are written and how they are found again
    (server/config.ts). The file system is the parameter `probe`: for a path
    it gives `Ok(b)`, whether `fs.existsSync` reports the file, or
    `Err(message)` when the check throws. Paths are joined with '/', without
    the normalisation `path.join` performs. */
module ServerConfig {
  import opened Wrappers
  import Strs

  const VideoOutputDir := "videos"
  /** Searched in this order for a finished video. */
  const VideoAlternativeDirs := ["videos", "temp", "face2face/temp", "result"]
  /** Searched in this order for an audio file. */
  const AudioAlternativeDirs := ["audios", "voice", "uploads"]
  const AccessUrlPrefix := "/results"
  const VideoSuffix := "-r.mp4"

  type Probe = string -> Result<bool>

  /** `path.join(dataDir, dir, name)`. */
  function JoinPath(dataDir: string, dir: string, name: string): string
  {
    dataDir + "/" + dir + "/" + name
  }

  /** The probe answers that `name` is in `dir`. */
  predicate Present(probe: Probe, dataDir: string, dir: string, name: string)
  {
    probe(JoinPath(dataDir, dir, name)) == Ok(true)
  }

  /** `getVideoFilePath`: `{dir}/{taskCode}-r.mp4`, where an absent or empty
      directory means "videos". */
  function GetVideoFilePath(taskCode: string, outputDir: Option<string>): (r: string)
    ensures |r| > |taskCode + VideoSuffix| && r[|r| - |taskCode + VideoSuffix|..] == taskCode + VideoSuffix
  {
    var dir := if Truthy(outputDir) then outputDir.value else VideoOutputDir;
    dir + "/" + taskCode + VideoSuffix
  }

  /** A task code a video file name carries: its last segment without the
      `-r.mp4` suffix. */
  function TaskCodeOf(p: string): (r: Option<string>)
    ensures r.Some? ==> '/' !in r.value
  {
    var b := Strs.Basename(p);
    if |b| >= |VideoSuffix| && b[|b| - |VideoSuffix|..] == VideoSuffix then
      assert forall c :: c in b[..|b| - |VideoSuffix|] ==> c in b;
      Some(b[..|b| - |VideoSuffix|])
    else None
  }

  /** The directory part of a path: everything up to its last segment. */
  function DirOf(p: string): (r: string)
    ensures r <= p
  {
    p[..|p| - |Strs.Basename(p)|]
  }

  /** The path built for a task code without '/' gives back that task code
      and the chosen directory (followed by '/'). */
  lemma VideoFilePathRoundTrip(taskCode: string, outputDir: Option<string>)
    requires '/' !in taskCode
    ensures TaskCodeOf(GetVideoFilePath(taskCode, outputDir)) == Some(taskCode)
    ensures DirOf(GetVideoFilePath(taskCode, outputDir))
      == (if Truthy(outputDir) then outputDir.value else VideoOutputDir) + "/"
  {
    var dir := if Truthy(outputDir) then outputDir.value else VideoOutputDir;
    var f := taskCode + VideoSuffix;
    assert '/' !in f by {
      assert forall i :: 0 <= i < |f| ==> f[i] == if i < |taskCode| then taskCode[i] else VideoSuffix[i - |taskCode|];
    }
    Strs.BasenameAfterSlash(dir, f);
    assert GetVideoFilePath(taskCode, outputDir) == dir + "/" + f;
    assert f[..|f| - |VideoSuffix|] == taskCode;
  }

  /** `getVideoAccessUrl`: the URL under which a file below the data
      directory is served. */
  function GetVideoAccessUrl(filePath: string): (r: string)
    ensures AccessUrlPrefix + "/" <= r
    ensures |r| == |AccessUrlPrefix| + 1 + |filePath|
  {
    AccessUrlPrefix + "/" + filePath
  }

  /** The file a `/results/...` URL designates. */
  function AccessPath(url: string): (r: Option<string>)
  {
    var prefix := AccessUrlPrefix + "/";
    if prefix <= url then Some(url[|prefix|..]) else None
  }

  /** URLs and the files they serve correspond one to one. */
  lemma AccessUrlRoundTrip(filePath: string, url: string)
    ensures AccessPath(GetVideoAccessUrl(filePath)) == Some(filePath)
    ensures AccessPath(url) == Some(filePath) ==> GetVideoAccessUrl(filePath) == url
  {
    var prefix := AccessUrlPrefix + "/";
    assert GetVideoAccessUrl(filePath)[|prefix|..] == filePath;
    if AccessPath(url) == Some(filePath) {
      assert url == prefix + url[|prefix|..];
    }
  }

  /** The first of `dirs` whose probe answers that `name` is there, as
      `{dir}/{name}`; a probe that throws counts as "not there". */
  function FirstExisting(dirs: seq<string>, dataDir: string, name: string, probe: Probe): (r: Option<string>)
    ensures r.Some? <==> exists i :: 0 <= i < |dirs| && Present(probe, dataDir, dirs[i], name)
    ensures r.Some? ==> exists i :: (0 <= i < |dirs| && r.value == dirs[i] + "/" + name
      && Present(probe, dataDir, dirs[i], name)
      && forall j :: 0 <= j < i ==> !Present(probe, dataDir, dirs[j], name))
  {
    if dirs == [] then None
    else if Present(probe, dataDir, dirs[0], name) then Some(dirs[0] + "/" + name)
    else
      var r := FirstExisting(dirs[1..], dataDir, name, probe);
      assert forall i :: 1 <= i < |dirs| ==> dirs[i] == dirs[1..][i - 1];
      if r.Some? then
        var i :| 0 <= i < |dirs[1..]| && r.value == dirs[1..][i] + "/" + name
          && Present(probe, dataDir, dirs[1..][i], name)
          && forall j :: 0 <= j < i ==> !Present(probe, dataDir, dirs[1..][j], name);
        assert forall j :: 1 <= j < i + 1 ==> dirs[j] == dirs[1..][j - 1];
        assert dirs[i + 1] == dirs[1..][i];
        r
      else r
  }

  /** A directory whose check throws is passed over: the search answers as if
      that directory were not in the list. */
  lemma {:induction false} FailedCheckIsSkipped(dirs: seq<string>, dataDir: string, name: string, probe: Probe, k: nat)
    requires k < |dirs| && probe(JoinPath(dataDir, dirs[k], name)).Err?
    ensures FirstExisting(dirs, dataDir, name, probe)
      == FirstExisting(dirs[..k] + dirs[k + 1..], dataDir, name, probe)
  {
    var rest := dirs[..k] + dirs[k + 1..];
    if k == 0 {
      assert rest == dirs[1..];
    } else {
      FailedCheckIsSkipped(dirs[1..], dataDir, name, probe, k - 1);
      assert rest[0] == dirs[0];
      assert rest[1..] == dirs[1..][..k - 1] + dirs[1..][k..];
    }
  }

  /** `findVideoFile`: checks the alternative directories in order and
      returns the first `{dir}/{taskCode}-r.mp4` that exists; a check that
      throws is logged and the search goes on. */
  method FindVideoFile(taskCode: string, dataDir: string, probe: Probe) returns (r: Option<string>)
    ensures r == FirstExisting(VideoAlternativeDirs, dataDir, taskCode + VideoSuffix, probe)
  {
    var dirs := VideoAlternativeDirs;
    var name := taskCode + VideoSuffix;
    var i := 0;
    while i < |dirs|
      invariant 0 <= i <= |dirs|
      invariant FirstExisting(dirs, dataDir, name, probe) == FirstExisting(dirs[i..], dataDir, name, probe)
    {
      assert dirs[i..][1..] == dirs[i + 1..];
      var found := probe(JoinPath(dataDir, dirs[i], name));
      if found == Ok(true) {
        return Some(dirs[i] + "/" + name);
      }
      i := i + 1;
    }
    r := None;
  }

  /** A video written to the default directory is found there, under the
      path `getVideoFilePath` gives for it. */
  lemma DefaultVideoIsFound(taskCode: string, dataDir: string, probe: Probe)
    requires Present(probe, dataDir, VideoOutputDir, taskCode + VideoSuffix)
    ensures FirstExisting(VideoAlternativeDirs, dataDir, taskCode + VideoSuffix, probe)
      == Some(GetVideoFilePath(taskCode, None))
  {
    assert VideoAlternativeDirs[0] == VideoOutputDir;
    assert GetVideoFilePath(taskCode, None) == VideoOutputDir + "/" + (taskCode + VideoSuffix);
  }
}
