/** The web-vue server's audio suitability check
    (V/web-vue/audio_checker.js): whether an upload can serve as the sample
    of a voice clone, judged from ffprobe's description of its first audio
    stream and the mean volume ffmpeg's `volumedetect` filter reports. The
    file test, the ffmpeg probe and the two process runs are parameters. */
module AudioCheckerJs {
  import opened Wrappers
  import opened Strs
  import NumFmt
  import opened AudioProbe

  /** A JavaScript number that may be NaN. */
  datatype JsNumber = Num(value: real) | NaN

  /** `parseFloat`: NaN when no number starts the text. */
  function ParseFloat(s: string): (r: JsNumber)
    ensures r.Num? <==> NumFmt.JsParseFloat(s).Some?
  {
    match NumFmt.JsParseFloat(s)
    case Some(v) => Num(v)
    case None => NaN
  }

  /** How the ffprobe run ended: the spawn failed, or the process exited
      with a code, its standard output and the outcome of `JSON.parse` on
      it. */
  datatype ProbeRun = ProbeSpawnFailed(message: string)
                    | ProbeExited(code: int, stdout: string, json: Result<ProbeData>)

  /** The object `extractAudioInfo` resolves with. */
  datatype Extracted = Info(info: AudioInfo) | InfoError(error: string)

  const NoAudioStream := "沒有找到音頻流"

  /** The facts read from the first audio stream; `||` turns an absent,
      empty or zero field into its default. */
  function InfoOf(s: Stream, duration: Option<real>): (r: AudioInfo)
    ensures r.codec == if Truthy(s.codecName) then s.codecName.value else "unknown"
    ensures r.sampleRate == GetOr(s.sampleRate, 0) && r.channels == GetOr(s.channels, 0)
      && r.bitRate == GetOr(s.bitRate, 0) && r.duration == GetOr(duration, 0.0)
  {
    AudioInfo(GetOr(duration, 0.0), if Truthy(s.codecName) then s.codecName.value else "unknown",
              GetOr(s.sampleRate, 0), GetOr(s.channels, 0), GetOr(s.bitRate, 0))
  }

  /** `extractAudioInfo`: a rejected promise is `Err`. */
  function ExtractAudioInfo(run: ProbeRun): (r: Result<Extracted>)
    ensures r.Ok? <==> run.ProbeExited? && run.code == 0 && !IsBlank(run.stdout) && run.json.Ok?
    ensures r.Ok? && r.value.Info? ==>
      var streams := AudioStreams(GetOr(run.json.value.streams, []));
      streams != [] && r.value.info == InfoOf(streams[0], run.json.value.duration)
    ensures r.Ok? && r.value.InfoError? ==>
      r.value.error == NoAudioStream && AudioStreams(GetOr(run.json.value.streams, [])) == []
  {
    match run
    case ProbeSpawnFailed(m) => Err("ffprobe 執行失敗: " + m)
    case ProbeExited(code, stdout, json) =>
      if code != 0 then Err("ffprobe 退出碼: " + IntToString(code))
      else if IsBlank(stdout) then Err("ffprobe 沒有返回數據")
      else if json.Err? then Err("解析 JSON 失敗: " + json.message)
      else
        var streams := AudioStreams(GetOr(json.value.streams, []));
        if streams == [] then Ok(InfoError(NoAudioStream))
        else Ok(Info(InfoOf(streams[0], json.value.duration)))
  }

  // ---------------------------------------------------------------------
  // The volume measurement: `/mean_volume:\s*([-\d.]+)\s*dB/` on each line

  /** The first index from `j` on that is not white space. */
  function SkipSpaces(s: string, j: nat): (k: nat)
    requires j <= |s|
    ensures j <= k <= |s|
    ensures forall m :: j <= m < k ==> IsSpace(s[m])
    ensures k < |s| ==> !IsSpace(s[k])
    decreases |s| - j
  {
    if j < |s| && IsSpace(s[j]) then SkipSpaces(s, j + 1) else j
  }

  /** The first index from `j` on that is not a digit, '-' or '.'. */
  function VolumeRunEnd(s: string, j: nat): (k: nat)
    requires j <= |s|
    ensures j <= k <= |s|
    ensures forall m :: j <= m < k ==> IsVolumeChar(s[m])
    ensures k < |s| ==> !IsVolumeChar(s[k])
    decreases |s| - j
  {
    if j < |s| && IsVolumeChar(s[j]) then VolumeRunEnd(s, j + 1) else j
  }

  /** The capture group of a match of the pattern that starts at the tag at
      `i`. Each part of the pattern has one way to match: fewer spaces
      would start the number on a space, a shorter number would leave a
      digit, '-' or '.' where white space or "dB" must follow. */
  function MatchAt(line: string, i: nat): (r: Option<string>)
    requires OccursAt(line, MeanVolumeTag, i)
    ensures r.Some? ==> r.value != [] && forall c :: c in r.value ==> IsVolumeChar(c)
  {
    var j := SkipSpaces(line, i + |MeanVolumeTag|);
    var k := VolumeRunEnd(line, j);
    var m := SkipSpaces(line, k);
    if j < k && OccursAt(line, "dB", m) then Some(line[j..k]) else None
  }

  /** The position of the leftmost match at or after `i`: the regex engine
      tries each start in turn. */
  function MatchFrom(line: string, i: nat): (p: Option<nat>)
    ensures p.Some? ==> i <= p.value && OccursAt(line, MeanVolumeTag, p.value) && MatchAt(line, p.value).Some?
    ensures p.Some? ==> forall q :: i <= q < p.value && OccursAt(line, MeanVolumeTag, q) ==> MatchAt(line, q).None?
    ensures p.None? ==> forall q :: i <= q && OccursAt(line, MeanVolumeTag, q) ==> MatchAt(line, q).None?
    decreases |line| - i
  {
    if i + |MeanVolumeTag| > |line| then None
    else if OccursAt(line, MeanVolumeTag, i) && MatchAt(line, i).Some? then Some(i)
    else MatchFrom(line, i + 1)
  }

  /** The capture of the leftmost match on a line. */
  function Capture(line: string): (r: Option<string>)
    ensures r.Some? ==> r.value != [] && forall c :: c in r.value ==> IsVolumeChar(c)
  {
    match MatchFrom(line, 0)
    case Some(p) => MatchAt(line, p)
    case None => None
  }

  /** What one line of ffmpeg's log gives: the capture, when the line
      contains the tag and the pattern matches. */
  function LineCapture(line: string): Option<string>
  {
    if Contains(line, MeanVolumeTag) then Capture(line) else None
  }

  /** The capture of the first line from `i` on that has one. */
  function FirstCapture(lines: seq<string>, i: nat): (r: Option<string>)
    requires i <= |lines|
    ensures r.None? <==> forall k :: i <= k < |lines| ==> LineCapture(lines[k]).None?
    decreases |lines| - i
  {
    if i == |lines| then None
    else if LineCapture(lines[i]).Some? then LineCapture(lines[i])
    else FirstCapture(lines, i + 1)
  }

  /** How the ffmpeg run ended: the spawn failed, or it closed after
      writing its log to standard error. */
  datatype VolumeRun = VolumeSpawnFailed | VolumeLog(stderr: string)

  /** What `checkAudioVolume` resolves with. */
  datatype VolumeResult = VolumeDb(db: JsNumber) | VolumeError(error: string)

  /** `checkAudioVolume`, as a value. */
  function VolumeOf(run: VolumeRun): (r: VolumeResult)
  {
    match run
    case VolumeSpawnFailed => VolumeError("音量檢測失敗")
    case VolumeLog(stderr) =>
      match FirstCapture(Split(stderr, '\n'), 0)
      case Some(c) => VolumeDb(ParseFloat(c))
      case None => VolumeError("無法解析音量信息")
  }

  /** `checkAudioVolume`: the lines of the log are scanned in order and the
      first one that matches decides. */
  method CheckAudioVolume(run: VolumeRun) returns (r: VolumeResult)
    ensures r == VolumeOf(run)
  {
    if run.VolumeSpawnFailed? {
      return VolumeError("音量檢測失敗");
    }
    var lines := Split(run.stderr, '\n');
    var i := 0;
    while i < |lines|
      invariant 0 <= i <= |lines|
      invariant FirstCapture(lines, i) == FirstCapture(lines, 0)
    {
      if Contains(lines[i], MeanVolumeTag) {
        var capture := Capture(lines[i]);
        if capture.Some? {
          assert FirstCapture(lines, i) == capture;
          return VolumeDb(ParseFloat(capture.value));
        }
      }
      assert LineCapture(lines[i]).None?;
      i := i + 1;
    }
    assert FirstCapture(lines, 0) == None;
    r := VolumeError("無法解析音量信息");
  }

  /** The line ffmpeg writes, `mean_volume: <x> dB` with `x` printed to one
      decimal (`n` tenths after an optional '-'), gives back that volume. */
  lemma ReadsLoggedVolume(pre: string, sign: string, n: nat)
    requires sign == "" || sign == "-"
    requires '\n' !in pre && !Contains(pre, MeanVolumeTag)
    ensures VolumeOf(VolumeLog(VolumeLine(pre, NumFmt.RenderTenths(sign, n))))
      == VolumeDb(Num(if sign == "-" then -(n as real / 10.0) else n as real / 10.0))
  {
    var x := NumFmt.RenderTenths(sign, n);
    NumFmt.RenderTenthsChars(sign, n);
    assert forall k :: 0 <= k < |x| ==> IsVolumeChar(x[k]);
    LayoutCapture(pre, x);
    SingleLine(pre, x);
    OneLineLog(VolumeLine(pre, x));
    NumFmt.RenderTenthsParses(sign, n);
  }

  /** A log of one line is judged by that line. */
  lemma OneLineLog(line: string)
    requires '\n' !in line && LineCapture(line).Some?
    ensures VolumeOf(VolumeLog(line)) == VolumeDb(ParseFloat(LineCapture(line).value))
  {
    assert Split(line, '\n') == [line];
    assert FirstCapture([line], 0) == LineCapture(line);
  }

  /** The line ffmpeg writes captures the number it shows. */
  lemma LayoutCapture(pre: string, x: string)
    requires !Contains(pre, MeanVolumeTag)
    requires x != [] && forall k :: 0 <= k < |x| ==> IsVolumeChar(x[k])
    ensures LineCapture(VolumeLine(pre, x)) == Some(x)
  {
    var line := VolumeLine(pre, x);
    MatchOfLayout(pre, x);
    FirstTag(pre, x);
    assert IndexOf(line, MeanVolumeTag) >= 0;
    MatchFromSkips(line, |pre|);
    assert Capture(line) == Some(x);
  }

  /** Such a line holds no line break. */
  lemma SingleLine(pre: string, x: string)
    requires '\n' !in pre
    requires forall k :: 0 <= k < |x| ==> IsVolumeChar(x[k])
    ensures '\n' !in VolumeLine(pre, x)
  {
    assert '\n' !in x;
  }

  /** The pattern matches at the tag of a line laid out as ffmpeg writes
      it, and captures the number. */
  lemma MatchOfLayout(pre: string, x: string)
    requires x != [] && forall k :: 0 <= k < |x| ==> IsVolumeChar(x[k])
    ensures var line := VolumeLine(pre, x);
      OccursAt(line, MeanVolumeTag, |pre|) && MatchAt(line, |pre|) == Some(x)
  {
    var line := VolumeLine(pre, x);
    var t := |pre|;
    var j := t + |MeanVolumeTag| + 1;
    var e := j + |x|;
    assert line[t..t + |MeanVolumeTag|] == MeanVolumeTag;
    assert line[j - 1] == ' ' && line[j] == x[0];
    assert SkipSpaces(line, j) == j;
    assert SkipSpaces(line, j - 1) == j;
    assert forall m :: j <= m < e ==> line[m] == x[m - j];
    assert line[e] == ' ' && line[e + 1] == 'd';
    VolumeRunSpan(line, j, e);
    assert SkipSpaces(line, e + 1) == e + 1;
    assert SkipSpaces(line, e) == e + 1;
    assert |line| == e + 3 && line[e + 2] == 'B';
    assert line[e + 1..e + 3] == "dB";
    assert line[j..e] == x;
  }

  /** A run of volume characters followed by another character ends there. */
  lemma {:induction false} VolumeRunSpan(s: string, j: nat, k: nat)
    requires j <= k < |s|
    requires forall m :: j <= m < k ==> IsVolumeChar(s[m])
    requires !IsVolumeChar(s[k])
    ensures VolumeRunEnd(s, j) == k
    decreases k - j
  {
    if j < k {
      VolumeRunSpan(s, j + 1, k);
    }
  }

  /** The search from 0 finds the match at `t` when no tag comes before it. */
  lemma MatchFromSkips(line: string, t: nat)
    requires OccursAt(line, MeanVolumeTag, t) && MatchAt(line, t).Some?
    requires forall p :: 0 <= p < t ==> !OccursAt(line, MeanVolumeTag, p)
    ensures MatchFrom(line, 0) == Some(t)
  {
    var i := t;
    while i > 0
      invariant 0 <= i <= t
      invariant MatchFrom(line, i) == Some(t)
    {
      assert !OccursAt(line, MeanVolumeTag, i - 1);
      assert i - 1 + |MeanVolumeTag| <= |line|;
      i := i - 1;
    }
  }

  // ---------------------------------------------------------------------
  // The verdict

  /** The `volume_db` property of the details: absent, null, or a number. */
  datatype VolumeField = Absent | Null | Value(db: JsNumber)

  datatype Details = Details(info: AudioInfo, volume: VolumeField, notes: Option<seq<string>>)

  /** The object `canUseForVoiceCloning` returns. */
  datatype Verdict = Verdict(canUse: bool, reason: string, details: Option<Details>)

  const Suitable := "適合用於聲音克隆"

  /** The quality notes of an accepted file: one for the sample rate, one
      for the duration, and one for a measured volume above -30 dB. */
  function QualityNotes(sampleRate: int, duration: real, volume: VolumeField): (r: seq<string>)
  {
    [if sampleRate >= 22050 then HighSampleRateNote else if sampleRate >= 16000 then MidSampleRateNote
     else LowSampleRateNote]
    + [if duration >= 10.0 then LongNote else if duration >= 5.0 then MidLengthNote else ShortNote]
    + (if volume.Value? && volume.db.Num? && volume.db.value > -20.0 then [LoudNote]
       else if volume.Value? && volume.db.Num? && volume.db.value > -30.0 then [MidVolumeNote]
       else [])
  }

  /** The pushes onto `qualityNotes`. */
  method BuildQualityNotes(sampleRate: int, duration: real, volume: VolumeField) returns (notes: seq<string>)
    ensures notes == QualityNotes(sampleRate, duration, volume)
  {
    notes := [];
    if sampleRate >= 22050 {
      notes := notes + [HighSampleRateNote];
    } else if sampleRate >= 16000 {
      notes := notes + [MidSampleRateNote];
    } else {
      notes := notes + [LowSampleRateNote];
    }
    if duration >= 10.0 {
      notes := notes + [LongNote];
    } else if duration >= 5.0 {
      notes := notes + [MidLengthNote];
    } else {
      notes := notes + [ShortNote];
    }
    if volume.Value? {
      var db := volume.db;
      if db.Num? && db.value > -20.0 {
        notes := notes + [LoudNote];
      } else if db.Num? && db.value > -30.0 {
        notes := notes + [MidVolumeNote];
      }
    }
  }

  /** The checks after the probe: duration, sample rate, channels, then the
      volume; a failed volume measurement leaves `volume_db` null. */
  function Judge(info: AudioInfo, volume: VolumeResult): (r: Verdict)
    ensures r.canUse <==> info.duration >= 3.0 && info.sampleRate >= 8000 && info.channels != 0 && !TooQuiet(volume)
    ensures r.details.Some? && r.details.value.info == info
    ensures r.canUse ==> r.reason == Suitable && r.details.value.notes.Some?
    ensures info.duration >= 3.0 && info.sampleRate >= 8000 && info.channels != 0 ==>
      r.details.value.volume == if volume.VolumeError? then Null else Value(volume.db)
  {
    if info.duration < 3.0 then
      Verdict(false, "音頻太短 (" + NumFmt.JsFixed1(info.duration) + "秒)，建議至少3秒",
              Some(Details(info, Absent, None)))
    else if info.sampleRate < 8000 then
      Verdict(false, "採樣率太低 (" + IntToString(info.sampleRate) + "Hz)，建議至少8kHz",
              Some(Details(info, Absent, None)))
    else if info.channels == 0 then
      Verdict(false, "音頻聲道信息異常", Some(Details(info, Absent, None)))
    else
      var field := if volume.VolumeError? then Null else Value(volume.db);
      if volume.VolumeDb? && volume.db.Num? && volume.db.value < -40.0 then
        Verdict(false, "音量太小 (" + NumFmt.JsFixed1(volume.db.value) + "dB)，可能是靜音",
                Some(Details(info, field, None)))
      else Verdict(true, Suitable, Some(Details(info, field, Some(QualityNotes(info.sampleRate, info.duration, field)))))
  }

  /** `canUseForVoiceCloning`: the file must exist and ffmpeg must run
      before the probe decides; a rejected probe is caught. */
  function CanUseForVoiceCloning(exists_: bool, hasFfmpeg: bool, probe: ProbeRun, volume: VolumeRun): (r: Verdict)
    ensures !exists_ ==> r == Verdict(false, "文件不存在", None)
    ensures exists_ && !hasFfmpeg ==> r == Verdict(false, "系統缺少 ffmpeg，無法檢測音頻", None)
    ensures exists_ && hasFfmpeg && ExtractAudioInfo(probe).Err? ==>
      r == Verdict(false, "檢測過程出錯: " + ExtractAudioInfo(probe).message, None)
    ensures exists_ && hasFfmpeg && ExtractAudioInfo(probe).Ok? && ExtractAudioInfo(probe).value.InfoError? ==>
      r == Verdict(false, ExtractAudioInfo(probe).value.error, None)
    ensures exists_ && hasFfmpeg && ExtractAudioInfo(probe).Ok? && ExtractAudioInfo(probe).value.Info? ==>
      r == Judge(ExtractAudioInfo(probe).value.info, VolumeOf(volume))
  {
    if !exists_ then Verdict(false, "文件不存在", None)
    else if !hasFfmpeg then Verdict(false, "系統缺少 ffmpeg，無法檢測音頻", None)
    else
      match ExtractAudioInfo(probe)
      case Err(m) => Verdict(false, "檢測過程出錯: " + m, None)
      case Ok(InfoError(e)) => Verdict(false, e, None)
      case Ok(Info(info)) => Judge(info, VolumeOf(volume))
  }

  /** A volume that measured below -40 dB, as a number. */
  predicate TooQuiet(v: VolumeResult) { v.VolumeDb? && v.db.Num? && v.db.value < -40.0 }

  /** The checks in their order: a file is accepted exactly when it exists,
      ffmpeg runs, the probe finds an audio stream of at least 3 s at
      8000 Hz or more with channels, and the volume is not a number below
      -40 dB. */
  lemma AcceptedExactly(exists_: bool, hasFfmpeg: bool, probe: ProbeRun, volume: VolumeRun)
    ensures var r := CanUseForVoiceCloning(exists_, hasFfmpeg, probe, volume);
      var e := ExtractAudioInfo(probe);
      r.canUse <==> (exists_ && hasFfmpeg && e.Ok? && e.value.Info?
        && e.value.info.duration >= 3.0 && e.value.info.sampleRate >= 8000 && e.value.info.channels != 0
        && !TooQuiet(VolumeOf(volume)))
    ensures !exists_ ==> CanUseForVoiceCloning(exists_, hasFfmpeg, probe, volume).reason == "文件不存在"
    ensures exists_ && !hasFfmpeg ==>
      CanUseForVoiceCloning(exists_, hasFfmpeg, probe, volume).reason == "系統缺少 ffmpeg，無法檢測音頻"
  {
    var e := ExtractAudioInfo(probe);
    if exists_ && hasFfmpeg && e.Ok? && e.value.Info? {
      var v := VolumeOf(volume);
      assert CanUseForVoiceCloning(exists_, hasFfmpeg, probe, volume) == Judge(e.value.info, v);
    }
  }

  /** A failed volume measurement never rejects: the verdict is the one a
      failed ffmpeg spawn gives, and acceptance rests on the probe alone. */
  lemma VolumeFailureNeverRejects(exists_: bool, hasFfmpeg: bool, probe: ProbeRun, volume: VolumeRun)
    requires VolumeOf(volume).VolumeError?
    ensures CanUseForVoiceCloning(exists_, hasFfmpeg, probe, volume)
      == CanUseForVoiceCloning(exists_, hasFfmpeg, probe, VolumeSpawnFailed)
    ensures var e := ExtractAudioInfo(probe);
      CanUseForVoiceCloning(exists_, hasFfmpeg, probe, volume).canUse
      <==> (exists_ && hasFfmpeg && e.Ok? && e.value.Info? && e.value.info.duration >= 3.0
        && e.value.info.sampleRate >= 8000 && e.value.info.channels != 0)
  {
    var e := ExtractAudioInfo(probe);
    if exists_ && hasFfmpeg && e.Ok? && e.value.Info? {
      var a := VolumeOf(volume);
      var b := VolumeOf(VolumeSpawnFailed);
      assert CanUseForVoiceCloning(exists_, hasFfmpeg, probe, volume) == Judge(e.value.info, a);
      assert CanUseForVoiceCloning(exists_, hasFfmpeg, probe, VolumeSpawnFailed) == Judge(e.value.info, b);
      JudgeIgnoresVolumeError(e.value.info, a, b);
    }
  }

  /** Judge reads only whether the measurement failed, not its message. */
  lemma JudgeIgnoresVolumeError(info: AudioInfo, a: VolumeResult, b: VolumeResult)
    requires a.VolumeError? && b.VolumeError?
    ensures Judge(info, a) == Judge(info, b)
    ensures Judge(info, a).canUse <==> info.duration >= 3.0 && info.sampleRate >= 8000 && info.channels != 0
  {
  }

  /** An accepted file carries exactly one sample-rate note and one duration
      note, then a volume note only for a measured volume above -30 dB. */
  lemma AcceptedNotes(info: AudioInfo, volume: VolumeResult)
    requires Judge(info, volume).canUse
    ensures var d := Judge(info, volume).details;
      d.Some? && d.value.notes.Some? && var notes := d.value.notes.value;
      2 <= |notes| <= 3
      && notes[0] in {HighSampleRateNote, MidSampleRateNote, LowSampleRateNote}
      && notes[1] in {LongNote, MidLengthNote, ShortNote}
      && (|notes| == 3 <==> volume.VolumeDb? && volume.db.Num? && volume.db.value > -30.0)
  {
  }

  /** What `quickAudioCheck` returns; absent properties are `None`. */
  datatype Quick = Quick(hasAudio: bool, canUse: Option<bool>, message: string,
                         duration: Option<real>, sampleRate: Option<int>)

  /** `quickAudioCheck`: only the probe, no volume. */
  function QuickAudioCheck(probe: ProbeRun): (r: Quick)
    ensures var e := ExtractAudioInfo(probe); r.hasAudio <==> e.Ok? && e.value.Info?
    ensures var e := ExtractAudioInfo(probe);
      r.canUse == Some(true) <==> e.Ok? && e.value.Info? && e.value.info.duration >= 3.0
    ensures r.canUse == Some(true) ==>
      r.duration == Some(ExtractAudioInfo(probe).value.info.duration)
      && r.sampleRate == Some(ExtractAudioInfo(probe).value.info.sampleRate)
    ensures !r.hasAudio ==> r.canUse.None?
  {
    match ExtractAudioInfo(probe)
    case Err(_) => Quick(false, None, "檢測失敗", None, None)
    case Ok(InfoError(_)) => Quick(false, None, "沒有音頻", None, None)
    case Ok(Info(info)) =>
      if info.duration < 3.0 then Quick(true, Some(false), "音頻太短", None, None)
      else Quick(true, Some(true), "檢測到可用音頻", Some(info.duration), Some(info.sampleRate))
  }

  /** The quick check reports audio exactly when the probe finds a stream,
      and usable audio exactly when that stream lasts 3 s; every file the
      full check accepts passes the quick one. */
  lemma QuickCheckAgrees(exists_: bool, hasFfmpeg: bool, probe: ProbeRun, volume: VolumeRun)
    ensures var q := QuickAudioCheck(probe); var e := ExtractAudioInfo(probe);
      (q.hasAudio <==> e.Ok? && e.value.Info?)
      && (q.canUse == Some(true) <==> e.Ok? && e.value.Info? && e.value.info.duration >= 3.0)
    ensures CanUseForVoiceCloning(exists_, hasFfmpeg, probe, volume).canUse
      ==> QuickAudioCheck(probe).canUse == Some(true)
  {
  }
}
