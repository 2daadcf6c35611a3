/** The command-line audio suitability check
    (V/tools/audio-testing/audio_checker.py): the same judgement as the
    web-vue server's checker, written in Python. The file test, the ffmpeg
    probe and the two process runs are parameters; the printing of `main`
    is not modelled. */
module AudioCheckerPy {
  import opened Wrappers
  import opened Strs
  import NumFmt
  import opened AudioProbe
  import Js = AudioCheckerJs

  /** How `subprocess.run` of ffprobe ended: a non-zero exit
      (`CalledProcessError`), another exception (ffprobe missing, say), or
      its standard output and the outcome of `json.loads` on it. */
  datatype PyProbeRun = ProbeFailed(error: string)
                      | ProbeRaised(error: string)
                      | ProbeOutput(stdout: string, json: Result<ProbeData>)

  /** The facts read from the first audio stream with `dict.get` defaults:
      a present but empty codec name stays empty. */
  function InfoOf(s: Stream, duration: Option<real>): (r: AudioInfo)
    ensures r.codec == GetOr(s.codecName, "unknown")
    ensures r.sampleRate == GetOr(s.sampleRate, 0) && r.channels == GetOr(s.channels, 0)
      && r.bitRate == GetOr(s.bitRate, 0) && r.duration == GetOr(duration, 0.0)
  {
    AudioInfo(GetOr(duration, 0.0), GetOr(s.codecName, "unknown"),
              GetOr(s.sampleRate, 0), GetOr(s.channels, 0), GetOr(s.bitRate, 0))
  }

  /** `extract_audio_info` as a value: the `(info, error)` pair is `Ok` or
      `Err`. */
  function ProbeOutcome(run: PyProbeRun): (r: Result<AudioInfo>)
    ensures r.Ok? <==> (run.ProbeOutput? && !IsBlank(run.stdout) && run.json.Ok?
      && AudioStreams(GetOr(run.json.value.streams, [])) != [])
    ensures r.Ok? ==>
      r.value == InfoOf(AudioStreams(GetOr(run.json.value.streams, []))[0], run.json.value.duration)
  {
    match run
    case ProbeFailed(e) => Err("ffprobe 錯誤: " + e)
    case ProbeRaised(e) => Err("未知錯誤: " + e)
    case ProbeOutput(stdout, json) =>
      if IsBlank(stdout) then Err("ffprobe 沒有返回數據")
      else if json.Err? then Err("解析音頻信息失敗")
      else
        var streams := AudioStreams(GetOr(json.value.streams, []));
        if streams == [] then Err("沒有找到音頻流")
        else Ok(InfoOf(streams[0], json.value.duration))
  }

  /** The audio streams of a list end with its last element when that one
      is audio. */
  lemma {:induction false} AudioStreamsSnoc(s: seq<Stream>, x: Stream)
    ensures AudioStreams(s + [x]) == AudioStreams(s) + (if IsAudio(x) then [x] else [])
    decreases |s|
  {
    if s == [] {
      assert [] + [x] == [x];
    } else {
      assert (s + [x])[0] == s[0];
      assert (s + [x])[1..] == s[1..] + [x];
      AudioStreamsSnoc(s[1..], x);
    }
  }

  /** The loop that collects `audio_streams`. */
  method CollectAudioStreams(streams: seq<Stream>) returns (audio: seq<Stream>)
    ensures audio == AudioStreams(streams)
  {
    audio := [];
    for i := 0 to |streams|
      invariant audio == AudioStreams(streams[..i])
    {
      assert streams[..i + 1] == streams[..i] + [streams[i]];
      AudioStreamsSnoc(streams[..i], streams[i]);
      if IsAudio(streams[i]) {
        audio := audio + [streams[i]];
      }
    }
    assert streams[..|streams|] == streams;
  }

  /** `extract_audio_info`. */
  method ExtractAudioInfo(run: PyProbeRun) returns (r: Result<AudioInfo>)
    ensures r == ProbeOutcome(run)
  {
    match run
    case ProbeFailed(e) => r := Err("ffprobe 錯誤: " + e);
    case ProbeRaised(e) => r := Err("未知錯誤: " + e);
    case ProbeOutput(stdout, json) =>
      if IsBlank(stdout) {
        return Err("ffprobe 沒有返回數據");
      }
      if json.Err? {
        return Err("解析音頻信息失敗");
      }
      var audio := CollectAudioStreams(GetOr(json.value.streams, []));
      if audio == [] {
        return Err("沒有找到音頻流");
      }
      r := Ok(InfoOf(audio[0], json.value.duration));
  }

  // ---------------------------------------------------------------------
  // The volume measurement: `line.split('mean_volume:')[1].split('dB')[0]`

  /** The volume one line of ffmpeg's log gives: the text after the first
      tag, up to the next tag and then to the first "dB", stripped and
      read with `float`; `None` when the line has no tag or `float` raises. */
  function LineVolume(line: string): (r: Option<real>)
  {
    if Contains(line, MeanVolumeTag) then
      NumFmt.PyFloat(Trim(Before(Between(line, MeanVolumeTag), "dB")))
    else None
  }

  /** The volume each line of a log gives. */
  function LineVolumes(lines: seq<string>): (vs: seq<Option<real>>)
    ensures |vs| == |lines|
    ensures forall k :: 0 <= k < |lines| ==> vs[k] == LineVolume(lines[k])
  {
    seq(|lines|, k requires 0 <= k < |lines| => LineVolume(lines[k]))
  }

  /** The first volume from `i` on. */
  function FirstVolume(vs: seq<Option<real>>, i: nat): (r: Option<real>)
    requires i <= |vs|
    ensures r.None? <==> forall k :: i <= k < |vs| ==> vs[k].None?
    ensures r.Some? ==> r in vs[i..]
    decreases |vs| - i
  {
    if i == |vs| then None
    else if vs[i].Some? then vs[i]
    else FirstVolume(vs, i + 1)
  }

  /** `check_audio_volume` as a value: the ffmpeg run yields its standard
      error, or raises. */
  function VolumeOf(run: Result<string>): (r: Result<real>)
  {
    match run
    case Err(e) => Err("音量檢測錯誤: " + e)
    case Ok(stderr) =>
      match FirstVolume(LineVolumes(Split(stderr, '\n')), 0)
      case Some(v) => Ok(v)
      case None => Err("無法檢測音量")
  }

  /** `check_audio_volume`: the lines are tried in order, a line whose
      number does not parse is skipped. */
  method CheckAudioVolume(run: Result<string>) returns (r: Result<real>)
    ensures r == VolumeOf(run)
  {
    if run.Err? {
      return Err("音量檢測錯誤: " + run.message);
    }
    var lines := Split(run.value, '\n');
    ghost var vs := LineVolumes(lines);
    var i := 0;
    while i < |lines|
      invariant 0 <= i <= |lines|
      invariant FirstVolume(vs, i) == FirstVolume(vs, 0)
    {
      var line := lines[i];
      if Contains(line, MeanVolumeTag) {
        var v := NumFmt.PyFloat(Trim(Before(Between(line, MeanVolumeTag), "dB")));
        if v.Some? {
          assert vs[i] == v;
          return Ok(v.value);
        }
      }
      assert vs[i].None?;
      i := i + 1;
    }
    r := Err("無法檢測音量");
  }

  /** The line ffmpeg writes, `mean_volume: <x> dB` with `x` printed to one
      decimal (`n` tenths after an optional '-'), gives back that volume. */
  lemma ReadsLoggedVolume(pre: string, sign: string, n: nat)
    requires sign == "" || sign == "-"
    requires '\n' !in pre && !Contains(pre, MeanVolumeTag)
    ensures VolumeOf(Ok(VolumeLine(pre, NumFmt.RenderTenths(sign, n))))
      == Ok(if sign == "-" then -(n as real / 10.0) else n as real / 10.0)
  {
    var x := NumFmt.RenderTenths(sign, n);
    NumFmt.RenderTenthsChars(sign, n);
    assert forall k :: 0 <= k < |x| ==> IsVolumeChar(x[k]);
    NumFmt.RenderTenthsParses(sign, n);
    LayoutVolume(pre, x);
    NoLineBreak(pre, x);
    OneLineLog(VolumeLine(pre, x));
  }

  /** The number of such a line, cut out by the two splits and stripped. */
  lemma LayoutVolume(pre: string, x: string)
    requires !Contains(pre, MeanVolumeTag)
    requires x != [] && forall k :: 0 <= k < |x| ==> IsVolumeChar(x[k])
    ensures LineVolume(VolumeLine(pre, x)) == NumFmt.PyFloat(x)
  {
    AfterFirstTag(pre, x);
    NumberText(x);
  }

  /** The first split leaves the text after the tag. */
  lemma AfterFirstTag(pre: string, x: string)
    requires !Contains(pre, MeanVolumeTag)
    requires forall k :: 0 <= k < |x| ==> IsVolumeChar(x[k])
    ensures Contains(VolumeLine(pre, x), MeanVolumeTag)
    ensures Between(VolumeLine(pre, x), MeanVolumeTag) == " " + x + " dB"
  {
    var line := VolumeLine(pre, x);
    FirstTag(pre, x);
    var after := line[|pre| + |MeanVolumeTag|..];
    assert after == " " + x + " dB";
    NoTagAfter(x);
  }

  /** The second split and the strip leave the number. */
  lemma NumberText(x: string)
    requires x != [] && forall k :: 0 <= k < |x| ==> IsVolumeChar(x[k])
    ensures Trim(Before(" " + x + " dB", "dB")) == x
  {
    var after := " " + x + " dB";
    UnitAtEnd(x);
    assert after[..|x| + 2] == " " + x + " ";
    TrimPadded(x);
  }

  /** The text after the tag holds no second tag: it has no 'm'. */
  lemma NoTagAfter(x: string)
    requires forall k :: 0 <= k < |x| ==> IsVolumeChar(x[k])
    ensures !Contains(" " + x + " dB", MeanVolumeTag)
  {
    assert 'm' !in x by {
      forall k | 0 <= k < |x|
        ensures x[k] != 'm'
      {
        assert IsVolumeChar(x[k]);
      }
    }
    HeadAbsent(" " + x + " dB", MeanVolumeTag);
  }

  /** The first "dB" after the number is the unit. */
  lemma UnitAtEnd(x: string)
    requires forall k :: 0 <= k < |x| ==> IsVolumeChar(x[k])
    ensures IndexOf(" " + x + " dB", "dB") == |x| + 2
  {
    NoUnitBefore(x);
    UnitOccurs(x);
    IndexOfFirst(" " + x + " dB", "dB", |x| + 2);
  }

  lemma UnitOccurs(x: string)
    ensures OccursAt(" " + x + " dB", "dB", |x| + 2)
  {
    var after := " " + x + " dB";
    assert after[|x| + 2..|x| + 4] == "dB";
  }

  /** No "dB" starts before the unit: only the unit has a 'd'. */
  lemma NoUnitBefore(x: string)
    requires forall k :: 0 <= k < |x| ==> IsVolumeChar(x[k])
    ensures forall p :: 0 <= p < |x| + 2 ==> !OccursAt(" " + x + " dB", "dB", p)
  {
    var after := " " + x + " dB";
    forall p | 0 <= p < |x| + 2
      ensures !OccursAt(after, "dB", p)
    {
      OccursAtHead(after, "dB", p);
      if 1 <= p < |x| + 1 {
        assert after[p] == x[p - 1];
      }
    }
  }

  /** Such a line holds no line break. */
  lemma NoLineBreak(pre: string, x: string)
    requires '\n' !in pre
    requires forall k :: 0 <= k < |x| ==> IsVolumeChar(x[k])
    ensures '\n' !in VolumeLine(pre, x)
  {
    assert '\n' !in x;
  }

  /** A log of one line is judged by that line. */
  lemma OneLineLog(line: string)
    requires '\n' !in line && LineVolume(line).Some?
    ensures VolumeOf(Ok(line)) == Ok(LineVolume(line).value)
  {
    assert Split(line, '\n') == [line];
    assert LineVolumes([line])[0] == LineVolume(line);
  }

  // ---------------------------------------------------------------------
  // The verdict

  /** The dictionary returned with `True`. */
  datatype PyDetails = PyDetails(message: string, duration: real, sampleRate: int, channels: int,
                                 volumeDb: Option<real>, qualityNotes: seq<string>)

  /** The `(False, reason)` and `(True, details)` results. */
  datatype PyVerdict = Rejected(reason: string) | Accepted(details: PyDetails)

  /** The quality notes of an accepted file. */
  function QualityNotes(sampleRate: int, duration: real, volumeDb: Option<real>): (r: seq<string>)
  {
    [if sampleRate >= 22050 then HighSampleRateNote else if sampleRate >= 16000 then MidSampleRateNote
     else LowSampleRateNote]
    + [if duration >= 10.0 then LongNote else if duration >= 5.0 then MidLengthNote else ShortNote]
    + (if volumeDb.Some? && volumeDb.value > -20.0 then [LoudNote]
       else if volumeDb.Some? && volumeDb.value > -30.0 then [MidVolumeNote]
       else [])
  }

  /** The appends to `quality_info`. */
  method BuildQualityNotes(sampleRate: int, duration: real, volumeDb: Option<real>) returns (notes: seq<string>)
    ensures notes == QualityNotes(sampleRate, duration, volumeDb)
  {
    notes := [];
    if sampleRate >= 22050 {
      notes := notes + [HighSampleRateNote];
    } else if sampleRate >= 16000 {
      notes := notes + [MidSampleRateNote];
    } else {
      notes := notes + [LowSampleRateNote];
    }
    if duration >= 10.0 {
      notes := notes + [LongNote];
    } else if duration >= 5.0 {
      notes := notes + [MidLengthNote];
    } else {
      notes := notes + [ShortNote];
    }
    if volumeDb.Some? && volumeDb.value > -20.0 {
      notes := notes + [LoudNote];
    } else if volumeDb.Some? && volumeDb.value > -30.0 {
      notes := notes + [MidVolumeNote];
    }
  }

  /** The checks after the probe; a failed volume measurement leaves
      `volume_db` as `None`. */
  function Judge(info: AudioInfo, volume: Result<real>): (r: PyVerdict)
    ensures r.Accepted? <==>
      info.duration >= 3.0 && info.sampleRate >= 8000 && info.channels != 0 && !(volume.Ok? && volume.value < -40.0)
    ensures r.Accepted? ==>
      var db := if volume.Ok? then Some(volume.value) else None;
      r.details.volumeDb == db && r.details.qualityNotes == QualityNotes(info.sampleRate, info.duration, db)
      && r.details.duration == info.duration && r.details.sampleRate == info.sampleRate
      && r.details.channels == info.channels
  {
    if info.duration < 3.0 then
      Rejected("音頻太短 (" + NumFmt.Fixed1(info.duration, false) + "秒)，建議至少3秒")
    else if info.sampleRate < 8000 then
      Rejected("採樣率太低 (" + IntToString(info.sampleRate) + "Hz)，建議至少8kHz")
    else if info.channels == 0 then
      Rejected("音頻聲道信息異常")
    else if volume.Ok? && volume.value < -40.0 then
      Rejected("音量太小 (" + NumFmt.Fixed1(volume.value, false) + "dB)，可能是靜音")
    else
      var db := if volume.Ok? then Some(volume.value) else None;
      Accepted(PyDetails(Js.Suitable, info.duration, info.sampleRate, info.channels, db,
                         QualityNotes(info.sampleRate, info.duration, db)))
  }

  /** `can_use_for_voice_cloning`. */
  function CanUseForVoiceCloning(exists_: bool, hasFfmpeg: bool, probe: PyProbeRun, volume: Result<string>): (r: PyVerdict)
    ensures !exists_ ==> r == Rejected("文件不存在")
    ensures exists_ && !hasFfmpeg ==> r == Rejected("系統缺少 ffmpeg，無法檢測音頻")
    ensures exists_ && hasFfmpeg && ProbeOutcome(probe).Err? ==> r == Rejected(ProbeOutcome(probe).message)
    ensures exists_ && hasFfmpeg && ProbeOutcome(probe).Ok? ==> r == Judge(ProbeOutcome(probe).value, VolumeOf(volume))
  {
    if !exists_ then Rejected("文件不存在")
    else if !hasFfmpeg then Rejected("系統缺少 ffmpeg，無法檢測音頻")
    else
      match ProbeOutcome(probe)
      case Err(e) => Rejected(e)
      case Ok(info) => Judge(info, VolumeOf(volume))
  }

  /** A file is accepted exactly when it exists, ffmpeg runs, the probe
      finds an audio stream of at least 3 s at 8000 Hz or more with
      channels, and the volume is not measured below -40 dB. */
  lemma AcceptedExactly(exists_: bool, hasFfmpeg: bool, probe: PyProbeRun, volume: Result<string>)
    ensures var e := ProbeOutcome(probe); var v := VolumeOf(volume);
      CanUseForVoiceCloning(exists_, hasFfmpeg, probe, volume).Accepted?
      <==> (exists_ && hasFfmpeg && e.Ok? && e.value.duration >= 3.0 && e.value.sampleRate >= 8000
        && e.value.channels != 0 && !(v.Ok? && v.value < -40.0))
  {
    var e := ProbeOutcome(probe);
    if exists_ && hasFfmpeg && e.Ok? {
      assert CanUseForVoiceCloning(exists_, hasFfmpeg, probe, volume) == Judge(e.value, VolumeOf(volume));
    }
  }

  // ---------------------------------------------------------------------
  // Agreement with the web-vue server's checker

  /** The JavaScript view of a Python volume measurement. */
  function ToJsVolume(v: Result<real>): (r: Js.VolumeResult)
    ensures r.VolumeError? <==> v.Err?
  {
    match v
    case Ok(x) => Js.VolumeDb(Js.Num(x))
    case Err(e) => Js.VolumeError(e)
  }

  /** The JavaScript `volume_db` field for Python's `volume_db`. */
  function ToJsField(db: Option<real>): (r: Js.VolumeField)
    ensures r != Js.Absent
  {
    match db
    case Some(x) => Js.Value(Js.Num(x))
    case None => Js.Null
  }

  /** Both checkers give an accepted file the same quality notes. */
  lemma NotesAgree(sampleRate: int, duration: real, db: Option<real>)
    ensures QualityNotes(sampleRate, duration, db) == Js.QualityNotes(sampleRate, duration, ToJsField(db))
  {
  }

  /** On the same audio facts and volume the two judgements accept the same
      files, with the same notes; rejections for the sample rate or the
      channels carry the same reason. */
  lemma JudgesAgree(info: AudioInfo, v: Result<real>)
    ensures Judge(info, v).Accepted? <==> Js.Judge(info, ToJsVolume(v)).canUse
    ensures Judge(info, v).Accepted? ==>
      Js.Judge(info, ToJsVolume(v)).details.Some?
      && Js.Judge(info, ToJsVolume(v)).details.value.notes == Some(Judge(info, v).details.qualityNotes)
    ensures info.duration >= 3.0 && (info.sampleRate < 8000 || info.channels == 0) ==>
      Judge(info, v).Rejected? && Judge(info, v).reason == Js.Judge(info, ToJsVolume(v)).reason
  {
    if info.duration >= 3.0 && info.sampleRate >= 8000 && info.channels != 0 && !(v.Ok? && v.value < -40.0) {
      var db := if v.Ok? then Some(v.value) else None;
      assert ToJsField(db) == (if ToJsVolume(v).VolumeError? then Js.Null else Js.Value(ToJsVolume(v).db));
      NotesAgree(info.sampleRate, info.duration, db);
    }
  }

  /** The two probes read the same facts from the same ffprobe output,
      except that Python keeps an empty codec name where JavaScript's `||`
      substitutes "unknown"; a missing audio stream is the same message. */
  lemma ProbesAgree(stdout: string, json: Result<ProbeData>)
    ensures var py := ProbeOutcome(ProbeOutput(stdout, json));
      var js := Js.ExtractAudioInfo(Js.ProbeExited(0, stdout, json));
      (py.Ok? <==> js.Ok? && js.value.Info?)
      && (js.Ok? && js.value.InfoError? <==> py == Err(Js.NoAudioStream))
    ensures var py := ProbeOutcome(ProbeOutput(stdout, json));
      var js := Js.ExtractAudioInfo(Js.ProbeExited(0, stdout, json));
      py.Ok? ==>
        py.value.(codec := "") == js.value.info.(codec := "")
        && (py.value.codec == js.value.info.codec
            <==> AudioStreams(GetOr(json.value.streams, []))[0].codecName != Some(""))
  {
  }

  /** On the same ffprobe output and the same logged mean volume, the two
      checkers accept the same files. */
  lemma CheckersAgree(exists_: bool, hasFfmpeg: bool, stdout: string, json: Result<ProbeData>,
                      pre: string, sign: string, n: nat)
    requires sign == "" || sign == "-"
    requires '\n' !in pre && !Contains(pre, MeanVolumeTag)
    ensures var log := VolumeLine(pre, NumFmt.RenderTenths(sign, n));
      CanUseForVoiceCloning(exists_, hasFfmpeg, ProbeOutput(stdout, json), Ok(log)).Accepted?
      <==> Js.CanUseForVoiceCloning(exists_, hasFfmpeg, Js.ProbeExited(0, stdout, json), Js.VolumeLog(log)).canUse
  {
    var log := VolumeLine(pre, NumFmt.RenderTenths(sign, n));
    LoggedVolumesAgree(pre, sign, n);
    var v := VolumeOf(Ok(log));
    ProbesAgree(stdout, json);
    var py := ProbeOutcome(ProbeOutput(stdout, json));
    var js := Js.ExtractAudioInfo(Js.ProbeExited(0, stdout, json));
    if exists_ && hasFfmpeg && py.Ok? {
      JudgesAgree(py.value, v);
      JudgeIgnoresCodec(py.value, js.value.info, ToJsVolume(v));
      assert CanUseForVoiceCloning(exists_, hasFfmpeg, ProbeOutput(stdout, json), Ok(log)) == Judge(py.value, v);
      assert Js.CanUseForVoiceCloning(exists_, hasFfmpeg, Js.ProbeExited(0, stdout, json), Js.VolumeLog(log))
        == Js.Judge(js.value.info, ToJsVolume(v));
    }
  }

  /** Both checkers read the same volume from the line ffmpeg writes. */
  lemma LoggedVolumesAgree(pre: string, sign: string, n: nat)
    requires sign == "" || sign == "-"
    requires '\n' !in pre && !Contains(pre, MeanVolumeTag)
    ensures var log := VolumeLine(pre, NumFmt.RenderTenths(sign, n));
      Js.VolumeOf(Js.VolumeLog(log)) == ToJsVolume(VolumeOf(Ok(log)))
  {
    ReadsLoggedVolume(pre, sign, n);
    Js.ReadsLoggedVolume(pre, sign, n);
  }

  /** The JavaScript judgement does not read the codec. */
  lemma JudgeIgnoresCodec(a: AudioInfo, b: AudioInfo, v: Js.VolumeResult)
    requires a.(codec := "") == b.(codec := "")
    ensures Js.Judge(a, v).canUse == Js.Judge(b, v).canUse
  {
    assert a.duration == b.duration && a.sampleRate == b.sampleRate && a.channels == b.channels;
  }
}
