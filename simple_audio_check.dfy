/** The ffmpeg-free audio heuristics of the backup server
    (V/tools/backup/simple_audio_check.js): whether an uploaded file may carry
    an audio track, judged from its extension, its size and the codec tags in
    its first kilobyte, and a rough bit-rate class from its size. The file
    system is the parameter `probe`. */
module SimpleAudioCheck {
  import opened Wrappers
  import Strs

  /** What the file system says about one path: whether it exists, its size
      (or the error `statSync` raises) and its leading bytes (or the error
      opening or reading it raises). */
  datatype FileProbe = FileProbe(present: bool, stat: Result<nat>, head: Result<seq<byte>>)

  /** The object `simpleAudioCheck` returns; absent properties are `None`. */
  datatype AudioCheck = AudioCheck(hasAudio: bool, confidence: Option<string>, reason: string, sizeHint: Option<string>)

  const VideoFormats := [".mp4", ".avi", ".mov", ".mkv", ".wmv", ".flv", ".webm"]
  const AudioFormats := [".mp3", ".wav", ".aac", ".ogg", ".m4a", ".flac"]
  /** Codec tags looked for in the file header. */
  const AudioSignatures := ["aac", "mp3", "mp4a", "sowt", "alaw", "ulaw"]
  const HeaderSize := 1024
  const KiB := 1024
  const MiB := 1024 * 1024

  /** `buffer.toString('binary')`: one character per byte. */
  function Latin1(bs: seq<byte>): (s: string)
    ensures |s| == |bs|
    ensures forall i :: 0 <= i < |bs| ==> s[i] as int == bs[i] as int
  {
    seq(|bs|, i requires 0 <= i < |bs| => bs[i] as int as char)
  }

  /** The 1024-byte buffer the header is read into, as text: the bytes read,
      then the zero bytes `Buffer.alloc` left. */
  function HeaderText(head: seq<byte>): (s: string)
    ensures |s| == HeaderSize
  {
    var n := if |head| < HeaderSize then |head| else HeaderSize;
    Latin1(head[..n]) + seq(HeaderSize - n, _ => 0 as char)
  }

  /** Number of the signatures that occur in `content`. */
  function HintCount(content: string, sigs: seq<string>): (n: nat)
    ensures n <= |sigs|
  {
    if sigs == [] then 0
    else HintCount(content, sigs[..|sigs| - 1]) + if Strs.Contains(content, sigs[|sigs| - 1]) then 1 else 0
  }

  /** The `forEach` over the signatures, counting those present. */
  method CountAudioHints(content: string) returns (hints: nat)
    ensures hints == HintCount(content, AudioSignatures)
    ensures hints <= |AudioSignatures|
  {
    hints := 0;
    var i := 0;
    while i < |AudioSignatures|
      invariant 0 <= i <= |AudioSignatures|
      invariant hints == HintCount(content, AudioSignatures[..i])
    {
      assert AudioSignatures[..i + 1][..i] == AudioSignatures[..i];
      if Strs.Contains(content, AudioSignatures[i]) {
        hints := hints + 1;
      }
      i := i + 1;
    }
    assert AudioSignatures[..i] == AudioSignatures;
  }

  /** The size class of a video file. */
  function SizeHint(size: nat): (h: string)
    ensures h == "too_small" <==> size < 100 * KiB
    ensures h == "small" <==> 100 * KiB <= size < MiB
    ensures h == "medium" <==> MiB <= size < 10 * MiB
    ensures h == "large" <==> 10 * MiB <= size
  {
    if size < 100 * KiB then "too_small"
    else if size < MiB then "small"
    else if size < 10 * MiB then "medium"
    else "large"
  }

  /** The verdict on a video file from its hint count and size. */
  function VideoVerdict(hints: nat, size: nat): (r: AudioCheck)
    ensures r.hasAudio <==> hints > 0 || size >= 100 * KiB
    ensures r.hasAudio ==> r.sizeHint == Some(SizeHint(size))
    ensures r.confidence.Some?
  {
    var hint := SizeHint(size);
    if hints > 0 then
      AudioCheck(true, Some(if hints > 1 then "high" else "medium"),
                 "檢測到 " + Strs.NatToString(hints) + " 個音頻特徵標識", Some(hint))
    else if hint == "too_small" then
      AudioCheck(false, Some("high"), "文件太小，不太可能包含有意義的音頻", None)
    else if hint == "large" then
      AudioCheck(true, Some("medium"), "大文件通常包含音頻軌道", Some(hint))
    else
      AudioCheck(true, Some("low"), "無法確定，但假設包含音頻", Some(hint))
  }

  /** What `simpleAudioCheck` answers for `path`, given the hints its loop
      counts; any exception becomes `hasAudio` false with its message. */
  function Verdict(path: string, probe: FileProbe, hints: nat): (r: AudioCheck)
    ensures r.hasAudio ==> probe.present && probe.stat.Ok?
    ensures r.hasAudio ==>
      (Ext(path) in AudioFormats && probe.stat.value >= KiB)
      || (Ext(path) in VideoFormats && Ext(path) !in AudioFormats && probe.head.Ok? && probe.head.value != [])
    ensures !probe.present ==> r == AudioCheck(false, None, "文件不存在", None)
  {
    if !probe.present then AudioCheck(false, None, "文件不存在", None)
    else if probe.stat.Err? then AudioCheck(false, None, "檢測失敗: " + probe.stat.message, None)
    else
      var size := probe.stat.value;
      var ext := Ext(path);
      if ext in AudioFormats then
        if size < KiB then AudioCheck(false, None, "音頻文件太小，可能是空文件", None)
        else AudioCheck(true, Some("high"), "檢測到音頻文件格式", None)
      else if ext !in VideoFormats then AudioCheck(false, None, "不支持的文件格式", None)
      else if probe.head.Err? then AudioCheck(false, None, "檢測失敗: " + probe.head.message, None)
      else if probe.head.value == [] then AudioCheck(false, None, "無法讀取文件內容", None)
      else VideoVerdict(hints, size)
  }

  /** `simpleAudioCheck`. */
  method Check(path: string, probe: FileProbe) returns (r: AudioCheck)
    ensures r == Verdict(path, probe, if probe.head.Ok? then HintCount(HeaderText(probe.head.value), AudioSignatures) else 0)
  {
    if !probe.present {
      return AudioCheck(false, None, "文件不存在", None);
    }
    if probe.stat.Err? {
      return AudioCheck(false, None, "檢測失敗: " + probe.stat.message, None);
    }
    var size := probe.stat.value;
    var ext := Ext(path);
    if ext in AudioFormats {
      if size < KiB {
        return AudioCheck(false, None, "音頻文件太小，可能是空文件", None);
      }
      return AudioCheck(true, Some("high"), "檢測到音頻文件格式", None);
    }
    if ext !in VideoFormats {
      return AudioCheck(false, None, "不支持的文件格式", None);
    }
    if probe.head.Err? {
      return AudioCheck(false, None, "檢測失敗: " + probe.head.message, None);
    }
    if probe.head.value == [] {
      return AudioCheck(false, None, "無法讀取文件內容", None);
    }
    var hints := CountAudioHints(HeaderText(probe.head.value));
    r := VideoVerdict(hints, size);
  }

  /** The extension `simpleAudioCheck` goes by, lower-cased. */
  function Ext(path: string): string
  {
    Strs.ToLower(Strs.Extname(path))
  }

  /** The decision chain in the terms of its design: a missing file, a tiny
      audio file, an unknown extension and an unreadable header have no
      audio; an audio file of at least 1 KiB has it with high confidence. */
  lemma VerdictByFileKind(path: string, probe: FileProbe, hints: nat)
    ensures !probe.present ==> !Verdict(path, probe, hints).hasAudio
    ensures probe.present && probe.stat.Ok? && Ext(path) in AudioFormats ==>
      (Verdict(path, probe, hints).hasAudio <==> probe.stat.value >= KiB)
      && (probe.stat.value >= KiB ==> Verdict(path, probe, hints).confidence == Some("high"))
    ensures (probe.present && probe.stat.Ok? && Ext(path) !in AudioFormats && Ext(path) !in VideoFormats)
      ==> !Verdict(path, probe, hints).hasAudio
    ensures (probe.head.Ok? && probe.head.value == [] && Ext(path) !in AudioFormats)
      ==> !Verdict(path, probe, hints).hasAudio
  {
    var r := Verdict(path, probe, hints);
    if probe.present && probe.stat.Ok? && Ext(path) !in AudioFormats && Ext(path) in VideoFormats
      && probe.head.Ok? && probe.head.value != [] {
      assert r == VideoVerdict(hints, probe.stat.value);
    }
  }

  /** For a readable video file: with hints it has audio, with confidence
      "high" for two or more and "medium" for one; without hints, under
      100 KiB it has none, from 10 MiB it has audio with "medium", and in
      between with "low". */
  lemma VideoVerdictByHints(hints: nat, size: nat)
    ensures hints > 0 ==> (VideoVerdict(hints, size).hasAudio
      && VideoVerdict(hints, size).confidence == Some(if hints >= 2 then "high" else "medium"))
    ensures hints == 0 ==>
      (VideoVerdict(hints, size).hasAudio <==> size >= 100 * KiB)
      && (size >= 10 * MiB ==> VideoVerdict(hints, size).confidence == Some("medium"))
      && (100 * KiB <= size < 10 * MiB ==> VideoVerdict(hints, size).confidence == Some("low"))
  {
  }

  /** A "low" confidence never comes with the "too_small" size class: the
      only verdict with "low" is the fallback for files of at least 100 KiB. */
  lemma LowConfidenceIsNeverTooSmall(path: string, probe: FileProbe, hints: nat)
    ensures var r := Verdict(path, probe, hints);
      r.confidence == Some("low") ==> r.hasAudio && r.sizeHint.Some? && r.sizeHint.value != "too_small"
  {
    var r := Verdict(path, probe, hints);
    if probe.present && probe.stat.Ok? && Ext(path) !in AudioFormats && Ext(path) in VideoFormats
      && probe.head.Ok? && probe.head.value != [] {
      assert r == VideoVerdict(hints, probe.stat.value);
      var hint := SizeHint(probe.stat.value);
      if hints > 0 {
        assert r.confidence != Some("low");
      } else if hint == "too_small" {
        assert r.confidence == Some("high");
      }
    }
  }

  /** The quality estimate of `estimateAudioQuality`, or the `statSync`
      error. */
  datatype QualityEstimate = Estimate(estimatedBitrate: int, quality: string, fileSize: nat, estimatedDuration: nat)
                           | QualityError(error: string)

  /** The duration the only caller leaves at its default. */
  const EstimatedDuration := 10

  /** `Math.round`: the nearest integer, halves rounded up. */
  function Round(x: real): (n: int)
    ensures n as real - 0.5 <= x < n as real + 0.5
  {
    (x + 0.5).Floor
  }

  /** `estimateAudioQuality(filePath)`: audio assumed to be a tenth of the
      file, spread over ten seconds. */
  function EstimateAudioQuality(stat: Result<nat>): (r: QualityEstimate)
    ensures r.QualityError? <==> stat.Err?
    ensures stat.Err? ==> r.error == stat.message
    ensures r.Estimate? ==>
      r.fileSize == stat.value && r.estimatedDuration == EstimatedDuration
      && r.quality in {"low", "medium", "high"} && r.estimatedBitrate >= 0
  {
    if stat.Err? then QualityError(stat.message)
    else
      var size := stat.value;
      var kbps := (size as real) * 0.1 * 8.0 / (EstimatedDuration as real) / 1000.0;
      var quality := if kbps < 32.0 then "low" else if kbps < 128.0 then "medium" else "high";
      Estimate(Round(kbps), quality, size, EstimatedDuration)
  }

  /** The quality classes in bytes: below 400 000 bytes is "low", below
      1 600 000 "medium", and the bit rate is the size over 12 500, rounded. */
  lemma QualityBySize(size: nat)
    ensures var r := EstimateAudioQuality(Ok(size));
      r.Estimate?
      && (r.quality == "low" <==> size < 400000)
      && (r.quality == "medium" <==> 400000 <= size < 1600000)
      && (r.quality == "high" <==> 1600000 <= size)
      && r.estimatedBitrate == Round(size as real / 12500.0)
      && r.fileSize == size
  {
    var kbps := (size as real) * 0.1 * 8.0 / (EstimatedDuration as real) / 1000.0;
    assert kbps == size as real / 12500.0;
  }
}
