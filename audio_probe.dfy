/** What the two audio-suitability checkers (V/web-vue/audio_checker.js and
    V/tools/audio-testing/audio_checker.py) read from ffprobe's JSON: the
    streams with the fields they look at, and the container duration. The
    process runs themselves are oracles of each checker. */
module AudioProbe {
  import opened Wrappers
  import opened Strs

  /** One entry of `streams`; an absent field is `None`. Numeric fields
      carry the number ffprobe prints. */
  datatype Stream = Stream(codecType: Option<string>, codecName: Option<string>,
                           sampleRate: Option<int>, channels: Option<int>, bitRate: Option<int>)

  /** The parsed document: `streams` (absent or not a list: `None`) and
      `format.duration`. */
  datatype ProbeData = ProbeData(streams: Option<seq<Stream>>, duration: Option<real>)

  /** The audio facts both checkers build from the first audio stream. */
  datatype AudioInfo = AudioInfo(duration: real, codec: string, sampleRate: int, channels: int, bitRate: int)

  predicate IsAudio(s: Stream) { s.codecType == Some("audio") }

  /** The audio streams, in order. */
  function AudioStreams(streams: seq<Stream>): (r: seq<Stream>)
    ensures |r| <= |streams|
    ensures forall s :: s in r <==> s in streams && IsAudio(s)
    ensures r == [] <==> forall i :: 0 <= i < |streams| ==> !IsAudio(streams[i])
    ensures r != [] ==> exists i :: (0 <= i < |streams| && r[0] == streams[i]
      && IsAudio(streams[i]) && forall j :: 0 <= j < i ==> !IsAudio(streams[j]))
  {
    if streams == [] then []
    else
      var rest := AudioStreams(streams[1..]);
      assert forall i :: 1 <= i < |streams| ==> streams[i] == streams[1..][i - 1];
      if IsAudio(streams[0]) then [streams[0]] + rest else rest
  }

  /** The quality notes both checkers give an accepted file. */
  const HighSampleRateNote := "✅ 高質量採樣率"
  const MidSampleRateNote := "🟨 中等採樣率"
  const LowSampleRateNote := "🟧 基礎採樣率"
  const LongNote := "✅ 充足時長"
  const MidLengthNote := "🟨 適中時長"
  const ShortNote := "🟧 較短時長"
  const LoudNote := "✅ 音量充足"
  const MidVolumeNote := "🟨 音量適中"

  /** The text ffmpeg's `volumedetect` filter puts before the mean volume. */
  const MeanVolumeTag := "mean_volume:"

  /** The tag's only ':' is its last character. */
  lemma TagColonLast(m: nat)
    requires m < |MeanVolumeTag| - 1
    ensures MeanVolumeTag[m] != ':'
  {
    assert MeanVolumeTag[..11] == "mean_volume";
    assert MeanVolumeTag[..11][m] == MeanVolumeTag[m];
  }

  /** A tag starting inside `pre` would lie in `pre` or straddle its end;
      the tag's only ':' is its last character, so it cannot overlap the
      tag that starts where `pre` ends. */
  lemma NoEarlyTag(pre: string, line: string, p: nat)
    requires !Contains(pre, MeanVolumeTag)
    requires |pre| <= |line| && line[..|pre|] == pre && OccursAt(line, MeanVolumeTag, |pre|)
    requires p < |pre|
    ensures !OccursAt(line, MeanVolumeTag, p)
  {
    if OccursAt(line, MeanVolumeTag, p) {
      var t := |pre|;
      if p + |MeanVolumeTag| <= t {
        OccursInPrefix(pre, line, MeanVolumeTag, p);
        ContainsAt(pre, MeanVolumeTag, p);
      } else {
        OccursAtChar(line, MeanVolumeTag, p, 11);
        OccursAtChar(line, MeanVolumeTag, t, p + 11 - t);
        TagColonLast(p + 11 - t);
      }
    }
  }


  /** The characters of a printed volume: digits, '-' and '.'. */
  predicate IsVolumeChar(c: char) { c == '-' || c == '.' || '0' <= c <= '9' }

  /** The line `volumedetect` writes for a mean volume printed as `x`,
      after the log prefix `pre`. */
  function VolumeLine(pre: string, x: string): (line: string)
    ensures |line| == |pre| + |MeanVolumeTag| + |x| + 4
  {
    pre + MeanVolumeTag + " " + x + " dB"
  }

  /** In such a line the tag after `pre` is the first occurrence. */
  lemma FirstTag(pre: string, x: string)
    requires !Contains(pre, MeanVolumeTag)
    ensures var line := VolumeLine(pre, x);
      OccursAt(line, MeanVolumeTag, |pre|)
      && (forall p :: 0 <= p < |pre| ==> !OccursAt(line, MeanVolumeTag, p))
      && IndexOf(line, MeanVolumeTag) == |pre|
  {
    var line := VolumeLine(pre, x);
    TagAfterPrefix(pre, x);
    NoTagBefore(pre, line);
    IndexOfFirst(line, MeanVolumeTag, |pre|);
  }

  lemma TagAfterPrefix(pre: string, x: string)
    ensures var line := VolumeLine(pre, x);
      |pre| <= |line| && line[..|pre|] == pre && OccursAt(line, MeanVolumeTag, |pre|)
  {
    var line := VolumeLine(pre, x);
    assert line[..|pre|] == pre;
    assert line[|pre|..|pre| + |MeanVolumeTag|] == MeanVolumeTag;
  }

  /** No tag starts inside a prefix that holds none, when a tag follows it. */
  lemma NoTagBefore(pre: string, line: string)
    requires !Contains(pre, MeanVolumeTag)
    requires |pre| <= |line| && line[..|pre|] == pre && OccursAt(line, MeanVolumeTag, |pre|)
    ensures forall p :: 0 <= p < |pre| ==> !OccursAt(line, MeanVolumeTag, p)
  {
    forall p | 0 <= p < |pre|
      ensures !OccursAt(line, MeanVolumeTag, p)
    {
      NoEarlyTag(pre, line, p);
    }
  }
}
