/** The stand-in TTS server's silent test audio: a 44-byte PCM header in
    the WAVE form of the Microsoft/IBM RIFF specification ("RIFF" chunk
    holding a "fmt " and a "data" sub-chunk) followed by silence, and the
    `/v1/invoke` handler that serves it. */
module TestWav {
  import opened Wrappers
  import opened Strs

  const SampleRate: nat := 22050
  const MaxTextLength: nat := 1000

  /** `int(22050 * min(len(text) * 0.1, 10.0))`, in exact arithmetic. */
  function NumSamples(textLength: nat): (n: nat)
    ensures n <= 220500
    ensures n == if textLength <= 100 then 2205 * textLength else 220500
  {
    var duration: real := if textLength as real * 0.1 < 10.0 then textLength as real * 0.1 else 10.0;
    (SampleRate as real * duration).Floor
  }

  /** Longer text never yields fewer samples; empty text yields none. */
  lemma NumSamplesMonotone(a: nat, b: nat)
    requires a <= b
    ensures NumSamples(a) <= NumSamples(b)
    ensures NumSamples(0) == 0
  {
  }

  function Pow256(width: nat): (p: nat)
    ensures p >= 1
  {
    if width == 0 then 1 else 256 * Pow256(width - 1)
  }

  lemma Pow256Values()
    ensures Pow256(2) == 0x1_0000 && Pow256(4) == 0x1_0000_0000
  {
    assert Pow256(1) == 256;
    assert Pow256(3) == 0x100_0000;
  }

  /** `n.to_bytes(width, 'little')`. */
  function LE(n: nat, width: nat): (r: seq<byte>)
    requires n < Pow256(width)
    ensures |r| == width
  {
    if width == 0 then [] else [(n % 256) as byte] + LE(n / 256, width - 1)
  }

  /** `int.from_bytes(bytes, 'little')`. */
  function FromLE(bytes: seq<byte>): nat
  {
    if bytes == [] then 0 else bytes[0] as nat + 256 * FromLE(bytes[1..])
  }

  lemma {:induction false} FromLEOfLE(n: nat, width: nat)
    requires n < Pow256(width)
    ensures FromLE(LE(n, width)) == n
  {
    if width > 0 {
      FromLEOfLE(n / 256, width - 1);
      assert LE(n, width)[1..] == LE(n / 256, width - 1);
    }
  }

  /** The bytes of an ASCII tag. */
  function Tag(s: string): (r: seq<byte>)
    requires forall i :: 0 <= i < |s| ==> s[i] as int < 256
    ensures |r| == |s|
  {
    if s == [] then [] else [s[0] as int as byte] + Tag(s[1..])
  }

  const RIFF: seq<byte> := Tag("RIFF")
  const WAVE: seq<byte> := Tag("WAVE")
  const FMT: seq<byte> := Tag("fmt ")
  const DATA: seq<byte> := Tag("data")

  /** The header fields of a canonical 44-byte PCM WAVE file. */
  datatype WavHeader = WavHeader(
    chunkSize: nat, audioFormat: nat, channels: nat, sampleRate: nat,
    byteRate: nat, blockAlign: nat, bitsPerSample: nat, dataSize: nat)

  /** Every field fits its width (4 bytes, or 2 for the short fields). */
  predicate Fits(h: WavHeader)
  {
    h.chunkSize < 0x1_0000_0000 && h.audioFormat < 0x1_0000 && h.channels < 0x1_0000
    && h.sampleRate < 0x1_0000_0000 && h.byteRate < 0x1_0000_0000 && h.blockAlign < 0x1_0000
    && h.bitsPerSample < 0x1_0000 && h.dataSize < 0x1_0000_0000
  }

  /** The 44 header bytes, field by field in file order. */
  function Serialize(h: WavHeader): (r: seq<byte>)
    requires Fits(h)
    ensures |r| == 44
  {
    Pow256Values();
    RIFF + LE(h.chunkSize, 4) + WAVE + FMT + LE(16, 4) + LE(h.audioFormat, 2) + LE(h.channels, 2)
      + LE(h.sampleRate, 4) + LE(h.byteRate, 4) + LE(h.blockAlign, 2) + LE(h.bitsPerSample, 2)
      + DATA + LE(h.dataSize, 4)
  }

  /** Reads the header back from the first 44 bytes of a file: the tags
      must be in place and the "fmt " chunk must be 16 bytes long. */
  function Parse(bytes: seq<byte>): Option<WavHeader>
  {
    if |bytes| < 44 || bytes[0..4] != RIFF || bytes[8..12] != WAVE || bytes[12..16] != FMT
       || FromLE(bytes[16..20]) != 16 || bytes[36..40] != DATA then None
    else Some(WavHeader(FromLE(bytes[4..8]), FromLE(bytes[20..22]), FromLE(bytes[22..24]),
                        FromLE(bytes[24..28]), FromLE(bytes[28..32]), FromLE(bytes[32..34]),
                        FromLE(bytes[34..36]), FromLE(bytes[40..44])))
  }

  /** A piece that follows `pre` in a prefix of `b` is found at its offset
      in `b`, and `pre` is itself a prefix of `b`. */
  lemma PieceAt(b: seq<byte>, pre: seq<byte>, piece: seq<byte>)
    requires pre + piece <= b
    ensures b[|pre|..|pre| + |piece|] == piece
    ensures pre <= b
  {
    assert b[..|pre| + |piece|] == pre + piece;
    assert b[|pre|..|pre| + |piece|] == (pre + piece)[|pre|..];
    assert b[..|pre|] == (pre + piece)[..|pre|];
  }

  /** Whatever follows the header, parsing recovers the serialised fields. */
  lemma ParseSerialize(h: WavHeader, rest: seq<byte>)
    requires Fits(h)
    ensures Parse(Serialize(h) + rest) == Some(h)
  {
    Pow256Values();
    var b := Serialize(h) + rest;
    var s1 := RIFF;
    var s2 := s1 + LE(h.chunkSize, 4);
    var s3 := s2 + WAVE;
    var s4 := s3 + FMT;
    var s5 := s4 + LE(16, 4);
    var s6 := s5 + LE(h.audioFormat, 2);
    var s7 := s6 + LE(h.channels, 2);
    var s8 := s7 + LE(h.sampleRate, 4);
    var s9 := s8 + LE(h.byteRate, 4);
    var s10 := s9 + LE(h.blockAlign, 2);
    var s11 := s10 + LE(h.bitsPerSample, 2);
    var s12 := s11 + DATA;
    assert Serialize(h) == s12 + LE(h.dataSize, 4);
    assert b[..|Serialize(h)|] == Serialize(h);
    PieceAt(b, s12, LE(h.dataSize, 4));
    PieceAt(b, s11, DATA);
    PieceAt(b, s10, LE(h.bitsPerSample, 2));
    PieceAt(b, s9, LE(h.blockAlign, 2));
    PieceAt(b, s8, LE(h.byteRate, 4));
    PieceAt(b, s7, LE(h.sampleRate, 4));
    PieceAt(b, s6, LE(h.channels, 2));
    PieceAt(b, s5, LE(h.audioFormat, 2));
    PieceAt(b, s4, LE(16, 4));
    PieceAt(b, s3, FMT);
    PieceAt(b, s2, WAVE);
    PieceAt(b, s1, LE(h.chunkSize, 4));
    PieceAt(b, [], RIFF);
    FromLEOfLE(h.chunkSize, 4);
    FromLEOfLE(16, 4);
    FromLEOfLE(h.audioFormat, 2);
    FromLEOfLE(h.channels, 2);
    FromLEOfLE(h.sampleRate, 4);
    FromLEOfLE(h.byteRate, 4);
    FromLEOfLE(h.blockAlign, 2);
    FromLEOfLE(h.bitsPerSample, 2);
    FromLEOfLE(h.dataSize, 4);
  }

  /** The header the server writes for `n` samples: mono 16-bit PCM at
      22050 Hz. */
  function TestHeader(n: nat): (h: WavHeader)
    requires n <= 220500
    ensures Fits(h)
  {
    WavHeader(36 + 2 * n, 1, 1, SampleRate, SampleRate * 2, 2, 16, 2 * n)
  }

  /** The header is internally consistent: byte rate = sample rate × block
      align, block align = channels × bits / 8, and the data size is two
      bytes per sample. */
  lemma TestHeaderConsistent(n: nat)
    requires n <= 220500
    ensures var h := TestHeader(n);
      h.byteRate == h.sampleRate * h.blockAlign && h.blockAlign == h.channels * h.bitsPerSample / 8
      && h.dataSize == n * h.blockAlign && h.chunkSize == 36 + h.dataSize
  {
  }

  function Zeros(k: nat): (r: seq<byte>)
    ensures |r| == k && forall i :: 0 <= i < k ==> r[i] == 0
  {
    if k == 0 then [] else [0 as byte] + Zeros(k - 1)
  }

  /** `generate_test_audio`: the header grown by successive extends, then
      `2n` zero bytes of silence. */
  method GenerateTestAudio(text: string) returns (audio: seq<byte>)
    ensures audio == TestAudio(|text|)
  {
    var n := NumSamples(|text|);
    var h := TestHeader(n);
    Pow256Values();
    var header: seq<byte> := [];
    header := header + RIFF;
    assert header == RIFF;
    header := header + LE(h.chunkSize, 4);
    header := header + WAVE;
    header := header + FMT;
    header := header + LE(16, 4);
    header := header + LE(h.audioFormat, 2);
    header := header + LE(h.channels, 2);
    header := header + LE(h.sampleRate, 4);
    header := header + LE(h.byteRate, 4);
    header := header + LE(h.blockAlign, 2);
    header := header + LE(h.bitsPerSample, 2);
    header := header + DATA;
    header := header + LE(h.dataSize, 4);
    assert header == Serialize(h);
    audio := header + Zeros(2 * n);
  }

  /** The body `generate_test_audio` returns, as a value. */
  function TestAudio(textLength: nat): (r: seq<byte>)
    ensures |r| == 44 + 2 * NumSamples(textLength)
  {
    var n := NumSamples(textLength);
    Serialize(TestHeader(n)) + Zeros(2 * n)
  }

  /** The test audio is a well-formed WAVE file: its header parses back to
      the 22050 Hz mono 16-bit header, the RIFF chunk size covers the rest
      of the file, the data size covers the samples, and every sample is
      silence. */
  lemma TestAudioWellFormed(textLength: nat)
    ensures var audio := TestAudio(textLength); var n := NumSamples(textLength);
      Parse(audio) == Some(TestHeader(n))
      && TestHeader(n).chunkSize == |audio| - 8
      && TestHeader(n).dataSize == |audio| - 44
      && forall i :: 44 <= i < |audio| ==> audio[i] == 0
  {
    var n := NumSamples(textLength);
    ParseSerialize(TestHeader(n), Zeros(2 * n));
    var audio := TestAudio(textLength);
    forall i | 44 <= i < |audio|
      ensures audio[i] == 0
    {
      assert audio[i] == Zeros(2 * n)[i - 44];
    }
  }

  /** The response of `/v1/invoke`. */
  datatype InvokeResponse =
    | AudioResponse(body: seq<byte>, mediaType: string, contentDisposition: string, contentLength: string)
    | HttpError(status: nat, detail: string)

  const TooLongDetail := "文本太長，最大支援 1000 字符"

  /** `tts_invoke` as written: the 400 raised for a long text is caught by
      the handler's own `except Exception` and re-raised as a 500 whose
      detail embeds the 400 ("400: ..."). */
  function TtsInvoke(text: string, format: string): (r: InvokeResponse)
    ensures |text| > MaxTextLength ==> r == HttpError(500, "TTS 生成失敗: 400: " + TooLongDetail)
    ensures |text| <= MaxTextLength ==>
      r.AudioResponse? && r.mediaType == "audio/wav" && r.body == TestAudio(|text|)
      && r.contentLength == NatToString(|r.body|)
  {
    if |text| > MaxTextLength then HttpError(500, "TTS 生成失敗: 400: " + TooLongDetail)
    else
      var body := TestAudio(|text|);
      AudioResponse(body, "audio/wav", "attachment; filename=tts_output." + format, NatToString(|body|))
  }

  /** A 1001-character text, which the length check is meant to reject
      with 400, reaches the client as a server error. */
  lemma TtsInvokeLongTextIsServerError(text: string)
    requires |text| == MaxTextLength + 1
    ensures TtsInvoke(text, "wav").HttpError? && TtsInvoke(text, "wav").status == 500
  {
  }

  /** `tts_invoke` with the length check outside the generic handler: an
      over-long text is a client error (400) and every other text is
      served. */
  function TtsInvokeChecked(text: string, format: string): (r: InvokeResponse)
    ensures r.HttpError? <==> |text| > MaxTextLength
    ensures r.HttpError? ==> r == HttpError(400, TooLongDetail)
    ensures r.AudioResponse? ==> r == TtsInvoke(text, format)
  {
    if |text| > MaxTextLength then HttpError(400, TooLongDetail) else TtsInvoke(text, format)
  }
}
