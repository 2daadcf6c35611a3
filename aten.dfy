/** The ATEN AIVoice adapter (`ATENService`): SSML escaping and assembly,
    the synthesis request body, the synthesis-job poller, the 0.5 s rate
    limiter, initialisation and `generate_speech`. The adapter is never
    registered by the dispatcher, but it is a complete provider. */
module Aten {
  import opened Wrappers
  import opened Strs
  import opened NumFmt

  // ---------------------------------------------------------------------
  // Escaping

  /** The escape table in the order the source applies it: entry `k` is
      the character `TableChar(k)` and its entity `TableEntity(k)`. */
  const TableSize: nat := 5

  function TableChar(k: nat): char
    requires k < TableSize
  {
    if k == 0 then '"' else if k == 1 then '&' else if k == 2 then '\'' else if k == 3 then '<' else '>'
  }

  function TableEntity(k: nat): string
    requires k < TableSize
  {
    if k == 0 then "&quot;" else if k == 1 then "&amp;" else if k == 2 then "&apos;" else if k == 3 then "&lt;" else "&gt;"
  }

  /** `text` after the first `k` replacements of the table. */
  function EscapeFirst(text: string, k: nat): string
    requires k <= TableSize
  {
    if k == 0 then text
    else ReplaceAll(EscapeFirst(text, k - 1), [TableChar(k - 1)], TableEntity(k - 1))
  }

  /** What the source's escaper produces: all five replacements in order.
      No raw quote, apostrophe or angle bracket is left. */
  function EscapeAsWritten(text: string): (r: string)
    ensures '"' !in r && '\'' !in r && '<' !in r && '>' !in r
  {
    EscapeAsWrittenRemovesMarkup(text);
    EscapeFirst(text, TableSize)
  }

  /** The escaper as written: each table entry is applied to the whole
      text in turn with `str.replace`. */
  method EscapeSsmlText(text: string) returns (r: string)
    ensures r == EscapeAsWritten(text)
    ensures '"' !in r && '\'' !in r && '<' !in r && '>' !in r
  {
    r := text;
    var i := 0;
    while i < TableSize
      invariant 0 <= i <= TableSize
      invariant r == EscapeFirst(text, i)
    {
      r := ReplaceAll(r, [TableChar(i)], TableEntity(i));
      i := i + 1;
    }
  }

  /** No raw quote, apostrophe or angle bracket survives the escaper. */
  lemma EscapeAsWrittenRemovesMarkup(text: string)
    ensures var r := EscapeFirst(text, TableSize); '"' !in r && '\'' !in r && '<' !in r && '>' !in r
  {
    var e1 := EscapeFirst(text, 1);
    var e2 := EscapeFirst(text, 2);
    var e3 := EscapeFirst(text, 3);
    var e4 := EscapeFirst(text, 4);
    var e5 := EscapeFirst(text, 5);
    assert [TableChar(0)] == "\"" && [TableChar(1)] == "&" && [TableChar(2)] == "'";
    assert [TableChar(3)] == "<" && [TableChar(4)] == ">";
    assert EscapeFirst(text, 0) == text;
    assert e1 == ReplaceAll(text, "\"", "&quot;");
    assert e2 == ReplaceAll(e1, "&", "&amp;");
    assert e3 == ReplaceAll(e2, "'", "&apos;");
    assert e4 == ReplaceAll(e3, "<", "&lt;");
    assert e5 == ReplaceAll(e4, ">", "&gt;");
    ReplaceCharRemoves(text, '"', "&quot;");
    ReplaceCharKeepsAbsent(e1, '&', "&amp;", '"');
    ReplaceCharRemoves(e2, '\'', "&apos;");
    ReplaceCharKeepsAbsent(e2, '\'', "&apos;", '"');
    ReplaceCharRemoves(e3, '<', "&lt;");
    ReplaceCharKeepsAbsent(e3, '<', "&lt;", '"');
    ReplaceCharKeepsAbsent(e3, '<', "&lt;", '\'');
    ReplaceCharRemoves(e4, '>', "&gt;");
    ReplaceCharKeepsAbsent(e4, '>', "&gt;", '"');
    ReplaceCharKeepsAbsent(e4, '>', "&gt;", '\'');
    ReplaceCharKeepsAbsent(e4, '>', "&gt;", '<');
  }

  /** Decoding of the five predefined XML entities (section 4.6 of XML 1.0),
      as an XML parser reads the prosody text back. */
  function Unescape(s: string): string
    decreases |s|
  {
    if s == [] then []
    else if "&quot;" <= s then "\"" + Unescape(s[6..])
    else if "&amp;" <= s then "&" + Unescape(s[5..])
    else if "&apos;" <= s then "'" + Unescape(s[6..])
    else if "&lt;" <= s then "<" + Unescape(s[4..])
    else if "&gt;" <= s then ">" + Unescape(s[4..])
    else [s[0]] + Unescape(s[1..])
  }

  /** Text without an ampersand holds no entity and decodes to itself. */
  lemma {:induction false} UnescapePlain(s: string)
    requires '&' !in s
    ensures Unescape(s) == s
  {
    if s != [] {
      assert s[0] != '&';
      UnescapePlain(s[1..]);
    }
  }

  lemma QuoteFirstStep()
    ensures EscapeFirst("\"", 1) == "&quot;"
  {
    assert [TableChar(0)] == "\"";
    assert ReplaceAll("", "\"", "&quot;") == "";
    assert "\"" <= "\"";
    assert "\""[1..] == "";
  }

  lemma QuoteSecondStep()
    ensures ReplaceAll("&quot;", "&", "&amp;") == "&amp;quot;"
  {
    var q := "&quot;";
    NotContainsChar("quot;", '&');
    assert "&" <= q;
    assert q[1..] == "quot;";
  }

  lemma QuoteLaterSteps(a: string)
    requires a == "&amp;quot;"
    ensures ReplaceAll(ReplaceAll(ReplaceAll(a, "'", "&apos;"), "<", "&lt;"), ">", "&gt;") == a
  {
    NotContainsChar(a, '\'');
    NotContainsChar(a, '<');
    NotContainsChar(a, '>');
  }

  lemma UnescapeDoubleEscaped(a: string)
    requires a == "&amp;quot;"
    ensures Unescape(a) == "&quot;"
  {
    assert a[1] == 'a' && "&quot;"[1] == 'q';
    assert !("&quot;" <= a);
    assert a[..5] == "&amp;";
    assert a[5..] == "quot;";
    UnescapePlain("quot;");
  }

  /** A double quote goes through the escaper as written and comes back
      from an XML parser as the literal text `&quot;`, because the
      ampersand of the first replacement is escaped by the second. */
  lemma EscapeAsWrittenDoubleEscapesQuote()
    ensures EscapeAsWritten("\"") == "&amp;quot;"
    ensures Unescape(EscapeAsWritten("\"")) == "&quot;"
  {
    assert [TableChar(0)] == "\"" && [TableChar(1)] == "&" && [TableChar(2)] == "'";
    assert [TableChar(3)] == "<" && [TableChar(4)] == ">";
    QuoteFirstStep();
    QuoteSecondStep();
    QuoteLaterSteps("&amp;quot;");
    UnescapeDoubleEscaped("&amp;quot;");
  }

  /** The entity for one character, escaping '&' like any other. */
  function EscapeChar(c: char): string
  {
    if c == '"' then "&quot;"
    else if c == '&' then "&amp;"
    else if c == '\'' then "&apos;"
    else if c == '<' then "&lt;"
    else if c == '>' then "&gt;"
    else [c]
  }

  /** The escaper as intended: each character replaced by its entity, the
      same as applying the table with '&' first. */
  function EscapeSsml(text: string): (r: string)
    ensures '"' !in r && '\'' !in r && '<' !in r && '>' !in r
  {
    if text == [] then [] else EscapeChar(text[0]) + EscapeSsml(text[1..])
  }

  lemma UnescapeEscapeChar(c: char, t: string)
    ensures Unescape(EscapeChar(c) + t) == [c] + Unescape(t)
  {
    var s := EscapeChar(c) + t;
    if c == '"' {
      assert "&quot;" <= s && s[6..] == t;
    } else if c == '&' {
      assert !("&quot;" <= s) by { assert s[1] == 'a'; }
      assert "&amp;" <= s && s[5..] == t;
    } else if c == '\'' {
      assert !("&quot;" <= s) by { assert s[1] == 'a'; }
      assert !("&amp;" <= s) by { assert s[2] == 'p'; }
      assert "&apos;" <= s && s[6..] == t;
    } else if c == '<' {
      assert !("&quot;" <= s) && !("&amp;" <= s) && !("&apos;" <= s) by { assert s[1] == 'l'; }
      assert "&lt;" <= s && s[4..] == t;
    } else if c == '>' {
      assert !("&quot;" <= s) && !("&amp;" <= s) && !("&apos;" <= s) && !("&lt;" <= s) by { assert s[1] == 'g'; }
      assert "&gt;" <= s && s[4..] == t;
    } else if c == '&' {
    } else {
      assert s[0] == c && s[1..] == t;
    }
  }

  /** An XML parser reads back exactly the text that was escaped. */
  lemma {:induction false} UnescapeEscapeSsml(text: string)
    ensures Unescape(EscapeSsml(text)) == text
  {
    if text != [] {
      UnescapeEscapeChar(text[0], EscapeSsml(text[1..]));
      UnescapeEscapeSsml(text[1..]);
    }
  }

  // ---------------------------------------------------------------------
  // SSML

  /** The voice settings a caller may pass; absent keys take defaults. */
  datatype VoiceConfig = VoiceConfig(
    voiceName: Option<string>,
    pitch: Option<real>,
    rate: Option<real>,
    volume: Option<real>,
    silenceScale: Option<real>,
    useCustomPoly: bool)

  function Pitch(cfg: VoiceConfig): real { Clamp(-2.0, 2.0, GetOr(cfg.pitch, 0.0)) }
  function Rate(cfg: VoiceConfig): real { Clamp(0.8, 1.2, GetOr(cfg.rate, 1.0)) }
  function Volume(cfg: VoiceConfig): real { Clamp(-6.0, 6.0, GetOr(cfg.volume, 0.0)) }

  function SpeakOpen(language: string): string
  {
    "<speak xmlns=\"http://www.w3.org/2001/10/synthesis\" version=\"1.5\" xml:lang=\"" + language + "\">"
  }

  function VoiceOpen(voiceName: string): string { "<voice name=\"" + voiceName + "\">" }

  function ProsodyOpen(cfg: VoiceConfig): string
  {
    "<prosody pitch=\"" + Fixed1(Pitch(cfg), true) + "st\" volume=\"" + Fixed1(Volume(cfg), true)
      + "dB\" rate=\"" + Fixed1(Rate(cfg), false) + "\">"
  }

  const SsmlClose := "</prosody></voice></speak>"

  /** The opening tags that precede the escaped text. */
  function SsmlHead(voiceName: string, cfg: VoiceConfig, language: string): string
  {
    SpeakOpen(language) + VoiceOpen(voiceName) + ProsodyOpen(cfg)
  }

  /** `_build_ssml`: speak > voice > prosody around the text as the
      escaper as written leaves it. No raw quote, apostrophe or angle
      bracket reaches the prosody element, so the markup stays intact. */
  function BuildSsml(text: string, voiceName: string, cfg: VoiceConfig, language: string): (r: string)
    ensures SsmlHead(voiceName, cfg, language) <= r
    ensures |r| >= |SsmlHead(voiceName, cfg, language)| + |SsmlClose|
    ensures r[|r| - |SsmlClose|..] == SsmlClose
    ensures var body := r[|SsmlHead(voiceName, cfg, language)|..|r| - |SsmlClose|];
      '"' !in body && '\'' !in body && '<' !in body && '>' !in body
  {
    EscapeAsWrittenRemovesMarkup(text);
    var h := SsmlHead(voiceName, cfg, language);
    var r := h + EscapeAsWritten(text) + SsmlClose;
    assert r[|h|..|r| - |SsmlClose|] == EscapeAsWritten(text);
    r
  }

  /** The SSML the adapter sends for a text holding a double quote does
      not carry that quote: an XML reader finds the literal `&quot;`
      between the prosody tags. */
  lemma BuildSsmlDoubleEscapesQuote(voiceName: string, cfg: VoiceConfig, language: string)
    ensures var r := BuildSsml("\"", voiceName, cfg, language);
      var body := r[|SsmlHead(voiceName, cfg, language)|..|r| - |SsmlClose|];
      Unescape(body) == "&quot;" && Unescape(body) != "\""
  {
    var h := SsmlHead(voiceName, cfg, language);
    var r := BuildSsml("\"", voiceName, cfg, language);
    assert r[|h|..|r| - |SsmlClose|] == EscapeAsWritten("\"");
    EscapeAsWrittenDoubleEscapesQuote();
  }

  /** The SSML as intended: the same tags around the text escaped with
      `EscapeSsml`. */
  function BuildSsmlIntended(text: string, voiceName: string, cfg: VoiceConfig, language: string): (r: string)
    ensures SsmlHead(voiceName, cfg, language) <= r
    ensures |r| >= |SsmlHead(voiceName, cfg, language)| + |SsmlClose|
    ensures r[|r| - |SsmlClose|..] == SsmlClose
  {
    SsmlHead(voiceName, cfg, language) + EscapeSsml(text) + SsmlClose
  }

  /** With the intended escaper the text between the prosody tags carries
      no markup and decodes to the caller's text. */
  lemma BuildSsmlCarriesText(text: string, voiceName: string, cfg: VoiceConfig, language: string)
    ensures var r := BuildSsmlIntended(text, voiceName, cfg, language);
      var body := r[|SsmlHead(voiceName, cfg, language)|..|r| - |SsmlClose|];
      '<' !in body && Unescape(body) == text
  {
    var h := SsmlHead(voiceName, cfg, language);
    var r := BuildSsmlIntended(text, voiceName, cfg, language);
    assert r[|h|..|r| - |SsmlClose|] == EscapeSsml(text);
    UnescapeEscapeSsml(text);
  }

  /** A value whose magnitude is at most `m` tenths is rendered at most `m`
      tenths away from zero. */
  lemma TenthsBound(x: real, m: nat)
    requires -(m as real) / 10.0 <= x <= m as real / 10.0
    ensures Tenths(x) <= m
  {
    assert Abs(x) * 10.0 <= m as real;
  }

  /** The prosody attributes, read back as numbers, stay inside the ranges
      the service accepts: pitch [-2, 2] st, volume [-6, 6] dB, rate
      [0.8, 1.2] (the rate rounding to one decimal keeps the bounds). */
  lemma ProsodyAttributesInRange(cfg: VoiceConfig)
    ensures var p := PyFloat(Fixed1(Pitch(cfg), true)); p.Some? && -2.0 <= p.value <= 2.0
    ensures var v := PyFloat(Fixed1(Volume(cfg), true)); v.Some? && -6.0 <= v.value <= 6.0
    ensures var q := PyFloat(Fixed1(Rate(cfg), false)); q.Some? && 0.8 <= q.value <= 1.2
  {
    ParseFixed1(Pitch(cfg), true);
    TenthsBound(Pitch(cfg), 20);
    ParseFixed1(Volume(cfg), true);
    TenthsBound(Volume(cfg), 60);
    ParseFixed1(Rate(cfg), false);
    TenthsBound(Rate(cfg), 12);
    assert Tenths(Rate(cfg)) >= 8 by {
      assert Abs(Rate(cfg)) * 10.0 >= 8.0;
    }
  }

  // ---------------------------------------------------------------------
  // Synthesis request

  /** The JSON body of the synthesis request. */
  datatype SynthBody = SynthBody(ssml: string, silenceScale: Option<real>, customPolyUsed: bool)

  /** `silence_scale` only when the key is given, clamped to [0.8, 1.2];
      `is_customized_poly_list_used` only when `use_custom_poly` is truthy. */
  function SynthesisBody(ssml: string, cfg: VoiceConfig): (b: SynthBody)
    ensures b.ssml == ssml
    ensures b.silenceScale.Some? <==> cfg.silenceScale.Some?
    ensures b.silenceScale.Some? ==> 0.8 <= b.silenceScale.value <= 1.2
    ensures cfg.silenceScale.Some? && 0.8 <= cfg.silenceScale.value <= 1.2 ==> b.silenceScale == cfg.silenceScale
    ensures b.customPolyUsed == cfg.useCustomPoly
  {
    SynthBody(ssml,
      if cfg.silenceScale.Some? then Some(Clamp(0.8, 1.2, cfg.silenceScale.value)) else None,
      cfg.useCustomPoly)
  }

  /** What the synthesis endpoint answered: a transport exception, or an
      HTTP status with the decoded JSON fields and the raw text. */
  datatype SynthReply =
    | SynthTransportError(reason: string)
    | SynthHttp(status: int, synthesisId: Option<string>, synthesisPath: Option<string>, srtPath: Option<string>, text: string)

  datatype SynthResult =
    | Submitted(synthesisId: string, synthesisPath: Option<string>, srtPath: Option<string>)
    | SubmitFailed(message: string)

  /** `_synthesize_ssml`'s mapping of the reply; it never raises. A 200
      reply without `synthesis_id` raises `KeyError('synthesis_id')`
      inside the try, which the handler turns into a failure. */
  function SynthesizeOutcome(reply: SynthReply): (r: SynthResult)
    ensures r.Submitted? <==> reply.SynthHttp? && reply.status == 200 && reply.synthesisId.Some?
    ensures r.Submitted? ==> r.synthesisId == reply.synthesisId.value && r.synthesisPath == reply.synthesisPath
    ensures reply.SynthHttp? && reply.status != 200 ==>
      r == SubmitFailed("合成請求失敗: " + IntToString(reply.status) + " - " + reply.text)
  {
    match reply
    case SynthTransportError(e) => SubmitFailed("發送合成請求失敗: " + e)
    case SynthHttp(status, id, path, srt, text) =>
      if status != 200 then SubmitFailed("合成請求失敗: " + IntToString(status) + " - " + text)
      else if id.None? then SubmitFailed("發送合成請求失敗: 'synthesis_id'")
      else Submitted(id.value, path, srt)
  }

  // ---------------------------------------------------------------------
  // Polling

  /** One answer of the status endpoint. */
  datatype PollReply =
    | PollTransportError(reason: string)
    | PollHttp(status: int, state: Option<string>, path: Option<string>, message: Option<string>, error: Option<string>)

  /** What one answer means for the loop. */
  datatype PollStep = Done(path: string) | Fail(message: string) | Retry

  /** `result.get("message") or result.get("error") or "未知錯誤"`. */
  function ErrorDetail(message: Option<string>, error: Option<string>): (d: string)
    ensures Truthy(message) ==> d == message.value
    ensures !Truthy(message) && Truthy(error) ==> d == error.value
    ensures !Truthy(message) && !Truthy(error) ==> d == "未知錯誤"
  {
    var m := Or(message, error);
    if Truthy(m) then m.value else "未知錯誤"
  }

  /** Python's `f"{status}"` of an optional status field. */
  function StateText(state: Option<string>): string
  {
    if state.Some? then state.value else "None"
  }

  /** The decision the loop body takes on one answer. A transport
      exception and every raise inside the loop end the wait with its
      message; a non-200 status is retried like a pending job. */
  function Classify(reply: PollReply): (s: PollStep)
    ensures s.Done? <==> reply.PollHttp? && reply.status == 200 && reply.state == Some("Success") && Truthy(reply.path)
    ensures s.Done? ==> s.path == reply.path.value
    ensures s.Retry? <==>
      reply.PollHttp? && (reply.status != 200 || reply.state == Some("Waiting") || reply.state == Some("Processing"))
    ensures reply.PollTransportError? ==> s == Fail(reply.reason)
    ensures reply.PollHttp? && reply.status == 200 && reply.state == Some("Success") && !Truthy(reply.path) ==>
      s == Fail("合成完成但未獲得音頻路徑")
    ensures reply.PollHttp? && reply.status == 200 && reply.state == Some("Error") ==>
      s == Fail("合成失敗: " + ErrorDetail(reply.message, reply.error))
    ensures (reply.PollHttp? && reply.status == 200 &&
             reply.state !in {Some("Success"), Some("Error"), Some("Waiting"), Some("Processing")}) ==>
      s == Fail("未知狀態: " + StateText(reply.state))
  {
    match reply
    case PollTransportError(e) => Fail(e)
    case PollHttp(status, state, path, message, error) =>
      if status != 200 then Retry
      else if state == Some("Success") then
        if Truthy(path) then Done(path.value) else Fail("合成完成但未獲得音頻路徑")
      else if state == Some("Error") then Fail("合成失敗: " + ErrorDetail(message, error))
      else if state == Some("Waiting") || state == Some("Processing") then Retry
      else Fail("未知狀態: " + StateText(state))
  }

  function TimeoutMessage(maxWait: nat): string
  {
    "合成超時 (超過 " + NatToString(maxWait) + " 秒)"
  }

  /** Every loop check reads the clock at least 2 s after the previous one
      (each retry sleeps 2 s). */
  ghost predicate ClockSleeps(clock: nat -> real)
  {
    forall k: nat :: clock(k) + 2.0 <= clock(k + 1)
  }

  lemma {:induction false} ClockAdvances(start: real, clock: nat -> real, k: nat)
    requires ClockSleeps(clock) && start <= clock(0)
    ensures start + 2.0 * (k as real) <= clock(k)
  {
    if k > 0 { ClockAdvances(start, clock, k - 1); }
  }

  /** The outcome of `_wait_for_synthesis` from its k-th loop check on:
      the timeout once the budget has passed, otherwise the decision on the
      k-th answer, a retry moving on to the next check. */
  function WaitFrom(start: real, clock: nat -> real, reply: nat -> PollReply, maxWait: nat, k: nat): Result<string>
    requires ClockSleeps(clock) && start <= clock(0)
    decreases maxWait - 2 * k
  {
    ClockAdvances(start, clock, k);
    if clock(k) - start >= maxWait as real then Err(TimeoutMessage(maxWait))
    else match Classify(reply(k))
      case Done(path) => Ok(path)
      case Fail(m) => Err(m)
      case Retry => WaitFrom(start, clock, reply, maxWait, k + 1)
  }

  /** A job that stays pending ends the wait in the timeout message. */
  lemma {:induction false} PendingJobTimesOut(start: real, clock: nat -> real, reply: nat -> PollReply, maxWait: nat, k: nat)
    requires ClockSleeps(clock) && start <= clock(0)
    requires forall j: nat :: j >= k ==> Classify(reply(j)).Retry?
    ensures WaitFrom(start, clock, reply, maxWait, k) == Err(TimeoutMessage(maxWait))
    decreases maxWait - 2 * k
  {
    ClockAdvances(start, clock, k);
    if clock(k) - start < maxWait as real {
      assert Classify(reply(k)).Retry?;
      PendingJobTimesOut(start, clock, reply, maxWait, k + 1);
    }
  }

  /** Only the answers to checks made within the budget matter: with the
      2 s sleep no answer past the (maxWait / 2)-th is ever awaited, so with
      the default 300 s at most 150 are. */
  lemma {:induction false} WaitReadsWithinBudget(start: real, clock: nat -> real, reply1: nat -> PollReply,
                                                 reply2: nat -> PollReply, maxWait: nat, k: nat)
    requires ClockSleeps(clock) && start <= clock(0)
    requires forall j: nat :: 2 * j < maxWait ==> reply1(j) == reply2(j)
    ensures WaitFrom(start, clock, reply1, maxWait, k) == WaitFrom(start, clock, reply2, maxWait, k)
    decreases maxWait - 2 * k
  {
    ClockAdvances(start, clock, k);
    if clock(k) - start < maxWait as real {
      assert reply1(k) == reply2(k);
      WaitReadsWithinBudget(start, clock, reply1, reply2, maxWait, k + 1);
    }
  }

  /** `_wait_for_synthesis`: polls while less than `maxWait` seconds have
      passed since `start`. `clock(k)` is the reading of the k-th loop
      check and `reply(k)` the k-th answer. */
  method WaitForSynthesis(start: real, clock: nat -> real, reply: nat -> PollReply, maxWait: nat)
    returns (r: Result<string>, polls: nat)
    requires ClockSleeps(clock) && start <= clock(0)
    ensures r == WaitFrom(start, clock, reply, maxWait, 0)
    ensures 2 * polls <= maxWait + 1
    ensures forall k: nat :: k < polls ==> clock(k) - start < maxWait as real
    ensures forall k: nat :: k + 1 < polls ==> Classify(reply(k)).Retry?
    ensures polls > 0 && Classify(reply(polls - 1)).Done? ==> r == Ok(Classify(reply(polls - 1)).path)
    ensures polls > 0 && Classify(reply(polls - 1)).Fail? ==> r == Err(Classify(reply(polls - 1)).message)
    ensures (polls == 0 || Classify(reply(polls - 1)).Retry?) ==>
      r == Err(TimeoutMessage(maxWait)) && clock(polls) - start >= maxWait as real
  {
    polls := 0;
    while clock(polls) - start < maxWait as real
      invariant start + 2.0 * (polls as real) <= clock(polls)
      invariant forall k: nat :: k < polls ==> clock(k) - start < maxWait as real
      invariant forall k: nat :: k < polls ==> Classify(reply(k)).Retry?
      invariant 2 * polls <= maxWait + 1
      invariant WaitFrom(start, clock, reply, maxWait, 0) == WaitFrom(start, clock, reply, maxWait, polls)
      decreases maxWait - 2 * polls
    {
      var step := Classify(reply(polls));
      polls := polls + 1;
      if step.Done? {
        return Ok(step.path), polls;
      } else if step.Fail? {
        return Err(step.message), polls;
      }
      ClockAdvances(start, clock, polls);
    }
    r := Err(TimeoutMessage(maxWait));
  }

  // ---------------------------------------------------------------------
  // The adapter object

  const DefaultBaseUrl := "https://www.aivoice.com.tw/business/enterprise"
  const SampleRate: nat := 22050

  /** The answer of the model-list endpoint at initialisation: the models'
      `model_id` fields (None where a model has none), or a failure
      (non-200 status or transport error), which raises. */
  datatype ModelsReply = ModelsLoaded(modelIds: seq<Option<string>>) | ModelsFailed

  datatype DownloadReply =
    | DownloadTransportError(reason: string)
    | DownloadHttp(status: int, body: seq<byte>, text: string)

  /** The result dictionary of `generate_speech`. */
  datatype SpeechResult =
    | SpeechOk(audio: seq<byte>, synthesisId: string, sampleRate: nat, format: string, service: string,
               textLength: nat, language: string, voiceName: string, ssml: string)
    | SpeechFailed(message: string, failService: Option<string>)

  /** The wait the rate limiter requests when `elapsed` seconds have passed
      since the previous request. */
  function RateLimitWait(elapsed: real): (w: real)
    ensures w >= 0.0
    ensures elapsed < 0.5 ==> elapsed + w == 0.5
    ensures elapsed >= 0.5 ==> w == 0.0
  {
    if elapsed < 0.5 then 0.5 - elapsed else 0.0
  }

  /** The voice to use: the configured one, else the first loaded model's
      `model_id` (a missing key raises `KeyError('model_id')`), else an
      error. */
  function ChooseVoice(cfg: VoiceConfig, modelIds: seq<Option<string>>): (r: Result<string>)
    ensures Truthy(cfg.voiceName) ==> r == Ok(cfg.voiceName.value)
    ensures !Truthy(cfg.voiceName) && modelIds == [] ==> r == Err("沒有可用的聲優模型")
    ensures !Truthy(cfg.voiceName) && modelIds != [] && modelIds[0].Some? ==> r == Ok(modelIds[0].value)
  {
    if Truthy(cfg.voiceName) then Ok(cfg.voiceName.value)
    else if modelIds == [] then Err("沒有可用的聲優模型")
    else if modelIds[0].None? then Err("'model_id'")
    else Ok(modelIds[0].value)
  }

  function ErrorPrefix(): string { "語音生成失敗: " }

  class AtenService {
    var isInitialized: bool
    var apiToken: Option<string>
    var baseUrl: string
    var availableModels: seq<Option<string>>
    var lastRequestTime: real

    constructor ()
      ensures !isInitialized && apiToken == None && baseUrl == DefaultBaseUrl
      ensures availableModels == [] && lastRequestTime == 0.0
    {
      isInitialized := false;
      apiToken := None;
      baseUrl := DefaultBaseUrl;
      availableModels := [];
      lastRequestTime := 0.0;
    }

    /** `initialize`: the token comes from ATEN_API_TOKEN, else
        EUGENES_API_TOKEN; without one the adapter stays uninitialised and
        nothing is raised. A failed model load also leaves it
        uninitialised. */
    method Initialize(env: map<string, string>, models: ModelsReply)
      modifies this`isInitialized, this`apiToken, this`baseUrl, this`availableModels
      ensures apiToken == Or(Get(env, "ATEN_API_TOKEN"), Get(env, "EUGENES_API_TOKEN"))
      ensures var u := Or(Get(env, "ATEN_BASE_URL"), Get(env, "EUGENES_BASE_URL"));
        baseUrl == if Truthy(u) then u.value else old(baseUrl)
      ensures isInitialized <==> Truthy(apiToken) && models.ModelsLoaded?
      ensures availableModels == if isInitialized then models.modelIds else old(availableModels)
    {
      apiToken := Or(Get(env, "ATEN_API_TOKEN"), Get(env, "EUGENES_API_TOKEN"));
      var u := Or(Get(env, "ATEN_BASE_URL"), Get(env, "EUGENES_BASE_URL"));
      if Truthy(u) {
        baseUrl := u.value;
      }
      if !Truthy(apiToken) {
        isInitialized := false;
        return;
      }
      if models.ModelsFailed? {
        isInitialized := false;
        return;
      }
      availableModels := models.modelIds;
      isInitialized := true;
    }

    /** `health_check`'s status field. */
    function HealthStatus(): (s: string)
      reads this
      ensures s == "healthy" <==> isInitialized
    {
      if isInitialized then "healthy" else "unhealthy"
    }

    /** `_check_rate_limit`: `now` is the first clock reading and `after` the
        reading once the requested wait has elapsed. Two consecutive
        requests through one adapter are therefore at least 0.5 s apart. */
    method CheckRateLimit(now: real, after: real)
      requires after >= now + RateLimitWait(now - lastRequestTime)
      modifies this`lastRequestTime
      ensures lastRequestTime == after
      ensures lastRequestTime >= old(lastRequestTime) + 0.5
    {
      var elapsed := now - lastRequestTime;
      if elapsed < 0.5 {
        var wait := 0.5 - elapsed;
      }
      lastRequestTime := after;
    }

    /** `generate_speech`. Every raised error becomes a failure carrying
        the "語音生成失敗: " prefix and service "eugenes"; a rejected
        submission is returned as the submission step reported it. The
        wait's outcome decides what follows: a path is downloaded with
        `download`, a failure or the timeout ends the call. */
    method GenerateSpeech(text: string, cfg: VoiceConfig, format: string, language: string,
                          now: real, after: real, synth: SynthReply,
                          start: real, clock: nat -> real, poll: nat -> PollReply, download: string -> DownloadReply)
      returns (res: SpeechResult)
      requires after >= now + RateLimitWait(now - lastRequestTime)
      requires ClockSleeps(clock) && start <= clock(0)
      modifies this`lastRequestTime
      ensures !isInitialized ==> res == SpeechFailed(ErrorPrefix() + "服務尚未初始化", Some("eugenes"))
      ensures !isInitialized ==> lastRequestTime == old(lastRequestTime)
      ensures isInitialized ==> lastRequestTime == after
      ensures isInitialized && ChooseVoice(cfg, availableModels).Err? ==>
        res == SpeechFailed(ErrorPrefix() + ChooseVoice(cfg, availableModels).message, Some("eugenes"))
      ensures isInitialized && ChooseVoice(cfg, availableModels).Ok? && SynthesizeOutcome(synth).SubmitFailed? ==>
        res == SpeechFailed(SynthesizeOutcome(synth).message, None)
      ensures isInitialized && ChooseVoice(cfg, availableModels).Ok? && SynthesizeOutcome(synth).Submitted? ==>
        var voice := ChooseVoice(cfg, availableModels).value;
        var w := WaitFrom(start, clock, poll, 300, 0);
        (w.Err? ==> res == SpeechFailed(ErrorPrefix() + w.message, Some("eugenes")))
        && (w.Ok? && download(w.value).DownloadTransportError? ==>
              res == SpeechFailed(ErrorPrefix() + download(w.value).reason, Some("eugenes")))
        && (w.Ok? && download(w.value).DownloadHttp? && download(w.value).status != 200 ==>
              res == SpeechFailed(ErrorPrefix() + "下載音頻失敗: " + IntToString(download(w.value).status)
                                  + " - " + download(w.value).text, Some("eugenes")))
        && (w.Ok? && download(w.value).DownloadHttp? && download(w.value).status == 200 ==>
              res == SpeechOk(download(w.value).body, SynthesizeOutcome(synth).synthesisId, SampleRate, format,
                              "eugenes", |text|, language, voice, BuildSsml(text, voice, cfg, language)))
    {
      if !isInitialized {
        return SpeechFailed(ErrorPrefix() + "服務尚未初始化", Some("eugenes"));
      }
      CheckRateLimit(now, after);
      var voice := ChooseVoice(cfg, availableModels);
      if voice.Err? {
        return SpeechFailed(ErrorPrefix() + voice.message, Some("eugenes"));
      }
      var ssml := BuildSsml(text, voice.value, cfg, language);
      var submitted := SynthesizeOutcome(synth);
      if submitted.SubmitFailed? {
        return SpeechFailed(submitted.message, None);
      }
      var waited, _ := WaitForSynthesis(start, clock, poll, 300);
      if waited.Err? {
        return SpeechFailed(ErrorPrefix() + waited.message, Some("eugenes"));
      }
      match download(waited.value)
      case DownloadTransportError(e) =>
        res := SpeechFailed(ErrorPrefix() + e, Some("eugenes"));
      case DownloadHttp(status, body, t) =>
        if status != 200 {
          res := SpeechFailed(ErrorPrefix() + "下載音頻失敗: " + IntToString(status) + " - " + t, Some("eugenes"));
        } else {
          res := SpeechOk(body, submitted.synthesisId, SampleRate, format, "eugenes", |text|, language, voice.value, ssml);
        }
    }
  }
}
