/** The audio player component (client/src/components/audio-player.tsx):
    the check of its `src`, the absolute URL it plays, the time labels and
    progress bar, and the reload-on-error counter. The media element's
    events are method calls; the page origin is a parameter. */
module AudioPlayer {
  import opened Wrappers
  import Strs

  // ---------------------------------------------------------------------
  // Source and URL

  /** The `src` prop as received: `None` is `undefined` or `null`. */
  predicate SrcValid(src: Option<string>): (b: bool)
    ensures b ==> src.Some? && src.value != []
    ensures src.Some? && (src.value == "undefined" || src.value == "null") ==> !b
  {
    src.Some? && src.value != "" && src.value != "undefined" && src.value != "null"
  }

  function StartsWith(s: string, prefix: string): bool { prefix <= s }

  /** `fullAudioUrl`: absolute (`http…`) and `blob:` URLs as they are,
      anything else appended to the origin with one leading '/'. */
  function FullAudioUrl(origin: string, src: string): (url: string)
    ensures StartsWith(src, "http") || StartsWith(src, "blob:") ==> url == src
    ensures !StartsWith(src, "http") && !StartsWith(src, "blob:") ==>
      url == origin + (if StartsWith(src, "/") then src else "/" + src)
  {
    if StartsWith(src, "http") then src
    else if StartsWith(src, "blob:") then src
    else origin + if StartsWith(src, "/") then src else "/" + src
  }

  /** A relative path gets the same URL with or without its leading '/'. */
  lemma LeadingSlashOptional(origin: string, path: string)
    requires !StartsWith(path, "http") && !StartsWith(path, "blob:") && !StartsWith(path, "/")
    ensures FullAudioUrl(origin, "/" + path) == FullAudioUrl(origin, path) == origin + "/" + path
  {
    assert !StartsWith("/" + path, "http") by { assert ("/" + path)[0] == '/'; }
    assert !StartsWith("/" + path, "blob:") by { assert ("/" + path)[0] == '/'; }
  }

  /** With an `http…` origin the URL is already complete: normalising it
      again changes nothing. */
  lemma FullAudioUrlIdempotent(origin: string, src: string)
    requires StartsWith(origin, "http")
    ensures FullAudioUrl(origin, FullAudioUrl(origin, src)) == FullAudioUrl(origin, src)
  {
    var u := FullAudioUrl(origin, src);
    if !StartsWith(src, "http") && !StartsWith(src, "blob:") {
      assert u[..4] == origin[..4];
    }
  }

  // ---------------------------------------------------------------------
  // Time labels and progress

  /** A media time: a finite number of seconds, or NaN. */
  datatype MediaTime = NaN | Seconds(t: real)

  function Floor(x: real): int { x.Floor }

  /** `Math.trunc`. */
  function Trunc(x: real): (r: int)
    ensures x >= 0.0 ==> r == x.Floor
  {
    if x >= 0.0 then x.Floor else -((-x).Floor)
  }

  /** JavaScript's `%` on numbers: the sign follows the dividend. */
  function JsRemReal(a: real, b: real): real
    requires b > 0.0
  {
    a - b * Trunc(a / b) as real
  }

  /** `formatTime`: "0:00" for NaN, else whole minutes, ':' and the whole
      seconds past the minute in two digits. */
  function FormatTime(time: MediaTime): (r: string)
    ensures time.NaN? ==> r == "0:00"
  {
    match time
    case NaN => "0:00"
    case Seconds(t) =>
      Strs.IntToString(Floor(t / 60.0)) + ":" + Strs.PadTwo(Strs.IntToString(Floor(JsRemReal(t, 60.0))))
  }

  /** For a time that is not negative the label splits its whole seconds
      into minutes and seconds below 60. */
  lemma FormatTimeSplits(t: real)
    requires t >= 0.0
    ensures exists m: nat, s: nat :: (s < 60 && 60 * m + s == t.Floor
      && FormatTime(Seconds(t)) == Strs.NatToString(m) + ":" + Strs.PadTwo(Strs.NatToString(s)))
  {
    var m := (t / 60.0).Floor;
    assert 0 <= m;
    var rem := t - 60.0 * m as real;
    assert JsRemReal(t, 60.0) == rem;
    assert 60.0 * m as real <= t < 60.0 * m as real + 60.0;
    var s := rem.Floor;
    assert 0 <= s < 60;
    FloorShift(rem, 60 * m);
    assert t == rem + (60 * m) as real;
    assert FormatTime(Seconds(t)) == Strs.NatToString(m) + ":" + Strs.PadTwo(Strs.NatToString(s));
  }

  /** Adding a whole number shifts the floor by it. */
  lemma FloorShift(x: real, k: int)
    ensures (x + k as real).Floor == x.Floor + k
  {
  }

  /** `progressPercentage`: 0 until a positive duration is known (NaN is
      not positive). */
  function ProgressPercentage(currentTime: real, duration: MediaTime): (p: real)
    ensures !(duration.Seconds? && duration.t > 0.0) ==> p == 0.0
    ensures duration.Seconds? && duration.t > 0.0 ==> p * duration.t == currentTime * 100.0
  {
    if duration.Seconds? && duration.t > 0.0 then currentTime / duration.t * 100.0 else 0.0
  }

  /** Within the track the bar stays between 0 and 100, reaching 100 at
      its end. */
  lemma ProgressBounded(currentTime: real, duration: real)
    requires duration > 0.0 && 0.0 <= currentTime <= duration
    ensures 0.0 <= ProgressPercentage(currentTime, Seconds(duration)) <= 100.0
    ensures currentTime == duration ==> ProgressPercentage(currentTime, Seconds(duration)) == 100.0
  {
    var q := currentTime / duration;
    assert q * duration == currentTime;
    if q > 1.0 {
      assert q * duration > 1.0 * duration;
    }
  }

  // ---------------------------------------------------------------------
  // Reload on error

  const MaxRetries: nat := 3
  const LoadFailedText := "音頻載入失敗"

  /** The loading state: `retryCount`, whether the error panel is shown,
      `isLoading`, and how many times `audio.load()` has been called. */
  datatype LoadState = LoadState(retryCount: nat, failed: bool, loading: bool, loads: nat)

  /** A run of the loading effect: error cleared, loading, count reset,
      and a load. */
  function RunEffect(s: LoadState): LoadState
  {
    s.(retryCount := 0, failed := false, loading := true, loads := s.loads + 1)
  }

  /** Mounting runs the effect once. */
  function Mounted(): LoadState
  {
    RunEffect(LoadState(0, false, true, 0))
  }

  /** A load error as the component is written. The effect lists
      `retryCount` among its dependencies and resets it, so the increment
      re-runs the effect (which clears the pending reload and loads at
      once), and the reset re-runs it again. The handler then registered
      sees a count of 0. */
  function LoadErrorAsWritten(s: LoadState): (r: LoadState)
  {
    if s.retryCount < MaxRetries then RunEffect(RunEffect(s.(retryCount := s.retryCount + 1)))
    else s.(failed := true, loading := false)
  }

  function ErrorsAsWritten(n: nat): LoadState
  {
    if n == 0 then Mounted() else LoadErrorAsWritten(ErrorsAsWritten(n - 1))
  }

  /** As written, however many load errors occur the error panel never
      appears: the count is always back to 0. */
  lemma {:induction false} AsWrittenNeverGivesUp(n: nat)
    ensures ErrorsAsWritten(n).retryCount == 0 && !ErrorsAsWritten(n).failed
    ensures ErrorsAsWritten(n).loads == 1 + 2 * n
  {
    if n > 0 {
      AsWrittenNeverGivesUp(n - 1);
    }
  }

  /** A load error as intended: up to three reloads, then the error panel. */
  function LoadError(s: LoadState): LoadState
  {
    if s.retryCount < MaxRetries then s.(retryCount := s.retryCount + 1, loads := s.loads + 1)
    else s.(failed := true, loading := false)
  }

  function Errors(n: nat): LoadState
  {
    if n == 0 then Mounted() else LoadError(Errors(n - 1))
  }

  /** Three reloads follow the first three errors; the fourth error shows
      the error panel. */
  lemma {:induction false} ThreeRetriesThenError(n: nat)
    ensures n <= MaxRetries ==> Errors(n) == LoadState(n, false, true, 1 + n)
    ensures n > MaxRetries ==> Errors(n).retryCount == MaxRetries && Errors(n).failed && !Errors(n).loading && Errors(n).loads == 1 + MaxRetries
  {
    if n > 0 {
      ThreeRetriesThenError(n - 1);
    }
  }

  /** The player as the component is written: its loading state, changed
      by the media element's events, and whether the `src` it was mounted
      with was refused (the "音頻源無效" panel, with no audio element). */
  class Player {
    var srcInvalid: bool
    var url: string
    var retryCount: nat
    var failed: bool
    var loading: bool
    var loads: nat

    function State(): LoadState
      reads this
    {
      LoadState(retryCount, failed, loading, loads)
    }

    /** Mounting: an invalid `src` shows the invalid-source panel and never
        loads; a valid one is played from `FullAudioUrl` and the effect's
        first run starts the first load. */
    constructor (src: Option<string>, origin: string)
      ensures srcInvalid <==> !SrcValid(src)
      ensures SrcValid(src) ==> url == FullAudioUrl(origin, src.value) && State() == Mounted()
      ensures !SrcValid(src) ==> loads == 0 && !failed
    {
      srcInvalid := !SrcValid(src);
      retryCount := 0;
      failed := false;
      loading := true;
      if SrcValid(src) {
        url := FullAudioUrl(origin, src.value);
        loads := 1;
      } else {
        url := "";
        loads := 0;
      }
    }

    /** The `error` event as written. Below three retries the handler
        raises `retryCount`; since the count is a dependency of the effect,
        the effect runs again (clearing the pending reload and loading at
        once), resets the count to 0, and that change runs it once more.
        From three retries on, the error panel is shown. */
    method OnError()
      requires !srcInvalid
      modifies this`retryCount, this`failed, this`loading, this`loads
      ensures State() == LoadErrorAsWritten(old(State()))
    {
      if retryCount < MaxRetries {
        retryCount := retryCount + 1;
        // the increment re-runs the effect
        retryCount, failed, loading, loads := 0, false, true, loads + 1;
        // the reset changes the count again and re-runs it once more
        retryCount, failed, loading, loads := 0, false, true, loads + 1;
      } else {
        failed := true;
        loading := false;
      }
    }

    /** The `canplay` event: loaded, and the retry count starts over. */
    method OnCanPlay()
      requires !srcInvalid
      modifies this`retryCount, this`loading
      ensures State() == old(State()).(loading := false, retryCount := 0)
    {
      loading := false;
      retryCount := 0;
    }
  }
}
