/** Arithmetic shared by the simulation fallbacks of the provider
    adapters: the length of the simulated speech, its sample count, and the
    duration reported for a 16-bit mono buffer. */
module Simulation {
  import opened Wrappers

  /** `max(len(text) * perChar, minimum)` seconds. */
  function SimDuration(textLength: nat, perChar: real, minimum: real): (d: real)
    requires perChar >= 0.0
    ensures d >= minimum && d >= textLength as real * perChar
    ensures d == minimum || d == textLength as real * perChar
  {
    if textLength as real * perChar > minimum then textLength as real * perChar else minimum
  }

  /** Longer text never gives a shorter simulation. */
  lemma SimDurationMonotone(a: nat, b: nat, perChar: real, minimum: real)
    requires a <= b && perChar >= 0.0
    ensures SimDuration(a, perChar, minimum) <= SimDuration(b, perChar, minimum)
  {
    MulMonotone(a as real, b as real, perChar);
  }

  /** `int(duration * rate)` for a non-negative duration. */
  function SampleCount(duration: real, rate: nat): (n: nat)
    requires duration >= 0.0
    ensures n as real <= duration * rate as real < n as real + 1.0
  {
    (duration * rate as real).Floor
  }

  lemma SampleCountMonotone(d1: real, d2: real, rate: nat)
    requires 0.0 <= d1 <= d2
    ensures SampleCount(d1, rate) <= SampleCount(d2, rate)
  {
    var r := rate as real;
    MulMonotone(d1, d2, r);
    FloorMonotone(d1 * r, d2 * r);
  }

  lemma MulMonotone(a: real, b: real, c: real)
    requires a <= b && c >= 0.0
    ensures a * c <= b * c
  {
    assert b * c - a * c == (b - a) * c;
  }

  lemma FloorMonotone(x: real, y: real)
    requires x <= y
    ensures x.Floor <= y.Floor
  {
  }

  /** `len(audio) / (sample_rate * 2)`: the seconds a buffer of 16-bit mono
      samples lasts. */
  function BufferDuration(byteCount: nat, sampleRate: nat): (d: real)
    requires sampleRate > 0
    ensures d >= 0.0
    ensures d * (2 * sampleRate) as real == byteCount as real
  {
    byteCount as real / (2 * sampleRate) as real
  }

  /** Python `"real" if api_key else "simulation"`. */
  function Mode(keyConfigured: bool): (m: string)
    ensures m == "real" <==> keyConfigured
    ensures m != "real" ==> m == "simulation"
  {
    if keyConfigured then "real" else "simulation"
  }

  /** The fields of `health_check` the simulating adapters share. */
  datatype HealthReport = HealthReport(status: string, initialized: bool, memoryUsage: string,
                                       apiKeyConfigured: bool, mode: string)

  /** `health_check` of the MiniMax, Eugenes and OpenAI adapters, which
      differ only in the memory estimate they report. */
  function Health(initialized: bool, apiKey: Option<string>, memoryUsage: string): (r: HealthReport)
    ensures r.status == "healthy" <==> initialized
    ensures r.status != "healthy" ==> r.status == "unhealthy"
    ensures r.initialized == initialized && r.memoryUsage == memoryUsage
    ensures r.apiKeyConfigured == Truthy(apiKey)
    ensures r.mode == "real" <==> Truthy(apiKey)
  {
    HealthReport(if initialized then "healthy" else "unhealthy", initialized, memoryUsage,
                 Truthy(apiKey), Mode(Truthy(apiKey)))
  }
}
