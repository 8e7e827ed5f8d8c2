/** InferencePool values, their annotations, and the time constants of the activator. */
module Pools {

  datatype Option<+T> = None | Some(value: T)

  /** Durations and instants are whole nanoseconds, as in Go's `time` package. */
  const SECOND: int := 1_000_000_000
  const DEFAULT_GRACE: int := 60 * SECOND
  const DEFAULT_SCALE_DOWN_DELAY: int := 120 * SECOND
  const RETENTION: int := 5 * SECOND
  const POLL_INTERVAL: int := 1 * SECOND
  const INITIAL_PERIOD: int := 60 * SECOND
  /** The `message_timeout` of the Envoy filter. */
  const ENVOY_MESSAGE_TIMEOUT: int := 120 * SECOND

  const API_VERSION_KEY := "activator.llm-d.ai/target-apiversion"
  const KIND_KEY := "activator.llm-d.ai/target-kind"
  const NAME_KEY := "activator.llm-d.ai/target-name"
  const GRACE_KEY := "activator.llm-d.ai/scale-from-zero-grace-period"
  const DELAY_KEY := "activator.llm-d.ai/scale-down-delay"

  datatype Pool = Pool(name: string, namespace: string, annotations: map<string, string>)

  /** `parse` stands for `time.ParseDuration` with its error dropped: a text that does
      not parse yields 0. */
  datatype Config = Config(parse: string -> int, group: Group)

  /** The API group the reconciler was set up for. */
  datatype Group = V1 | V1Alpha2 | OtherGroup

  predicate Annotated(p: Pool) {
    API_VERSION_KEY in p.annotations && KIND_KEY in p.annotations && NAME_KEY in p.annotations
  }

  /** A pool is annotated if it names its target in full: taking away any one of the three
      annotations is enough to lose it, and any other change of the annotations keeps it. */
  lemma AnnotatedNeedsAllThree(p: Pool, key: string)
    ensures var q := p.(annotations := p.annotations - {key});
            Annotated(q) <==> Annotated(p) && key !in {API_VERSION_KEY, KIND_KEY, NAME_KEY}
    ensures Annotated(p) <==> {API_VERSION_KEY, KIND_KEY, NAME_KEY} <= p.annotations.Keys
  {
  }

  function OptionalAnnotation(p: Pool, key: string): (r: Option<string>)
    ensures r == None <==> key !in p.annotations
    ensures r.Some? ==> p.annotations[key] == r.value
  {
    if key in p.annotations then Some(p.annotations[key]) else None
  }

  function GracePeriod(c: Config, p: Pool): int {
    var v := OptionalAnnotation(p, GRACE_KEY);
    if v.Some? then c.parse(v.value) else DEFAULT_GRACE
  }

  function ScaleDownDelay(c: Config, p: Pool): int {
    var v := OptionalAnnotation(p, DELAY_KEY);
    if v.Some? then c.parse(v.value) else DEFAULT_SCALE_DOWN_DELAY
  }

  /** Setting an annotation changes the duration that is read from it, to whatever the new
      text parses to, and no other: the two durations never shadow each other. */
  lemma DurationsReadOwnAnnotation(c: Config, p: Pool, key: string, text: string)
    ensures var q := p.(annotations := p.annotations[key := text]);
            && GracePeriod(c, q) == (if key == GRACE_KEY then c.parse(text) else GracePeriod(c, p))
            && ScaleDownDelay(c, q) == (if key == DELAY_KEY then c.parse(text) else ScaleDownDelay(c, p))
  {
    assert GRACE_KEY[25] == 'f' && DELAY_KEY[25] == 'd';
  }

  /** Go's conversion of an `int64` to an `int32`: the low 32 bits, as a signed number. */
  function ToInt32(n: int): (r: int)
    ensures -0x8000_0000 <= r < 0x8000_0000
    ensures -0x8000_0000 <= n < 0x8000_0000 ==> r == n
    ensures (n - r) % 0x1_0000_0000 == 0
  {
    (n + 0x8000_0000) % 0x1_0000_0000 - 0x8000_0000
  }
}
