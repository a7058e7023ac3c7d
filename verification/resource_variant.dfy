/** `com.jorisboschmans.propmanager.PropManager`: would load the properties
    file from the classpath in a private `init()`, but nothing in the class
    calls it, so the static properties stay empty. */
module ResourceVariant {
  import opened Wrappers
  import opened Filename
  import opened Store

  /** The static properties as the class creates them, and as every public
      call finds them. */
  const Initial: State := NotLoaded

  /** The private `init()`: resolves the filename and loads that resource
      from the classpath `resources` into the still empty properties. It is
      an ordinary method, so a failure is thrown to its caller and the
      properties stay usable: the result is the new state, or the message
      of the exception thrown. */
  function Init(resources: Source, profile: Option<string>): (r: Result<State, string>)
    ensures r.Success? <==> Resolve(profile) in resources
    ensures r.Success? ==> r.value == Loaded(resources[Resolve(profile)])
    ensures r.Failure? ==> Contains(r.error, Resolve(profile))
  {
    match Load(resources, profile)
    case Failed(message) => Failure(message)
    case s => Success(s)
  }

  /** The class's public surface: `get(key)` and `get(key, defaultKey)`;
      `defaultKey` may be `null`, written `None`. */
  datatype Call = Get(key: string) | GetWithDefault(key: string, fallback: Option<string>)

  /** One public call against the store `s`. `get(key, defaultKey)` gives
      the loaded value or `defaultKey`, so it answers `None` only for a
      missing key with a `null` default. */
  function Answer(s: State, c: Call): (r: Result<Option<string>, string>)
    ensures r.Failure? <==> s.Failed?
    ensures s.Failed? ==> r == Failure(s.message)
    ensures c.Get? ==> r == Lookup(s, c.key)
    ensures c.GetWithDefault? && c.fallback.Some? && r.Success? ==> r.value.Some?
    ensures c.GetWithDefault? ==>
              forall v :: r == Success(Some(v)) <==>
                (s.Loaded? && c.key in s.props && s.props[c.key] == v)
                || ((s.NotLoaded? || (s.Loaded? && c.key !in s.props)) && c.fallback == Some(v))
  {
    match c
    case Get(key) => Lookup(s, key)
    case GetWithDefault(key, fallback) => LookupOr(s, key, fallback)
  }

  /** Any run of public calls. Since only `init()` could load the file and
      no public call reaches it, every call is answered from `Initial`. */
  function Run(calls: seq<Call>): (answers: seq<Result<Option<string>, string>>)
    ensures |answers| == |calls|
    ensures forall i :: 0 <= i < |calls| && calls[i].Get? ==> answers[i] == Success(None)
    ensures forall i :: 0 <= i < |calls| && calls[i].GetWithDefault? ==>
              answers[i] == Success(calls[i].fallback)
  {
    if |calls| == 0 then []
    else [Answer(Initial, calls[0])] + Run(calls[1..])
  }

  /** Had `init()` been called and found its resource, `get` would answer
      from the file; the store the public calls use is not that store. */
  lemma InitWouldServeFile(resources: Source, profile: Option<string>, key: string)
    requires Resolve(profile) in resources
    requires key in resources[Resolve(profile)]
    ensures Init(resources, profile).Success?
    ensures Answer(Init(resources, profile).value, Get(key)) == Success(Some(resources[Resolve(profile)][key]))
    ensures Answer(Initial, Get(key)) == Success(None)
  {
  }
}
