/** The static `Properties` object both classes keep: empty until a load,
    filled once by a successful load. A failed load in the file variant's
    static initialiser leaves the class unusable. */
module Store {
  import opened Wrappers
  import opened Filename

  /** Where properties files come from: each filename that can be opened
      and parsed, mapped to the key/value pairs it holds. A filename that is
      absent cannot be opened or parsed. The filesystem and the classpath
      are both sources of this shape. */
  type Source = map<string, map<string, string>>

  /** The lifecycle of the static properties. */
  datatype State =
    | NotLoaded                            // nothing loaded: the fresh, empty `Properties`
    | Loaded(props: map<string, string>)   // the one load succeeded
    | Failed(message: string)              // the static initialiser threw; the class is unusable

  /** `t` occurs in `s` starting at position `i`. */
  ghost predicate OccursAt(s: string, t: string, i: int) {
    0 <= i && i + |t| <= |s| && s[i..i + |t|] == t
  }

  /** `t` occurs somewhere inside `s`. */
  ghost predicate Contains(s: string, t: string) {
    exists i :: OccursAt(s, t, i)
  }

  /** The words that open the message of a failed load. */
  const LoadErrorPrefix: string := "Error loading properties file "

  /** The message of the exception a failed load raises. */
  function LoadError(filename: string): (msg: string)
    ensures |msg| == |LoadErrorPrefix| + |filename|
    ensures OccursAt(msg, LoadErrorPrefix, 0)
    ensures OccursAt(msg, filename, |LoadErrorPrefix|)
  {
    LoadErrorPrefix + filename
  }

  /** The failure message names the file that could not be loaded. */
  lemma LoadErrorNamesFile(filename: string)
    ensures Contains(LoadError(filename), filename)
  {
  }

  /** The one-time initialisation: resolve the filename from the profile
      setting, then open and parse that file from `source`. */
  function Load(source: Source, profile: Option<string>): (s: State)
    ensures !s.NotLoaded?
    ensures s.Loaded? <==> Resolve(profile) in source
    ensures s.Loaded? ==> s.props == source[Resolve(profile)]
    ensures s.Failed? ==> Contains(s.message, Resolve(profile))
  {
    var filename := Resolve(profile);
    if filename in source then Loaded(source[filename])
    else Failed(LoadError(filename))
  }

  /** `Properties.getProperty(key)` on the store: the mapped value, `None`
      (Java's `null`) for a missing key, and no answer at all once the load
      has failed. */
  function Lookup(s: State, key: string): (r: Result<Option<string>, string>)
    ensures r.Failure? <==> s.Failed?
    ensures s.Failed? ==> r.error == s.message
    ensures r == Success(None) <==> s.NotLoaded? || (s.Loaded? && key !in s.props)
    ensures forall v :: r == Success(Some(v)) <==> s.Loaded? && key in s.props && s.props[key] == v
  {
    match s
    case NotLoaded => Success(None)
    case Loaded(props) => if key in props then Success(Some(props[key])) else Success(None)
    case Failed(message) => Failure(message)
  }

  /** `Properties.getProperty(key, fallback)` on the store: the mapped value,
      or `fallback` for a missing key; no answer once the load has failed.
      Java lets the fallback be `null`, so it is an `Option` here, and a
      `None` fallback answers a missing key with `None`. */
  function LookupOr(s: State, key: string, fallback: Option<string>): (r: Result<Option<string>, string>)
    ensures r.Failure? <==> s.Failed?
    ensures s.Failed? ==> r.error == s.message
    ensures s.Loaded? && key in s.props ==> r == Success(Some(s.props[key]))
    ensures s.NotLoaded? || (s.Loaded? && key !in s.props) ==> r == Success(fallback)
  {
    match s
    case NotLoaded => Success(fallback)
    case Loaded(props) => Success(if key in props then Some(props[key]) else fallback)
    case Failed(message) => Failure(message)
  }

  /** The lookup with a fallback is the lookup without one, with a missing
      value replaced by the fallback; a `None` fallback makes the two equal. */
  lemma LookupOrAgreesWithLookup(s: State, key: string, fallback: Option<string>)
    ensures Lookup(s, key).Success? <==> LookupOr(s, key, fallback).Success?
    ensures Lookup(s, key) == Success(None) ==> LookupOr(s, key, fallback) == Success(fallback)
    ensures forall v :: Lookup(s, key) == Success(Some(v)) ==> LookupOr(s, key, fallback) == Success(Some(v))
    ensures Lookup(s, key).Failure? ==> LookupOr(s, key, fallback) == Lookup(s, key)
    ensures LookupOr(s, key, None) == Lookup(s, key)
  {
  }

  /** The fallback decides the answer exactly when the key is missing: two
      different fallbacks give the same answer if and only if the key is
      present or the load failed. */
  lemma FallbackUsedOnlyWhenMissing(s: State, key: string, d1: Option<string>, d2: Option<string>)
    requires d1 != d2
    ensures LookupOr(s, key, d1) == LookupOr(s, key, d2) <==> s.Failed? || (s.Loaded? && key in s.props)
  {
  }
}
