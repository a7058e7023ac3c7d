/** `com.jorisboschmans.PropManager`: loads the properties file from the
    working directory in its static initialiser, then answers `getProperty`. */
module FileVariant {
  import opened Wrappers
  import opened Filename
  import opened Store

  /** The static initialiser: runs once, when the class is initialised and
      so before any `getProperty` call, against the filesystem as it is at
      that moment. */
  function ClassInit(files: Source, profile: Option<string>): (s: State)
    ensures s == Load(files, profile)
    ensures !s.NotLoaded?
  {
    Load(files, profile)
  }

  /** `getProperty(key)` against the initialised class. */
  function GetProperty(s: State, key: string): (r: Result<Option<string>, string>)
    ensures s.Loaded? ==> r == Success(if key in s.props then Some(s.props[key]) else None)
    ensures s.Failed? ==> r == Failure(s.message)
  {
    Lookup(s, key)
  }

  /** Answers a run of `getProperty` calls, in order, from one store; no
      call changes it. */
  function Serve(s: State, keys: seq<string>): (answers: seq<Result<Option<string>, string>>)
    ensures |answers| == |keys|
    ensures forall i :: 0 <= i < |keys| ==> answers[i] == Lookup(s, keys[i])
  {
    if |keys| == 0 then []
    else [GetProperty(s, keys[0])] + Serve(s, keys[1..])
  }

  /** The class's whole life: the static initialiser reads the filesystem
      `files` once, then every key in `keys` is asked for with `getProperty`. */
  function Session(files: Source, profile: Option<string>, keys: seq<string>)
    : (answers: seq<Result<Option<string>, string>>)
    ensures |answers| == |keys|
    ensures forall i :: 0 <= i < |keys| ==> answers[i] == Lookup(Load(files, profile), keys[i])
  {
    Serve(ClassInit(files, profile), keys)
  }

  /** When the resolved file loads, every call answers from its contents:
      the value for a present key, `None` for a missing one. */
  lemma SessionAnswersFromFile(files: Source, profile: Option<string>, keys: seq<string>, i: int)
    requires Resolve(profile) in files
    requires 0 <= i < |keys|
    ensures keys[i] in files[Resolve(profile)] ==>
              Session(files, profile, keys)[i] == Success(Some(files[Resolve(profile)][keys[i]]))
    ensures keys[i] !in files[Resolve(profile)] ==> Session(files, profile, keys)[i] == Success(None)
  {
  }

  /** When the resolved file cannot be loaded, no call is answered: each
      one fails with the message that names the file. */
  lemma SessionAfterFailedLoad(files: Source, profile: Option<string>, keys: seq<string>, i: int)
    requires Resolve(profile) !in files
    requires 0 <= i < |keys|
    ensures Session(files, profile, keys)[i].Failure?
    ensures Contains(Session(files, profile, keys)[i].error, Resolve(profile))
  {
  }

  /** Nothing mutates the properties after loading: the same key asked
      twice, at any two points of the session, gets the same answer. */
  lemma SessionRepeatable(files: Source, profile: Option<string>, keys: seq<string>, i: int, j: int)
    requires 0 <= i < |keys| && 0 <= j < |keys|
    requires keys[i] == keys[j]
    ensures Session(files, profile, keys)[i] == Session(files, profile, keys)[j]
  {
  }

  /** Only the resolved file is ever read: two filesystems that agree on it
      give the same session. */
  lemma SessionReadsOnlyResolvedFile(files1: Source, files2: Source, profile: Option<string>, keys: seq<string>)
    requires Resolve(profile) in files1 <==> Resolve(profile) in files2
    requires Resolve(profile) in files1 ==> files1[Resolve(profile)] == files2[Resolve(profile)]
    ensures Session(files1, profile, keys) == Session(files2, profile, keys)
  {
  }
}
