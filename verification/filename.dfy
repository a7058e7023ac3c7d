/** How both PropManager classes turn the optional "profile" system property
    into the name of the properties file they load. */
module Filename {
  import opened Wrappers

  /** The extension every resolved filename carries. */
  const Suffix: string := ".properties"

  /** The profile used when the "profile" system property is unset. */
  const DefaultProfile: string := "default"

  /** `t` is a trailing part of `s`. */
  ghost predicate HasSuffix(s: string, t: string) {
    |t| <= |s| && s[|s| - |t|..] == t
  }

  /** Decides Java's `s.endsWith(t)` by comparing the two strings from
      the end, one character at a time, until `t` is used up. */
  function EndsWith(s: string, t: string): (r: bool)
    ensures r <==> HasSuffix(s, t)
    decreases |t|
  {
    if |t| == 0 then true
    else if |s| == 0 then false
    else s[|s| - 1] == t[|t| - 1] && EndsWith(s[..|s| - 1], t[..|t| - 1])
  }

  /** Appends ".properties" unless `name` already ends with it. */
  function Normalize(name: string): (r: string)
    ensures HasSuffix(r, Suffix)
    ensures r == name <==> HasSuffix(name, Suffix)
    ensures r == name || (r == name + Suffix && |r| == |name| + 11)
  {
    if EndsWith(name, Suffix) then name else name + Suffix
  }

  /** The properties filename for the value of the "profile" system
      property, `None` when it is unset. */
  function Resolve(profile: Option<string>): (r: string)
    ensures HasSuffix(r, Suffix)
    ensures profile.Some? ==> |profile.value| <= |r| && r[..|profile.value|] == profile.value
  {
    Normalize(profile.GetOr(DefaultProfile))
  }

  /** With no "profile" setting the class loads "default.properties". */
  lemma ResolveUnset()
    ensures Resolve(None) == "default.properties"
  {
  }

  /** A profile that already names a properties file is used as it is. */
  lemma ResolveKeepsPropertiesName(profile: string)
    requires HasSuffix(profile, Suffix)
    ensures Resolve(Some(profile)) == profile
  {
  }

  /** Any other profile gets exactly the eleven characters ".properties"
      appended; nothing is trimmed or completed. */
  lemma ResolveAppendsSuffix(profile: string)
    requires !HasSuffix(profile, Suffix)
    ensures Resolve(Some(profile)) == profile + Suffix
    ensures |Resolve(Some(profile))| == |profile| + 11
  {
  }

  /** Resolving an already resolved filename gives it back. */
  lemma ResolveIdempotent(profile: Option<string>)
    ensures Resolve(Some(Resolve(profile))) == Resolve(profile)
  {
  }
}
