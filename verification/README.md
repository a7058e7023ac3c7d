# prop-manager, modelled in Dafny

prop-manager is a small Java configuration utility. It exists as two near-identical classes named
`PropManager`. Each has code that reads the `profile` system property, turns it into a properties
filename and loads that file into a `java.util.Properties` map, and each serves read-only lookups
from that map. Only the file variant ever runs its loading code.

- `com.jorisboschmans.PropManager` (the **file variant**) loads from the working directory in its
  static initialiser. It exposes `getProperty(key)`.
- `com.jorisboschmans.propmanager.PropManager` (the **resource variant**) would load from the
  classpath in a private `init()`. It exposes `get(key)` and `get(key, defaultKey)`. Nothing in the
  class calls `init()`, so its properties are never filled.

The model is functional. It has five modules:

- `Wrappers`: `Option`, which stands for a nullable Java reference, and `Result`.
- `Filename`: Java's `String.endsWith`, the ".properties" normalisation, and resolution of the
  optional profile setting.
- `Store`: the static properties as a write-once `State`. It is `NotLoaded`, `Loaded(map)` or
  `Failed(message)`, and `Failed` means the file variant's static initialiser threw. This module also holds the shared one-time `Load` and the two
  `Properties.getProperty` lookups.
- `FileVariant`: class initialisation followed by any run of `getProperty` calls.
- `ResourceVariant`: the uncalled `init()` and any run of `get` calls.

A filesystem or a classpath is a `Source`: a map from each filename that can be opened and parsed
to the key/value pairs parsed from it. A filename missing from the source is a load failure.

`init()` is private and never invoked, so every public call of the resource variant is answered
from the empty initial store.

## Model

| member | source | states |
|---|---|---|
| Filename.EndsWith | src/main/java/com/jorisboschmans/propmanager/PropManager.java:32 | The character-by-character suffix test is true exactly when the second string is a trailing part of the first. |
| Filename.Normalize | src/main/java/com/jorisboschmans/propmanager/PropManager.java:32-34 | The result always ends with ".properties". It equals the input exactly when the input already ends with ".properties". Otherwise it is the input with the whole eleven-character suffix appended. |
| Filename.Resolve | src/main/java/com/jorisboschmans/propmanager/PropManager.java:29-34 | The resolved filename always ends with ".properties" and begins with the profile when one is set. |
| Filename.ResolveUnset | src/main/java/com/jorisboschmans/propmanager/PropManager.java:29-33 | With no profile setting the filename is "default.properties". |
| Filename.ResolveKeepsPropertiesName | src/main/java/com/jorisboschmans/propmanager/PropManager.java:32 | A profile that already ends with ".properties" is used unchanged. |
| Filename.ResolveAppendsSuffix | src/main/java/com/jorisboschmans/propmanager/PropManager.java:33 | Any other profile becomes profile + ".properties", 11 characters longer. |
| Filename.ResolveIdempotent | src/main/java/com/jorisboschmans/propmanager/PropManager.java:32-34 | Resolving an already resolved filename yields the same filename. |
| Store.LoadError | src/main/java/com/jorisboschmans/PropManager.java:33 | The failure message is "Error loading properties file " followed by the filename, at position 30. |
| Store.LoadErrorNamesFile | src/main/java/com/jorisboschmans/PropManager.java:33 | The failure message contains the filename that could not be loaded. |
| Store.Load | src/main/java/com/jorisboschmans/PropManager.java:21-35 | After the one-time load the store is never NotLoaded. It is Loaded with exactly the file's contents when the resolved file can be read. Otherwise it is Failed with a message naming that file. |
| Store.Lookup | src/main/java/com/jorisboschmans/propmanager/PropManager.java:51-53 | A lookup returns Some(v) exactly when the key is loaded with value v. It returns None exactly when nothing is loaded or the key is missing. It fails, with the load's message, exactly when the load failed. |
| Store.LookupOr | src/main/java/com/jorisboschmans/propmanager/PropManager.java:63-65 | A lookup with a fallback returns the loaded value for a present key and the fallback otherwise, including a null (`None`) fallback. It fails only after a failed load. |
| Store.LookupOrAgreesWithLookup | src/main/java/com/jorisboschmans/propmanager/PropManager.java:51-65 | The lookup with a fallback equals the plain lookup with a missing value replaced by the fallback, so the two agree on present keys, and with a null fallback they agree everywhere. |
| Store.FallbackUsedOnlyWhenMissing | src/main/java/com/jorisboschmans/propmanager/PropManager.java:63-65 | Two different fallbacks give the same answer if and only if the key is present or the load failed. |
| FileVariant.ClassInit | src/main/java/com/jorisboschmans/PropManager.java:21-35 | Class initialisation is the one-time load of the resolved file from the filesystem. It leaves the store loaded or failed, never unloaded, before any `getProperty` call. |
| FileVariant.GetProperty | src/main/java/com/jorisboschmans/PropManager.java:44-46 | `getProperty` returns the loaded value or None for a missing key. After a failed initialisation it returns no value, only the failure. |
| FileVariant.Serve | src/main/java/com/jorisboschmans/PropManager.java:44-46 | Each of any number of calls is answered from the one store, and its answer depends only on its key. |
| FileVariant.Session | src/main/java/com/jorisboschmans/PropManager.java:21-46 | The class's life is one initialisation followed by the calls. Each call's answer is the lookup of its key in the state that the one load produced. |
| FileVariant.SessionAnswersFromFile | src/main/java/com/jorisboschmans/PropManager.java:30-46 | When the resolved file loads, each call returns that file's value for the key, or None for a missing key. |
| FileVariant.SessionAfterFailedLoad | src/main/java/com/jorisboschmans/PropManager.java:30-33 | When the resolved file cannot be loaded, every call fails with a message that names the file. |
| FileVariant.SessionRepeatable | src/main/java/com/jorisboschmans/PropManager.java:19-46 | The map is never mutated after loading, so the same key asked at any two points gets the same answer. |
| FileVariant.SessionReadsOnlyResolvedFile | src/main/java/com/jorisboschmans/PropManager.java:25-31 | Two filesystems that agree on the resolved file give identical sessions. |
| ResourceVariant.Init | src/main/java/com/jorisboschmans/propmanager/PropManager.java:28-42 | The private `init()` loads the resolved classpath resource into the empty properties when that resource can be read. Otherwise it throws, to its caller, a message naming the resource. It never makes the class unusable. |
| ResourceVariant.Answer | src/main/java/com/jorisboschmans/propmanager/PropManager.java:51-65 | `get(key)` is the plain lookup. `get(key, defaultKey)` gives the loaded value when the key is present and `defaultKey` otherwise, so it is `None` only for a missing key with a null default. Both fail, with the load's message, only in a state whose static initialiser threw. The resource variant never reaches such a state. |
| ResourceVariant.Run | src/main/java/com/jorisboschmans/propmanager/PropManager.java:19-65 | `init()` is never called, so in any run of public calls every `get(key)` is None and every `get(key, d)` is d. |
| ResourceVariant.InitWouldServeFile | src/main/java/com/jorisboschmans/propmanager/PropManager.java:28-53 | Had `init()` loaded a resource holding the key, `get` would return its value. The store the public calls actually use returns None. |

## Left out

- Parsing the properties text format (`Properties.load`) is library code. The parsed map is an abstract input: the value a `Source` gives for a filename.
- File and resource I/O (`FileInputStream`, `getResourceAsStream`, try-with-resources) is reduced to two outcomes: the filename is in the `Source` or it is not.
- Reading the `profile` system property is not modelled. The property is an `Option<string>` parameter.
- Java failure details are not modelled. A `null` key throws `NullPointerException`. A `null` default is not a failure: it is modelled as a `None` fallback, which a missing key returns. A missing classpath resource makes `getResourceAsStream` return `null`, so `load` throws `NullPointerException`, which is not wrapped. A malformed `\u` escape throws `IllegalArgumentException`, which is also not wrapped. The model gives every load failure the wrapped message.
- ResourceVariant.Init: the model does not represent a partial load. When `Properties.load` throws part way through, the entries it had already stored stay in the properties that `get` reads. The model's failed `init()` changes nothing, because parsing is abstract and nothing in the class calls `init()`.
- The exception's cause chain is not modelled. The rule that a class whose static initialiser threw cannot be used again (`ExceptionInInitializerError`, then `NoClassDefFoundError`) is modelled only as every later lookup failing.
- The `defaults` chain of `java.util.Properties` is left out. It is always empty here, because both classes create a plain `new Properties()`.
- Java strings are sequences of UTF-16 code units and may hold unpaired surrogates. Dafny strings are sequences of Unicode scalar values. Nothing here depends on the difference, since ".properties" is 11 ASCII characters in both.
- JVM class-initialisation ordering and thread safety are concurrency and runtime semantics. The model fixes initialisation as the first step of a session.
