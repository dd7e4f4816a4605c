# Platform name registry (ModsDotGroovy core)

This project models `org.groovymc.modsdotgroovy.core.Platform`, the interning
registry of platform names in ModsDotGroovy. A platform is a record with one
component, its `name`. A shared mutable map, the registry, is filled by the
record's compact constructor with `putIfAbsent(name, this)`. So every platform
ever constructed offers itself under the name it was given, starting with the
five built-ins `forge`, `fabric`, `quilt`, `spigot` and `unknown`.

Lookup through `of(name)` or `fromRegistry(name)` works in four steps:

- It lower-cases the name.
- It answers the four switched built-in names with their constants.
- Otherwise it reads the registry.
- On a miss, `of` constructs a new platform, which registers it. `fromRegistry` answers `UNKNOWN` and changes nothing.

`toString` renders the lower-cased name with its first character upper-cased.

Files:

- `ascii.dfy`, module `Ascii`: ASCII case mapping.
  - `Lower` stands for `toLowerCase(Locale.ROOT)`.
  - `Capitalize` stands for Groovy's `capitalize`.
  - Lemmas prove that lower-casing is idempotent, which strings it leaves alone, and that it undoes capitalisation.
- `platform.dfy`, module `Platforms`: the record as a datatype, the built-in constants, and the registry as a `map<string, Platform>`.
  - Pure functions give one lookup's result and its new registry in terms of the registry before it: `Register` for `putIfAbsent`, `Find` for the switch plus registry read, `OfResult` and `OfRegistry`.
  - Lemmas cover case-insensitivity, built-ins, idempotence, create-then-find and unreachable mixed-case keys.
  - The class `PlatformRegistry` holds the registry in a field `entries`. Java keeps the registry in a static field, so here one object stands for that static state. The class constructor is the class initialisation (lines 11-17). `Construct` is the compact constructor, and `Lookup`, `Of` and `FromRegistry` are the three `of` methods. Each method is proved against the pure functions and keeps the invariant `Valid()`.

The registry invariant (`WellFormed`) has two parts:

- Every key maps to the platform carrying exactly that name.
- The five built-ins are registered under their own names.

Registration never replaces an entry and never changes any other entry.

`fromRegistry` answers `UNKNOWN` when the lower-cased name is neither a switched built-in nor a registry key. The converse fails for one name. `unknown` is itself registered, and looking it up is a registry hit that returns `UNKNOWN`. `OfResult` therefore states the exact condition: the result is `UNKNOWN` if and only if the lookup missed or the lower-cased name is `unknown`.

The compact constructor registers a name exactly as given, while lookups only ask for lower-cased keys. A platform constructed directly with a mixed-case name, such as `new Platform("NeoForge")`, is therefore never found by lookup. `of` with that name creates a second entry under the lower-cased key. `MixedCaseKeyUnreachable` and `MixedCaseConstructExample` state this.

## Model

| member | source | states |
|---|---|---|
| `Ascii.LowerChar` | core/src/main/java/org/groovymc/modsdotgroovy/core/Platform.java:47 | the result is never an upper-case letter; non-upper-case characters are unchanged; an upper-case letter becomes the lower-case letter at the same distance |
| `Ascii.Lower` | core/src/main/java/org/groovymc/modsdotgroovy/core/Platform.java:47 | same length as the input, each character lower-cased in place, and the result contains no upper-case letter |
| `Ascii.LowerIdempotent` | core/src/main/java/org/groovymc/modsdotgroovy/core/Platform.java:47 | lower-casing twice gives the same string as lower-casing once |
| `Ascii.LowerFixedPoints` | core/src/main/java/org/groovymc/modsdotgroovy/core/Platform.java:47 | a string is its own lower-casing if and only if it has no upper-case letter |
| `Ascii.UpperChar` | core/src/main/java/org/groovymc/modsdotgroovy/core/Platform.java:20 | the result is never a lower-case letter; other characters are unchanged; a lower-case letter becomes the upper-case letter whose lower-casing gives it back |
| `Ascii.Capitalize` | core/src/main/java/org/groovymc/modsdotgroovy/core/Platform.java:20 | same length; a non-empty string gets its first character upper-cased and keeps the rest unchanged; the empty string stays empty |
| `Ascii.LowerUndoesCapitalize` | core/src/main/java/org/groovymc/modsdotgroovy/core/Platform.java:19-21 | capitalising a lower-cased string and lower-casing it again gives it back |
| `Platforms.Platform.ToString` | core/src/main/java/org/groovymc/modsdotgroovy/core/Platform.java:19-21 | same length as the name; the first character is the upper-cased first character of the lower-cased name, the rest is the lower-cased name; lower-casing the rendering gives the lower-cased name |
| `Platforms.ToStringExamples` | core/src/main/java/org/groovymc/modsdotgroovy/core/Platform.java:19-21 | `forge` and `FORGE` both render as `Forge`; the empty name renders as the empty string |
| `Platforms.Register` | core/src/main/java/org/groovymc/modsdotgroovy/core/Platform.java:63-65 | `putIfAbsent`: the keys grow by exactly the platform's name; no existing entry is replaced or changed; a new key maps to the platform; both parts of the registry invariant are preserved |
| `Platforms.Initial` | core/src/main/java/org/groovymc/modsdotgroovy/core/Platform.java:11-17 | the registry after class initialisation holds exactly the five built-in names and satisfies the registry invariant |
| `Platforms.Find` | core/src/main/java/org/groovymc/modsdotgroovy/core/Platform.java:48-58 | a miss means the key is not in the registry; a hit on a well-keyed registry carries the key's name; once the built-ins are registered the switch gives exactly what the registry holds |
| `Platforms.OfResult` | core/src/main/java/org/groovymc/modsdotgroovy/core/Platform.java:46-61 | a hit returns the found entry; with create the result is named by the lower-cased input; without create the result is UNKNOWN if and only if the lookup missed or the lower-cased name is `unknown` |
| `Platforms.OfRegistry` | core/src/main/java/org/groovymc/modsdotgroovy/core/Platform.java:53-58 | without create the registry is unchanged; existing entries are never replaced; at most the lower-cased key is added; the invariant is preserved; with create the lower-cased key afterwards maps to the returned platform |
| `Platforms.OfCaseInsensitive` | core/src/main/java/org/groovymc/modsdotgroovy/core/Platform.java:46-47 | names that lower-case alike give the same platform and the same new registry; two `of` lookups give the same platform if and only if the names lower-case alike |
| `Platforms.BuiltInAnyCase` | core/src/main/java/org/groovymc/modsdotgroovy/core/Platform.java:48-52 | a name that lower-cases to `forge`, `fabric`, `quilt` or `spigot` gives that constant and leaves the registry unchanged, with or without create |
| `Platforms.OfIdempotent` | core/src/main/java/org/groovymc/modsdotgroovy/core/Platform.java:54-58 | a second `of(name)` returns the platform of the first and leaves the registry unchanged |
| `Platforms.CreateThenFind` | core/src/main/java/org/groovymc/modsdotgroovy/core/Platform.java:28-39 | after `of(name)`, `fromRegistry(name)` returns the same platform, named by the lower-cased input |
| `Platforms.MixedCaseKeyUnreachable` | core/src/main/java/org/groovymc/modsdotgroovy/core/Platform.java:63-65 | a registered key with an upper-case letter is never the key a lookup asks for, and removing it changes no lookup result |
| `Platforms.MixedCaseConstructExample` | core/src/main/java/org/groovymc/modsdotgroovy/core/Platform.java:54-64 | after `new Platform("NeoForge")`, `fromRegistry("NeoForge")` is UNKNOWN, and `of("NeoForge")` adds the key `neoforge` beside `NeoForge` |
| `Platforms.PlatformRegistry.constructor` | core/src/main/java/org/groovymc/modsdotgroovy/core/Platform.java:11-17 | constructing the five built-ins in order, from an empty registry, yields the initial registry, which satisfies the invariant |
| `Platforms.PlatformRegistry.Construct` | core/src/main/java/org/groovymc/modsdotgroovy/core/Platform.java:63-65 | returns the platform with exactly the given name, and the registry becomes `putIfAbsent` of it |
| `Platforms.PlatformRegistry.Lookup` | core/src/main/java/org/groovymc/modsdotgroovy/core/Platform.java:46-61 | returns the platform and leaves the registry that `OfResult` and `OfRegistry` give for the old registry, keeping the invariant |
| `Platforms.PlatformRegistry.Of` | core/src/main/java/org/groovymc/modsdotgroovy/core/Platform.java:28-30 | returns a platform named by the lower-cased input, which is afterwards registered under that key; keeps the invariant |
| `Platforms.PlatformRegistry.FromRegistry` | core/src/main/java/org/groovymc/modsdotgroovy/core/Platform.java:32-39 | the registry is unchanged and the result is the lookup without create |

## Left out

- Unicode case mapping: `toLowerCase(Locale.ROOT)` and Groovy's `capitalize` handle all of Unicode. `Lower` and `Capitalize` change only ASCII letters. The library functions are foreign code.
- Object identity: Java records compare by component, but the registry stores particular objects. Here a platform is a value identified by its name, so a second `new Platform("forge")` is equal to `FORGE`, as record equality already says.
- `Serializable`, the generated `equals`/`hashCode`/`name()` accessors, and the ordering of static initialisation are left out. The registry field is initialised before the constants, and the model starts from that point.
- A `null` name makes `of` throw `NullPointerException`. Dafny strings cannot be null, so that path is not modelled.
- Thread-safety: the registry is an unsynchronised `HashMap`. Concurrent access is not modelled, and every operation here is a single sequential step.
- `Platforms.PlatformRegistry.FromRegistry` declares `modifies this` because it calls `Lookup`, as the Java calls `of(name, false)`. Its `ensures` states that the registry is unchanged.
- The repository's CI build configuration (`.teamcity/settings.kts`) is declarative data with no logic, and it is not part of this model.
