/**
 * The interning registry of platform names (`org.groovymc.modsdotgroovy.core.Platform`).
 *
 * A platform is a record with one component, its name. Every construction of a
 * platform offers itself to a shared registry with `putIfAbsent` under the name it
 * was given. Lookup lower-cases the name, answers the four switched built-in names
 * directly, and otherwise consults the registry; on a miss it either creates (and so
 * registers) a new platform or answers `UNKNOWN`.
 *
 * The pure functions below describe one lookup as a function of the registry before
 * it; the class `PlatformRegistry` holds the registry itself and its methods update it
 * in place, proved against those functions.
 */
module Platforms {
  import opened Ascii

  datatype Option<T> = None | Some(value: T)

  /** A platform, identified by its name. */
  datatype Platform = Platform(name: string) {

    /** `toString`: the lower-cased name with its first character upper-cased. */
    function ToString(): (r: string)
      ensures |r| == |name|
      ensures |name| > 0 ==> r[0] == UpperChar(LowerChar(name[0])) && r[1..] == Lower(name)[1..]
      ensures Lower(r) == Lower(name)
    {
      LowerUndoesCapitalize(Lower(name));
      Capitalize(Lower(name))
    }
  }

  const FORGE := Platform("forge")
  const FABRIC := Platform("fabric")
  const QUILT := Platform("quilt")
  const SPIGOT := Platform("spigot")
  const UNKNOWN := Platform("unknown")

  /** The built-in platforms that lookup answers without consulting the registry. */
  const SWITCHED: seq<Platform> := [FORGE, FABRIC, QUILT, SPIGOT]

  /** The platforms created, and so registered, when the class is initialised. */
  const BUILT_INS: seq<Platform> := SWITCHED + [UNKNOWN]

  /** The registry: platforms by the name they were registered under. */
  type Registry = map<string, Platform>

  /** Every key maps to the platform carrying exactly that name. */
  ghost predicate KeysMatchNames(reg: Registry) {
    forall k :: k in reg ==> reg[k].name == k
  }

  /** Every built-in platform is registered under its own name. */
  ghost predicate BuiltInsRegistered(reg: Registry) {
    forall p :: p in BUILT_INS ==> p.name in reg && reg[p.name] == p
  }

  /** What holds of the registry once the class is initialised, and ever after. */
  ghost predicate WellFormed(reg: Registry) {
    KeysMatchNames(reg) && BuiltInsRegistered(reg)
  }

  /** The compact constructor's `putIfAbsent(name, this)`. */
  function Register(reg: Registry, p: Platform): (r: Registry)
    ensures r.Keys == reg.Keys + {p.name}
    ensures forall k :: k in reg ==> r[k] == reg[k]
    ensures p.name !in reg ==> r[p.name] == p
    ensures KeysMatchNames(reg) ==> KeysMatchNames(r)
    ensures BuiltInsRegistered(reg) ==> BuiltInsRegistered(r)
  {
    if p.name in reg then reg else reg[p.name := p]
  }

  /** The registry right after class initialisation: the five built-ins registered in order. */
  function Initial(): (r: Registry)
    ensures WellFormed(r)
    ensures r.Keys == {"forge", "fabric", "quilt", "spigot", "unknown"}
  {
    map["forge" := FORGE, "fabric" := FABRIC, "quilt" := QUILT, "spigot" := SPIGOT, "unknown" := UNKNOWN]
  }

  /**
   * The switch of `of` followed by the registry query, for an already lower-cased
   * key. Once the built-ins are registered, the switch agrees with the registry.
   */
  function Find(reg: Registry, key: string): (r: Option<Platform>)
    ensures r.None? ==> key !in reg
    ensures KeysMatchNames(reg) && r.Some? ==> r.value.name == key
    ensures BuiltInsRegistered(reg) ==> r == if key in reg then Some(reg[key]) else None
  {
    if key == "forge" then Some(FORGE)
    else if key == "fabric" then Some(FABRIC)
    else if key == "quilt" then Some(QUILT)
    else if key == "spigot" then Some(SPIGOT)
    else if key in reg then Some(reg[key])
    else None
  }

  /** The platform that `of(name, create)` returns from registry `reg`. */
  function OfResult(reg: Registry, name: string, create: bool): (r: Platform)
    ensures Find(reg, Lower(name)).Some? ==> r == Find(reg, Lower(name)).value
    ensures KeysMatchNames(reg) && create ==> r.name == Lower(name)
    ensures KeysMatchNames(reg) && !create ==>
              (r == UNKNOWN <==> Find(reg, Lower(name)).None? || Lower(name) == "unknown")
  {
    match Find(reg, Lower(name))
    case Some(p) => p
    case None => if create then Platform(Lower(name)) else UNKNOWN
  }

  /** The registry after `of(name, create)`. */
  function OfRegistry(reg: Registry, name: string, create: bool): (r: Registry)
    ensures !create ==> r == reg
    ensures forall k :: k in reg ==> k in r && r[k] == reg[k]
    ensures r.Keys <= reg.Keys + {Lower(name)}
    ensures WellFormed(reg) ==> WellFormed(r)
    ensures WellFormed(reg) && create ==>
              Lower(name) in r && r[Lower(name)] == OfResult(reg, name, create)
  {
    var key := Lower(name);
    if create && Find(reg, key).None? then Register(reg, Platform(key)) else reg
  }

  /**
   * Lookup is case-insensitive: names that lower-case alike give the same platform and
   * the same registry; and two names give the same created-or-found platform only if
   * they lower-case alike.
   */
  lemma OfCaseInsensitive(reg: Registry, a: string, b: string, create: bool)
    requires KeysMatchNames(reg)
    ensures Lower(a) == Lower(b) ==>
              OfResult(reg, a, create) == OfResult(reg, b, create) &&
              OfRegistry(reg, a, create) == OfRegistry(reg, b, create)
    ensures OfResult(reg, a, true) == OfResult(reg, b, true) <==> Lower(a) == Lower(b)
  {
  }

  /** A switched built-in name, in any casing, gives its constant and registers nothing. */
  lemma BuiltInAnyCase(reg: Registry, name: string, create: bool, p: Platform)
    requires p in SWITCHED && Lower(name) == p.name
    ensures OfResult(reg, name, create) == p
    ensures OfRegistry(reg, name, create) == reg
  {
  }

  /** A second `of(name)` returns the platform of the first and changes nothing. */
  lemma OfIdempotent(reg: Registry, name: string)
    requires WellFormed(reg)
    ensures var after := OfRegistry(reg, name, true);
            OfResult(after, name, true) == OfResult(reg, name, true) &&
            OfRegistry(after, name, true) == after
  {
  }

  /** After `of(name)`, `fromRegistry(name)` finds that same platform. */
  lemma CreateThenFind(reg: Registry, name: string)
    requires WellFormed(reg)
    ensures var after := OfRegistry(reg, name, true);
            OfResult(after, name, false) == OfResult(reg, name, true) &&
            OfResult(after, name, false).name == Lower(name)
  {
  }

  /**
   * The constructor registers a name as given, but lookup only ever asks for a
   * lower-cased key: a key with an upper-case letter in it is never reached, so
   * removing it changes no lookup.
   */
  lemma MixedCaseKeyUnreachable(reg: Registry, k: string, name: string, create: bool)
    requires k in reg && !LowerCased(k)
    ensures Lower(name) != k
    ensures OfResult(reg, name, create) == OfResult(reg - {k}, name, create)
  {
  }

  /**
   * Constructing `Platform("NeoForge")` directly registers the key "NeoForge";
   * `fromRegistry("NeoForge")` still answers UNKNOWN, and `of("NeoForge")` makes a
   * second entry under "neoforge".
   */
  lemma MixedCaseConstructExample()
    ensures var reg := Register(Initial(), Platform("NeoForge"));
            OfResult(reg, "NeoForge", false) == UNKNOWN &&
            OfRegistry(reg, "NeoForge", true).Keys == reg.Keys + {"neoforge"} &&
            "NeoForge" in OfRegistry(reg, "NeoForge", true)
  {
    var reg := Register(Initial(), Platform("NeoForge"));
    assert Lower("NeoForge") == "neoforge";
    assert reg.Keys == {"forge", "fabric", "quilt", "spigot", "unknown", "NeoForge"};
    assert Find(reg, "neoforge") == None;
  }

  /** `toString` of some platforms, whatever the casing of the name. */
  lemma ToStringExamples()
    ensures FORGE.ToString() == "Forge"
    ensures Platform("FORGE").ToString() == "Forge"
    ensures Platform("").ToString() == ""
  {
  }

  /**
   * The shared registry. Java keeps it in a static map that class initialisation fills
   * with the five built-ins; here one object stands for that static state.
   */
  class PlatformRegistry {
    var entries: Registry

    ghost predicate Valid()
      reads this
    {
      WellFormed(entries)
    }

    /** Class initialisation: the five built-in platforms are constructed in order. */
    constructor ()
      ensures Valid()
      ensures entries == Initial()
    {
      entries := map[];
      new;
      var forge := Construct("forge");
      assert entries == map["forge" := FORGE];
      var fabric := Construct("fabric");
      assert entries == map["forge" := FORGE, "fabric" := FABRIC];
      var quilt := Construct("quilt");
      assert entries == map["forge" := FORGE, "fabric" := FABRIC, "quilt" := QUILT];
      var spigot := Construct("spigot");
      assert entries == map["forge" := FORGE, "fabric" := FABRIC, "quilt" := QUILT, "spigot" := SPIGOT];
      var unknown := Construct("unknown");
    }

    /** `new Platform(name)`: the compact constructor registers the name exactly as given. */
    method Construct(name: string) returns (p: Platform)
      modifies this
      ensures p.name == name
      ensures entries == Register(old(entries), p)
    {
      p := Platform(name);
      if p.name !in entries {
        entries := entries[p.name := p];
      }
    }

    /** The private `of(name, create)`. */
    method Lookup(name: string, create: bool) returns (p: Platform)
      requires Valid()
      modifies this
      ensures Valid()
      ensures p == OfResult(old(entries), name, create)
      ensures entries == OfRegistry(old(entries), name, create)
    {
      var key := Lower(name);
      if key == "forge" {
        p := FORGE;
      } else if key == "fabric" {
        p := FABRIC;
      } else if key == "quilt" {
        p := QUILT;
      } else if key == "spigot" {
        p := SPIGOT;
      } else if key in entries {
        p := entries[key];
      } else if create {
        p := Construct(key);
      } else {
        p := UNKNOWN;
      }
    }

    /** `of(name)`: finds the platform, creating and registering it when it is new. */
    method Of(name: string) returns (p: Platform)
      requires Valid()
      modifies this
      ensures Valid()
      ensures p == OfResult(old(entries), name, true)
      ensures p.name == Lower(name) && Lower(name) in entries && entries[Lower(name)] == p
      ensures entries == OfRegistry(old(entries), name, true)
    {
      p := Lookup(name, true);
    }

    /** `fromRegistry(name)`: finds the platform or answers UNKNOWN, never registering. */
    method FromRegistry(name: string) returns (p: Platform)
      requires Valid()
      modifies this
      ensures entries == old(entries)
      ensures p == OfResult(entries, name, false)
    {
      p := Lookup(name, false);
    }
  }

  /** A client: what callers can rely on from the contracts alone. */
  method RegistryScenario(registry: PlatformRegistry)
    requires registry.Valid()
    modifies registry
  {
    var neo := registry.Of("NeoForge");
    var again := registry.FromRegistry("NEOFORGE");
    assert Lower("NeoForge") == Lower("NEOFORGE");
    assert again == neo;
  }

  /** A client: a name nobody registered is not found. */
  method MissingScenario() {
    var registry := new PlatformRegistry();
    assert Lower("Bukkit") == "bukkit" && "bukkit" !in registry.entries;
    var missing := registry.FromRegistry("Bukkit");
    assert missing == UNKNOWN;
  }
}
