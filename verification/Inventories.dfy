/**
 What a server reports about its config, and how two reports compare: the
 functions of src/balancePatches.ts and src/balanceTriage.ts over inventories.

 A key is its kind letter and its name. A plugin key keeps the folder it was
 loaded from apart from the file name, since lists of plugins hold file names.
 */
module Inventories {

  datatype Key =
    | Cvar(name: string)
    | MissingCvar(name: string)
    | Weapon(name: string)
    | File(name: string)
    | Dir(name: string)
    | Plugin(folder: string, file: string)
    | Other(name: string)

  type Inventory = map<Key, string>

  /** The hash is taken to be injective, so the fingerprint is the text that
      is hashed: one entry for each key. */
  type Fingerprint = map<Key, string>

  predicate OnList(files: set<string>, k: Key) {
    k.Plugin? && k.file in files
  }

  function FingerprintOf(inv: Inventory, versionless: set<string>): Fingerprint {
    map k | k in inv :: if OnList(versionless, k) then "present" else inv[k]
  }

  function WithoutIgnored(inv: Inventory, ignored: set<string>): Inventory {
    map k | k in inv && !OnList(ignored, k) :: inv[k]
  }

  function Added(a: Inventory, b: Inventory): set<Key> {
    b.Keys - a.Keys
  }

  function Removed(a: Inventory, b: Inventory): set<Key> {
    a.Keys - b.Keys
  }

  function Changed(a: Inventory, b: Inventory): set<Key> {
    set k | k in a && k in b && a[k] != b[k]
  }

  /** The kinds named in the site's watch list. */
  predicate IsWatchedKind(k: Key) {
    k.Cvar? || k.MissingCvar? || k.Weapon? || k.File? || k.Dir?
  }

  predicate IsCvarKind(k: Key) {
    k.Cvar? || k.MissingCvar?
  }

  function CvarNames(keys: set<Key>): set<string> {
    set k | k in keys && IsCvarKind(k) :: k.name
  }

  /** Watched keys on one side only, less the cvars that vanished or appeared. */
  function WatchedOneSided(a: Inventory, b: Inventory): set<Key> {
    var came, gone := CvarNames(Added(a, b)), CvarNames(Removed(a, b));
    set k | k in Added(a, b) + Removed(a, b) && IsWatchedKind(k)
            && !(IsCvarKind(k) && k.name in came && k.name in gone)
  }

  /** Whether `a` to `b` only adds or removes watched keys. */
  predicate WatchListOnly(a: Inventory, b: Inventory, versionless: set<string>) {
    var oneSided := Added(a, b) + Removed(a, b);
    && CvarNames(Added(a, b)) !! CvarNames(Removed(a, b))
    && (forall k | k in Changed(a, b) :: OnList(versionless, k))
    && oneSided != {}
    && forall k | k in oneSided :: IsWatchedKind(k)
  }

  /** The keys describeChanges puts in words: watched keys on one side only
      are a summary line, a versionless plugin's build is no difference. */
  function WordedKeys(a: Inventory, b: Inventory, versionless: set<string>): set<Key> {
    (Added(a, b) + Removed(a, b) - WatchedOneSided(a, b))
    + (set k | k in Changed(a, b) && !OnList(versionless, k))
  }

  /** The x: key of a cvar that is reported as c: on the other side is not a
      second difference. */
  predicate WordedOnItsCvar(a: Inventory, b: Inventory, k: Key) {
    k.MissingCvar? && k !in Changed(a, b) && (Cvar(k.name) in a || Cvar(k.name) in b)
  }

  function DifferingPlugins(a: Inventory, b: Inventory, versionless: set<string>): set<string> {
    set k | k in WordedKeys(a, b, versionless) && k.Plugin? :: k.file
  }

  predicate OnlyPluginsDiffer(a: Inventory, b: Inventory, versionless: set<string>) {
    && DifferingPlugins(a, b, versionless) != {}
    && forall k | k in WordedKeys(a, b, versionless) :: k.Plugin? || WordedOnItsCvar(a, b, k)
  }

  /** What `ignore these plugins from now on` promises, and exactly when it
      keeps it: two configs that differ in plugins only hash alike once those
      plugins are ignored if, and only if, both were read under one watch list. */
  lemma IgnoringMakesAlike(a: Inventory, b: Inventory, versionless: set<string>)
    requires OnlyPluginsDiffer(a, b, versionless)
    ensures
      var plugins := DifferingPlugins(a, b, versionless);
      (FingerprintOf(WithoutIgnored(a, plugins), versionless) == FingerprintOf(WithoutIgnored(b, plugins), versionless))
      <==> WatchedOneSided(a, b) == {}
  {
    var plugins := DifferingPlugins(a, b, versionless);
    var fa := FingerprintOf(WithoutIgnored(a, plugins), versionless);
    var fb := FingerprintOf(WithoutIgnored(b, plugins), versionless);
    if WatchedOneSided(a, b) != {} {
      var k :| k in WatchedOneSided(a, b);
      assert (k in fa) != (k in fb);
    } else {
      forall k ensures k in fa <==> k in fb {
        if k in Added(a, b) + Removed(a, b) { OneSidedIsIgnored(a, b, versionless, k); }
      }
      forall k | k in fa ensures fa[k] == fb[k] {
        assert k in Changed(a, b) && !OnList(versionless, k) ==> k in WordedKeys(a, b, versionless);
      }
    }
  }

  /** Read under two watch lists they can differ in a plugin alone and still not hash alike once it is ignored. */
  lemma IgnoringMissesWatchLists()
    ensures
      var a: Inventory := map[Plugin("", "stats.smx") := "1.2", Cvar("z_range") := "700"];
      var b: Inventory := map[Plugin("", "stats.smx") := "1.3"];
      && OnlyPluginsDiffer(a, b, {}) && DifferingPlugins(a, b, {}) == {"stats.smx"}
      && FingerprintOf(WithoutIgnored(a, {"stats.smx"}), {}) != FingerprintOf(WithoutIgnored(b, {"stats.smx"}), {})
  {
    var a: Inventory := map[Plugin("", "stats.smx") := "1.2", Cvar("z_range") := "700"];
    var b: Inventory := map[Plugin("", "stats.smx") := "1.3"];
    var plugin, cvar := Plugin("", "stats.smx"), Cvar("z_range");
    assert Added(a, b) == {} && Removed(a, b) == {cvar} && Changed(a, b) == {plugin};
    assert CvarNames(Added(a, b)) == {};
    assert cvar in WatchedOneSided(a, b);
    assert WordedKeys(a, b, {}) == {plugin};
    assert plugin.file in DifferingPlugins(a, b, {});
    IgnoringMakesAlike(a, b, {});
  }

  lemma OneSidedIsIgnored(a: Inventory, b: Inventory, versionless: set<string>, k: Key)
    requires OnlyPluginsDiffer(a, b, versionless) && WatchedOneSided(a, b) == {}
    requires k in Added(a, b) + Removed(a, b)
    ensures OnList(DifferingPlugins(a, b, versionless), k)
  {
    assert k in WordedKeys(a, b, versionless);
    if !k.Plugin? {
      var c := OneSidedIsWorded(a, b, versionless, k);
    }
  }

  /** A vanished or appeared cvar is worded on its c: key. */
  lemma OneSidedIsWorded(a: Inventory, b: Inventory, versionless: set<string>, k: Key) returns (c: Key)
    requires WatchedOneSided(a, b) == {}
    requires k in Added(a, b) + Removed(a, b) && !k.Plugin?
    ensures c in WordedKeys(a, b, versionless) && !c.Plugin? && !WordedOnItsCvar(a, b, c)
  {
    assert k !in WatchedOneSided(a, b);
    c := k;
    if k.MissingCvar? {
      assert k.name in CvarNames(Added(a, b)) && k.name in CvarNames(Removed(a, b));
      var other := if k in Added(a, b) then Removed(a, b) else Added(a, b);
      c :| c in other && IsCvarKind(c) && c.name == k.name;
    }
  }

  /** A fingerprint ignores the build of a versionless plugin, and nothing else. */
  lemma FingerprintsAgree(a: Inventory, b: Inventory, versionless: set<string>)
    ensures FingerprintOf(a, versionless) == FingerprintOf(b, versionless)
       <==> a.Keys == b.Keys && forall k | k in Changed(a, b) :: OnList(versionless, k)
  {
    var fa, fb := FingerprintOf(a, versionless), FingerprintOf(b, versionless);
    assert fa.Keys == a.Keys && fb.Keys == b.Keys;
    if fa == fb {
      forall k | k in Changed(a, b) ensures OnList(versionless, k) {
        assert fa[k] == fb[k];
      }
    }
    if a.Keys == b.Keys && forall k | k in Changed(a, b) :: OnList(versionless, k) {
      forall k | k in fa ensures fa[k] == fb[k] {
        assert k in Changed(a, b) || a[k] == b[k];
      }
    }
  }
}
