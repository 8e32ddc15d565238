/**
 * Plugin discovery (`discover_plugins` in main.py). The directory listing and
 * what each plugin module defines are given: `modules` maps a module name to
 * the classes it defines, each standing for the command its constructor builds.
 */
module Discovery {
  import opened Text
  import opened Commands

  const PluginSuffix: string := "_command.py"

  predicate Distinct(s: seq<string>) {
    forall i, j :: 0 <= i < j < |s| ==> s[i] != s[j]
  }

  /** The ordered name-to-command mapping that `discover_plugins` fills. */
  datatype Registry = Registry(names: seq<string>, commands: map<string, Command>)
  {
    /** Each name is listed once, and the listed names are the mapped ones. */
    ghost predicate Valid() {
      Distinct(names) && forall k :: k in commands <==> k in names
    }

    /** `registry[key] = command`: a new key goes last, a known key keeps its place. */
    function Register(key: string, command: Command): (r: Registry)
      requires Valid()
      ensures r.Valid()
      ensures r.commands == commands[key := command]
      ensures key in commands ==> r.names == names
      ensures key !in commands ==> r.names == names + [key]
    {
      if key in commands then Registry(names, commands[key := command])
      else Registry(names + [key], commands[key := command])
    }
  }

  const EmptyRegistry: Registry := Registry([], map[])

  /** What came of one directory entry. */
  datatype PluginLoad =
    | NotAPlugin
    | ImportFailed(moduleName: string)
    | ClassMissing(moduleName: string, className: string)
    | Loaded(key: string, command: Command)

  /** The class a plugin module must define: the key capitalized, then "Command". */
  function ExpectedClassName(key: string): string {
    Capitalize(key) + "Command"
  }

  /**
   * One iteration of the discovery loop: only names ending in "_command.py"
   * count; the key is the name without that suffix; the module must import and
   * define the expected class.
   */
  function LoadPlugin(file: string, modules: map<string, map<string, Command>>): (r: PluginLoad)
    ensures r != NotAPlugin <==> EndsWith(file, PluginSuffix)
    ensures r.Loaded? ==> file == r.key + PluginSuffix
    ensures r.Loaded? ==>
              (r.key + "_command" in modules
               && ExpectedClassName(r.key) in modules[r.key + "_command"]
               && r.command == modules[r.key + "_command"][ExpectedClassName(r.key)])
  {
    if !EndsWith(file, PluginSuffix) then NotAPlugin
    else
      var moduleName := file[..|file| - 3];
      var key := moduleName[..|moduleName| - 8];
      assert file == key + PluginSuffix && moduleName == key + "_command";
      if moduleName !in modules then ImportFailed(moduleName)
      else
        var className := ExpectedClassName(key);
        if className !in modules[moduleName] then ClassMissing(moduleName, className)
        else Loaded(key, modules[moduleName][className])
  }

  /** What loading the plugin file of a given key comes to. */
  lemma LoadPluginOfKey(key: string, modules: map<string, map<string, Command>>)
    ensures LoadPlugin(key + PluginSuffix, modules)
              == (var moduleName := key + "_command";
                  if moduleName !in modules then ImportFailed(moduleName)
                  else if ExpectedClassName(key) !in modules[moduleName] then ClassMissing(moduleName, ExpectedClassName(key))
                  else Loaded(key, modules[moduleName][ExpectedClassName(key)]))
  {
    var file := key + PluginSuffix;
    assert EndsWith(file, PluginSuffix) by {
      EndsWithIffConcat(file, PluginSuffix);
      assert file == key + PluginSuffix;
    }
    assert file[..|file| - 3] == key + "_command";
    assert (key + "_command")[..|key|] == key;
  }

  /** A loaded key names the file it came from, so two files never yield the same key. */
  lemma SameKeySameFile(f: string, g: string, modules: map<string, map<string, Command>>)
    requires LoadPlugin(f, modules).Loaded? && LoadPlugin(g, modules).Loaded?
    requires LoadPlugin(f, modules).key == LoadPlugin(g, modules).key
    ensures f == g
  {
  }

  /** What each entry of the listing comes to, in listing order. */
  function Loads(listing: seq<string>, modules: map<string, map<string, Command>>): (r: seq<PluginLoad>)
    ensures |r| == |listing|
    ensures forall i :: 0 <= i < |listing| ==> r[i] == LoadPlugin(listing[i], modules)
  {
    seq(|listing|, i requires 0 <= i < |listing| => LoadPlugin(listing[i], modules))
  }

  /** The keys of the entries that load, in order. */
  function LoadedKeys(outcomes: seq<PluginLoad>): seq<string> {
    if outcomes == [] then []
    else
      var init := LoadedKeys(outcomes[..|outcomes| - 1]);
      var last := outcomes[|outcomes| - 1];
      if last.Loaded? then init + [last.key] else init
  }

  /** A key is loaded exactly when some entry loads under it. */
  lemma {:induction false} LoadedKeysMember(outcomes: seq<PluginLoad>, k: string)
    ensures k in LoadedKeys(outcomes) <==> exists i :: 0 <= i < |outcomes| && outcomes[i].Loaded? && outcomes[i].key == k
  {
    if outcomes != [] {
      var init := outcomes[..|outcomes| - 1];
      LoadedKeysMember(init, k);
      assert forall i :: 0 <= i < |init| ==> init[i] == outcomes[i];
    }
  }

  /** Every key loaded from one listing is loaded from a listing holding all its files. */
  lemma LoadedKeysSubset(l1: seq<string>, l2: seq<string>, modules: map<string, map<string, Command>>, k: string)
    requires forall f :: f in l1 ==> f in l2
    requires k in LoadedKeys(Loads(l1, modules))
    ensures k in LoadedKeys(Loads(l2, modules))
  {
    var o1, o2 := Loads(l1, modules), Loads(l2, modules);
    LoadedKeysMember(o1, k);
    LoadedKeysMember(o2, k);
    var i :| 0 <= i < |o1| && o1[i].Loaded? && o1[i].key == k;
    assert l1[i] in l2;
    var j :| 0 <= j < |l2| && l2[j] == l1[i];
    assert o2[j] == o1[i];
  }

  /**
   * The order of the directory listing decides only the order of the keys:
   * any reordering of the same files loads the same keys.
   */
  lemma LoadedKeysAnyOrder(l1: seq<string>, l2: seq<string>, modules: map<string, map<string, Command>>)
    requires multiset(l1) == multiset(l2)
    ensures forall k :: k in LoadedKeys(Loads(l1, modules)) <==> k in LoadedKeys(Loads(l2, modules))
  {
    assert forall f :: f in l1 <==> f in multiset(l1);
    assert forall f :: f in l2 <==> f in multiset(l2);
    forall k | k in LoadedKeys(Loads(l1, modules)) ensures k in LoadedKeys(Loads(l2, modules)) {
      LoadedKeysSubset(l1, l2, modules, k);
    }
    forall k | k in LoadedKeys(Loads(l2, modules)) ensures k in LoadedKeys(Loads(l1, modules)) {
      LoadedKeysSubset(l2, l1, modules, k);
    }
  }

  /** Entries that load under the same key load the same command. */
  ghost predicate Coherent(outcomes: seq<PluginLoad>) {
    forall i, j ::
      (0 <= i < |outcomes| && 0 <= j < |outcomes| && outcomes[i].Loaded? && outcomes[j].Loaded?
       && outcomes[i].key == outcomes[j].key) ==> outcomes[i] == outcomes[j]
  }

  /** No two entries load under the same key. */
  ghost predicate KeysDistinct(outcomes: seq<PluginLoad>) {
    forall i, j :: 0 <= i < j < |outcomes| && outcomes[i].Loaded? && outcomes[j].Loaded? ==>
      outcomes[i].key != outcomes[j].key
  }

  /** A key determines its file, so loads are coherent, and distinct file names give distinct keys. */
  lemma LoadsCoherent(listing: seq<string>, modules: map<string, map<string, Command>>)
    ensures Coherent(Loads(listing, modules))
    ensures Distinct(listing) ==> KeysDistinct(Loads(listing, modules))
  {
    var outcomes := Loads(listing, modules);
    forall i, j | 0 <= i < |outcomes| && 0 <= j < |outcomes| && outcomes[i].Loaded? && outcomes[j].Loaded?
        && outcomes[i].key == outcomes[j].key
      ensures listing[i] == listing[j]
    {
      SameKeySameFile(listing[i], listing[j], modules);
    }
  }

  /** The registry holds what the entries register: every loaded key, with its command. */
  ghost predicate Reflects(registry: Registry, outcomes: seq<PluginLoad>) {
    && registry.Valid()
    && (forall k :: k in registry.commands <==> k in LoadedKeys(outcomes))
    && (forall i :: 0 <= i < |outcomes| && outcomes[i].Loaded? ==>
          outcomes[i].key in registry.commands && registry.commands[outcomes[i].key] == outcomes[i].command)
    && (KeysDistinct(outcomes) ==> registry.names == LoadedKeys(outcomes))
  }

  /** Registering what one more entry loads keeps the registry in step with the entries. */
  lemma RegisterNext(registry: Registry, outcomes: seq<PluginLoad>, outcome: PluginLoad)
    requires Reflects(registry, outcomes)
    requires Coherent(outcomes + [outcome])
    ensures Reflects(if outcome.Loaded? then registry.Register(outcome.key, outcome.command) else registry,
                     outcomes + [outcome])
  {
    var next := outcomes + [outcome];
    assert next[..|next| - 1] == outcomes;
    assert forall i :: 0 <= i < |outcomes| ==> next[i] == outcomes[i];
    if KeysDistinct(next) {
      assert KeysDistinct(outcomes);
    }
    if outcome.Loaded? {
      LoadedKeysMember(outcomes, outcome.key);
    }
  }

  /** Every prefix of coherent entries is coherent. */
  lemma CoherentPrefix(outcomes: seq<PluginLoad>, n: nat)
    requires Coherent(outcomes) && n <= |outcomes|
    ensures Coherent(outcomes[..n])
  {
    assert forall i :: 0 <= i < n ==> outcomes[..n][i] == outcomes[i];
  }

  /** One turn of the discovery loop that registers an entry, stated on the whole list of entries. */
  lemma RegisterLoaded(registry: Registry, outcomes: seq<PluginLoad>, n: nat)
    requires n < |outcomes| && outcomes[n].Loaded?
    requires Coherent(outcomes) && Reflects(registry, outcomes[..n])
    ensures Reflects(registry.Register(outcomes[n].key, outcomes[n].command), outcomes[..n + 1])
  {
    assert outcomes[..n + 1] == outcomes[..n] + [outcomes[n]];
    CoherentPrefix(outcomes, n + 1);
    RegisterNext(registry, outcomes[..n], outcomes[n]);
  }

  /** One turn of the discovery loop that skips an entry. */
  lemma SkipFailed(registry: Registry, outcomes: seq<PluginLoad>, n: nat)
    requires n < |outcomes| && !outcomes[n].Loaded?
    requires Coherent(outcomes) && Reflects(registry, outcomes[..n])
    ensures Reflects(registry, outcomes[..n + 1])
  {
    assert outcomes[..n + 1] == outcomes[..n] + [outcomes[n]];
    CoherentPrefix(outcomes, n + 1);
    RegisterNext(registry, outcomes[..n], outcomes[n]);
  }

  /** A registry that reflects the whole listing has what discovery promises. */
  lemma ReflectsListing(registry: Registry, listing: seq<string>, modules: map<string, map<string, Command>>)
    requires Reflects(registry, Loads(listing, modules))
    ensures forall k :: k in registry.commands <==> k in LoadedKeys(Loads(listing, modules))
    ensures forall i :: 0 <= i < |listing| && LoadPlugin(listing[i], modules).Loaded? ==>
              && LoadPlugin(listing[i], modules).key in registry.commands
              && registry.commands[LoadPlugin(listing[i], modules).key] == LoadPlugin(listing[i], modules).command
    ensures Distinct(listing) ==> registry.names == LoadedKeys(Loads(listing, modules))
  {
    LoadsCoherent(listing, modules);
  }

  /**
   * `discover_plugins`: a missing directory gives an empty registry;
   * otherwise every entry that loads registers its command under its key,
   * entries that fail are skipped, and the keys keep the listing's order.
   */
  method DiscoverPlugins(dirExists: bool, listing: seq<string>, modules: map<string, map<string, Command>>)
    returns (registry: Registry)
    ensures registry.Valid()
    ensures !dirExists ==> registry == EmptyRegistry
    ensures dirExists ==> forall k :: k in registry.commands <==> k in LoadedKeys(Loads(listing, modules))
    ensures dirExists ==> forall i :: 0 <= i < |listing| && LoadPlugin(listing[i], modules).Loaded? ==>
              && LoadPlugin(listing[i], modules).key in registry.commands
              && registry.commands[LoadPlugin(listing[i], modules).key] == LoadPlugin(listing[i], modules).command
    ensures dirExists && Distinct(listing) ==> registry.names == LoadedKeys(Loads(listing, modules))
  {
    registry := EmptyRegistry;
    if !dirExists {
      return;
    }
    var all := Loads(listing, modules);
    LoadsCoherent(listing, modules);
    var i := 0;
    while i < |listing|
      invariant 0 <= i <= |listing|
      invariant Reflects(registry, all[..i])
    {
      var outcome := all[i];
      if outcome.Loaded? {
        RegisterLoaded(registry, all, i);
        registry := registry.Register(outcome.key, outcome.command);
      } else {
        SkipFailed(registry, all, i);
      }
      i := i + 1;
    }
    assert all[..i] == all;
    ReflectsListing(registry, listing, modules);
  }
}
