/** The plugin manager: discovery, loading and settings over the registry and the state file
    (crates/omni-plugin/src/manager.rs:98-310). */
module PluginManager {
  import opened Common
  import opened PluginRegistry

  datatype Outcome = Done | NotFound | AlreadyLoaded | IsDisabled | PackageError | SandboxError | SaveError

  datatype Manager = Manager(registry: Registry, running: map<Id, Package>, file: StateFile)

  // ---- operations; `package`, `sandboxOk`, `filesOk` and `saveOk` are what disk and sandbox answer

  function RegisterAll(r: Registry, packages: seq<Package>): Registry {
    if packages == [] then r else Register(RegisterAll(r, packages[..|packages| - 1]), packages[|packages| - 1])
  }

  function Discover(m: Manager, packages: seq<Package>): Manager {
    m.(registry := LoadState(RegisterAll(m.registry, packages), m.file))
  }

  function Load(m: Manager, id: Id, package: Option<Package>, sandboxOk: bool): (Manager, Outcome) {
    if id in m.running then (m, AlreadyLoaded)
    else if id !in m.registry.plugins then (m, NotFound)
    else if !m.registry.plugins[id].enabled then (m, IsDisabled)
    else
      var r := SetState(m.registry, id, Loading);
      if package.None? then (m.(registry := r), PackageError)
      else if !sandboxOk then (m.(registry := SetState(r, id, Error)), SandboxError)
      else (m.(registry := SetState(r, id, Loaded), running := m.running[id := package.value]), Done)
  }

  function Unload(m: Manager, id: Id): (Manager, Outcome) {
    if id !in m.running then (m, NotFound)
    else (m.(registry := SetState(m.registry, id, Stopped), running := m.running - {id}),
          if id in m.registry.plugins then Done else NotFound)
  }

  function Save(m: Manager, saveOk: bool): (Manager, Outcome) {
    if saveOk then (m.(file := SaveState(m.registry)), Done) else (m, SaveError)
  }

  function Install(m: Manager, package: Option<Package>, saveOk: bool): (Manager, Outcome) {
    if package.None? then (m, PackageError)
    else Save(m.(registry := Register(m.registry, package.value)), saveOk)
  }

  function Uninstall(m: Manager, id: Id, filesOk: bool, saveOk: bool): (Manager, Outcome) {
    var m1 := Unload(m, id).0;
    if id !in m1.registry.plugins then (m1, NotFound)
    else
      var m2 := m1.(registry := Unregister(m1.registry, id));
      if !filesOk then (m2, PackageError) else Save(m2, saveOk)
  }

  function EnablePlugin(m: Manager, id: Id, saveOk: bool): (Manager, Outcome) {
    if id !in m.registry.plugins then (m, NotFound)
    else Save(m.(registry := Enable(m.registry, id)), saveOk)
  }

  function DisablePlugin(m: Manager, id: Id, saveOk: bool): (Manager, Outcome) {
    var m1 := Unload(m, id).0;
    if id !in m1.registry.plugins then (m1, NotFound)
    else Save(m1.(registry := Disable(m1.registry, id)), saveOk)
  }

  function UpdateConfig(m: Manager, id: Id, config: Config, saveOk: bool, package: Option<Package>, sandboxOk: bool)
    : (Manager, Outcome)
  {
    if id !in m.registry.plugins then (m, NotFound)
    else
      var (m1, o) := Save(m.(registry := SetConfig(m.registry, id, config)), saveOk);
      if o != Done || id !in m1.running then (m1, o)
      else
        var (m2, o2) := Unload(m1, id);
        if o2 != Done then (m2, o2) else Load(m2, id, package, sandboxOk)
  }

  class PluginManager {
    const registry: PluginRegistry
    var running: map<Id, Package>
    var file: StateFile

    function State(): Manager
      reads this, registry
    {
      Manager(registry.State(), running, file)
    }

    constructor (file: StateFile)
      ensures fresh(registry) && State() == Manager(EMPTY, map[], file)
    {
      registry := new PluginRegistry();
      running := map[];
      this.file := file;
    }

    method DiscoverPlugins(packages: seq<Package>) returns (discovered: seq<Id>)
      modifies registry
      ensures State() == Discover(old(State()), packages)
      ensures |discovered| == |packages| && forall i :: 0 <= i < |packages| ==> discovered[i] == packages[i].id
    {
      discovered := [];
      for i := 0 to |packages|
        invariant registry.State() == RegisterAll(old(registry.State()), packages[..i])
        invariant |discovered| == i && forall j :: 0 <= j < i ==> discovered[j] == packages[j].id
      {
        assert packages[..i + 1][..i] == packages[..i];
        registry.RegisterPackage(packages[i]);
        discovered := discovered + [packages[i].id];
      }
      assert packages[..|packages|] == packages;
      var _ := registry.ReadState(file);
    }

    method LoadPlugin(id: Id, package: Option<Package>, sandboxOk: bool) returns (outcome: Outcome)
      modifies `running, registry
      ensures (State(), outcome) == Load(old(State()), id, package, sandboxOk)
    {
      if id in running {
        return AlreadyLoaded;
      }
      if id !in registry.plugins {
        return NotFound;
      }
      if !registry.plugins[id].enabled {
        return IsDisabled;
      }
      var _ := registry.UpdateState(id, Loading);
      if package.None? {
        return PackageError;
      }
      if !sandboxOk {
        var _ := registry.UpdateState(id, Error);
        return SandboxError;
      }
      running := running[id := package.value];
      var _ := registry.UpdateState(id, Loaded);
      outcome := Done;
    }

    method UnloadPlugin(id: Id) returns (outcome: Outcome)
      modifies `running, registry
      ensures (State(), outcome) == Unload(old(State()), id)
    {
      if id !in running {
        return NotFound;
      }
      running := running - {id};
      var found := registry.UpdateState(id, Stopped);
      outcome := if found then Done else NotFound;
    }

    method SaveRegistry(saveOk: bool) returns (outcome: Outcome)
      modifies `file
      ensures (State(), outcome) == Save(old(State()), saveOk)
    {
      if !saveOk {
        return SaveError;
      }
      file := registry.WriteState();
      outcome := Done;
    }

    method InstallPlugin(package: Option<Package>, saveOk: bool) returns (outcome: Outcome)
      modifies `file, registry
      ensures (State(), outcome) == Install(old(State()), package, saveOk)
    {
      if package.None? {
        return PackageError;
      }
      registry.RegisterPackage(package.value);
      outcome := SaveRegistry(saveOk);
    }

    method UninstallPlugin(id: Id, filesOk: bool, saveOk: bool) returns (outcome: Outcome)
      modifies this, registry
      ensures (State(), outcome) == Uninstall(old(State()), id, filesOk, saveOk)
    {
      var _ := UnloadPlugin(id);
      var found := registry.UnregisterPlugin(id);
      if !found {
        return NotFound;
      }
      if !filesOk {
        return PackageError;
      }
      outcome := SaveRegistry(saveOk);
    }

    method Enable(id: Id, saveOk: bool) returns (outcome: Outcome)
      modifies `file, registry
      ensures (State(), outcome) == EnablePlugin(old(State()), id, saveOk)
    {
      var found := registry.EnablePlugin(id);
      if !found {
        return NotFound;
      }
      outcome := SaveRegistry(saveOk);
    }

    method Disable(id: Id, saveOk: bool) returns (outcome: Outcome)
      modifies this, registry
      ensures (State(), outcome) == DisablePlugin(old(State()), id, saveOk)
    {
      var _ := UnloadPlugin(id);
      var found := registry.DisablePlugin(id);
      if !found {
        return NotFound;
      }
      outcome := SaveRegistry(saveOk);
    }

    method ChangeConfig(id: Id, config: Config, saveOk: bool, package: Option<Package>, sandboxOk: bool)
      returns (outcome: Outcome)
      modifies this, registry
      ensures (State(), outcome) == UpdateConfig(old(State()), id, config, saveOk, package, sandboxOk)
    {
      var found := registry.UpdateConfig(id, config);
      if !found {
        return NotFound;
      }
      outcome := SaveRegistry(saveOk);
      if outcome == Done && id in running {
        outcome := UnloadPlugin(id);
        if outcome == Done {
          outcome := LoadPlugin(id, package, sandboxOk);
        }
      }
    }
  }

  // ---- runs

  datatype Call =
    | CallDiscover(packages: seq<Package>)
    | CallLoad(id: Id, package: Option<Package>, sandboxOk: bool)
    | CallUnload(id: Id)
    | CallInstall(package: Option<Package>, saveOk: bool)
    | CallUninstall(id: Id, filesOk: bool, saveOk: bool)
    | CallEnable(id: Id, saveOk: bool)
    | CallDisable(id: Id, saveOk: bool)
    | CallUpdateConfig(id: Id, config: Config, saveOk: bool, package: Option<Package>, sandboxOk: bool)
  {
    predicate SavesWork() {
      (CallInstall? || CallUninstall? || CallEnable? || CallDisable? || CallUpdateConfig?) ==> saveOk
    }
  }

  function Perform(m: Manager, c: Call): (Manager, Outcome) {
    match c
    case CallDiscover(ps) => (Discover(m, ps), Done)
    case CallLoad(id, p, ok) => Load(m, id, p, ok)
    case CallUnload(id) => Unload(m, id)
    case CallInstall(p, ok) => Install(m, p, ok)
    case CallUninstall(id, filesOk, ok) => Uninstall(m, id, filesOk, ok)
    case CallEnable(id, ok) => EnablePlugin(m, id, ok)
    case CallDisable(id, ok) => DisablePlugin(m, id, ok)
    case CallUpdateConfig(id, config, ok, p, sandboxOk) => UpdateConfig(m, id, config, ok, p, sandboxOk)
  }

  function Do(m: Manager, c: Call): Manager { Perform(m, c).0 }

  function DoAll(file: StateFile, calls: seq<Call>): Manager {
    if calls == [] then Manager(EMPTY, map[], file)
    else Do(DoAll(file, calls[..|calls| - 1]), calls[|calls| - 1])
  }

  // ---- discovery and settings

  // The last package with this id, which is the one that wins.
  function LastPackage(packages: seq<Package>, id: Id): Option<Package> {
    if packages == [] then None
    else if packages[|packages| - 1].id == id then Some(packages[|packages| - 1])
    else LastPackage(packages[..|packages| - 1], id)
  }

  lemma {:induction false} RegisterAllEntries(r: Registry, packages: seq<Package>, id: Id)
    ensures var t := RegisterAll(r, packages);
            var p := LastPackage(packages, id);
            && (id in t.plugins <==> id in r.plugins || p.Some?)
            && (id in t.plugins ==> t.plugins[id] == if p.Some? then Fresh(p.value) else r.plugins[id])
            && (p.Some? ==> p.value in packages && p.value.id == id)
  {
    if packages != [] {
      RegisterAllEntries(r, packages[..|packages| - 1], id);
    }
  }

  /** The settings the state file holds for an id. */
  function SavedFor(file: StateFile, id: Id): Option<Settings> {
    if file.Contents? && id in file.settings then Some(file.settings[id]) else None
  }

  /** Discovery re-registers what it finds, so it keeps the settings of a registered plugin exactly when
      the state file agrees with them or, lacking the id, the package found (if any) has them as default. */
  lemma DiscoverKeepsSettingsIff(m: Manager, packages: seq<Package>, id: Id)
    requires id in m.registry.plugins
    ensures var now := m.registry.plugins[id].Settings();
            var t := Discover(m, packages).registry;
            && id in t.plugins
            && (t.plugins[id].Settings() == now <==>
                  match SavedFor(m.file, id)
                  case Some(s) => s == now
                  case None => LastPackage(packages, id).Or((p: Package) => now == Saved(true, p.defaultConfig), true))
  {
    RegisterAllEntries(m.registry, packages, id);
  }

  ghost predicate IsLoaded(m: Manager, id: Id) { id in m.registry.plugins && m.registry.plugins[id].state == Loaded }

  /** The file and the registry agree on an id: it is saved with its settings, or was never saved and is
      enabled, or is not registered. */
  ghost predicate SavedOk(m: Manager, id: Id) {
    id in m.registry.plugins ==>
      match SavedFor(m.file, id)
      case Some(s) => m.registry.plugins[id].Settings() == s
      case None => m.registry.plugins[id].enabled
  }

  ghost predicate SettingsSaved(m: Manager) { forall id :: SavedOk(m, id) }

  ghost predicate RunningOk(m: Manager) {
    && (forall id :: id in m.running ==> id in m.registry.plugins && m.registry.plugins[id].enabled)
    && (forall id :: IsLoaded(m, id) ==> id in m.running)
  }

  ghost predicate Good(m: Manager) { SettingsSaved(m) && RunningOk(m) }

  lemma DiscoverOne(m: Manager, packages: seq<Package>, id: Id)
    requires SavedOk(m, id)
    ensures var t := Discover(m, packages);
            && SavedOk(t, id)
            && (id in m.registry.plugins ==>
                  id in t.registry.plugins && t.registry.plugins[id].enabled == m.registry.plugins[id].enabled)
            && (IsLoaded(t, id) ==> IsLoaded(m, id))
  {
    RegisterAllEntries(m.registry, packages, id);
  }

  lemma DiscoverKeeps(m: Manager, packages: seq<Package>)
    requires Good(m)
    ensures Good(Discover(m, packages))
  {
    var t := Discover(m, packages);
    forall id
      ensures SavedOk(t, id)
      ensures id in t.running ==> id in t.registry.plugins && t.registry.plugins[id].enabled
      ensures IsLoaded(t, id) ==> id in t.running
    {
      assert SavedOk(m, id);
      DiscoverOne(m, packages, id);
    }
  }

  // Only settings and file matter for their agreement.
  lemma SameSettings(m: Manager, t: Manager)
    requires SettingsSaved(m) && t.file == m.file
    requires forall id :: id in t.registry.plugins ==>
               id in m.registry.plugins && t.registry.plugins[id].Settings() == m.registry.plugins[id].Settings()
    ensures SettingsSaved(t)
  {
    forall id ensures SavedOk(t, id) {
      assert SavedOk(m, id);
    }
  }

  lemma UnloadKeeps(m: Manager, id: Id)
    requires Good(m)
    ensures var t := Unload(m, id).0;
            && Good(t)
            && id !in t.running && t.file == m.file && t.registry.plugins.Keys == m.registry.plugins.Keys
            && (id in t.registry.plugins ==> t.registry.plugins[id].state != Loaded)
  {
    SameSettings(m, Unload(m, id).0);
  }

  lemma LoadKeeps(m: Manager, id: Id, package: Option<Package>, sandboxOk: bool)
    requires Good(m)
    ensures Good(Load(m, id, package, sandboxOk).0)
  {
    SameSettings(m, Load(m, id, package, sandboxOk).0);
  }

  // After a save the file is a snapshot.
  lemma SavingAgrees(m: Manager)
    ensures SettingsSaved(Save(m, true).0)
  {
  }

  lemma InstallKeeps(m: Manager, package: Package)
    requires Good(m)
    ensures Good(Install(m, Some(package), true).0)
  {
    SavingAgrees(m.(registry := Register(m.registry, package)));
  }

  lemma UninstallKeeps(m: Manager, id: Id, filesOk: bool)
    requires Good(m)
    ensures Good(Uninstall(m, id, filesOk, true).0)
  {
    UnloadKeeps(m, id);
    var m1 := Unload(m, id).0;
    var m2 := m1.(registry := Unregister(m1.registry, id));
    SavingAgrees(m2);
    SameSettings(m1, m2);
  }

  lemma EnableKeeps(m: Manager, id: Id)
    requires Good(m)
    ensures Good(EnablePlugin(m, id, true).0)
  {
    SavingAgrees(m.(registry := Enable(m.registry, id)));
  }

  lemma DisableKeeps(m: Manager, id: Id)
    requires Good(m)
    ensures Good(DisablePlugin(m, id, true).0)
  {
    UnloadKeeps(m, id);
    var m1 := Unload(m, id).0;
    SavingAgrees(m1.(registry := Disable(m1.registry, id)));
  }

  lemma UpdateKeeps(m: Manager, id: Id, config: Config, p: Option<Package>, ok: bool)
    requires Good(m)
    ensures Good(UpdateConfig(m, id, config, true, p, ok).0)
  {
    if id in m.registry.plugins {
      var m0 := m.(registry := SetConfig(m.registry, id, config));
      var m1 := Save(m0, true).0;
      SavingAgrees(m0);
      assert Good(m1);
      UnloadKeeps(m1, id);
      LoadKeeps(Unload(m1, id).0, id, p, ok);
    }
  }

  lemma CallKeeps(m: Manager, c: Call)
    requires Good(m) && c.SavesWork()
    ensures Good(Do(m, c))
  {
    match c
    case CallDiscover(ps) => DiscoverKeeps(m, ps);
    case CallLoad(id, p, ok) => LoadKeeps(m, id, p, ok);
    case CallUnload(id) => UnloadKeeps(m, id);
    case CallInstall(p, ok) => if p.Some? { InstallKeeps(m, p.value); }
    case CallUninstall(id, filesOk, ok) => UninstallKeeps(m, id, filesOk);
    case CallEnable(id, ok) => EnableKeeps(m, id);
    case CallDisable(id, ok) => DisableKeeps(m, id);
    case CallUpdateConfig(id, config, ok, p, sandboxOk) => UpdateKeeps(m, id, config, p, sandboxOk);
  }

  /** After any run of manager calls whose saves succeed, from any state file: a running plugin is
      registered and enabled, an entry in state Loaded is running, and the file agrees with the registry. */
  lemma {:induction false} AlwaysAgrees(file: StateFile, calls: seq<Call>)
    requires forall i :: 0 <= i < |calls| ==> calls[i].SavesWork()
    ensures SettingsSaved(DoAll(file, calls)) && RunningOk(DoAll(file, calls))
  {
    if calls != [] {
      var n := |calls| - 1;
      AlwaysAgrees(file, calls[..n]);
      CallKeeps(DoAll(file, calls[..n]), calls[n]);
    }
  }

  /** After any such run a further discovery keeps the enabled flag of every registered plugin, although
      registering resets it, and keeps its configuration exactly when it was ever saved, is not found
      again, or is found with that configuration as its default. */
  lemma SettingsSurviveIff(file: StateFile, calls: seq<Call>, packages: seq<Package>, id: Id)
    requires forall i :: 0 <= i < |calls| ==> calls[i].SavesWork()
    requires id in DoAll(file, calls).registry.plugins
    ensures var m := DoAll(file, calls);
            var t := Discover(m, packages);
            id in t.registry.plugins &&
            var before, after := m.registry.plugins[id], t.registry.plugins[id];
            && after.enabled == before.enabled
            && (after.config == before.config <==>
                  || SavedFor(m.file, id).Some?
                  || LastPackage(packages, id).Or((p: Package) => p.defaultConfig == before.config, true))
  {
    AlwaysAgrees(file, calls);
    assert SavedOk(DoAll(file, calls), id);
    RegisterAllEntries(DoAll(file, calls).registry, packages, id);
  }

  /** Only the settings survive: a plugin found again while it runs is set back to Discovered, so
      discovery keeps "running plugins are in state Loaded" exactly when it finds none that runs. */
  lemma DiscoveryForgetsLoadedIff(m: Manager, packages: seq<Package>)
    requires forall id :: id in m.running ==> IsLoaded(m, id)
    ensures (forall id :: id in m.running ==> IsLoaded(Discover(m, packages), id)) <==>
            (forall id :: id in m.running ==> LastPackage(packages, id).None?)
  {
    forall id | id in m.running
      ensures IsLoaded(Discover(m, packages), id) <==> LastPackage(packages, id).None?
    {
      RegisterAllEntries(m.registry, packages, id);
    }
  }

  /** When a save fails the change is lost at the next discovery of the plugin. */
  lemma FailedSaveIsForgotten(m: Manager, package: Package)
    requires SettingsSaved(m)
    requires package.id in m.registry.plugins && m.registry.plugins[package.id].enabled
    ensures var off := DisablePlugin(m, package.id, false).0;
            && !off.registry.plugins[package.id].enabled
            && Discover(off, [package]).registry.plugins[package.id].enabled
  {
    var off := DisablePlugin(m, package.id, false).0;
    assert SavedOk(m, package.id);
    RegisterAllEntries(off.registry, [package], package.id);
  }

  // ---- what each call does, told from the state before it

  /** Every other plugin is as it was, registered and running. */
  ghost predicate OthersKept(m: Manager, t: Manager, id: Id) {
    forall j :: j != id ==>
      && (j in t.registry.plugins <==> j in m.registry.plugins)
      && (j in m.registry.plugins ==> t.registry.plugins[j] == m.registry.plugins[j])
      && (j in t.running <==> j in m.running) && (j in m.running ==> t.running[j] == m.running[j])
  }

  /** The file lists the enabled flag and configuration of exactly the registered plugins. */
  ghost predicate Snapshot(t: Manager) {
    && t.file.Contents? && t.file.settings.Keys == t.registry.plugins.Keys
    && forall id :: id in t.registry.plugins ==>
         t.file.settings[id] == Saved(t.registry.plugins[id].enabled, t.registry.plugins[id].config)
  }

  ghost predicate SavedIf(m: Manager, t: Manager, ok: bool) { if ok then Snapshot(t) else t.file == m.file }

  /** Registered and enabled. */
  predicate Startable(m: Manager, id: Id) { id in m.registry.plugins && m.registry.plugins[id].enabled }

  /** Loading succeeds exactly when the plugin is registered, enabled and not running and package and sandbox
      answer. It then runs with that package in state Loaded. A failure starts nothing, and only one of the
      package or the sandbox leaves a trace: state Loading or Error. */
  lemma LoadOutcome(m: Manager, id: Id, package: Option<Package>, sandboxOk: bool)
    ensures var (t, o) := Perform(m, CallLoad(id, package, sandboxOk));
            && (o == Done <==> Startable(m, id) && id !in m.running && package.Some? && sandboxOk)
            && (o == AlreadyLoaded <==> id in m.running)
            && (o == NotFound <==> id !in m.running && id !in m.registry.plugins)
            && (o == IsDisabled <==> id !in m.running && id in m.registry.plugins && !m.registry.plugins[id].enabled)
            && (o == PackageError <==> id !in m.running && Startable(m, id) && package.None?)
            && OthersKept(m, t, id) && t.file == m.file && t.registry.index == m.registry.index
            && (o == Done ==> id in t.running && t.running[id] == package.value)
            && (o != Done ==> t.running == m.running)
            && (o in {AlreadyLoaded, NotFound, IsDisabled} ==> t == m)
            && (o in {Done, PackageError, SandboxError} ==>
                  && id in t.registry.plugins
                  && t.registry.plugins[id] == m.registry.plugins[id].(state :=
                       if o == Done then Loaded else if o == PackageError then Loading else Error))
  {
  }

  /** After an unload the plugin does not run, and it is Stopped if it did; it reports Done exactly when
      there was a registered plugin to stop. */
  lemma UnloadOutcome(m: Manager, id: Id)
    ensures var (t, o) := Perform(m, CallUnload(id));
            && id !in t.running && OthersKept(m, t, id) && t.file == m.file && t.registry.index == m.registry.index
            && (o == Done <==> id in m.running && id in m.registry.plugins) && (o != Done ==> o == NotFound)
            && (if o == Done then id in t.registry.plugins
                                  && t.registry.plugins[id] == m.registry.plugins[id].(state := Stopped)
                else t.registry == m.registry)
  {
  }

  /** Installing a readable package registers it afresh: enabled, with its own defaults, Discovered. A plugin
      that runs goes on running. */
  lemma InstallOutcome(m: Manager, package: Option<Package>, saveOk: bool)
    ensures var (t, o) := Perform(m, CallInstall(package, saveOk));
            match package
            case None => t == m && o == PackageError
            case Some(p) =>
              && o == (if saveOk then Done else SaveError) && SavedIf(m, t, saveOk)
              && OthersKept(m, t, p.id) && t.running == m.running
              && p.id in t.registry.plugins
              && t.registry.plugins[p.id] == Entry(p, Discovered, true, p.defaultConfig)
  {
  }

  /** Uninstalling stops and forgets a registered plugin, also when removing its files or saving fails. */
  lemma UninstallOutcome(m: Manager, id: Id, filesOk: bool, saveOk: bool)
    ensures var (t, o) := Perform(m, CallUninstall(id, filesOk, saveOk));
            && id !in t.running && id !in t.registry.plugins && OthersKept(m, t, id)
            && o == (if id !in m.registry.plugins then NotFound
                     else if !filesOk then PackageError else if saveOk then Done else SaveError)
            && SavedIf(m, t, o == Done)
  {
  }

  /** Enabling sets the flag, also when saving fails, and takes a plugin out of Disabled only. */
  lemma EnableOutcome(m: Manager, id: Id, saveOk: bool)
    ensures var (t, o) := Perform(m, CallEnable(id, saveOk));
            if id !in m.registry.plugins then t == m && o == NotFound
            else
              && o == (if saveOk then Done else SaveError) && SavedIf(m, t, saveOk)
              && OthersKept(m, t, id) && t.running == m.running && id in t.registry.plugins
              && var e := m.registry.plugins[id];
              && t.registry.plugins[id]
                 == Entry(e.pkg, if e.state == Disabled then Discovered else e.state, true, e.config)
  {
  }

  /** Disabling stops the plugin, registered or not, and clears the flag, also when saving fails. */
  lemma DisableOutcome(m: Manager, id: Id, saveOk: bool)
    ensures var (t, o) := Perform(m, CallDisable(id, saveOk));
            && id !in t.running && OthersKept(m, t, id)
            && if id !in m.registry.plugins then t.registry == m.registry && t.file == m.file && o == NotFound
               else
                 && o == (if saveOk then Done else SaveError) && SavedIf(m, t, saveOk) && id in t.registry.plugins
                 && var e := m.registry.plugins[id];
                 && t.registry.plugins[id] == Entry(e.pkg, Disabled, false, e.config)
  {
  }

  /** A configuration is stored, also when saving fails, and nothing more if the plugin does not run or
      saving fails. */
  lemma ConfigOutcome(m: Manager, id: Id, config: Config, saveOk: bool, package: Option<Package>, sandboxOk: bool)
    ensures var (t, o) := Perform(m, CallUpdateConfig(id, config, saveOk, package, sandboxOk));
            if id !in m.registry.plugins then t == m && o == NotFound
            else
              && SavedIf(m, t, saveOk) && OthersKept(m, t, id) && id in t.registry.plugins
              && var e, f := m.registry.plugins[id], t.registry.plugins[id];
              && f == e.(config := config, state := f.state)
              && (!saveOk || id !in m.running ==>
                    o == (if saveOk then Done else SaveError) && t.running == m.running && f.state == e.state)
  {
  }

  /** A running plugin is reloaded after the save, and a reload that fails leaves it stopped. */
  lemma ReloadOutcome(m: Manager, id: Id, config: Config, package: Option<Package>, sandboxOk: bool)
    requires id in m.registry.plugins && id in m.running
    ensures var (t, o) := Perform(m, CallUpdateConfig(id, config, true, package, sandboxOk));
            var enabled := m.registry.plugins[id].enabled;
            && id in t.registry.plugins
            && o == (if !enabled then IsDisabled else if package.None? then PackageError
                     else if sandboxOk then Done else SandboxError)
            && t.registry.plugins[id].state == (if !enabled then Stopped else if package.None? then Loading
                                                else if sandboxOk then Loaded else Error)
            && (id in t.running <==> o == Done) && (o == Done ==> t.running[id] == package.value)
  {
  }

  /** Discovery registers exactly what it finds, the last package for each id, with the saved settings if there
      are any and the defaults of the package otherwise; nothing starts or stops. */
  lemma DiscoverOutcome(m: Manager, packages: seq<Package>, id: Id)
    ensures var (t, o) := Perform(m, CallDiscover(packages));
            var found := LastPackage(packages, id);
            && o == Done && t.running == m.running && t.file == m.file
            && (id in t.registry.plugins <==> id in m.registry.plugins || found.Some?)
            && (id in t.registry.plugins ==>
                  var e := if found.None? then m.registry.plugins[id]
                           else Entry(found.value, Discovered, true, found.value.defaultConfig);
                  t.registry.plugins[id] == match SavedFor(m.file, id)
                                            case Some(s) => e.(enabled := s.enabled, config := s.config)
                                            case None => e)
  {
    RegisterAllEntries(m.registry, packages, id);
  }

  ghost predicate LastAt(packages: seq<Package>, i: nat, id: Id, p: Package) {
    i < |packages| && packages[i] == p && p.id == id && forall j :: i < j < |packages| ==> packages[j].id != id
  }

  /** `LastPackage` is what its name says. */
  lemma {:induction false} LastPackageIff(packages: seq<Package>, id: Id, p: Package)
    ensures LastPackage(packages, id) == Some(p) <==> exists i: nat :: LastAt(packages, i, id, p)
  {
    if packages != [] {
      var n := |packages| - 1;
      LastPackageIff(packages[..n], id, p);
      assert packages[n].id == id ==> LastAt(packages, n, id, packages[n]);
      assert forall i: nat :: i < n ==>
        (LastAt(packages, i, id, p) <==> LastAt(packages[..n], i, id, p) && packages[n].id != id);
    }
  }

  // ---- what runs, told from the calls made

  /** The package that this call starts the plugin with, if it does: a load of a plugin that can start, or the
      reload of a running one after its configuration was changed and saved. */
  function Starting(m: Manager, c: Call, id: Id): Option<Package> {
    match c
    case CallLoad(x, package, sandboxOk) =>
      if x == id && Startable(m, id) && id !in m.running && sandboxOk then package else None
    case CallUpdateConfig(x, _, saveOk, package, sandboxOk) =>
      if x == id && saveOk && Startable(m, id) && id in m.running && sandboxOk then package else None
    case _ => None
  }

  /** The call unloads the plugin: an unload, uninstall or disable, or a reload that fails. */
  predicate Stops(m: Manager, c: Call, id: Id) {
    match c
    case CallUnload(x) => x == id
    case CallUninstall(x, _, _) => x == id
    case CallDisable(x, _) => x == id
    case CallUpdateConfig(x, _, saveOk, _, _) =>
      x == id && saveOk && id in m.registry.plugins && id in m.running && Starting(m, c, id).None?
    case _ => false
  }

  lemma RunningStep(m: Manager, c: Call, id: Id)
    ensures var t := Perform(m, c).0;
            && (id in t.running <==> Starting(m, c, id).Some? || (id in m.running && !Stops(m, c, id)))
            && (id in t.running ==>
                  t.running[id] == if Starting(m, c, id).Some? then Starting(m, c, id).value else m.running[id])
  {
  }

  /** Call i started the plugin with p, and no later call started or stopped it. */
  ghost predicate RunsSince(file: StateFile, calls: seq<Call>, i: nat, id: Id, p: Package) {
    && i < |calls| && Starting(DoAll(file, calls[..i]), calls[i], id) == Some(p)
    && forall j :: i < j < |calls| ==> LeavesBe(file, calls, j, id)
  }

  ghost predicate LeavesBe(file: StateFile, calls: seq<Call>, j: nat, id: Id)
    requires j < |calls|
  {
    var m := DoAll(file, calls[..j]);
    Starting(m, calls[j], id).None? && !Stops(m, calls[j], id)
  }

  lemma RunsSinceShorter(file: StateFile, calls: seq<Call>, i: nat, id: Id, p: Package)
    requires i < |calls| - 1
    ensures RunsSince(file, calls, i, id, p) <==>
            RunsSince(file, calls[..|calls| - 1], i, id, p) && LeavesBe(file, calls, |calls| - 1, id)
  {
    var n := |calls| - 1;
    assert calls[..n][..i] == calls[..i];
    forall j | i < j < n ensures LeavesBe(file, calls[..n], j, id) <==> LeavesBe(file, calls, j, id) {
      assert calls[..n][..j] == calls[..j];
    }
  }

  /** After any run of calls, whatever fails in it, a plugin runs with a package exactly when some call started
      it with that package and none since started or stopped it. */
  lemma {:induction false} RunningIff(file: StateFile, calls: seq<Call>, id: Id, p: Package)
    ensures var running := DoAll(file, calls).running;
            id in running && running[id] == p <==> exists i: nat :: RunsSince(file, calls, i, id, p)
  {
    if calls != [] {
      var n := |calls| - 1;
      var m := DoAll(file, calls[..n]);
      RunningIff(file, calls[..n], id, p);
      RunningStep(m, calls[n], id);
      if i: nat :| RunsSince(file, calls, i, id, p) {
        if i < n {
          RunsSinceShorter(file, calls, i, id, p);
        }
      }
      if Starting(m, calls[n], id) == Some(p) {
        assert RunsSince(file, calls, n, id, p);
      } else if i: nat :| RunsSince(file, calls[..n], i, id, p) && LeavesBe(file, calls, n, id) {
        RunsSinceShorter(file, calls, i, id, p);
      }
    }
  }
}
