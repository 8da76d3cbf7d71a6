/** The plugin registry: entries, capability index and the saved settings
    (crates/omni-plugin/src/registry.rs:70-370). */
module PluginRegistry {
  import opened Common

  type Id = string
  type Config = nat  // a configuration table, only stored and handed on

  datatype Capability = EventHooks | Authentication | NetworkPolicy | DataTriage | QosEnforcement
                      | PdmReporting | Compliance | UiWidgets

  datatype PluginState = Discovered | Loading | Loaded | Running | Stopped | Error | Disabled
  datatype Package = Package(id: Id, caps: seq<Capability>, defaultConfig: Config)
  datatype Entry = Entry(pkg: Package, state: PluginState, enabled: bool, config: Config) {
    function Settings(): Settings { Saved(enabled, config) }
  }
  datatype Settings = Saved(enabled: bool, config: Config)
  datatype StateFile = Absent | Unreadable | Contents(settings: map<Id, Settings>)

  datatype Registry = Registry(plugins: map<Id, Entry>, index: map<Capability, seq<Id>>)

  const EMPTY: Registry := Registry(map[], map[])

  function Fresh(pkg: Package): Entry { Entry(pkg, Discovered, true, pkg.defaultConfig) }

  function Indexed(index: map<Capability, seq<Id>>, c: Capability): seq<Id> { if c in index then index[c] else [] }

  function Push(index: map<Capability, seq<Id>>, caps: seq<Capability>, id: Id): map<Capability, seq<Id>> {
    if caps == [] then index
    else
      var n := |caps| - 1;
      var r := Push(index, caps[..n], id);
      r[caps[n] := Indexed(r, caps[n]) + [id]]
  }

  function Without(ids: seq<Id>, id: Id): seq<Id> {
    if ids == [] then []
    else Without(ids[..|ids| - 1], id) + if ids[|ids| - 1] == id then [] else [ids[|ids| - 1]]
  }

  function Drop(index: map<Capability, seq<Id>>, caps: seq<Capability>, id: Id): map<Capability, seq<Id>> {
    if caps == [] then index
    else
      var n := |caps| - 1;
      var r := Drop(index, caps[..n], id);
      if caps[n] in r then r[caps[n] := Without(r[caps[n]], id)] else r
  }

  function Register(r: Registry, pkg: Package): Registry {
    Registry(r.plugins[pkg.id := Fresh(pkg)], Push(r.index, pkg.caps, pkg.id))
  }

  function Unregister(r: Registry, id: Id): Registry {
    if id !in r.plugins then r
    else Registry(r.plugins - {id}, Drop(r.index, r.plugins[id].pkg.caps, id))
  }

  function SetState(r: Registry, id: Id, state: PluginState): Registry {
    if id !in r.plugins then r else r.(plugins := r.plugins[id := r.plugins[id].(state := state)])
  }

  function Enable(r: Registry, id: Id): Registry {
    if id !in r.plugins then r
    else
      var e := r.plugins[id];
      r.(plugins := r.plugins[id := e.(enabled := true, state := if e.state == Disabled then Discovered else e.state)])
  }

  function Disable(r: Registry, id: Id): Registry {
    if id !in r.plugins then r else r.(plugins := r.plugins[id := r.plugins[id].(enabled := false, state := Disabled)])
  }

  function SetConfig(r: Registry, id: Id, config: Config): Registry {
    if id !in r.plugins then r else r.(plugins := r.plugins[id := r.plugins[id].(config := config)])
  }

  function Restore(plugins: map<Id, Entry>, settings: map<Id, Settings>, ids: set<Id>): map<Id, Entry> {
    map id | id in plugins ::
      if id in settings && id in ids then plugins[id].(enabled := settings[id].enabled, config := settings[id].config)
      else plugins[id]
  }

  /** Only registered plugins are touched; a missing or unreadable file changes nothing. */
  function LoadState(r: Registry, file: StateFile): Registry {
    if file.Contents? then r.(plugins := Restore(r.plugins, file.settings, file.settings.Keys)) else r
  }

  function SaveState(r: Registry): StateFile { Contents(map id | id in r.plugins :: r.plugins[id].Settings()) }

  function Lookup(r: Registry, ids: seq<Id>): seq<Entry> {
    if ids == [] then []
    else
      var n := |ids| - 1;
      Lookup(r, ids[..n]) + if ids[n] in r.plugins && r.plugins[ids[n]].enabled then [r.plugins[ids[n]]] else []
  }

  function GetByCapability(r: Registry, c: Capability): seq<Entry> { Lookup(r, Indexed(r.index, c)) }

  class PluginRegistry {
    var plugins: map<Id, Entry>
    var index: map<Capability, seq<Id>>

    function State(): Registry
      reads this
    {
      Registry(plugins, index)
    }

    constructor ()
      ensures State() == EMPTY
    {
      plugins, index := map[], map[];
    }

    method RegisterPackage(pkg: Package)
      modifies this
      ensures State() == Register(old(State()), pkg)
    {
      plugins := plugins[pkg.id := Fresh(pkg)];
      for i := 0 to |pkg.caps|
        invariant plugins == old(plugins)[pkg.id := Fresh(pkg)]
        invariant index == Push(old(index), pkg.caps[..i], pkg.id)
      {
        assert pkg.caps[..i + 1][..i] == pkg.caps[..i];
        index := index[pkg.caps[i] := Indexed(index, pkg.caps[i]) + [pkg.id]];
      }
      assert pkg.caps[..|pkg.caps|] == pkg.caps;
    }

    method UnregisterPlugin(id: Id) returns (found: bool)
      modifies this
      ensures State() == Unregister(old(State()), id) && found == (id in old(plugins))
    {
      found := id in plugins;
      if found {
        var caps := plugins[id].pkg.caps;
        plugins := plugins - {id};
        for i := 0 to |caps|
          invariant plugins == old(plugins) - {id}
          invariant index == Drop(old(index), caps[..i], id)
        {
          assert caps[..i + 1][..i] == caps[..i];
          if caps[i] in index {
            var kept := Retain(index[caps[i]], id);
            index := index[caps[i] := kept];
          }
        }
        assert caps[..|caps|] == caps;
      }
    }

    // `Vec::retain`
    static method Retain(ids: seq<Id>, id: Id) returns (kept: seq<Id>)
      ensures kept == Without(ids, id)
    {
      kept := [];
      for i := 0 to |ids|
        invariant kept == Without(ids[..i], id)
      {
        assert ids[..i + 1][..i] == ids[..i];
        if ids[i] != id {
          kept := kept + [ids[i]];
        }
      }
      assert ids[..|ids|] == ids;
    }

    method UpdateState(id: Id, state: PluginState) returns (found: bool)
      modifies `plugins
      ensures State() == SetState(old(State()), id, state) && found == (id in old(plugins))
    {
      found := id in plugins;
      if found {
        plugins := plugins[id := plugins[id].(state := state)];
      }
    }

    method EnablePlugin(id: Id) returns (found: bool)
      modifies `plugins
      ensures State() == Enable(old(State()), id) && found == (id in old(plugins))
    {
      found := id in plugins;
      if found {
        var e := plugins[id].(enabled := true);
        if e.state == Disabled {
          e := e.(state := Discovered);
        }
        plugins := plugins[id := e];
      }
    }

    method DisablePlugin(id: Id) returns (found: bool)
      modifies `plugins
      ensures State() == Disable(old(State()), id) && found == (id in old(plugins))
    {
      found := id in plugins;
      if found {
        plugins := plugins[id := plugins[id].(enabled := false, state := Disabled)];
      }
    }

    method UpdateConfig(id: Id, config: Config) returns (found: bool)
      modifies `plugins
      ensures State() == SetConfig(old(State()), id, config) && found == (id in old(plugins))
    {
      found := id in plugins;
      if found {
        plugins := plugins[id := plugins[id].(config := config)];
      }
    }

    method ReadState(file: StateFile) returns (ok: bool)
      modifies `plugins
      ensures State() == LoadState(old(State()), file) && ok == !file.Unreadable?
    {
      ok := !file.Unreadable?;
      if file.Contents? {
        var rest := file.settings.Keys;
        while rest != {}
          invariant rest <= file.settings.Keys
          invariant plugins == Restore(old(plugins), file.settings, file.settings.Keys - rest)
          decreases rest
        {
          var id :| id in rest;
          if id in plugins {
            var saved := file.settings[id];
            plugins := plugins[id := plugins[id].(enabled := saved.enabled, config := saved.config)];
          }
          rest := rest - {id};
        }
        assert file.settings.Keys - rest == file.settings.Keys;
      }
    }

    method WriteState() returns (file: StateFile)
      ensures file == SaveState(State())
    {
      var settings: map<Id, Settings> := map[];
      var rest := plugins.Keys;
      while rest != {}
        invariant rest <= plugins.Keys
        invariant settings == map id | id in plugins && id !in rest :: plugins[id].Settings()
        decreases rest
      {
        var id :| id in rest;
        settings := settings[id := plugins[id].Settings()];
        rest := rest - {id};
      }
      file := Contents(settings);
    }

    method ByCapability(c: Capability) returns (found: seq<Entry>)
      ensures found == GetByCapability(State(), c)
    {
      var ids := Indexed(index, c);
      found := [];
      for i := 0 to |ids|
        invariant found == Lookup(State(), ids[..i])
      {
        assert ids[..i + 1][..i] == ids[..i];
        if ids[i] in plugins && plugins[ids[i]].enabled {
          found := found + [plugins[ids[i]]];
        }
      }
      assert ids[..|ids|] == ids;
    }
  }

  // ---- the capability index

  datatype Op =
    | DoRegister(pkg: Package)
    | DoUnregister(id: Id)
    | DoEnable(id: Id)
    | DoDisable(id: Id)
    | DoSetState(id: Id, state: PluginState)
    | DoSetConfig(id: Id, config: Config)
    | DoLoadState(file: StateFile)

  function Apply(r: Registry, op: Op): Registry {
    match op
    case DoRegister(pkg) => Register(r, pkg)
    case DoUnregister(id) => Unregister(r, id)
    case DoEnable(id) => Enable(r, id)
    case DoDisable(id) => Disable(r, id)
    case DoSetState(id, state) => SetState(r, id, state)
    case DoSetConfig(id, config) => SetConfig(r, id, config)
    case DoLoadState(file) => LoadState(r, file)
  }

  function ApplyAll(r: Registry, ops: seq<Op>): Registry {
    if ops == [] then r else Apply(ApplyAll(r, ops[..|ops| - 1]), ops[|ops| - 1])
  }

  /** The slow form the index stands for: look at every plugin. */
  ghost function Scan(r: Registry, c: Capability): set<Entry> {
    set id | id in r.plugins && r.plugins[id].enabled && c in r.plugins[id].pkg.caps :: r.plugins[id]
  }

  ghost predicate Complete(r: Registry) {
    forall id, c :: id in r.plugins && c in r.plugins[id].pkg.caps ==> id in Indexed(r.index, c)
  }

  lemma {:induction false} PushMembers(index: map<Capability, seq<Id>>, caps: seq<Capability>, id: Id,
                                       c: Capability, x: Id)
    ensures x in Indexed(Push(index, caps, id), c) <==> x in Indexed(index, c) || (x == id && c in caps)
  {
    if caps != [] {
      PushMembers(index, caps[..|caps| - 1], id, c, x);
      assert caps == caps[..|caps| - 1] + [caps[|caps| - 1]];
    }
  }

  lemma {:induction false} WithoutMembers(ids: seq<Id>, id: Id, x: Id)
    ensures x in Without(ids, id) <==> x in ids && x != id
  {
    if ids != [] {
      WithoutMembers(ids[..|ids| - 1], id, x);
      assert ids == ids[..|ids| - 1] + [ids[|ids| - 1]];
    }
  }

  lemma {:induction false} DropMembers(index: map<Capability, seq<Id>>, caps: seq<Capability>, id: Id,
                                       c: Capability, x: Id)
    ensures x in Indexed(Drop(index, caps, id), c) <==> x in Indexed(index, c) && !(x == id && c in caps)
  {
    if caps != [] {
      var n := |caps| - 1;
      DropMembers(index, caps[..n], id, c, x);
      assert caps == caps[..n] + [caps[n]];
      WithoutMembers(Indexed(Drop(index, caps[..n], id), caps[n]), id, x);
    }
  }

  lemma {:induction false} AlwaysComplete(ops: seq<Op>)
    ensures Complete(ApplyAll(EMPTY, ops))
  {
    if ops != [] {
      var r, op := ApplyAll(EMPTY, ops[..|ops| - 1]), ops[|ops| - 1];
      AlwaysComplete(ops[..|ops| - 1]);
      forall id, c | id in Apply(r, op).plugins && c in Apply(r, op).plugins[id].pkg.caps
        ensures id in Indexed(Apply(r, op).index, c)
      {
        if op.DoRegister? {
          PushMembers(r.index, op.pkg.caps, op.pkg.id, c, id);
        } else if op.DoUnregister? && op.id in r.plugins {
          DropMembers(r.index, r.plugins[op.id].pkg.caps, op.id, c, id);
        }
      }
    }
  }

  ghost function Found(r: Registry, c: Capability): set<Entry> { set e | e in GetByCapability(r, c) }

  ghost predicate Yields(r: Registry, id: Id, e: Entry) {
    id in r.plugins && r.plugins[id].enabled && r.plugins[id] == e
  }

  lemma {:induction false} LookupMembers(r: Registry, ids: seq<Id>, e: Entry)
    ensures e in Lookup(r, ids) <==> exists id :: id in ids && Yields(r, id, e)
  {
    if ids != [] {
      var n := |ids| - 1;
      LookupMembers(r, ids[..n], e);
      assert ids == ids[..n] + [ids[n]];
      if e in Lookup(r, ids) && e !in Lookup(r, ids[..n]) {
        assert Yields(r, ids[n], e);
      }
    }
  }

  lemma FoundMembers(r: Registry, c: Capability, e: Entry)
    requires Complete(r)
    ensures e in Found(r, c) <==> exists id :: id in Indexed(r.index, c) && Yields(r, id, e)
    ensures e in Scan(r, c) ==> e in Found(r, c)
  {
    LookupMembers(r, Indexed(r.index, c), e);
    if e in Scan(r, c) {
      var id :| id in r.plugins && r.plugins[id].enabled && c in r.plugins[id].pkg.caps && r.plugins[id] == e;
      assert Yields(r, id, e);
    }
  }

  // ---- what the calls made say about the index

  /** The capabilities of the last registration of an id, unless it was unregistered since. */
  function Declared(ops: seq<Op>, id: Id): Option<seq<Capability>> {
    if ops == [] then None
    else
      var n := |ops| - 1;
      if ops[n].DoRegister? && ops[n].pkg.id == id then Some(ops[n].pkg.caps)
      else if ops[n].DoUnregister? && ops[n].id == id then None
      else Declared(ops[..n], id)
  }

  predicate Declares(ops: seq<Op>, id: Id, c: Capability) {
    c in Declared(ops, id).Or((caps: seq<Capability>) => caps, [])
  }

  predicate Registers(op: Op, id: Id, c: Capability) { op.DoRegister? && op.pkg.id == id && c in op.pkg.caps }

  /** Call j unregisters an id that declared c at that time. */
  predicate Retracts(ops: seq<Op>, j: nat, id: Id, c: Capability)
    requires j < |ops|
  {
    ops[j].DoUnregister? && ops[j].id == id && Declares(ops[..j], id, c)
  }

  /** Some call registered the id with c, and none since retracted that. */
  ghost predicate Marked(ops: seq<Op>, id: Id, c: Capability) { exists i: nat :: MarkedAt(ops, i, id, c) }

  ghost predicate MarkedAt(ops: seq<Op>, i: nat, id: Id, c: Capability) {
    && i < |ops| && Registers(ops[i], id, c)
    && forall j :: i < j < |ops| ==> !Retracts(ops, j, id, c)
  }

  lemma {:induction false} DeclaredIs(ops: seq<Op>, id: Id)
    ensures var r := ApplyAll(EMPTY, ops);
            && (id in r.plugins <==> Declared(ops, id).Some?)
            && (id in r.plugins ==> r.plugins[id].pkg.caps == Declared(ops, id).value)
  {
    if ops != [] {
      DeclaredIs(ops[..|ops| - 1], id);
    }
  }

  lemma MarkedAtStep(ops: seq<Op>, i: nat, id: Id, c: Capability)
    requires i < |ops| - 1
    ensures MarkedAt(ops, i, id, c) <==> MarkedAt(ops[..|ops| - 1], i, id, c) && !Retracts(ops, |ops| - 1, id, c)
  {
    var n := |ops| - 1;
    forall j | i < j < n ensures Retracts(ops[..n], j, id, c) <==> Retracts(ops, j, id, c) {
      assert ops[..n][..j] == ops[..j];
    }
  }

  // The last call either decides the mark or leaves it as it was.
  lemma MarkedStep(ops: seq<Op>, id: Id, c: Capability)
    requires ops != []
    ensures var n := |ops| - 1;
            Marked(ops, id, c) <==> Registers(ops[n], id, c) || (Marked(ops[..n], id, c) && !Retracts(ops, n, id, c))
  {
    var n := |ops| - 1;
    var before := ops[..n];
    if Marked(ops, id, c) {
      var i: nat :| MarkedAt(ops, i, id, c);
      if i < n {
        MarkedAtStep(ops, i, id, c);
      }
    }
    if Marked(before, id, c) && !Retracts(ops, n, id, c) {
      var i: nat :| MarkedAt(before, i, id, c);
      MarkedAtStep(ops, i, id, c);
    }
    assert Registers(ops[n], id, c) ==> MarkedAt(ops, n, id, c);
  }

  /** After any run an id is indexed under a capability exactly when some call registered it with that
      capability and no later call unregistered it while it declared the capability. */
  lemma {:induction false} IndexedIff(ops: seq<Op>, id: Id, c: Capability)
    ensures id in Indexed(ApplyAll(EMPTY, ops).index, c) <==> Marked(ops, id, c)
  {
    if ops != [] {
      var n := |ops| - 1;
      var r, op := ApplyAll(EMPTY, ops[..n]), ops[n];
      IndexedIff(ops[..n], id, c);
      DeclaredIs(ops[..n], id);
      MarkedStep(ops, id, c);
      if op.DoRegister? {
        PushMembers(r.index, op.pkg.caps, op.pkg.id, c, id);
      } else if op.DoUnregister? && op.id in r.plugins {
        DropMembers(r.index, r.plugins[op.id].pkg.caps, op.id, c, id);
      }
    }
  }

  /** The id was registered with c, was not unregistered while it declared c, and declares c no longer. */
  ghost predicate Stale(ops: seq<Op>, id: Id, c: Capability) {
    Marked(ops, id, c) && Declared(ops, id).Some? && !Declares(ops, id, c)
  }

  /** After any run the indexed query finds every enabled plugin that declares the capability, and equals
      the scan exactly when no enabled plugin changed away from it without an unregister in between. */
  lemma QueryIsScanIff(ops: seq<Op>, c: Capability)
    ensures var r := ApplyAll(EMPTY, ops);
            && Scan(r, c) <= Found(r, c)
            && (Found(r, c) == Scan(r, c) <==>
                  forall id :: id in r.plugins && Stale(ops, id, c) ==> !r.plugins[id].enabled)
  {
    var r := ApplyAll(EMPTY, ops);
    var found := Found(r, c);
    AlwaysComplete(ops);
    forall e | e in Scan(r, c) ensures e in found {
      FoundMembers(r, c, e);
    }
    if forall id :: id in r.plugins && Stale(ops, id, c) ==> !r.plugins[id].enabled {
      forall e | e in found ensures e in Scan(r, c) {
        FoundMembers(r, c, e);
        var id :| id in Indexed(r.index, c) && Yields(r, id, e);
        IndexedIff(ops, id, c);
        DeclaredIs(ops, id);
        assert !Stale(ops, id, c);
      }
    }
    forall id | id in r.plugins && Stale(ops, id, c) && r.plugins[id].enabled
      ensures r.plugins[id] in found && r.plugins[id] !in Scan(r, c)
    {
      IndexedIff(ops, id, c);
      DeclaredIs(ops, id);
      FoundMembers(r, c, r.plugins[id]);
      assert Yields(r, id, r.plugins[id]);
    }
  }

  /** All registrations of the id agree on c; other ids, other capabilities and their order are free. */
  ghost predicate Steady(ops: seq<Op>, id: Id, c: Capability) {
    forall i, j :: 0 <= i < |ops| && 0 <= j < |ops|
                   && Registers(ops[i], id, c) && ops[j].DoRegister? && ops[j].pkg.id == id
                   ==> c in ops[j].pkg.caps
  }

  lemma {:induction false} DeclaredBy(ops: seq<Op>, id: Id) returns (i: nat)
    requires Declared(ops, id).Some?
    ensures i < |ops| && ops[i].DoRegister? && ops[i].pkg.id == id && Declared(ops, id) == Some(ops[i].pkg.caps)
  {
    var n := |ops| - 1;
    if ops[n].DoRegister? && ops[n].pkg.id == id {
      i := n;
    } else {
      i := DeclaredBy(ops[..n], id);
    }
  }

  lemma StableIsNeverStale(ops: seq<Op>, id: Id, c: Capability)
    requires Steady(ops, id, c)
    ensures !Stale(ops, id, c)
  {
    if Stale(ops, id, c) {
      var i: nat :| MarkedAt(ops, i, id, c);
      var j := DeclaredBy(ops, id);
      assert false;
    }
  }

  /** While every plugin keeps declaring, or not declaring, the capability, the index is exact. */
  lemma StableQueryIsScan(ops: seq<Op>, c: Capability)
    requires forall id :: Steady(ops, id, c)
    ensures Found(ApplyAll(EMPTY, ops), c) == Scan(ApplyAll(EMPTY, ops), c)
  {
    QueryIsScanIff(ops, c);
    forall id ensures !Stale(ops, id, c) {
      StableIsNeverStale(ops, id, c);
    }
  }

  /** Changing the capabilities of an id leaves it under the old ones, even across an unregister. */
  lemma ChangedCapabilitiesGoStale(id: Id, c: Capability, d: Capability, config: Config)
    requires c != d
    ensures var ops := [DoRegister(Package(id, [c], config)), DoRegister(Package(id, [d], config))];
            && Stale(ops, id, c)
            && Stale(ops + [DoUnregister(id), DoRegister(Package(id, [d], config))], id, c)
  {
    var p, q := Package(id, [c], config), Package(id, [d], config);
    var ops := [DoRegister(p), DoRegister(q)];
    var more := ops + [DoUnregister(id), DoRegister(q)];
    assert more[..2] == ops && Declared(ops, id) == Some([d]) && Declared(more, id) == Some([d]);
    assert MarkedAt(ops, 0, id, c) && MarkedAt(more, 0, id, c);
  }

  // ---- how often

  /** How often the calls pushed the id under c since it was last retracted. */
  function Pushed(ops: seq<Op>, id: Id, c: Capability): nat {
    if ops == [] then 0
    else
      var n := |ops| - 1;
      if ops[n].DoRegister? && ops[n].pkg.id == id then Pushed(ops[..n], id, c) + multiset(ops[n].pkg.caps)[c]
      else if Retracts(ops, n, id, c) then 0
      else Pushed(ops[..n], id, c)
  }

  lemma OnePushCounts(index: map<Capability, seq<Id>>, cap: Capability, id: Id, c: Capability, x: Id)
    ensures multiset(Indexed(index[cap := Indexed(index, cap) + [id]], c))[x]
            == multiset(Indexed(index, c))[x] + if x == id && c == cap then 1 else 0
  {
  }

  lemma {:induction false} PushCounts(index: map<Capability, seq<Id>>, caps: seq<Capability>, id: Id,
                                      c: Capability, x: Id)
    ensures multiset(Indexed(Push(index, caps, id), c))[x]
            == multiset(Indexed(index, c))[x] + if x == id then multiset(caps)[c] else 0
  {
    if caps != [] {
      var n := |caps| - 1;
      PushCounts(index, caps[..n], id, c, x);
      OnePushCounts(Push(index, caps[..n], id), caps[n], id, c, x);
      assert caps == caps[..n] + [caps[n]];
      assert multiset(caps)[c] == multiset(caps[..n])[c] + if c == caps[n] then 1 else 0;
    }
  }

  lemma {:induction false} WithoutCounts(ids: seq<Id>, id: Id, x: Id)
    ensures multiset(Without(ids, id))[x] == if x == id then 0 else multiset(ids)[x]
  {
    if ids != [] {
      WithoutCounts(ids[..|ids| - 1], id, x);
      assert ids == ids[..|ids| - 1] + [ids[|ids| - 1]];
    }
  }

  lemma {:induction false} DropCounts(index: map<Capability, seq<Id>>, caps: seq<Capability>, id: Id,
                                      c: Capability, x: Id)
    ensures multiset(Indexed(Drop(index, caps, id), c))[x]
            == if x == id && c in caps then 0 else multiset(Indexed(index, c))[x]
  {
    if caps != [] {
      var n := |caps| - 1;
      DropCounts(index, caps[..n], id, c, x);
      assert caps == caps[..n] + [caps[n]];
      WithoutCounts(Indexed(Drop(index, caps[..n], id), caps[n]), id, x);
    }
  }

  lemma {:induction false} IndexCounts(ops: seq<Op>, id: Id, c: Capability)
    ensures multiset(Indexed(ApplyAll(EMPTY, ops).index, c))[id] == Pushed(ops, id, c)
  {
    if ops != [] {
      var n := |ops| - 1;
      var r, op := ApplyAll(EMPTY, ops[..n]), ops[n];
      IndexCounts(ops[..n], id, c);
      DeclaredIs(ops[..n], id);
      if op.DoRegister? {
        PushCounts(r.index, op.pkg.caps, op.pkg.id, c, id);
      } else if op.DoUnregister? && op.id in r.plugins {
        DropCounts(r.index, r.plugins[op.id].pkg.caps, op.id, c, id);
      }
    }
  }

  ghost predicate Named(r: Registry) { forall id :: id in r.plugins ==> r.plugins[id].pkg.id == id }

  lemma {:induction false} AlwaysNamed(ops: seq<Op>)
    ensures Named(ApplyAll(EMPTY, ops))
  {
    if ops != [] {
      AlwaysNamed(ops[..|ops| - 1]);
    }
  }

  lemma {:induction false} LookupCounts(r: Registry, ids: seq<Id>, id: Id)
    requires Named(r) && id in r.plugins && r.plugins[id].enabled
    ensures multiset(Lookup(r, ids))[r.plugins[id]] == multiset(ids)[id]
  {
    if ids != [] {
      var n := |ids| - 1;
      LookupCounts(r, ids[..n], id);
      assert ids == ids[..n] + [ids[n]];
    }
  }

  /** A query lists an enabled plugin as often as it was registered with the capability since it was last
      unregistered while declaring it: each re-registration adds a duplicate. */
  lemma QueryListsDuplicates(ops: seq<Op>, id: Id, c: Capability)
    requires id in ApplyAll(EMPTY, ops).plugins && ApplyAll(EMPTY, ops).plugins[id].enabled
    ensures var r := ApplyAll(EMPTY, ops);
            multiset(GetByCapability(r, c))[r.plugins[id]] == Pushed(ops, id, c)
  {
    var r := ApplyAll(EMPTY, ops);
    AlwaysNamed(ops);
    IndexCounts(ops, id, c);
    LookupCounts(r, Indexed(r.index, c), id);
  }
}
