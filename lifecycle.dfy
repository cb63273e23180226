/** The application's state as a value, and the specification of component
    initialisation (one role: `Init`; the role table of a new application:
    `InitAll`, `NewAppSpec`). The class `Core.App` is proved against these. */
module Lifecycle {
  import opened Types

  /** The four role slots of an application; None is an unset (nil) role. */
  datatype Slots = Slots(
    builder: Option<Component>,
    registry: Option<Component>,
    platform: Option<Component>,
    releaser: Option<Component>)
  {
    function Get(r: Role): Option<Component>
    {
      match r
      case Builder => builder
      case Registry => registry
      case Platform => platform
      case ReleaseManager => releaser
    }

    function Set(r: Role, c: Component): (s: Slots)
      ensures s.Get(r) == Some(c)
      ensures forall o: Role :: o != r ==> s.Get(o) == Get(o)
    {
      match r
      case Builder => this.(builder := Some(c))
      case Registry => this.(registry := Some(c))
      case Platform => this.(platform := Some(c))
      case ReleaseManager => this.(releaser := Some(c))
    }
  }

  const NoSlots := Slots(None, None, None, None)

  /** Everything an application holds that the core reads or writes. */
  datatype AppState = AppState(
    source: Source,
    dir: AppDir,
    ui: nat,
    client: nat,
    slots: Slots,
    mappers: seq<Mapper>,
    componentDirs: map<ComponentId, ComponentDir>,
    components: map<ComponentId, Metadata>,
    closers: seq<Closer>)

  /** The collaborators initialisation consults: the directory provider
      (for the application, then per role and subtype) and the configuration
      decoder, which yields the error diagnostics for a component and body. */
  datatype Env = Env(
    appDir: string -> Attempt<AppDir>,
    componentDir: (AppDir, Role, string) -> Attempt<ComponentDir>,
    configure: (Component, string) -> seq<string>)

  /** The project an application is created for. */
  datatype Project = Project(
    client: nat,
    ui: nat,
    mappers: seq<Mapper>,
    factories: Role -> Factory)

  /** An application's configuration: its name and, per role, an optional
      component configuration. */
  datatype AppConfig = AppConfig(
    name: string,
    build: Option<ComponentConfig>,
    registry: Option<ComponentConfig>,
    platform: Option<ComponentConfig>,
    release: Option<ComponentConfig>)

  /** Where initialisation writes the component: one of the role slots, or a
      value that is not a pointer at all. */
  datatype Target = SlotOf(role: Role) | NonPointer

  /** The state after one initialisation and the error it returned. */
  datatype Step = Step(state: AppState, err: Option<Error>)

  /** Consistency of the published state: every published component has a
      directory entry, and every set slot holds a published component. */
  ghost predicate Consistent(s: AppState)
  {
    && (forall id :: id in s.components ==> id in s.componentDirs)
    && (forall r: Role :: s.slots.Get(r).Some? ==> s.slots.Get(r).value.id in s.components)
  }

  function PluginMappers(raw: Constructed): seq<Mapper>
  {
    if raw.Plugin? then raw.mappers else []
  }

  function PluginClosers(raw: Constructed): seq<Closer>
  {
    if raw.Plugin? then [ClosePlugin(raw.instance)] else []
  }

  /** Initialisation got past the constructor: the target is a pointer, the
      subtype is known, its directory was created and the constructor ran. */
  predicate Constructs(s: AppState, typ: Role, target: Target, f: Factory, cfg: ComponentConfig, env: Env)
  {
    && target.SlotOf?
    && cfg.typeName in f
    && env.componentDir(s.dir, typ, cfg.typeName).Success?
    && f[cfg.typeName].Success?
  }

  /** One `initComponent`: check the target, look up the factory, create the
      directory, construct, unwrap a plugin, record the directory, check the
      type, decode the configuration, assign the slot, publish metadata. */
  function Init(s: AppState, typ: Role, target: Target, f: Factory, cfg: ComponentConfig, env: Env): (r: Step)
    // Failures before the directory exists change nothing.
    ensures target.NonPointer? ==> r == Step(s, Some(TargetNotPointer))
    ensures target.SlotOf? && cfg.typeName !in f ==> r == Step(s, Some(UnknownType(cfg.typeName)))
    // A directory or constructor failure is returned unchanged, and nothing is recorded.
    ensures target.SlotOf? && cfg.typeName in f && env.componentDir(s.dir, typ, cfg.typeName).Failure? ==>
              r == Step(s, Some(Passed(env.componentDir(s.dir, typ, cfg.typeName).message)))
    ensures target.SlotOf? && cfg.typeName in f && env.componentDir(s.dir, typ, cfg.typeName).Success?
              && f[cfg.typeName].Failure? ==>
              r == Step(s, Some(Passed(f[cfg.typeName].message)))
    // Once constructed, the directory entry and the plugin's mappers and closer
    // are tracked, whether or not the later checks pass.
    ensures Constructs(s, typ, target, f, cfg, env) ==>
              var raw := f[cfg.typeName].value;
              && r.state.componentDirs == s.componentDirs[raw.component.id := env.componentDir(s.dir, typ, cfg.typeName).value]
              && r.state.mappers == s.mappers + PluginMappers(raw)
              && r.state.closers == s.closers + PluginClosers(raw)
    // A failure never leaves the component reachable through a slot or metadata.
    ensures r.err.Some? ==> r.state.slots == s.slots && r.state.components == s.components
    // Success exactly when constructed, assignable to the slot and decoded without errors.
    ensures r.err.None? <==>
              && Constructs(s, typ, target, f, cfg, env)
              && target.role in f[cfg.typeName].value.component.roles
              && env.configure(f[cfg.typeName].value.component, cfg.body) == []
    ensures Constructs(s, typ, target, f, cfg, env) && target.role !in f[cfg.typeName].value.component.roles ==>
              r.err == Some(NotAssignable(f[cfg.typeName].value.component.id, target.role))
    ensures Constructs(s, typ, target, f, cfg, env) && target.role in f[cfg.typeName].value.component.roles
              && env.configure(f[cfg.typeName].value.component, cfg.body) != [] ==>
              r.err == Some(ConfigDiagnostics(env.configure(f[cfg.typeName].value.component, cfg.body)))
    // Success writes the slot and the metadata for that same component, and nothing else.
    ensures r.err.None? ==>
              var c := f[cfg.typeName].value.component;
              && r.state.slots == s.slots.Set(target.role, c)
              && r.state.components == s.components[c.id := Metadata(typ, cfg.typeName)]
              && c.id in r.state.componentDirs
    // The application's identity and handles never change.
    ensures r.state.source == s.source && r.state.dir == s.dir
    ensures r.state.ui == s.ui && r.state.client == s.client
    // Initialisation keeps the published state consistent, on every path.
    ensures Consistent(s) ==> Consistent(r.state)
  {
    if target.NonPointer? then Step(s, Some(TargetNotPointer))
    else if cfg.typeName !in f then Step(s, Some(UnknownType(cfg.typeName)))
    else
      match env.componentDir(s.dir, typ, cfg.typeName)
      case Failure(m) => Step(s, Some(Passed(m)))
      case Success(cdir) =>
        match f[cfg.typeName]
        case Failure(m) => Step(s, Some(Passed(m)))
        case Success(raw) =>
          var c := raw.component;
          var tracked := s.(mappers := s.mappers + PluginMappers(raw),
                            closers := s.closers + PluginClosers(raw),
                            componentDirs := s.componentDirs[c.id := cdir]);
          var diags := env.configure(c, cfg.body);
          if target.role !in c.roles then Step(tracked, Some(NotAssignable(c.id, target.role)))
          else if diags != [] then Step(tracked, Some(ConfigDiagnostics(diags)))
          else Step(tracked.(slots := s.slots.Set(target.role, c),
                             components := s.components[c.id := Metadata(typ, cfg.typeName)]), None)
  }

  /** One row of the role table `newApp` walks. */
  datatype Entry = Entry(role: Role, config: Option<ComponentConfig>)

  /** The role table: builder, registry, platform, release manager, in that order. */
  function RoleTable(cfg: AppConfig): seq<Entry>
  {
    [Entry(Builder, cfg.build), Entry(Registry, cfg.registry),
     Entry(Platform, cfg.platform), Entry(ReleaseManager, cfg.release)]
  }

  function ConfigOf(cfg: AppConfig, r: Role): Option<ComponentConfig>
  {
    match r
    case Builder => cfg.build
    case Registry => cfg.registry
    case Platform => cfg.platform
    case ReleaseManager => cfg.release
  }

  /** The application right after construction: nothing initialised, the
      converters a copy of the project's. */
  function InitialState(p: Project, cfg: AppConfig, dir: AppDir): AppState
  {
    AppState(Source(cfg.name, "."), dir, p.ui, p.client, NoSlots, p.mappers, map[], map[], [])
  }

  /** The loop over the role table: skip unconfigured roles, initialise the
      others into their own slot, stop at the first error. */
  function InitAll(s: AppState, t: seq<Entry>, factories: Role -> Factory, env: Env): (r: Result<AppState>)
    // A successful run only adds: converters and closers are extended, and
    // directory and metadata entries are never dropped.
    ensures r.Ok? ==>
              && s.mappers <= r.value.mappers
              && s.closers <= r.value.closers
              && s.componentDirs.Keys <= r.value.componentDirs.Keys
              && s.components.Keys <= r.value.components.Keys
    // The application's identity and handles are left as they were.
    ensures r.Ok? ==>
              && r.value.source == s.source && r.value.dir == s.dir
              && r.value.ui == s.ui && r.value.client == s.client
    // An empty or wholly unconfigured table changes nothing.
    ensures (forall i :: 0 <= i < |t| ==> t[i].config.None?) ==> r == Ok(s)
    decreases |t|
  {
    if t == [] then Ok(s)
    else if t[0].config.None? then InitAll(s, t[1..], factories, env)
    else
      var st := Init(s, t[0].role, SlotOf(t[0].role), factories(t[0].role), t[0].config.value, env);
      if st.err.Some? then Err(st.err.value) else InitAll(st.state, t[1..], factories, env)
  }

  /** `newApp`: create the application directory, then initialise the roles. */
  function NewAppSpec(p: Project, cfg: AppConfig, env: Env): (r: Result<AppState>)
    ensures env.appDir(cfg.name).Failure? ==> r == Err(Passed(env.appDir(cfg.name).message))
    // A new application is named after its configuration, lives in the
    // directory created for it, and starts from the project's converters.
    ensures r.Ok? ==>
              && env.appDir(cfg.name).Success?
              && r.value.source == Source(cfg.name, ".")
              && r.value.dir == env.appDir(cfg.name).value
              && r.value.ui == p.ui && r.value.client == p.client
              && p.mappers <= r.value.mappers
  {
    match env.appDir(cfg.name)
    case Failure(m) => Err(Passed(m))
    case Success(dir) => InitAll(InitialState(p, cfg, dir), RoleTable(cfg), p.factories, env)
  }

  /** Continue an initialisation run from where an earlier part of the table left it. */
  function Continue(r: Result<AppState>, t: seq<Entry>, factories: Role -> Factory, env: Env): Result<AppState>
  {
    match r
    case Ok(s) => InitAll(s, t, factories, env)
    case Err(e) => Err(e)
  }

  /** The converters a table entry's plugin contributes (none when the role is
      unconfigured, the subtype unknown or the constructor fails). */
  function EntryMappers(e: Entry, factories: Role -> Factory): seq<Mapper>
  {
    if e.config.Some? && e.config.value.typeName in factories(e.role)
       && factories(e.role)[e.config.value.typeName].Success?
    then PluginMappers(factories(e.role)[e.config.value.typeName].value)
    else []
  }

  function EntryClosers(e: Entry, factories: Role -> Factory): seq<Closer>
  {
    if e.config.Some? && e.config.value.typeName in factories(e.role)
       && factories(e.role)[e.config.value.typeName].Success?
    then PluginClosers(factories(e.role)[e.config.value.typeName].value)
    else []
  }

  /** The ids of the components the configured entries' constructors produce. */
  function EntryIds(e: Entry, factories: Role -> Factory): set<ComponentId>
  {
    if e.config.Some? && e.config.value.typeName in factories(e.role)
       && factories(e.role)[e.config.value.typeName].Success?
    then {factories(e.role)[e.config.value.typeName].value.component.id}
    else {}
  }

  function TableMappers(t: seq<Entry>, factories: Role -> Factory): seq<Mapper>
    decreases |t|
  {
    if t == [] then [] else EntryMappers(t[0], factories) + TableMappers(t[1..], factories)
  }

  function TableClosers(t: seq<Entry>, factories: Role -> Factory): seq<Closer>
    decreases |t|
  {
    if t == [] then [] else EntryClosers(t[0], factories) + TableClosers(t[1..], factories)
  }

  function TableIds(t: seq<Entry>, factories: Role -> Factory): set<ComponentId>
    decreases |t|
  {
    if t == [] then {} else EntryIds(t[0], factories) + TableIds(t[1..], factories)
  }

  /** Running the table in two parts is running it whole. */
  lemma {:induction false} InitAllSplit(s: AppState, t1: seq<Entry>, t2: seq<Entry>, factories: Role -> Factory, env: Env)
    ensures InitAll(s, t1 + t2, factories, env) == Continue(InitAll(s, t1, factories, env), t2, factories, env)
    decreases |t1|
  {
    if t1 != [] {
      assert (t1 + t2)[0] == t1[0];
      assert (t1 + t2)[1..] == t1[1..] + t2;
      if t1[0].config.None? {
        InitAllSplit(s, t1[1..], t2, factories, env);
      } else {
        var st := Init(s, t1[0].role, SlotOf(t1[0].role), factories(t1[0].role), t1[0].config.value, env);
        if st.err.None? {
          InitAllSplit(st.state, t1[1..], t2, factories, env);
        }
      }
    } else {
      assert t1 + t2 == t2;
    }
  }

  /** The first failing initialisation aborts the run with its error: when the
      entries before k succeed and entry k fails, the whole run returns that
      error and the entries after k are never initialised. */
  lemma AbortsAtFirstFailure(s: AppState, t: seq<Entry>, k: nat, factories: Role -> Factory, env: Env, sk: AppState, e: Error)
    requires k < |t| && t[k].config.Some?
    requires InitAll(s, t[..k], factories, env) == Ok(sk)
    requires Init(sk, t[k].role, SlotOf(t[k].role), factories(t[k].role), t[k].config.value, env).err == Some(e)
    ensures InitAll(s, t, factories, env) == Err(e)
  {
    assert t == t[..k] + t[k..];
    InitAllSplit(s, t[..k], t[k..], factories, env);
    assert t[k..][0] == t[k];
  }

  /** One successful initialisation adds exactly its entry's plugin converters and closer. */
  lemma EntryContributes(s: AppState, e: Entry, factories: Role -> Factory, env: Env)
    requires e.config.Some?
    ensures var st := Init(s, e.role, SlotOf(e.role), factories(e.role), e.config.value, env);
            st.err.None? ==>
              && st.state.mappers == s.mappers + EntryMappers(e, factories)
              && st.state.closers == s.closers + EntryClosers(e, factories)
  {
  }

  /** A successful run's converters are the starting ones followed by every
      configured plugin's converters in table order, and its closers the
      starting ones followed by one closer per configured plugin. */
  lemma {:induction false} InitAllContributions(s: AppState, t: seq<Entry>, factories: Role -> Factory, env: Env)
    ensures InitAll(s, t, factories, env).Ok? ==>
              && InitAll(s, t, factories, env).value.mappers == s.mappers + TableMappers(t, factories)
              && InitAll(s, t, factories, env).value.closers == s.closers + TableClosers(t, factories)
    decreases |t|
  {
    if t != [] {
      if t[0].config.None? {
        InitAllContributions(s, t[1..], factories, env);
      } else {
        var st := Init(s, t[0].role, SlotOf(t[0].role), factories(t[0].role), t[0].config.value, env);
        if st.err.None? {
          EntryContributes(s, t[0], factories, env);
          InitAllContributions(st.state, t[1..], factories, env);
          assert s.mappers + TableMappers(t, factories)
              == (s.mappers + EntryMappers(t[0], factories)) + TableMappers(t[1..], factories);
          assert s.closers + TableClosers(t, factories)
              == (s.closers + EntryClosers(t[0], factories)) + TableClosers(t[1..], factories);
        }
      }
    }
  }

  /** A run only ever records directories and metadata for the components the
      configured entries construct. */
  lemma {:induction false} InitAllTracksConfigured(s: AppState, t: seq<Entry>, factories: Role -> Factory, env: Env)
    ensures InitAll(s, t, factories, env).Ok? ==>
              && InitAll(s, t, factories, env).value.componentDirs.Keys <= s.componentDirs.Keys + TableIds(t, factories)
              && InitAll(s, t, factories, env).value.components.Keys <= s.components.Keys + TableIds(t, factories)
    decreases |t|
  {
    if t != [] {
      if t[0].config.None? {
        InitAllTracksConfigured(s, t[1..], factories, env);
      } else {
        var st := Init(s, t[0].role, SlotOf(t[0].role), factories(t[0].role), t[0].config.value, env);
        if st.err.None? {
          InitAllTracksConfigured(st.state, t[1..], factories, env);
        }
      }
    }
  }

  /** No metadata entry names role r. */
  ghost predicate NoMetadataFor(components: map<ComponentId, Metadata>, r: Role)
  {
    forall id :: id in components ==> components[id].role != r
  }

  /** A role that no entry configures keeps its slot, and no metadata entry
      is published for it. */
  lemma {:induction false} InitAllSkipsUnconfigured(s: AppState, t: seq<Entry>, factories: Role -> Factory, env: Env, r: Role)
    requires forall i :: 0 <= i < |t| && t[i].role == r ==> t[i].config.None?
    requires NoMetadataFor(s.components, r)
    ensures InitAll(s, t, factories, env).Ok? ==>
              && InitAll(s, t, factories, env).value.slots.Get(r) == s.slots.Get(r)
              && NoMetadataFor(InitAll(s, t, factories, env).value.components, r)
    decreases |t|
  {
    if t != [] {
      assert forall i :: 0 <= i < |t[1..]| && t[1..][i].role == r ==> t[1..][i].config.None? by {
        forall i | 0 <= i < |t[1..]| && t[1..][i].role == r ensures t[1..][i].config.None? {
          assert t[1..][i] == t[i + 1];
        }
      }
      if t[0].config.None? {
        InitAllSkipsUnconfigured(s, t[1..], factories, env, r);
      } else {
        var st := Init(s, t[0].role, SlotOf(t[0].role), factories(t[0].role), t[0].config.value, env);
        if st.err.None? {
          assert t[0].role != r;
          InitAllSkipsUnconfigured(st.state, t[1..], factories, env, r);
        }
      }
    }
  }

  /** A run keeps the published state consistent. */
  lemma {:induction false} InitAllConsistent(s: AppState, t: seq<Entry>, factories: Role -> Factory, env: Env)
    requires Consistent(s)
    ensures InitAll(s, t, factories, env).Ok? ==> Consistent(InitAll(s, t, factories, env).value)
    decreases |t|
  {
    if t != [] {
      if t[0].config.None? {
        InitAllConsistent(s, t[1..], factories, env);
      } else {
        var st := Init(s, t[0].role, SlotOf(t[0].role), factories(t[0].role), t[0].config.value, env);
        if st.err.None? {
          InitAllConsistent(st.state, t[1..], factories, env);
        }
      }
    }
  }

  /** A new application's converters are a copy of the project's followed by
      its plugins' converters in role order; it holds one closer per plugin. */
  lemma NewAppContributions(p: Project, cfg: AppConfig, env: Env)
    ensures NewAppSpec(p, cfg, env).Ok? ==>
              && NewAppSpec(p, cfg, env).value.mappers == p.mappers + TableMappers(RoleTable(cfg), p.factories)
              && NewAppSpec(p, cfg, env).value.closers == TableClosers(RoleTable(cfg), p.factories)
  {
    if env.appDir(cfg.name).Success? {
      InitAllContributions(InitialState(p, cfg, env.appDir(cfg.name).value), RoleTable(cfg), p.factories, env);
    }
  }

  /** An unconfigured role of a new application stays unset, has no metadata
      entry, and directories are recorded only for configured roles' components. */
  lemma NewAppSkipsUnconfigured(p: Project, cfg: AppConfig, env: Env, r: Role)
    requires ConfigOf(cfg, r).None?
    ensures NewAppSpec(p, cfg, env).Ok? ==>
              && NewAppSpec(p, cfg, env).value.slots.Get(r).None?
              && NoMetadataFor(NewAppSpec(p, cfg, env).value.components, r)
              && NewAppSpec(p, cfg, env).value.componentDirs.Keys <= TableIds(RoleTable(cfg), p.factories)
  {
    if env.appDir(cfg.name).Success? {
      var s0 := InitialState(p, cfg, env.appDir(cfg.name).value);
      var t := RoleTable(cfg);
      assert forall i :: 0 <= i < |t| && t[i].role == r ==> t[i].config.None? by {
        forall i | 0 <= i < |t| && t[i].role == r ensures t[i].config.None? {
          assert t[i].config == ConfigOf(cfg, t[i].role);
        }
      }
      InitAllSkipsUnconfigured(s0, t, p.factories, env, r);
      InitAllTracksConfigured(s0, t, p.factories, env);
    }
  }

  /** A role absent from the table keeps its slot. */
  lemma {:induction false} InitAllKeepsSlot(s: AppState, t: seq<Entry>, factories: Role -> Factory, env: Env, r: Role)
    requires forall i :: 0 <= i < |t| ==> t[i].role != r
    ensures InitAll(s, t, factories, env).Ok? ==> InitAll(s, t, factories, env).value.slots.Get(r) == s.slots.Get(r)
    decreases |t|
  {
    if t != [] {
      assert forall i :: 0 <= i < |t[1..]| ==> t[1..][i].role != r by {
        forall i | 0 <= i < |t[1..]| ensures t[1..][i].role != r {
          assert t[1..][i] == t[i + 1];
        }
      }
      if t[0].config.None? {
        InitAllKeepsSlot(s, t[1..], factories, env, r);
      } else {
        var st := Init(s, t[0].role, SlotOf(t[0].role), factories(t[0].role), t[0].config.value, env);
        if st.err.None? {
          InitAllKeepsSlot(st.state, t[1..], factories, env, r);
        }
      }
    }
  }

  /** In a table whose roles are distinct, a successful run leaves every
      configured entry's slot holding the component its constructor built. */
  lemma {:induction false} InitAllSetsConfigured(s: AppState, t: seq<Entry>, factories: Role -> Factory, env: Env, k: nat)
    requires k < |t| && t[k].config.Some?
    requires forall i, j :: 0 <= i < j < |t| ==> t[i].role != t[j].role
    ensures InitAll(s, t, factories, env).Ok? ==>
              var name := t[k].config.value.typeName;
              && name in factories(t[k].role)
              && factories(t[k].role)[name].Success?
              && InitAll(s, t, factories, env).value.slots.Get(t[k].role)
                   == Some(factories(t[k].role)[name].value.component)
    decreases |t|
  {
    assert forall i, j :: 0 <= i < j < |t[1..]| ==> t[1..][i].role != t[1..][j].role by {
      forall i, j | 0 <= i < j < |t[1..]| ensures t[1..][i].role != t[1..][j].role {
        assert t[1..][i] == t[i + 1] && t[1..][j] == t[j + 1];
      }
    }
    if t[0].config.None? {
      InitAllSetsConfigured(s, t[1..], factories, env, k - 1);
    } else {
      var st := Init(s, t[0].role, SlotOf(t[0].role), factories(t[0].role), t[0].config.value, env);
      if st.err.None? {
        if k == 0 {
          assert forall i :: 0 <= i < |t[1..]| ==> t[1..][i].role != t[0].role by {
            forall i | 0 <= i < |t[1..]| ensures t[1..][i].role != t[0].role {
              assert t[1..][i] == t[i + 1];
            }
          }
          InitAllKeepsSlot(st.state, t[1..], factories, env, t[0].role);
        } else {
          InitAllSetsConfigured(st.state, t[1..], factories, env, k - 1);
        }
      }
    }
  }

  function RoleIndex(r: Role): (k: nat)
    ensures k < 4
  {
    match r
    case Builder => 0
    case Registry => 1
    case Platform => 2
    case ReleaseManager => 3
  }

  /** Every configured role of a new application is set to the component its
      factory built, and that component is published with a directory entry. */
  lemma NewAppSetsConfigured(p: Project, cfg: AppConfig, env: Env, r: Role)
    requires ConfigOf(cfg, r).Some?
    ensures NewAppSpec(p, cfg, env).Ok? ==>
              var name := ConfigOf(cfg, r).value.typeName;
              && name in p.factories(r)
              && p.factories(r)[name].Success?
              && var c := p.factories(r)[name].value.component;
              && NewAppSpec(p, cfg, env).value.slots.Get(r) == Some(c)
              && c.id in NewAppSpec(p, cfg, env).value.components
              && c.id in NewAppSpec(p, cfg, env).value.componentDirs
  {
    if env.appDir(cfg.name).Success? {
      var s0 := InitialState(p, cfg, env.appDir(cfg.name).value);
      var t := RoleTable(cfg);
      var k := RoleIndex(r);
      assert t[k] == Entry(r, ConfigOf(cfg, r));
      InitAllSetsConfigured(s0, t, p.factories, env, k);
      InitAllConsistent(s0, t, p.factories, env);
    }
  }

  /** A new application's published state is consistent. */
  lemma NewAppConsistent(p: Project, cfg: AppConfig, env: Env)
    ensures NewAppSpec(p, cfg, env).Ok? ==> Consistent(NewAppSpec(p, cfg, env).value)
  {
    if env.appDir(cfg.name).Success? {
      InitAllConsistent(InitialState(p, cfg, env.appDir(cfg.name).value), RoleTable(cfg), p.factories, env);
    }
  }
}
