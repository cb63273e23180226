/** The application object: its role slots, converters, directory and
    metadata maps and closers are fields that initialisation updates in
    place. Each method is proved against the `Lifecycle` specification. */
module Core {
  import opened Types
  import opened Lifecycle

  class App {
    var builder: Option<Component>
    var registry: Option<Component>
    var platform: Option<Component>
    var releaser: Option<Component>

    const ui: nat
    const client: nat
    const source: Source
    const dir: AppDir

    var mappers: seq<Mapper>
    var components: map<ComponentId, Metadata>
    var componentDirs: map<ComponentId, ComponentDir>
    var closers: seq<Closer>

    /** The application's state as a value. */
    function State(): AppState
      reads this
    {
      AppState(source, dir, ui, client, Slots(builder, registry, platform, releaser),
               mappers, componentDirs, components, closers)
    }

    /** A new application for `cfg` in directory `dir`, its converters a
        copy of the project's. */
    constructor (p: Project, cfg: AppConfig, dir: AppDir)
      ensures State() == InitialState(p, cfg, dir)
    {
      builder, registry, platform, releaser := None, None, None, None;
      ui, client := p.ui, p.client;
      source := Source(cfg.name, ".");
      this.dir := dir;
      mappers := p.mappers;
      components, componentDirs := map[], map[];
      closers := [];
    }

    /** Write the component into the role slot the target points at. */
    method Assign(r: Role, c: Component)
      modifies this
      ensures State() == old(State()).(slots := old(State()).slots.Set(r, c))
    {
      match r
      case Builder => builder := Some(c);
      case Registry => registry := Some(c);
      case Platform => platform := Some(c);
      case ReleaseManager => releaser := Some(c);
    }

    /** `initComponent`: the fields change as `Lifecycle.Init` says, and the
        error returned is the one it names. */
    method InitComponent(typ: Role, target: Target, f: Factory, cfg: ComponentConfig, env: Env)
      returns (err: Option<Error>)
      modifies this
      ensures Step(State(), err) == Init(old(State()), typ, target, f, cfg, env)
    {
      if target.NonPointer? {
        return Some(TargetNotPointer);
      }
      if cfg.typeName !in f {
        return Some(UnknownType(cfg.typeName));
      }
      var cdir: ComponentDir;
      match env.componentDir(dir, typ, cfg.typeName) {
        case Failure(m) => return Some(Passed(m));
        case Success(d) => cdir := d;
      }
      var raw: Constructed;
      match f[cfg.typeName] {
        case Failure(m) => return Some(Passed(m));
        case Success(v) => raw := v;
      }
      var c := raw.component;
      if raw.Plugin? {
        mappers := mappers + raw.mappers;
        closers := closers + [ClosePlugin(raw.instance)];
      }
      componentDirs := componentDirs[c.id := cdir];
      if target.role !in c.roles {
        return Some(NotAssignable(c.id, target.role));
      }
      var diags := env.configure(c, cfg.body);
      if diags != [] {
        return Some(ConfigDiagnostics(diags));
      }
      Assign(target.role, c);
      components := components[c.id := Metadata(typ, cfg.typeName)];
      return None;
    }

    /** `Close`: run every closer once, in registration order, ignoring what
        each returns; `invoked` is the sequence of closers run. The closers
        are not cleared, so a second call runs them all again. */
    method Close() returns (invoked: seq<Closer>, err: Option<Error>)
      ensures invoked == closers
      ensures err == None
    {
      invoked := [];
      for i := 0 to |closers|
        invariant invoked == closers[..i]
      {
        invoked := invoked + [closers[i]];
      }
      assert closers[..|closers|] == closers;
      return invoked, None;
    }
  }

  /** `newApp`: create the application directory, then initialise each
      configured role in table order, returning no application on the first
      error. */
  method NewApp(p: Project, cfg: AppConfig, env: Env) returns (app: App?, err: Option<Error>)
    ensures (app != null) <==> err.None?
    ensures app != null ==> fresh(app) && NewAppSpec(p, cfg, env) == Ok(app.State())
    ensures app == null ==> err.Some? && NewAppSpec(p, cfg, env) == Err(err.value)
  {
    var dir: AppDir;
    match env.appDir(cfg.name) {
      case Failure(m) => return null, Some(Passed(m));
      case Success(d) => dir := d;
    }
    var a := new App(p, cfg, dir);
    var table := RoleTable(cfg);
    for i := 0 to |table|
      invariant fresh(a)
      invariant InitAll(a.State(), table[i..], p.factories, env) == NewAppSpec(p, cfg, env)
    {
      var c := table[i];
      assert table[i..][0] == c && table[i..][1..] == table[i + 1..];
      if c.config.None? {
        continue;
      }
      var e := a.InitComponent(c.role, SlotOf(c.role), p.factories(c.role), c.config.value, env);
      if e.Some? {
        return null, e;
      }
    }
    return a, None;
  }
}
