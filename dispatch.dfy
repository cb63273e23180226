/** Dynamic dispatch of a component operation (`callDynamicFunc`) and the
    capability-gated platform operations built on it (`Exec`, `ConfigSet`,
    `ConfigGet`), as functions of the application's state. */
module Dispatch {
  import opened Types
  import opened Lifecycle

  /** A configuration variable, handed to the platform's operations by pointer. */
  datatype ConfigVar = ConfigVar(name: string, value: string)

  /** Values in the pool the chain builder draws an operation's arguments from. */
  datatype Value =
    | Context(ctx: nat)
    | Logger(scope: string)
    | SourceInfo(source: Source)
    | AppDirHandle(appDir: AppDir)
    | ComponentDirHandle(componentDir: ComponentDir)
    | UIHandle(ui: nat)
    | HistoryClient(api: nat, mappers: seq<Mapper>)
    | ConfigVarRef(cv: ConfigVar)

  /** A Go dynamic type: its name and the interfaces it implements. */
  datatype GoType = GoType(name: string, implements: set<string>)

  /** The value an operation returned, as far as the core looks at it: nil, or
      a value of some dynamic type. */
  datatype RawValue = Nil | Returned(id: nat, typ: GoType)

  /** What calling a resolved chain yields: the raw value, and the ConfigVar
      it was handed as the operation left it behind the pointer, name and
      value both (None when it wrote neither field). */
  datatype Outcome = Outcome(raw: RawValue, written: Option<ConfigVar>)

  datatype Chain = Chain(id: nat)

  /** The argument-resolution engine: build a chain for a function from the
      converters and the value pool, and call a chain. */
  datatype Engine = Engine(
    build: (Func, seq<Mapper>, seq<Value>) -> Attempt<Chain>,
    call: Chain -> Attempt<Outcome>)

  /** What dispatch hands to the engine. */
  datatype Request = Request(func: Func, mappers: seq<Mapper>, pool: seq<Value>)

  /** The values always offered after the caller's: context, logger, source,
      application directory, the component's directory, UI, and a history
      client bound to the application's current converters, in that order. */
  function Ambient(s: AppState, ctx: nat, log: string, cdir: ComponentDir): (r: seq<Value>)
    ensures |r| == 7
    ensures Context(ctx) in r && Logger(log) in r && SourceInfo(s.source) in r
    ensures AppDirHandle(s.dir) in r && ComponentDirHandle(cdir) in r && UIHandle(s.ui) in r
    ensures HistoryClient(s.client, s.mappers) in r
    // The only configuration variables in a pool are the caller's own.
    ensures forall i :: 0 <= i < |r| ==> !r[i].ConfigVarRef?
  {
    [Context(ctx), Logger(log), SourceInfo(s.source), AppDirHandle(s.dir),
     ComponentDirHandle(cdir), UIHandle(s.ui), HistoryClient(s.client, s.mappers)]
  }

  /** A prepared function is used as it is; a plain one is wrapped, and a
      wrapping failure is returned unchanged. */
  function Wrap(op: Operation): (r: Result<Func>)
    ensures op.Prepared? ==> r == Ok(op.func)
    ensures op.Native? ==> (r.Ok? <==> op.wrapped.Success?)
    ensures op.Native? && op.wrapped.Failure? ==> r == Err(Passed(op.wrapped.message))
    ensures op.Native? && op.wrapped.Success? ==> r == Ok(op.wrapped.value)
  {
    match op
    case Prepared(fn) => Ok(fn)
    case Native(Success(fn)) => Ok(fn)
    case Native(Failure(m)) => Err(Passed(m))
  }

  /** Everything dispatch does before it consults the engine: wrap the
      operation, find the component's directory, assemble the value pool. */
  function Prepare(s: AppState, ctx: nat, log: string, c: Component, op: Operation, values: seq<Value>): (r: Result<Request>)
    ensures r.Ok? <==> Wrap(op).Ok? && c.id in s.componentDirs
    ensures Wrap(op).Err? ==> r == Err(Wrap(op).error)
    ensures Wrap(op).Ok? && c.id !in s.componentDirs ==> r == Err(ComponentDirNotFound(c.id))
    ensures r.Ok? ==>
              && r.value.func == Wrap(op).value
              && r.value.mappers == s.mappers
              && |r.value.pool| == |values| + 7
              && r.value.pool[..|values|] == values
              && r.value.pool[|values|..] == Ambient(s, ctx, log, s.componentDirs[c.id])
  {
    match Wrap(op)
    case Err(e) => Err(e)
    case Ok(fn) =>
      if c.id !in s.componentDirs then Err(ComponentDirNotFound(c.id))
      else
        var pool := values + Ambient(s, ctx, log, s.componentDirs[c.id]);
        assert pool[..|values|] == values;
        Ok(Request(fn, s.mappers, pool))
  }

  function Implements(v: RawValue, iface: string): bool
  {
    v.Returned? && iface in v.typ.implements
  }

  /** The result check as the source writes it: a nil result under an
      expected type panics (the type of nil has no Implements). */
  datatype Verdict = Accept(raw: RawValue) | Reject(error: Error) | Panic

  function CheckResultAsWritten(expected: Option<string>, raw: RawValue): (v: Verdict)
    ensures v.Panic? <==> expected.Some? && raw.Nil?
    ensures v.Accept? ==> v.raw == raw
    ensures expected.None? ==> v == Accept(raw)
  {
    match expected
    case None => Accept(raw)
    case Some(iface) =>
      match raw
      case Nil => Panic
      case Returned(_, t) =>
        if iface in t.implements then Accept(raw) else Reject(ResultTypeMismatch(iface, t.name))
  }

  /** A nil result with an expected type: the check as written panics. */
  lemma NilResultPanicsAsWritten(iface: string)
    ensures CheckResultAsWritten(Some(iface), Nil) == Panic
  {
  }

  /** The result check as intended: with no expected type the raw value is
      returned as it is; otherwise it is returned exactly when it implements
      the expected interface, and a nil or other value is a mismatch error. */
  function CheckResult(expected: Option<string>, raw: RawValue): (r: Result<RawValue>)
    ensures r.Ok? <==> expected.None? || Implements(raw, expected.value)
    ensures r.Ok? ==> r.value == raw
    ensures r.Err? ==> r.error.ResultTypeMismatch? && r.error.expected == expected.value
    // A mismatch names the value's actual dynamic type.
    ensures expected.Some? && raw.Returned? && r.Err? ==> r.error.got == raw.typ.name
    ensures expected.Some? && raw.Returned? ==>
              CheckResultAsWritten(expected, raw) ==
                (if r.Ok? then Accept(r.value) else Reject(r.error))
  {
    match expected
    case None => Ok(raw)
    case Some(iface) =>
      match raw
      case Nil => Err(ResultTypeMismatch(iface, "<nil>"))
      case Returned(_, t) =>
        if iface in t.implements then Ok(raw) else Err(ResultTypeMismatch(iface, t.name))
  }

  /** Build the chain, call it, check the result: the engine's errors come
      back unchanged. */
  function Perform(req: Request, expected: Option<string>, engine: Engine): (r: Result<Outcome>)
    ensures engine.build(req.func, req.mappers, req.pool).Failure? ==>
              r == Err(Passed(engine.build(req.func, req.mappers, req.pool).message))
    ensures engine.build(req.func, req.mappers, req.pool).Success?
              && engine.call(engine.build(req.func, req.mappers, req.pool).value).Failure? ==>
              r == Err(Passed(engine.call(engine.build(req.func, req.mappers, req.pool).value).message))
    ensures r.Ok? ==>
              && engine.build(req.func, req.mappers, req.pool).Success?
              && engine.call(engine.build(req.func, req.mappers, req.pool).value) == Success(r.value)
              && (expected.Some? ==> Implements(r.value.raw, expected.value))
    ensures expected.None? && engine.build(req.func, req.mappers, req.pool).Success?
              && engine.call(engine.build(req.func, req.mappers, req.pool).value).Success? ==>
              r == Ok(engine.call(engine.build(req.func, req.mappers, req.pool).value).value)
    // Once both engine steps succeed, the outcome is what the corrected
    // result check makes of the call's raw value.
    ensures engine.build(req.func, req.mappers, req.pool).Success?
              && engine.call(engine.build(req.func, req.mappers, req.pool).value).Success? ==>
              var out := engine.call(engine.build(req.func, req.mappers, req.pool).value).value;
              r == (match CheckResult(expected, out.raw)
                    case Ok(_) => Ok(out)
                    case Err(e) => Err(e))
  {
    match engine.build(req.func, req.mappers, req.pool)
    case Failure(m) => Err(Passed(m))
    case Success(chain) =>
      match engine.call(chain)
      case Failure(m) => Err(Passed(m))
      case Success(out) =>
        match CheckResult(expected, out.raw)
        case Err(e) => Err(e)
        case Ok(_) => Ok(out)
  }

  /** `callDynamicFunc`: prepare, then perform. When preparation fails the
      engine plays no part: the result is the same for every engine. */
  function CallDynamicFunc(s: AppState, ctx: nat, log: string, expected: Option<string>,
                           c: Component, op: Operation, values: seq<Value>, engine: Engine): (r: Result<Outcome>)
    ensures Wrap(op).Err? ==> r == Err(Wrap(op).error)
    ensures Wrap(op).Ok? && c.id !in s.componentDirs ==> r == Err(ComponentDirNotFound(c.id))
    ensures r.Ok? ==> c.id in s.componentDirs && (expected.Some? ==> Implements(r.value.raw, expected.value))
    ensures Prepare(s, ctx, log, c, op, values).Ok? ==> r == Perform(Prepare(s, ctx, log, c, op, values).value, expected, engine)
  {
    match Prepare(s, ctx, log, c, op, values)
    case Err(e) => Err(e)
    case Ok(req) => Perform(req, expected, engine)
  }

  /** A component that never went through initialisation has no directory,
      and dispatching on it fails the same way whatever the engine. */
  lemma UnknownComponentFails(s: AppState, ctx: nat, log: string, expected: Option<string>,
                              c: Component, op: Operation, values: seq<Value>, e1: Engine, e2: Engine)
    requires c.id !in s.componentDirs && Wrap(op).Ok?
    ensures CallDynamicFunc(s, ctx, log, expected, c, op, values, e1) == Err(ComponentDirNotFound(c.id))
    ensures CallDynamicFunc(s, ctx, log, expected, c, op, values, e1) == CallDynamicFunc(s, ctx, log, expected, c, op, values, e2)
  {
  }

  predicate CanExec(s: AppState)
  {
    s.slots.platform.Some? && s.slots.platform.value.exec.Some?
  }

  predicate CanConfig(s: AppState)
  {
    s.slots.platform.Some? && s.slots.platform.value.config.Some?
  }

  /** The logger scope the platform operations use. */
  const PLATFORM_LOG := "platform"

  /** `Exec`: without the exec capability it fails before any dispatch;
      otherwise it dispatches the platform's exec operation with no extra
      values and returns dispatch's error, if any. */
  function Exec(s: AppState, ctx: nat, engine: Engine): (r: Option<Error>)
    ensures !CanExec(s) ==> r == Some(ExecUnsupported)
    ensures CanExec(s) ==>
              var d := CallDynamicFunc(s, ctx, PLATFORM_LOG, None, s.slots.platform.value,
                                       s.slots.platform.value.exec.value, [], engine);
              && (r.None? <==> d.Ok?)
              && (d.Err? ==> r == Some(d.error))
  {
    if !CanExec(s) then Some(ExecUnsupported)
    else
      var p := s.slots.platform.value;
      ErrorOf(CallDynamicFunc(s, ctx, PLATFORM_LOG, None, p, p.exec.value, [], engine))
  }

  /** `ConfigSet`: without the config capability it fails before any dispatch;
      otherwise the variable {key, val} is the only extra value. */
  function ConfigSet(s: AppState, ctx: nat, key: string, val: string, engine: Engine): (r: Option<Error>)
    ensures !CanConfig(s) ==> r == Some(ConfigUnsupported)
    ensures CanConfig(s) ==>
              var d := CallDynamicFunc(s, ctx, PLATFORM_LOG, None, s.slots.platform.value,
                                       s.slots.platform.value.config.value.setFunc,
                                       [ConfigVarRef(ConfigVar(key, val))], engine);
              && (r.None? <==> d.Ok?)
              && (d.Err? ==> r == Some(d.error))
  {
    if !CanConfig(s) then Some(ConfigUnsupported)
    else
      var p := s.slots.platform.value;
      ErrorOf(CallDynamicFunc(s, ctx, PLATFORM_LOG, None, p, p.config.value.setFunc,
                              [ConfigVarRef(ConfigVar(key, val))], engine))
  }

  /** `ConfigGet`: without the config capability it fails before any dispatch;
      otherwise it hands over the variable {key} and, on success, returns that
      variable as the operation left it. */
  function ConfigGet(s: AppState, ctx: nat, key: string, engine: Engine): (r: Result<ConfigVar>)
    ensures !CanConfig(s) ==> r == Err(ConfigUnsupported)
    ensures CanConfig(s) ==>
              var d := CallDynamicFunc(s, ctx, PLATFORM_LOG, None, s.slots.platform.value,
                                       s.slots.platform.value.config.value.getFunc,
                                       [ConfigVarRef(ConfigVar(key, ""))], engine);
              && (r.Ok? <==> d.Ok?)
              && (d.Err? ==> r == Err(d.error))
              && (d.Ok? && d.value.written.Some? ==> r.value == d.value.written.value)
              && (d.Ok? && d.value.written.None? ==> r.value == ConfigVar(key, ""))
    // The variable keeps the requested name unless the operation renamed it.
    ensures CanConfig(s) && r.Ok? ==>
              var d := CallDynamicFunc(s, ctx, PLATFORM_LOG, None, s.slots.platform.value,
                                       s.slots.platform.value.config.value.getFunc,
                                       [ConfigVarRef(ConfigVar(key, ""))], engine);
              (d.value.written.None? || d.value.written.value.name == key) ==> r.value.name == key
  {
    if !CanConfig(s) then Err(ConfigUnsupported)
    else
      var p := s.slots.platform.value;
      match CallDynamicFunc(s, ctx, PLATFORM_LOG, None, p, p.config.value.getFunc,
                            [ConfigVarRef(ConfigVar(key, ""))], engine)
      case Err(e) => Err(e)
      case Ok(out) =>
        match out.written
        case Some(cv) => Ok(cv)
        case None => Ok(ConfigVar(key, ""))
  }

  /** The platform operations fail fast without their capability: the
      result is the unsupported error for every engine. */
  lemma UnsupportedSkipsDispatch(s: AppState, ctx: nat, key: string, val: string, e1: Engine, e2: Engine)
    ensures !CanExec(s) ==> Exec(s, ctx, e1) == Exec(s, ctx, e2) == Some(ExecUnsupported)
    ensures !CanConfig(s) ==>
              && ConfigSet(s, ctx, key, val, e1) == ConfigSet(s, ctx, key, val, e2) == Some(ConfigUnsupported)
              && ConfigGet(s, ctx, key, e1) == ConfigGet(s, ctx, key, e2) == Err(ConfigUnsupported)
  {
  }

  /** An application whose only configured role is a platform plugin with
      the exec capability: creating it succeeds, and `Exec` consults the
      engine exactly with the project's converters followed by the plugin's,
      and the full ambient pool for the platform's directory. */
  lemma ExecOnPluginPlatform(p: Project, cfg: AppConfig, env: Env, ctx: nat, engine: Engine,
                             instance: nat, comp: Component, ms: seq<Mapper>, fn: Func)
    requires cfg.build.None? && cfg.registry.None? && cfg.release.None? && cfg.platform.Some?
    requires env.appDir(cfg.name).Success?
    requires env.componentDir(env.appDir(cfg.name).value, Platform, cfg.platform.value.typeName).Success?
    requires cfg.platform.value.typeName in p.factories(Platform)
    requires p.factories(Platform)[cfg.platform.value.typeName] == Success(Plugin(instance, comp, ms))
    requires Platform in comp.roles && comp.exec.Some? && Wrap(comp.exec.value) == Ok(fn)
    requires env.configure(comp, cfg.platform.value.body) == []
    ensures NewAppSpec(p, cfg, env).Ok?
    ensures var s := NewAppSpec(p, cfg, env).value;
            var cdir := env.componentDir(env.appDir(cfg.name).value, Platform, cfg.platform.value.typeName).value;
            && s.slots.platform == Some(comp)
            && s.mappers == p.mappers + ms
            && s.closers == [ClosePlugin(instance)]
            && Exec(s, ctx, engine) == ErrorOf(Perform(Request(fn, p.mappers + ms, Ambient(s, ctx, PLATFORM_LOG, cdir)), None, engine))
  {
    var dir := env.appDir(cfg.name).value;
    var s0 := InitialState(p, cfg, dir);
    var t := RoleTable(cfg);
    var st := Init(s0, Platform, SlotOf(Platform), p.factories(Platform), cfg.platform.value, env);
    assert st.err.None?;
    assert InitAll(s0, t, p.factories, env) == InitAll(s0, t[2..], p.factories, env);
    assert InitAll(s0, t[2..], p.factories, env) == InitAll(st.state, t[3..], p.factories, env);
    assert InitAll(st.state, t[3..], p.factories, env) == Ok(st.state);
  }
}
