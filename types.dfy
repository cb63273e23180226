/** Values shared by the application lifecycle and the dynamic dispatch:
    roles, components as the factories produce them, errors, and the
    outcome of a call into a collaborator outside the core. */
module Types {

  datatype Option<+T> = None | Some(value: T)

  /** The outcome of a call into a collaborator the core does not define
      (directory provider, constructor, chain builder, operation); a failure
      carries the collaborator's own message. */
  datatype Attempt<+T> = Success(value: T) | Failure(message: string)

  /** The four pluggable roles, in the order an application initialises them. */
  datatype Role = Builder | Registry | Platform | ReleaseManager

  /** Component identity: the source keys its maps by the component value
      itself (reference identity); the model gives each component an id. */
  type ComponentId = nat

  /** An argument converter known to the chain builder. */
  datatype Mapper = Mapper(name: string)

  /** A function the chain builder can resolve (a prepared mapper function). */
  datatype Func = Func(name: string)

  /** An operation a component exposes: either already a prepared mapper
      function, or a plain function still to be wrapped, where `wrapped` is
      what the wrapper makes of it (a failure for a malformed signature). */
  datatype Operation = Prepared(func: Func) | Native(wrapped: Attempt<Func>)

  /** The two operations of a platform with the config capability. */
  datatype ConfigOps = ConfigOps(setFunc: Operation, getFunc: Operation)

  /** A component instance: its identity, the role interfaces its dynamic
      type implements, and the optional capabilities (exec, config) a
      platform may offer. */
  datatype Component = Component(
    id: ComponentId,
    roles: set<Role>,
    exec: Option<Operation>,
    config: Option<ConfigOps>)

  /** A teardown action; the only kind the core registers closes the plugin
      instance a component came from. */
  datatype Closer = ClosePlugin(instance: nat)

  /** What a constructor returns: a finished in-process component, or a
      plugin instance carrying the component, the plugin's own converters
      and (through its instance) a close hook. */
  datatype Constructed =
    | Plain(component: Component)
    | Plugin(instance: nat, component: Component, mappers: seq<Mapper>)

  /** Per role, the factory maps a subtype name to its constructor's outcome;
      a name that is not a key is an unknown type. */
  type Factory = map<string, Attempt<Constructed>>

  /** A role's declared configuration: subtype name and configuration body. */
  datatype ComponentConfig = ComponentConfig(typeName: string, body: string)

  /** The metadata published for an initialised component. */
  datatype Metadata = Metadata(role: Role, name: string)

  /** Invocation metadata handed to constructors and operations. */
  datatype Source = Source(app: string, path: string)

  /** Opaque storage handles from the directory provider. */
  datatype AppDir = AppDir(id: nat)
  datatype ComponentDir = ComponentDir(id: nat)

  datatype Error =
    | TargetNotPointer                                 // "target value should be a pointer"
    | UnknownType(name: string)                        // "unknown type: %q"
    | NotAssignable(component: ComponentId, target: Role)
    | ConfigDiagnostics(errors: seq<string>)           // decoder diagnostics, returned as they are
    | ExecUnsupported                                  // "This platform does not support exec yet"
    | ConfigUnsupported                                // "This platform does not support config yet"
    | ComponentDirNotFound(component: ComponentId)     // "component dir not found for: %T"
    | ResultTypeMismatch(expected: string, got: string)
    | Passed(message: string)                          // a collaborator's error, unchanged

  datatype Result<+T> = Ok(value: T) | Err(error: Error)

  function ErrorOf<T>(r: Result<T>): Option<Error>
  {
    match r
    case Ok(_) => None
    case Err(e) => Some(e)
  }
}
