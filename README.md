# Per-application lifecycle core, modelled in Dafny

This project models `internal/core/app.go` of devflow (the project that
became waypoint). That file is the per-application orchestration core: an
`App` holds up to four pluggable components, one per role (builder,
registry, platform, release manager). `newApp` initialises them from an
application's configuration. `Close` tears down the plugin instances they
came from. `callDynamicFunc` invokes a component operation whose arguments
an external chain builder resolves from a pool of values. The platform
operations `Exec`, `ConfigSet` and `ConfigGet` are gated on the platform
having the exec or config capability.

Files and modules:

- `types.dfy` (`Types`): roles, components, the constructor result
  (`Plain` or `Plugin`), closers, metadata, errors, and `Attempt`. An
  `Attempt` is the outcome of a call into a collaborator outside the core.
- `lifecycle.dfy` (`Lifecycle`): the application's state as a value
  (`AppState`). `Init` specifies one `initComponent`. `InitAll` and
  `NewAppSpec` specify the role-table loop of `newApp`. The lemmas cover
  several initialisations.
- `dispatch.dfy` (`Dispatch`): `callDynamicFunc` in two steps. `Prepare` wraps
  the operation, looks up the component's directory and builds the value
  pool. It takes no engine parameter. `Perform` builds the chain, calls it
  and checks the result. `Exec`, `ConfigSet` and `ConfigGet` are functions of
  the application state.
- `app.dfy` (`Core`): the class `App`. Its fields mirror the Go struct: four
  role slots, the converters, the directory map, the metadata map and the
  closers. `InitComponent` and `Close` are methods. `NewApp` is a method with
  the loop over the role table. `InitComponent` and `NewApp` are proved
  against the `Lifecycle` functions. `Close` is proved to report exactly
  the registered closers, in order.

Collaborators are stand-ins:

- The per-role factory is a map from subtype name to the constructor's
  outcome.
- The directory provider and the configuration decoder are fields of `Env`.
- The chain builder and chain call are the two functions of `Engine`.
- `mapper.NewFunc` is the `wrapped` outcome carried by an `Operation.Native`.
- Go reflection becomes data. The role interfaces a component implements
  are `Component.roles`. The exec and config capabilities are optional
  fields of `Component`. A returned value's dynamic type is
  `GoType(name, implements)`.
- Component identity (the Go maps are keyed by the component value itself)
  is `Component.id`.

Behaviour worth noting:

- `callDynamicFunc` wraps the operation (`mapper.NewFunc`) before it looks
  up the component directory (lines 197-210). A wrapping failure therefore
  wins over a missing directory.
- `Close` does not clear `closers` (lines 108-114). A second call runs every
  closer again, so teardown is not idempotent.
- `newApp` returns no `App` when an initialisation fails (lines 97-100). The
  closer of a plugin whose component then failed the type or configuration
  check is still recorded, but only in the discarded `App`.
  `Core.NewApp` models this: it returns `null` and the error. Closers
  registered before the failure are unreachable through the result of
  `newApp`.

## Model

| member | source | states |
|---|---|---|
| `Lifecycle.Init` | internal/core/app.go:254-335 | A non-pointer target fails with `TargetNotPointer` and an unknown subtype with `UnknownType`; both leave the state unchanged. Directory-creation and constructor failures are returned unchanged, also with the state unchanged. Once constructed, the directory entry is recorded under the unwrapped component's id, plugin converters are appended after the old ones and exactly one closer is appended; a plain result adds neither. This holds whether the later checks pass or not. Any failure leaves slots and metadata unchanged. Success happens exactly when the component is assignable to the slot and decoding reports no errors; otherwise the error is `NotAssignable` or the decoder's diagnostics. On success the slot holds the component, the metadata is {role, subtype name} under its id, and nothing else changes. Consistency is preserved on every path. |
| `Lifecycle.InitAll` | internal/core/app.go:91-101 | A successful run over the role table only adds: the starting converters and closers are prefixes of the new ones, and no directory or metadata entry is dropped. Source, directory, UI and client are unchanged. A table with no configured entry changes nothing. |
| `Lifecycle.NewAppSpec` | internal/core/app.go:54-104 | A failure to create the application directory is returned unchanged. A new application is named after its configuration with path ".", lives in the directory created for it, holds the project's UI and client, and its converters start with the project's. |
| `Lifecycle.InitAllKeepsSlot` | internal/core/app.go:91-101 | A successful run leaves the slot of a role that no table entry names as it was. |
| `Lifecycle.InitAllSetsConfigured` | internal/core/app.go:91-101 | In a table whose roles are distinct, a successful run leaves each configured entry's slot holding the component its factory constructed for the configured subtype; that subtype is known and its constructor succeeded. |
| `Lifecycle.NewAppSetsConfigured` | internal/core/app.go:80-101 | In a new application, every configured role's slot holds the component its factory constructed for the configured subtype, and that component has both a directory entry and a metadata entry. |
| `Lifecycle.EntryContributes` | internal/core/app.go:293-308 | A successful initialisation of one table entry appends exactly that entry's plugin converters and closer. |
| `Lifecycle.InitAllSplit` | internal/core/app.go:91-101 | Running the role table in two parts is the same as running it whole, stopping at the first error. |
| `Lifecycle.AbortsAtFirstFailure` | internal/core/app.go:91-101 | If the entries before k succeed and entry k fails with e, the whole run fails with e, and no later entry is initialised. |
| `Lifecycle.InitAllContributions` | internal/core/app.go:91-101 | After a successful run, the converters are the starting ones followed by each configured plugin's converters in table order, and the closers are the starting ones followed by one per configured plugin. |
| `Lifecycle.InitAllTracksConfigured` | internal/core/app.go:91-101 | A run adds directory and metadata entries only for components that configured entries construct. |
| `Lifecycle.InitAllSkipsUnconfigured` | internal/core/app.go:91-96 | A role that no entry configures keeps its slot, and no metadata entry is published for it. |
| `Lifecycle.InitAllConsistent` | internal/core/app.go:310-335 | A run keeps every published component tracked in the directory map, and every set slot published. |
| `Lifecycle.NewAppContributions` | internal/core/app.go:54-104 | A new application's converters are a copy of the project's followed by its plugins' converters in role order, and it holds exactly one closer per plugin. |
| `Lifecycle.NewAppSkipsUnconfigured` | internal/core/app.go:80-101 | In a new application, an unconfigured role stays unset and has no metadata entry, and directories are recorded only for configured roles' components. |
| `Lifecycle.NewAppConsistent` | internal/core/app.go:54-104 | A new application's published state is consistent. |
| `Dispatch.Ambient` | internal/core/app.go:212-221 | The ambient values are seven: context, logger, source, application directory, the given component directory, UI and a history client bound to the current converters. None of them is a configuration variable. |
| `Dispatch.Wrap` | internal/core/app.go:194-204 | A prepared function is used as it is; a plain one is wrapped, a successful wrap yields the wrapped function, and a wrapping failure is returned unchanged. |
| `Dispatch.Prepare` | internal/core/app.go:206-221 | Preparation succeeds exactly when wrapping succeeds and the component has a directory; otherwise the error is the wrapping error or `ComponentDirNotFound`. The pool is the caller's values first, then in order: context, logger, source, app directory, the component's directory, UI, and a history client bound to the current converters. |
| `Dispatch.CheckResultAsWritten` | internal/core/app.go:234-249 | The check as written: with no expected type the value is accepted as it is; it panics exactly when a type is expected and the value is nil. |
| `Dispatch.NilResultPanicsAsWritten` | internal/core/app.go:240-247 | A nil result under an expected type makes the check as written panic. |
| `Dispatch.CheckResult` | internal/core/app.go:234-249 | The corrected check accepts exactly when no type is expected or the value implements it, and returns the value unchanged. Otherwise it fails with `ResultTypeMismatch` naming the expected type and, for a non-nil value, its actual type. For non-nil values it agrees with the as-written check. |
| `Dispatch.Perform` | internal/core/app.go:223-249 | Chain-building and call errors are returned unchanged. Success means both steps succeeded, the outcome is the call's own, and it implements the expected type; with no expected type, the call's outcome is returned as it is. Once both steps succeed, the result is the call's outcome if the corrected check accepts its raw value, and the check's error otherwise. A nil value under an expected type gives `ResultTypeMismatch` here, where the source panics (see Findings). |
| `Dispatch.CallDynamicFunc` | internal/core/app.go:186-250 | A wrapping failure or a missing directory fails before the engine is involved. Success implies the component has a directory and the result implements the expected type. Otherwise the result is what `Perform` makes of the prepared request. It uses the corrected result check, so a nil value under an expected type is a `ResultTypeMismatch` rather than the source's panic (see Findings). |
| `Dispatch.UnknownComponentFails` | internal/core/app.go:206-210 | For an operation that wraps, dispatching on a component with no directory fails with `ComponentDirNotFound`, with the same result for any two engines. |
| `Dispatch.Exec` | internal/core/app.go:118-132 | Without the exec capability, or without a platform, it fails with `ExecUnsupported`. Otherwise it succeeds exactly when dispatching the exec operation with no extra values succeeds, and returns dispatch's error unchanged. |
| `Dispatch.ConfigSet` | internal/core/app.go:136-152 | Without the config capability it fails with `ConfigUnsupported`. Otherwise it succeeds exactly when dispatch succeeds with `ConfigVar{key, val}` as the only extra value, and returns dispatch's error unchanged. |
| `Dispatch.ConfigGet` | internal/core/app.go:156-174 | Without the config capability it fails with `ConfigUnsupported`. Otherwise it passes `ConfigVar{key}` and succeeds exactly when dispatch does. It returns the variable as the operation left it, name and value both, or `{key, ""}` if the operation wrote nothing. The name is `key` unless the operation renamed the variable. Dispatch errors are returned unchanged. |
| `Dispatch.UnsupportedSkipsDispatch` | internal/core/app.go:118-174 | Without the capability, `Exec`, `ConfigSet` and `ConfigGet` give the unsupported error whatever the engine, so no dispatch is attempted. |
| `Dispatch.ExecOnPluginPlatform` | internal/core/app.go:54-132 | Take an application whose only configured role is an assignable, decodable plugin platform with exec. It is created with the platform set, the project's converters followed by the plugin's, and the plugin's closer. `Exec` then runs the engine on exactly those converters and the full ambient pool for the platform's directory. |
| `Core.App.constructor` | internal/core/app.go:56-71 | A new `App` has no roles set, empty directory and metadata maps, no closers, and a copy of the project's converters. |
| `Core.App.Assign` | internal/core/app.go:326-327 | Writes the component into the target role's slot and changes nothing else. |
| `Core.App.InitComponent` | internal/core/app.go:254-335 | The fields after the call, and the error returned, are exactly what `Lifecycle.Init` gives for the fields before it. |
| `Core.App.Close` | internal/core/app.go:108-114 | Runs every registered closer exactly once, in registration order, and always returns no error. |
| `Core.NewApp` | internal/core/app.go:54-104 | Returns an application exactly when there is no error. That application is new, and its state is what `NewAppSpec` gives. On error it returns no application and the error `NewAppSpec` gives. |

## Findings

| source | as written | input that shows it | evidently intended | confidence | as-written member | corrected member |
|---|---|---|---|---|---|---|
| internal/core/app.go:241-242 | The dynamic type of the raw result is taken and asked whether it implements the expected interface. For a nil result that type is itself nil, and calling `Implements` on it panics. | An expected result type is given, and the resolved chain returns a nil value with no error. | A nil result does not implement the interface and is reported as a result-type mismatch. | medium; not executed | `Dispatch.CheckResultAsWritten` (exhibited by `Dispatch.NilResultPanicsAsWritten`) | `Dispatch.CheckResult` |

## Left out

- Logging (`hclog` loggers, the debug print of the chain) and the UI. They have no behaviour here. The logger offered in the value pool is reduced to its scope name, and the UI and API client to opaque handles.
- `dconfig` (deployment configuration) is copied into the `App` but never read in this file, so it is not modelled.
- Mapper chain construction, resolution and `mapper.NewFunc` belong to a foreign library. They are the abstract `Engine` and the `wrapped` outcome of `Operation.Native`.
- Configuration decoding (`component.Configure`, HCL diagnostics) is the `Env.configure` oracle. Only its error diagnostics are modelled, and the configured fields of the component are not.
- Directory creation (`datadir`) is the `Env.appDir` and `Env.componentDir` oracles. The lower-casing of the role name into a directory name is folded into the oracle, which receives the role.
- Constructors are reduced to their outcome per subtype name. The arguments they receive (context, source, logger, directory) are not modelled, and neither is a directory created for a constructor that then fails.
- Plugin transport, the body of `pinst.Close` and the history client's RPCs are I/O. A closer is identified by its plugin instance, and `Core.App.Close` reports the closers it ran instead of performing them.
- The gRPC status code attached to the result-type mismatch, and the exact text of every error message. Errors are constructors of `Types.Error`, and collaborator errors keep their message in `Passed`.
- `NotAssignable` names the component id and the target role rather than the two Go type names, and `ComponentDirNotFound` names the id rather than `%T`.
- Concurrency and cancellation: none is implemented in this code.
- Idempotent teardown is not claimed, because the code re-runs every closer on a second `Close`.
- The set-then-get round trip of a configuration variable depends on the platform plugin's behaviour, which is outside this core.
- `Dispatch.Perform` and `Dispatch.CallDynamicFunc` use the corrected result check. The source's panic on a nil result under an expected type (lines 241-242) is modelled only by `Dispatch.CheckResultAsWritten`.
- `Dispatch.ConfigGet` does not promise that the returned variable is named `key`. The operation receives a pointer to the variable and may rewrite its name, and lines 164-173 return the variable as it was left.
- A nil component is not modelled: `Constructed` always carries a component. In the source, a constructor that returns nil with no error, or a plugin instance whose component is nil, records the directory under the nil key (line 311) and then panics in the assignability check (lines 313-315).
- A nil per-role factory (a project with no factory registered for a role) is not modelled: `Project.factories` gives every role a factory map.
