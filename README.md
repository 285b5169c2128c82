# midriff in Dafny

A model of midriff's middleware `Group` (midriff.go). A group has a name, an
ordered list of handler units, a logging flag, and a cached "bundle": the
closure that runs the units. The group is changed in place by `Append`,
`Prepend`, `Extend` and `Log`. `And(main)` builds the bundle if needed and
returns a handler. Invoking that handler runs the group's units in order and
then `main`, with or without log lines.

The module `Midriff` (midriff.dfy) has these parts:

- `Group` is a class whose fields are those of the Go struct. The Go field
  `bundle` becomes `bundleBuilt`, which records whether `bundle` is non-nil.
  Every bundle the code builds is the same closure. It ranges over `g.units`
  when it is called, so whether it exists is the only thing that tells one
  bundle from another. `Valid()` is the invariant the methods keep: the cached
  size never exceeds the unit count, and the bundle exists exactly when the
  cached size is positive.
- A handler is an opaque id (`Handler = nat`). Running a handler is recorded
  as a `Call` event. The logging branch's lines are `Diag` events, without
  their elapsed times.
- `And` returns `Composed(g, main, logged)`. This holds a reference to the
  group, as the Go closure captures `g`. `logged` is the value of `g.log` when
  `And` ran.
- `Invoke` runs a composed handler against the group's state at the time of
  the call. Its result is `Finished(trace)`, or `Panicked(trace)` when it
  calls a nil bundle. The pure function `Outcome` gives the same result from
  plain values. The lemmas about `Outcome` state what a run calls and which
  log lines it emits.

The module `MidriffTest` (midriff_test.dfy) restates the repository's tests
as methods with postconditions. It adds the consequences of the live reads:
a unit added after `And` still runs, a handler from an empty group panics,
and the logging branch is fixed when `And` is called.

Four behaviours of the code worth noting:

- A group that had no units when `And` was called keeps a nil bundle, because
  `bundleSize` (0) equals `len(units)` (0) at midriff.go:57. Invoking the
  handler then calls a nil function (midriff.go:73, 83) and panics. Main is
  never reached. The handler keeps panicking after units are added, until some
  later `And` call builds the bundle.
- The logging branch emits no per-unit line (midriff.go:69-79). It emits a
  start line, a units-completed line, a line before the main handler, and a
  chain-completed line.
- The line before the main handler (midriff.go:76) carries no group name. The
  other three lines carry it (midriff.go:72, 74, 78).
- A composed handler reads the group's current units when it runs
  (midriff.go:60-64, 82-85). It does not use a snapshot taken by `And`.

## Model

| member | source | states |
|---|---|---|
| `Midriff.Group.constructor` | midriff.go:24-25 | NewGroup: the given name, no units, logging off, nil bundle, cached size 0 |
| `Midriff.Group.Log` | midriff.go:27-32 | sets the logging flag and changes no other field |
| `Midriff.Group.Append` | midriff.go:34-36 | units become the old units followed by the given ones, in the given order; an empty argument changes nothing |
| `Midriff.Group.Prepend` | midriff.go:38-40 | units become the given ones, not reversed, followed by the old units |
| `Midriff.Group.Extend` | midriff.go:42-49 | units become the old units followed by the other group's units at the time of the call; the other group is unchanged, and extending a group with itself doubles it |
| `Midriff.Group.And` | midriff.go:51-86 | does not change the units and does not add the main handler; afterwards the cached size equals the unit count; the bundle is rebuilt only when the cached size differed, and it exists exactly when the group has units; the result refers to this group and fixes the logging branch from the current flag |
| `Midriff.Group.RunBundle` | midriff.go:60-64 | the bundle closure calls the group's current units, each once, in order |
| `Midriff.Invoke` | midriff.go:68-85 | invoking a composed handler gives `Outcome` of the group's name, units and bundle at the time of invocation, with the main handler and the branch fixed by `And` |
| `Midriff.Outcome` | midriff.go:68-85 | an invocation panics exactly when the bundle is nil, and then no unit and no main handler has run; the logging branch first emits the start line tagged with the group name; the plain branch emits nothing before the panic |
| `Midriff.CallsOfCallsUnits` | midriff.go:61-63 | the loop over the units calls exactly the units, in order, and emits no log line per unit |
| `Midriff.CallOrder` | midriff.go:60-85 | with a bundle, an invocation finishes and calls the current units in order, each once, then the main handler once, on either branch |
| `Midriff.BranchesCallAlike` | midriff.go:68-85 | the logging and plain branches end the same way and call the same handlers in the same order |
| `Midriff.DiagnosticsOf` | midriff.go:69-79 | the plain branch emits no line; the logging branch emits the start, units-completed, pre-main and chain-completed lines in that order, tagged with the group name, except the pre-main line, which carries none; or only the start line when the bundle is nil |
| `MidriffTest.NewGroupScenario` | midriff_test.go:11-22 | a new group has the given name and no units |
| `MidriffTest.AppendScenario` | midriff_test.go:23-47 | appending f and then g gives [f, g]; appending nothing is a no-op |
| `MidriffTest.PrependScenario` | midriff_test.go:49-69 | appending f and then prepending g gives [g, f]; prepending [x, y] puts x before y |
| `MidriffTest.ExtendScenario` | midriff_test.go:70-94 | extending [authedF] with [basicF, basicG] gives [authedF, basicF, basicG], and a later append to the other group leaves this result unchanged |
| `MidriffTest.SelfExtendScenario` | midriff.go:47-49 | a group extended with itself holds its units twice |
| `MidriffTest.AndScenario` | midriff_test.go:95-124 | with unit f and main g, invoking the handler calls f and then g, and the group still holds only f |
| `MidriffTest.LiveUnitsScenario` | midriff.go:56-85 | a unit appended after `And` runs when the handler is invoked, before the main handler |
| `MidriffTest.SingleUnitOutcomes` | midriff.go:68-85 | with one unit and a bundle, the plain branch calls the unit then main; the logging branch emits the start line, calls the unit, emits the units-completed and pre-main lines, calls main and emits the chain-completed line |
| `MidriffTest.LogFixedAtAndScenario` | midriff.go:27-32 | a handler composed before logging was turned on stays plain, and one composed after it logs; both call the unit and then the main handler |
| `MidriffTest.TwoMainsScenario` | midriff.go:51-55 | two handlers from one group with different main handlers each run the units and their own main handler, and the group's units are unchanged |
| `MidriffTest.EmptyGroupScenario` | midriff.go:56-85 | a handler from a group that had no units panics, and it still panics after a unit is appended; once a later `And` builds the bundle, the same handler runs the unit and then main |

## Left out

- Log output and timing: the text written by `log.Printf`, and the elapsed times from `time.Now` and `time.Since`, are not modelled. Only which lines are emitted, their order, and the group name they carry are modelled.
- The `net/http` types: the response writer and the request passed along the chain, and `ServeHTTP`. Handlers are opaque ids, and what a handler does is not modelled. The model assumes every unit returns normally. A unit that panics would stop the chain, and that case is not modelled.
- Concurrency: the Go code has no synchronisation. The model is sequential.
- Go slice aliasing and capacity: `Prepend` can reuse the caller's backing array. Units are modelled as sequence values.
- Recovery from the nil-bundle panic is not modelled. In net/http the server recovers from it. The model stops at `Panicked`.
- The test helper `funcEqual` (pointer comparison through reflection) is not modelled. Handler ids are compared directly.
- Nil groups and nil handlers are not modelled: `Group` and `Handler` values cannot be nil. In Go, `Extend(nil)` or a nil receiver panics (midriff.go:48), and a nil main handler given to `And` panics after the units have run (midriff.go:77, 84).
- doc.go is not part of this model: it holds only the package comment.
