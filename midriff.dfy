/** A middleware group: an ordered sequence of handler units that can be
    composed with a main handler into one handler. The composed handler runs
    the units in order and then the main handler.

    Handlers are opaque: a handler is identified by a number, and running one
    is recorded as a `Call` event in a trace. The response writer and the
    request that Go passes along the chain are not modelled.
 */
module Midriff {

  /** An opaque handler; two handlers are the same unit when their ids agree. */
  type Handler = nat

  /** The diagnostics the logging branch of a composed handler emits.
      Elapsed times are left out; the group name is kept. */
  datatype Diagnostic =
    | UnitsStarted(group: string)     // "started running units in <name>"
    | UnitsCompleted(group: string)   // "[<name>] all units completed"
    | MainStarting                    // "running main handler ..."
    | ChainCompleted(group: string)   // "[<name>] units + handler completed"

  /** One observable step of an invocation. */
  datatype Event = Call(h: Handler) | Diag(d: Diagnostic)

  /** The outcome of invoking a composed handler: it either runs to the end,
      or it calls the group's bundle while that is still nil and panics,
      after the events in `trace`. */
  datatype Run = Finished(trace: seq<Event>) | Panicked(trace: seq<Event>)

  /** The handler `And` returns: a closure over the group (not over a copy of
      its units), the main handler, and the logging choice made when `And`
      was called. */
  datatype Composed = Composed(g: Group, main: Handler, logged: bool)

  /** The events of running `units` in order, one call each. */
  function CallsOf(units: seq<Handler>): seq<Event>
  {
    if units == [] then [] else CallsOf(units[..|units| - 1]) + [Call(units[|units| - 1])]
  }

  /** The handlers called in a trace, in the order they were called. */
  function Called(trace: seq<Event>): seq<Handler>
  {
    if trace == [] then []
    else (if trace[0].Call? then [trace[0].h] else []) + Called(trace[1..])
  }

  /** The diagnostics emitted in a trace, in the order they were emitted. */
  function Diagnostics(trace: seq<Event>): seq<Diagnostic>
  {
    if trace == [] then []
    else (if trace[0].Diag? then [trace[0].d] else []) + Diagnostics(trace[1..])
  }

  /** What invoking a composed handler does, given the state of its group at
      the moment of invocation (`name`, `units`, whether the bundle exists),
      its main handler and the logging choice fixed by `And`. */
  function Outcome(name: string, units: seq<Handler>, built: bool, main: Handler, logged: bool): (r: Run)
    ensures r.Panicked? <==> !built
    ensures logged ==> |r.trace| > 0 && r.trace[0] == Diag(UnitsStarted(name))
    ensures r.Panicked? ==> Called(r.trace) == []
    ensures !logged && !built ==> r.trace == []
  {
    if logged then
      var started := [Diag(UnitsStarted(name))];
      if !built then Panicked(started)
      else Finished(started + CallsOf(units)
                    + [Diag(UnitsCompleted(name)), Diag(MainStarting), Call(main), Diag(ChainCompleted(name))])
    else
      if !built then Panicked([])
      else Finished(CallsOf(units) + [Call(main)])
  }

  lemma {:induction false} CalledConcat(a: seq<Event>, b: seq<Event>)
    ensures Called(a + b) == Called(a) + Called(b)
  {
    if a == [] {
      assert a + b == b;
    } else {
      assert (a + b)[0] == a[0];
      assert (a + b)[1..] == a[1..] + b;
      CalledConcat(a[1..], b);
    }
  }

  lemma {:induction false} DiagnosticsConcat(a: seq<Event>, b: seq<Event>)
    ensures Diagnostics(a + b) == Diagnostics(a) + Diagnostics(b)
  {
    if a == [] {
      assert a + b == b;
    } else {
      assert (a + b)[0] == a[0];
      assert (a + b)[1..] == a[1..] + b;
      DiagnosticsConcat(a[1..], b);
    }
  }

  /** Running the units calls exactly the units, each once, in order, and
      emits no diagnostic of its own (there is no per-unit log line). */
  lemma {:induction false} CallsOfCallsUnits(units: seq<Handler>)
    ensures Called(CallsOf(units)) == units
    ensures Diagnostics(CallsOf(units)) == []
  {
    if units != [] {
      var n := |units| - 1;
      CallsOfCallsUnits(units[..n]);
      CalledConcat(CallsOf(units[..n]), [Call(units[n])]);
      DiagnosticsConcat(CallsOf(units[..n]), [Call(units[n])]);
      assert units[..n] + [units[n]] == units;
    }
  }

  /** Once the bundle exists, an invocation completes, and it calls the
      group's units in their order, each once, followed by the main handler
      once, on either branch. */
  lemma CallOrder(name: string, units: seq<Handler>, main: Handler, logged: bool)
    ensures Outcome(name, units, true, main, logged).Finished?
    ensures Called(Outcome(name, units, true, main, logged).trace) == units + [main]
  {
    CallsOfCallsUnits(units);
    var tail := [Diag(UnitsCompleted(name)), Diag(MainStarting), Call(main), Diag(ChainCompleted(name))];
    if logged {
      var started := [Diag(UnitsStarted(name))];
      assert Called(started) == [] by { assert started[1..] == []; }
      assert Called(tail) == [main] by {
        assert tail[3..][1..] == [];
        assert Called(tail[3..]) == [];
        assert tail[2..][1..] == tail[3..];
        assert Called(tail[2..]) == [main];
        assert tail[1..][1..] == tail[2..];
        assert Called(tail[1..]) == [main];
      }
      CalledConcat(started, CallsOf(units));
      CalledConcat(started + CallsOf(units), tail);
    } else {
      CalledConcat(CallsOf(units), [Call(main)]);
    }
  }

  /** The logging choice changes only the diagnostics: both branches call the
      same handlers in the same order and end the same way. */
  lemma BranchesCallAlike(name: string, units: seq<Handler>, built: bool, main: Handler)
    ensures Outcome(name, units, built, main, true).Finished? == Outcome(name, units, built, main, false).Finished?
    ensures Called(Outcome(name, units, built, main, true).trace) == Called(Outcome(name, units, built, main, false).trace)
  {
    if built {
      CallOrder(name, units, main, true);
      CallOrder(name, units, main, false);
    }
  }

  /** The plain branch emits no diagnostic. The logging branch emits, all
      tagged with the group's name where the line carries one: a start line,
      and, when the bundle exists, a units-completed line, a line before the
      main handler and a chain-completed line, with none per unit. */
  lemma DiagnosticsOf(name: string, units: seq<Handler>, built: bool, main: Handler)
    ensures Diagnostics(Outcome(name, units, built, main, false).trace) == []
    ensures Diagnostics(Outcome(name, units, built, main, true).trace)
         == if built then [UnitsStarted(name), UnitsCompleted(name), MainStarting, ChainCompleted(name)]
            else [UnitsStarted(name)]
  {
    CallsOfCallsUnits(units);
    if built {
      var started := [Diag(UnitsStarted(name))];
      var tail := [Diag(UnitsCompleted(name)), Diag(MainStarting), Call(main), Diag(ChainCompleted(name))];
      assert Diagnostics(started) == [UnitsStarted(name)] by { assert started[1..] == []; }
      assert Diagnostics(tail) == [UnitsCompleted(name), MainStarting, ChainCompleted(name)] by {
        assert tail[3..][1..] == [];
        assert Diagnostics(tail[3..]) == [ChainCompleted(name)];
        assert tail[2..][1..] == tail[3..];
        assert Diagnostics(tail[2..]) == [ChainCompleted(name)];
        assert tail[1..][1..] == tail[2..];
        assert Diagnostics(tail[1..]) == [MainStarting, ChainCompleted(name)];
      }
      DiagnosticsConcat(started, CallsOf(units));
      DiagnosticsConcat(started + CallsOf(units), tail);
      DiagnosticsConcat(CallsOf(units), [Call(main)]);
    }
  }

  /** A group of middleware units, called in their order of insertion. */
  class Group {
    const name: string
    var units: seq<Handler>
    var log: bool
    /** Whether `bundle` is non-nil. Every bundle the group builds is the same
        closure, one that runs the group's units as they are when it is
        called, so its existence is all that distinguishes one. */
    var bundleBuilt: bool
    var bundleSize: nat

    /** Units are only ever added, so the cached size never exceeds the
        current count; the bundle exists exactly when it was built for a
        non-empty group. */
    ghost predicate Valid()
      reads this
    {
      bundleSize <= |units| && (bundleBuilt <==> bundleSize > 0)
    }

    /** NewGroup: a named group with no units, logging off and no bundle. */
    constructor (name: string)
      ensures Valid()
      ensures this.name == name && units == [] && !log
      ensures !bundleBuilt && bundleSize == 0
    {
      this.name := name;
      units := [];
      log := false;
      bundleBuilt := false;
      bundleSize := 0;
    }

    /** Turns logging on or off for handlers composed from now on. */
    method Log(on: bool)
      requires Valid()
      modifies this`log
      ensures Valid()
      ensures log == on
    {
      log := on;
    }

    /** Adds `fns` to the end of the group, in the order given. */
    method Append(fns: seq<Handler>)
      requires Valid()
      modifies this`units
      ensures Valid()
      ensures units == old(units) + fns
    {
      units := units + fns;
    }

    /** Adds `fns` to the start of the group, in the order given. */
    method Prepend(fns: seq<Handler>)
      requires Valid()
      modifies this`units
      ensures Valid()
      ensures units == fns + old(units)
    {
      units := fns + units;
    }

    /** Adds a copy of `o`'s current units to the end of this group; `o` may
        be this group itself, which then doubles. */
    method Extend(o: Group)
      requires Valid()
      modifies this`units
      ensures Valid()
      ensures units == old(units) + old(o.units)
      ensures o != this ==> o.units == old(o.units)
    {
      units := units + o.units;
    }

    /** Composes the group with the main handler `f`. The bundle is (re)built
        only when the cached size differs from the number of units; `f` is not
        added to the units, and the logging branch is chosen now. */
    method And(f: Handler) returns (h: Composed)
      requires Valid()
      modifies this`bundleBuilt, this`bundleSize
      ensures Valid()
      ensures units == old(units) && log == old(log)
      ensures bundleSize == |units|
      ensures old(bundleSize) == |units| ==> bundleBuilt == old(bundleBuilt)
      ensures old(bundleSize) != |units| ==> bundleBuilt
      ensures bundleBuilt <==> |units| > 0
      ensures h == Composed(this, f, log)
    {
      if bundleSize != |units| {
        bundleBuilt := true;
        bundleSize := |units|;
      }
      h := Composed(this, f, log);
    }

    /** The body of the bundle closure: runs the group's units as they are
        now, each once, in order, after the events already in `trace`. */
    method RunBundle(trace: seq<Event>) returns (t: seq<Event>)
      ensures t == trace + CallsOf(units)
    {
      t := trace;
      for i := 0 to |units|
        invariant t == trace + CallsOf(units[..i])
      {
        assert units[..i + 1][..i] == units[..i];
        t := t + [Call(units[i])];
      }
      assert units[..|units|] == units;
    }
  }

  /** Invokes a composed handler. It reads its group's units and bundle as
      they are at this moment, not as they were when `And` ran, but the branch
      is the one `And` chose. */
  method Invoke(h: Composed) returns (r: Run)
    ensures r == Outcome(h.g.name, h.g.units, h.g.bundleBuilt, h.main, h.logged)
  {
    var g := h.g;
    var t: seq<Event> := [];
    if h.logged {
      t := t + [Diag(UnitsStarted(g.name))];
    }
    if !g.bundleBuilt {
      return Panicked(t);
    }
    t := g.RunBundle(t);
    if h.logged {
      t := t + [Diag(UnitsCompleted(g.name)), Diag(MainStarting)];
    }
    t := t + [Call(h.main)];
    if h.logged {
      t := t + [Diag(ChainCompleted(g.name))];
    }
    r := Finished(t);
  }
}
