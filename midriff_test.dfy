/** Usage scenarios of a middleware group: the repository's tests, and the
    consequences of composed handlers reading their group when invoked. */
module MidriffTest {
  import opened Midriff

  /** A new group carries its name and no units. */
  method NewGroupScenario() returns (name: string, units: seq<Handler>)
    ensures name == "test-group" && units == []
  {
    var group := new Group("test-group");
    name, units := group.name, group.units;
  }

  /** Two appends keep their call order; an empty append changes nothing. */
  method AppendScenario(f: Handler, g: Handler) returns (units: seq<Handler>)
    ensures units == [f, g]
  {
    var group := new Group("test-append");
    group.Append([f]);
    group.Append([g]);
    group.Append([]);
    units := group.units;
  }

  /** A prepended unit goes before the units already there, and several
      prepended at once keep their own order. */
  method PrependScenario(f: Handler, g: Handler, x: Handler, y: Handler) returns (units: seq<Handler>)
    ensures units == [x, y, g, f]
  {
    var group := new Group("test-prepend");
    group.Append([f]);
    group.Prepend([g]);
    assert group.units == [g, f];
    group.Prepend([x, y]);
    units := group.units;
  }

  /** Extending copies the other group's units: appending to the other group
      afterwards leaves the extended group as it was. */
  method ExtendScenario(basicF: Handler, basicG: Handler, authedF: Handler, later: Handler)
    returns (authedUnits: seq<Handler>, basicUnits: seq<Handler>)
    ensures authedUnits == [authedF, basicF, basicG]
    ensures basicUnits == [basicF, basicG, later]
  {
    var basic := new Group("basic-group");
    basic.Append([basicF, basicG]);
    var authed := new Group("auth-group");
    authed.Append([authedF]);
    authed.Extend(basic);
    basic.Append([later]);
    authedUnits, basicUnits := authed.units, basic.units;
  }

  /** A group extended with itself runs its units twice. */
  method SelfExtendScenario(a: Handler, b: Handler) returns (units: seq<Handler>)
    ensures units == [a, b, a, b]
  {
    var group := new Group("self");
    group.Append([a, b]);
    group.Extend(group);
    units := group.units;
  }

  /** The composed handler runs the unit and then the main handler, and the
      main handler is not added to the group. */
  method AndScenario(f: Handler, g: Handler) returns (r: Run, units: seq<Handler>)
    ensures r == Finished([Call(f), Call(g)])
    ensures units == [f]
  {
    var group := new Group("test-and-group");
    group.Append([f]);
    var handler := group.And(g);
    r := Invoke(handler);
    SingleUnitOutcomes(group.name, f, g);
    units := group.units;
  }

  /** A handler composed before more units are added runs those units too,
      because it reads the group when it is invoked. */
  method LiveUnitsScenario(a: Handler, b: Handler, m: Handler) returns (r: Run)
    ensures r.Finished? && Called(r.trace) == [a, b, m]
  {
    var group := new Group("live");
    group.Append([a]);
    var handler := group.And(m);
    group.Append([b]);
    r := Invoke(handler);
    CallOrder(group.name, group.units, m, false);
  }

  /** Both branches' runs of a one-unit group whose bundle exists. */
  lemma SingleUnitOutcomes(name: string, a: Handler, m: Handler)
    ensures Outcome(name, [a], true, m, false) == Finished([Call(a), Call(m)])
    ensures Outcome(name, [a], true, m, true)
         == Finished([Diag(UnitsStarted(name)), Call(a), Diag(UnitsCompleted(name)),
                      Diag(MainStarting), Call(m), Diag(ChainCompleted(name))])
  {
    assert CallsOf([a]) == [Call(a)];
  }

  /** The logging branch is fixed when `And` is called; both branches call the
      unit and then the main handler. */
  method LogFixedAtAndScenario(a: Handler, m: Handler) returns (plain: Run, logged: Run)
    ensures plain == Finished([Call(a), Call(m)])
    ensures logged == Finished([Diag(UnitsStarted("logged")), Call(a),
                                Diag(UnitsCompleted("logged")), Diag(MainStarting), Call(m),
                                Diag(ChainCompleted("logged"))])
  {
    var group := new Group("logged");
    group.Append([a]);
    var quiet := group.And(m);
    group.Log(true);
    var loud := group.And(m);
    SingleUnitOutcomes("logged", a, m);
    plain := Invoke(quiet);
    logged := Invoke(loud);
  }

  /** Two handlers composed from one group with different main handlers run
      independently, and neither changes the group. */
  method TwoMainsScenario(a: Handler, m1: Handler, m2: Handler) returns (r1: Run, r2: Run, units: seq<Handler>)
    ensures r1 == Finished([Call(a), Call(m1)])
    ensures r2 == Finished([Call(a), Call(m2)])
    ensures units == [a]
  {
    var group := new Group("shared");
    group.Append([a]);
    var h1 := group.And(m1);
    var h2 := group.And(m2);
    SingleUnitOutcomes("shared", a, m1);
    SingleUnitOutcomes("shared", a, m2);
    r2 := Invoke(h2);
    r1 := Invoke(h1);
    units := group.units;
  }

  /** Composing a group that has never had units leaves its bundle nil, so the
      handler panics; adding units does not help until some `And` call builds
      the bundle, after which the same handler runs the units and main. */
  method EmptyGroupScenario(a: Handler, m: Handler) returns (first: Run, second: Run, third: Run)
    ensures first == Panicked([])
    ensures second == Panicked([])
    ensures third == Finished([Call(a), Call(m)])
  {
    var group := new Group("empty");
    var handler := group.And(m);
    first := Invoke(handler);
    group.Append([a]);
    second := Invoke(handler);
    var other := group.And(m);
    SingleUnitOutcomes("empty", a, m);
    third := Invoke(handler);
  }
}
