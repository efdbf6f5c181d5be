/**
  The production run of the granular-flow demo (the step loop after packing).

  Every step advances the solver by one time step, writes a mesh and a
  particle snapshot every `timeOut` steps, and evaluates two one-shot
  triggers: the gate opens (the walls stop shaking and the gate starts
  moving) at the first step past twice the output cadence, and the gate
  stops after `gateMotion` more steps, each guarded by its own flag.

  This module gives the loop's meaning as functions over a `ProdState` and
  proves its schedule; `GranularFlow.Demo.Produce` is the imperative loop,
  proved equal to `ProdAfter`.
*/
module Production {
  import opened Events
  import opened Families

  /**
    The integer schedule of the run: the number of steps, the output cadence
    and the gate travel in steps, all truncated from floating-point ratios in
    the scenario, and the time step itself.
  */
  datatype ProdConfig = ProdConfig(numStep: int, timeOut: int, gateMotion: int, timeStep: real)

  /** The loop's variables, the trace of solver calls so far and the body families. */
  datatype ProdState = ProdState(
    frame: nat,            // output snapshots written so far
    status: bool,          // the gate has not opened yet
    stopGate: bool,        // the gate has not been stopped yet
    meshfile: MeshFile,    // the mesh file name last formatted
    trace: seq<Event>,
    families: map<Body, int>)

  /**
    Is step `i` an output step? The `i == 0` disjunct adds nothing: for a
    non-negative step and a positive cadence the remainder of C++ and of
    Dafny agree, and 0 leaves none.
  */
  function OutputDue(c: ProdConfig, i: nat): (due: bool)
    requires c.timeOut > 0
    ensures due <==> i % c.timeOut == 0
  {
    i % c.timeOut == 0 || i == 0
  }

  predicate OpenDue(c: ProdConfig, i: int) { i > c.timeOut * 2 }
  predicate StopDue(c: ProdConfig, i: int) { i >= c.timeOut * 2 + c.gateMotion - 1 }

  /** The step at which each trigger fires, if the run gets there. */
  function OpenStep(c: ProdConfig): int { c.timeOut * 2 + 1 }
  function StopStep(c: ProdConfig): int
  {
    if c.timeOut * 2 + c.gateMotion - 1 < 0 then 0 else c.timeOut * 2 + c.gateMotion - 1
  }

  /** The calls of each trigger: a zero-length sync, then the family changes. */
  const OpenCalls := [DoDynamicsThenSync(0.0), ChangeFamily(ShakingWalls, FixedWalls), ChangeFamily(GateClosed, GateMoving)]
  const StopCalls := [DoDynamicsThenSync(0.0), ChangeFamily(GateMoving, GateClosed)]

  /** One step `i` of the loop. */
  function ProdStep(c: ProdConfig, s: ProdState, i: nat): ProdState
    requires c.timeOut > 0
  {
    var out := OutputDue(c, i);
    var open := OpenDue(c, i) && s.status;
    var stop := StopDue(c, i) && s.stopGate;
    var afterOpen := if open then Relabel(Relabel(s.families, ShakingWalls, FixedWalls), GateClosed, GateMoving) else s.families;
    ProdState(
      if out then s.frame + 1 else s.frame,
      s.status && !open,
      s.stopGate && !stop,
      if out then MeshSnapshot(s.frame) else s.meshfile,
      s.trace + [DoDynamics(c.timeStep)]
        + (if out then [WriteMesh(MeshSnapshot(s.frame)), WriteSpheres(Output(s.frame))] else [])
        + (if open then OpenCalls else [])
        + (if stop then StopCalls else []),
      if stop then Relabel(afterOpen, GateMoving, GateClosed) else afterOpen)
  }

  /** The state after steps 0, ..., n - 1. */
  function ProdAfter(c: ProdConfig, s0: ProdState, n: nat): ProdState
    requires c.timeOut > 0
  {
    if n == 0 then s0 else ProdStep(c, ProdAfter(c, s0, n - 1), n - 1)
  }

  /** The number of steps the loop runs. */
  function StepCount(c: ProdConfig): nat
  {
    if c.numStep < 0 then 0 else c.numStep
  }

  // ---- the schedule of the triggers ----

  const OpenControls := [Sync, Change(ShakingWalls, FixedWalls), Change(GateClosed, GateMoving)]
  const StopControls := [Sync, Change(GateMoving, GateClosed)]

  /**
    The controls issued by the first `n` steps: each trigger once its step is
    passed; the earlier trigger first, and opening before stopping when both
    fall on the same step.
  */
  function ScheduledControls(c: ProdConfig, n: nat): seq<Control>
  {
    var openPart := if n > OpenStep(c) then OpenControls else [];
    var stopPart := if n > StopStep(c) then StopControls else [];
    if StopStep(c) < OpenStep(c) then stopPart + openPart else openPart + stopPart
  }

  /** The controls of step `i` alone. */
  function StepControls(c: ProdConfig, i: nat): seq<Control>
  {
    (if i == OpenStep(c) then OpenControls else []) + (if i == StopStep(c) then StopControls else [])
  }

  lemma ScheduledControlsStep(c: ProdConfig, n: nat)
    requires c.timeOut > 0
    ensures ScheduledControls(c, n + 1) == ScheduledControls(c, n) + StepControls(c, n)
  {
    if StopStep(c) < OpenStep(c) {
      if n == OpenStep(c) {
        assert ScheduledControls(c, n + 1) == StopControls + OpenControls;
      }
    } else if n == OpenStep(c) && n == StopStep(c) {
      assert ScheduledControls(c, n + 1) == OpenControls + StopControls;
    }
  }

  // ---- arithmetic of the output cadence ----

  lemma MulAtLeast(x: int, t: int)
    requires x >= 1 && t > 0
    ensures x * t >= t
  {
    if x > 1 {
      MulAtLeast(x - 1, t);
      assert x * t == (x - 1) * t + t;
    }
  }

  lemma DivUnique(a: int, t: int, q: int)
    requires t > 0
    requires q * t <= a < q * t + t
    ensures a / t == q
  {
    var d := a / t;
    assert d * t <= a < d * t + t;
    assert (d - q) * t == d * t - q * t;
    assert (q - d) * t == q * t - d * t;
    if d > q {
      MulAtLeast(d - q, t);
    } else if d < q {
      MulAtLeast(q - d, t);
    }
  }

  /** The count of multiples of `t` in [0, n) grows by one exactly at a multiple. */
  lemma CeilStep(n: nat, t: int)
    requires t > 0
    ensures (n + 1 + t - 1) / t == (n + t - 1) / t + (if n % t == 0 then 1 else 0)
  {
    var q, r := n / t, n % t;
    assert n == q * t + r;
    DivUnique(n + t, t, q + 1);
    if r == 0 {
      DivUnique(n + t - 1, t, q);
    } else {
      DivUnique(n + t - 1, t, q + 1);
    }
  }

  // ---- one step ----

  /** The output calls of a step. */
  function OutputCalls(frame: nat): seq<Event>
  {
    [WriteMesh(MeshSnapshot(frame)), WriteSpheres(Output(frame))]
  }

  /** Any projection of a step's trace, part by part. */
  lemma ProdStepProject<T>(c: ProdConfig, s: ProdState, i: nat, f: Event -> seq<T>)
    requires c.timeOut > 0
    ensures Project(ProdStep(c, s, i).trace, f)
            == Project(s.trace, f) + f(DoDynamics(c.timeStep))
               + (if OutputDue(c, i) then Project(OutputCalls(s.frame), f) else [])
               + (if OpenDue(c, i) && s.status then Project(OpenCalls, f) else [])
               + (if StopDue(c, i) && s.stopGate then Project(StopCalls, f) else [])
  {
    var a := [DoDynamics(c.timeStep)];
    var b := if OutputDue(c, i) then OutputCalls(s.frame) else [];
    var o := if OpenDue(c, i) && s.status then OpenCalls else [];
    var p := if StopDue(c, i) && s.stopGate then StopCalls else [];
    assert ProdStep(c, s, i).trace == s.trace + a + b + o + p;
    ProjectConcat(s.trace + a + b + o, p, f);
    ProjectConcat(s.trace + a + b, o, f);
    ProjectConcat(s.trace + a, b, f);
    ProjectConcat(s.trace, a, f);
    ProjectSingleton(DoDynamics(c.timeStep), f);
  }

  lemma CallsProject<T>(frame: nat, f: Event -> seq<T>)
    ensures Project(OutputCalls(frame), f) == f(WriteMesh(MeshSnapshot(frame))) + f(WriteSpheres(Output(frame)))
    ensures Project(OpenCalls, f) == f(DoDynamicsThenSync(0.0)) + f(ChangeFamily(ShakingWalls, FixedWalls))
                                     + f(ChangeFamily(GateClosed, GateMoving))
    ensures Project(StopCalls, f) == f(DoDynamicsThenSync(0.0)) + f(ChangeFamily(GateMoving, GateClosed))
  {
    ProjectPair([], WriteMesh(MeshSnapshot(frame)), WriteSpheres(Output(frame)), f);
    assert [] + OutputCalls(frame) == OutputCalls(frame);
    ProjectPair([DoDynamicsThenSync(0.0)], ChangeFamily(ShakingWalls, FixedWalls), ChangeFamily(GateClosed, GateMoving), f);
    assert [DoDynamicsThenSync(0.0)] + [ChangeFamily(ShakingWalls, FixedWalls), ChangeFamily(GateClosed, GateMoving)] == OpenCalls;
    ProjectSingleton(DoDynamicsThenSync(0.0), f);
    ProjectPair([], DoDynamicsThenSync(0.0), ChangeFamily(GateMoving, GateClosed), f);
    assert [] + StopCalls == StopCalls;
  }

  // ---- whole runs ----

  /** The output snapshot names `lo`, ..., `lo + n - 1`, particle and mesh. */
  function OutputRange(lo: int, n: nat): (r: seq<SphereFile>)
    ensures |r| == n
    ensures forall j :: 0 <= j < n ==> r[j] == Output(lo + j)
  {
    if n == 0 then [] else OutputRange(lo, n - 1) + [Output(lo + n - 1)]
  }

  function MeshRange(lo: int, n: nat): (r: seq<MeshFile>)
    ensures |r| == n
    ensures forall j :: 0 <= j < n ==> r[j] == MeshSnapshot(lo + j)
  {
    if n == 0 then [] else MeshRange(lo, n - 1) + [MeshSnapshot(lo + n - 1)]
  }

  /** A step makes one `DoDynamics` call. */
  lemma StepSteps(c: ProdConfig, s: ProdState, i: nat)
    requires c.timeOut > 0
    ensures Steps(ProdStep(c, s, i).trace) == Steps(s.trace) + [c.timeStep]
  {
    ProdStepProject(c, s, i, StepOf);
    CallsProject(s.frame, StepOf);
  }

  /** An output step writes the mesh and particle snapshots numbered `frame`; other steps write nothing. */
  lemma StepOutputs(c: ProdConfig, s: ProdState, i: nat)
    requires c.timeOut > 0
    ensures var s' := ProdStep(c, s, i);
            && s'.frame == (if OutputDue(c, i) then s.frame + 1 else s.frame)
            && SphereFiles(s'.trace) == SphereFiles(s.trace) + (if OutputDue(c, i) then [Output(s.frame)] else [])
            && MeshFiles(s'.trace) == MeshFiles(s.trace) + (if OutputDue(c, i) then [MeshSnapshot(s.frame)] else [])
  {
    ProdStepProject(c, s, i, SphereFileOf);
    ProdStepProject(c, s, i, MeshFileOf);
    CallsProject(s.frame, SphereFileOf);
    CallsProject(s.frame, MeshFileOf);
  }

  /**
    Each flag drops exactly when its trigger's step has been run: the gate
    has opened after `n` steps iff `n > OpenStep`, and has been stopped iff
    `n > StopStep`. Re-evaluating a trigger after it fired does nothing.
  */
  lemma {:induction false} ProdFlags(c: ProdConfig, s0: ProdState, n: nat)
    requires c.timeOut > 0
    requires s0.status && s0.stopGate
    ensures ProdAfter(c, s0, n).status <==> n <= OpenStep(c)
    ensures ProdAfter(c, s0, n).stopGate <==> n <= StopStep(c)
  {
    if n > 0 {
      ProdFlags(c, s0, n - 1);
    }
  }

  /**
    Every step calls `DoDynamics(timeStep)` exactly once, so `n` steps make
    `n` such calls and no other.
  */
  lemma {:induction false} ProdSteps(c: ProdConfig, s0: ProdState, n: nat)
    requires c.timeOut > 0
    ensures Steps(ProdAfter(c, s0, n).trace) == Steps(s0.trace) + Repeat(c.timeStep, n)
  {
    if n > 0 {
      var s := ProdAfter(c, s0, n - 1);
      ProdSteps(c, s0, n - 1);
      StepSteps(c, s, n - 1);
    }
  }

  /**
    Output happens exactly at the multiples of `timeOut`: after `n` steps the
    frame counter has grown by the number of multiples in [0, n), which is
    the ceiling of `n / timeOut`.
  */
  lemma {:induction false} ProdFrames(c: ProdConfig, s0: ProdState, n: nat)
    requires c.timeOut > 0
    ensures ProdAfter(c, s0, n).frame == s0.frame + (n + c.timeOut - 1) / c.timeOut
  {
    if n == 0 {
      DivUnique(c.timeOut - 1, c.timeOut, 0);
    } else {
      ProdFrames(c, s0, n - 1);
      CeilStep(n - 1, c.timeOut);
    }
  }

  lemma Extend<T>(x: seq<T>, a: seq<T>, done: seq<T>, y: seq<T>, more: seq<T>, all: seq<T>)
    requires x == a + done && y == x + more && all == done + more
    ensures y == a + all
  {
  }

  /**
    One mesh snapshot and one particle snapshot are written per frame, with
    consecutive numbers from the starting frame.
  */
  lemma {:induction false} ProdOutputs(c: ProdConfig, s0: ProdState, n: nat)
    requires c.timeOut > 0
    ensures var r := ProdAfter(c, s0, n);
            && r.frame >= s0.frame
            && SphereFiles(r.trace) == SphereFiles(s0.trace) + OutputRange(s0.frame, r.frame - s0.frame)
            && MeshFiles(r.trace) == MeshFiles(s0.trace) + MeshRange(s0.frame, r.frame - s0.frame)
  {
    if n > 0 {
      var s := ProdAfter(c, s0, n - 1);
      var r := ProdStep(c, s, n - 1);
      assert ProdAfter(c, s0, n) == r;
      ProdOutputs(c, s0, n - 1);
      StepOutputs(c, s, n - 1);
      var m := s.frame - s0.frame;
      var out := OutputDue(c, n - 1);
      assert OutputRange(s0.frame, r.frame - s0.frame) == OutputRange(s0.frame, m) + (if out then [Output(s.frame)] else []);
      assert MeshRange(s0.frame, r.frame - s0.frame) == MeshRange(s0.frame, m) + (if out then [MeshSnapshot(s.frame)] else []);
      Extend(SphereFiles(s.trace), SphereFiles(s0.trace), OutputRange(s0.frame, m), SphereFiles(r.trace),
             if out then [Output(s.frame)] else [], OutputRange(s0.frame, r.frame - s0.frame));
      Extend(MeshFiles(s.trace), MeshFiles(s0.trace), MeshRange(s0.frame, m), MeshFiles(r.trace),
             if out then [MeshSnapshot(s.frame)] else [], MeshRange(s0.frame, r.frame - s0.frame));
    }
  }

  /** The controls of one step are those of `StepControls`: each trigger acts at its own step only. */
  lemma StepControlsOfStep(c: ProdConfig, s0: ProdState, i: nat)
    requires c.timeOut > 0
    requires s0.status && s0.stopGate
    ensures var s := ProdAfter(c, s0, i);
            Controls(ProdStep(c, s, i).trace) == Controls(s.trace) + StepControls(c, i)
  {
    var s := ProdAfter(c, s0, i);
    ProdFlags(c, s0, i);
    ProdStepProject(c, s, i, ControlOf);
    CallsProject(s.frame, ControlOf);
  }

  /**
    The gate triggers fire exactly once each, at their own steps and in order:
    after `n` steps the production run has made precisely the calls of
    `ScheduledControls(c, n)`, a zero-length sync before each trigger's family
    changes, (10 -> 1, 3 -> 4) for opening and (4 -> 3) for stopping, opening
    first when both fall on one step.
  */
  lemma {:induction false} ProdControls(c: ProdConfig, s0: ProdState, n: nat)
    requires c.timeOut > 0
    requires s0.status && s0.stopGate
    ensures Controls(ProdAfter(c, s0, n).trace) == Controls(s0.trace) + ScheduledControls(c, n)
  {
    if n > 0 {
      ProdControls(c, s0, n - 1);
      StepControlsOfStep(c, s0, n - 1);
      ScheduledControlsStep(c, n - 1);
    }
  }

  lemma ApplyBlocks(family: int)
    ensures ApplyChanges(family, OpenControls)
            == ApplyControl(ApplyControl(family, Change(ShakingWalls, FixedWalls)), Change(GateClosed, GateMoving))
    ensures ApplyChanges(family, StopControls) == ApplyControl(family, Change(GateMoving, GateClosed))
    ensures ApplyChanges(family, []) == family
  {
    var o := OpenControls;
    assert o[..|o| - 1] == [Sync, Change(ShakingWalls, FixedWalls)];
    assert [Sync, Change(ShakingWalls, FixedWalls)][..1] == [Sync];
    assert [Sync][..0] == [];
    assert ApplyChanges(family, [Sync]) == family;
    assert StopControls[..|StopControls| - 1] == [Sync];
  }

  /**
    Under the relabelling reading of `ChangeFamily`, every body ends the run
    in the family its starting family reaches through the scheduled changes.
  */
  lemma {:induction false} ProdFamilies(c: ProdConfig, s0: ProdState, n: nat)
    requires c.timeOut > 0
    requires s0.status && s0.stopGate
    ensures var r := ProdAfter(c, s0, n);
            && r.families.Keys == s0.families.Keys
            && forall b :: b in s0.families ==> r.families[b] == ApplyChanges(s0.families[b], ScheduledControls(c, n))
  {
    if n > 0 {
      var s := ProdAfter(c, s0, n - 1);
      var r := ProdAfter(c, s0, n);
      ProdFamilies(c, s0, n - 1);
      ProdFlags(c, s0, n - 1);
      ScheduledControlsStep(c, n - 1);
      forall b | b in s0.families
        ensures r.families[b] == ApplyChanges(s0.families[b], ScheduledControls(c, n))
      {
        var x := s0.families[b];
        ApplyChangesAppend(x, ScheduledControls(c, n - 1), StepControls(c, n - 1));
        var y := ApplyChanges(x, ScheduledControls(c, n - 1));
        var i := n - 1;
        var open := if i == OpenStep(c) then OpenControls else [];
        var stop := if i == StopStep(c) then StopControls else [];
        ApplyChangesAppend(y, open, stop);
        ApplyBlocks(y);
        ApplyBlocks(ApplyChanges(y, open));
      }
    }
  }

  /** Where each starting family ends after the scheduled changes of `n` steps. */
  lemma ApplyScheduled(c: ProdConfig, n: nat, x: int)
    requires c.timeOut > 0
    requires x == ShakingWalls || x == GateClosed || x == Particles
    ensures x == ShakingWalls ==> ApplyChanges(x, ScheduledControls(c, n)) == (if n > OpenStep(c) then FixedWalls else ShakingWalls)
    ensures x == Particles ==> ApplyChanges(x, ScheduledControls(c, n)) == Particles
    ensures x == GateClosed && c.gateMotion >= 2 ==>
              ApplyChanges(x, ScheduledControls(c, n)) == (if OpenStep(c) < n <= StopStep(c) then GateMoving else GateClosed)
    ensures x == GateClosed && c.gateMotion < 2 ==>
              ApplyChanges(x, ScheduledControls(c, n)) == (if n > OpenStep(c) then GateMoving else GateClosed)
  {
    var openPart := if n > OpenStep(c) then OpenControls else [];
    var stopPart := if n > StopStep(c) then StopControls else [];
    if StopStep(c) < OpenStep(c) {
      ApplyChangesAppend(x, stopPart, openPart);
      ApplyBlocks(x);
      ApplyBlocks(ApplyChanges(x, stopPart));
    } else {
      ApplyChangesAppend(x, openPart, stopPart);
      ApplyBlocks(x);
      ApplyBlocks(ApplyChanges(x, openPart));
    }
  }

  /**
    The scene through the production run, for a scene whose bodies start as
    shaking walls (10), the closed gate (3) or particles (100): the walls are
    fixed (1) from the opening step on; the particles never change family;
    with `gateMotion >= 2` the gate is in the moving family (4) exactly after
    the opening step and up to the stopping step, and fixed again after it;
    with `gateMotion < 2` the stop trigger fires first, while the gate is
    still closed, so the gate, once opened, is never stopped.
  */
  lemma {:induction false} ProdScene(c: ProdConfig, s0: ProdState, n: nat)
    requires c.timeOut > 0
    requires s0.status && s0.stopGate
    requires forall b :: b in s0.families ==>
               s0.families[b] == ShakingWalls || s0.families[b] == GateClosed || s0.families[b] == Particles
    ensures var r := ProdAfter(c, s0, n);
            && r.families.Keys == s0.families.Keys
            && (forall b :: b in s0.families && s0.families[b] == ShakingWalls ==>
                  r.families[b] == (if n > OpenStep(c) then FixedWalls else ShakingWalls))
            && (forall b :: b in s0.families && s0.families[b] == Particles ==> r.families[b] == Particles)
            && (forall b :: b in s0.families && s0.families[b] == GateClosed && c.gateMotion >= 2 ==>
                  r.families[b] == (if OpenStep(c) < n <= StopStep(c) then GateMoving else GateClosed))
            && (forall b :: b in s0.families && s0.families[b] == GateClosed && c.gateMotion < 2 ==>
                  r.families[b] == (if n > OpenStep(c) then GateMoving else GateClosed))
  {
    ProdFamilies(c, s0, n);
    forall b | b in s0.families {
      ApplyScheduled(c, n, s0.families[b]);
    }
  }

  /**
    The boundary condition each body is under after `n` steps, read from the
    registered table: the walls shake until the opening step and are fixed
    after it; the particles' family is never registered, so they move
    freely throughout; with `gateMotion >= 2` the gate is fixed, then moves at
    the gate speed between the opening and the stopping step, then is fixed
    again; with `gateMotion < 2` it moves from the opening step on.
  */
  lemma {:induction false} ProdConditions(c: ProdConfig, s0: ProdState, n: nat, gateSpeedText: string)
    requires c.timeOut > 0
    requires s0.status && s0.stopGate
    requires forall b :: b in s0.families ==>
               s0.families[b] == ShakingWalls || s0.families[b] == GateClosed || s0.families[b] == Particles
    ensures var r := ProdAfter(c, s0, n);
            var t := RegisteredConditions(gateSpeedText);
            && r.families.Keys == s0.families.Keys
            && (forall b :: b in s0.families && s0.families[b] == ShakingWalls ==>
                  ConditionOf(t, r.families[b])
                  == (if n > OpenStep(c) then Fixed else PrescribedLinVel(ShakeXZ, ShakeY, ShakeXZ)))
            && (forall b :: b in s0.families && s0.families[b] == Particles ==>
                  ConditionOf(t, r.families[b]) == Unconstrained)
            && (forall b :: b in s0.families && s0.families[b] == GateClosed && c.gateMotion >= 2 ==>
                  ConditionOf(t, r.families[b])
                  == (if OpenStep(c) < n <= StopStep(c) then PrescribedLinVel("0", "0", gateSpeedText) else Fixed))
            && (forall b :: b in s0.families && s0.families[b] == GateClosed && c.gateMotion < 2 ==>
                  ConditionOf(t, r.families[b])
                  == (if n > OpenStep(c) then PrescribedLinVel("0", "0", gateSpeedText) else Fixed))
  {
    ProdScene(c, s0, n);
  }
}
