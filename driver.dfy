/**
  The granular-flow demo driver: the variables of `main` as the fields of one
  object, the packing loop and the production loop as its methods.

  Each method is the loop as written, proved to leave the object in the state
  the matching specification function (`Packing.PackRun`,
  `Production.ProdAfter`) computes, so every property proved about those
  functions holds of the driver.
*/
module GranularFlow {
  import opened Events
  import opened Families
  import opened Packing
  import opened Production

  class Demo {
    var trace: seq<Event>              // the solver calls made so far
    var families: map<Body, int>       // the family tag of every body
    var conditions: map<int, Condition> // the solver's family table
    var meshfile: MeshFile             // the mesh file name buffer
    var frame: nat
    var actualTotalSpheres: nat
    var planeBottom: real
    var initialization: bool
    ghost var stages: nat              // packing iterations run
    var status: bool
    var stopGate: bool

    ghost function PackView(): PackState
      reads this
    {
      PackState(frame, actualTotalSpheres, planeBottom, initialization, stages, trace, families)
    }

    ghost function ProdView(): ProdState
      reads this
    {
      ProdState(frame, status, stopGate, meshfile, trace, families)
    }

    /**
      The scene as it stands just before packing: the meshes in their
      families, the four family conditions registered, and the loop variables
      at their initial values.
    */
    constructor (gateSpeedText: string, initialPlaneBottom: real)
      ensures families == SceneFamilies()
      ensures conditions == RegisteredConditions(gateSpeedText)
      ensures trace == [] && meshfile == Funnel(0)
      ensures frame == 0 && actualTotalSpheres == 0 && planeBottom == initialPlaneBottom
      ensures initialization && stages == 0 && status && stopGate
    {
      families := SceneFamilies();
      conditions := RegisteredConditions(gateSpeedText);
      trace := [];
      meshfile := Funnel(0);
      frame := 0;
      actualTotalSpheres := 0;
      planeBottom := initialPlaneBottom;
      initialization := true;
      stages := 0;
      status := true;
      stopGate := true;
    }

    /**
      The solver's `ChangeFamily(a, b)`: recorded, and taken to move every
      body of family `a` into family `b`.
    */
    method ChangeFamily(a: int, b: int)
      modifies this
      ensures trace == old(trace) + [Event.ChangeFamily(a, b)]
      ensures families == Relabel(old(families), a, b)
      ensures conditions == old(conditions) && meshfile == old(meshfile) && frame == old(frame)
      ensures actualTotalSpheres == old(actualTotalSpheres) && planeBottom == old(planeBottom)
      ensures initialization == old(initialization) && stages == old(stages)
      ensures status == old(status) && stopGate == old(stopGate)
    {
      trace := trace + [Event.ChangeFamily(a, b)];
      families := Relabel(families, a, b);
    }

    /**
      The insertion of one generating stage: sample the box, add one clump
      per sampled point with the templates taken in turn, give the pile its
      velocity and family, and read back the clump count.
    */
    method InsertPile(c: PackConfig, reading: StageReading)
      requires c.templates > 0
      modifies this
      ensures trace == old(trace) + Insertion(c, old(PackView()), reading)
      ensures families == old(families)[Pile(old(frame)) := Particles]
      ensures actualTotalSpheres == reading.numClumps
      ensures frame == old(frame) && planeBottom == old(planeBottom)
      ensures initialization == old(initialization) && stages == old(stages)
      ensures meshfile == old(meshfile) && conditions == old(conditions)
      ensures status == old(status) && stopGate == old(stopGate)
    {
      var box := if frame == 0 then FirstStageBox else LaterStageBox;
      var numClumps := reading.sampled;
      var pileTemplates: seq<nat> := [];
      var i := actualTotalSpheres;
      while i < actualTotalSpheres + numClumps
        invariant actualTotalSpheres <= i <= actualTotalSpheres + numClumps
        invariant pileTemplates == RoundRobin(actualTotalSpheres, i - actualTotalSpheres, c.templates)
        modifies {}
      {
        pileTemplates := pileTemplates + [i % c.templates];
        i := i + 1;
      }
      trace := trace + [SampleBox(box), AddClumps(pileTemplates), PileVelocity, SetPileFamily(Particles), UpdateClumps];
      families := families[Pile(frame) := Particles];
      actualTotalSpheres := reading.numClumps;
    }

    /** The consolidation after the last stage: settle and snapshot, over and over. */
    method Consolidate(c: PackConfig)
      modifies this
      ensures trace == old(trace) + Consolidation(c.settleDt, c.consolidationSteps)
      ensures families == old(families) && actualTotalSpheres == old(actualTotalSpheres)
      ensures frame == old(frame) && planeBottom == old(planeBottom)
      ensures initialization == old(initialization) && stages == old(stages)
      ensures meshfile == old(meshfile) && conditions == old(conditions)
      ensures status == old(status) && stopGate == old(stopGate)
    {
      var j := 0;
      while j < c.consolidationSteps
        invariant 0 <= j <= c.consolidationSteps
        invariant trace == old(trace) + Consolidation(c.settleDt, j)
        modifies `trace
      {
        trace := trace + [DoDynamicsThenSync(c.settleDt), WriteSpheres(Settling(j))];
        j := j + 1;
      }
    }

    /**
      The start of a packing iteration: clear the cache and, when a layer fits
      below the emitter, insert it.
    */
    method StartStage(c: PackConfig, reading: StageReading) returns (generate: bool)
      requires c.templates > 0
      modifies this
      ensures generate == Generates(c, old(planeBottom))
      ensures trace == old(trace) + [ClearCache] + (if generate then Insertion(c, old(PackView()), reading) else [])
      ensures families == (if generate then old(families)[Pile(old(frame)) := Particles] else old(families))
      ensures actualTotalSpheres == (if generate then reading.numClumps else old(actualTotalSpheres))
      ensures frame == old(frame) && planeBottom == old(planeBottom)
      ensures initialization == old(initialization) && stages == old(stages)
      ensures meshfile == old(meshfile) && conditions == old(conditions)
      ensures status == old(status) && stopGate == old(stopGate)
    {
      trace := trace + [ClearCache];
      generate := !(planeBottom + c.shift > c.emitterZ);
      if generate {
        InsertPile(c, reading);
      }
    }

    /**
      One iteration of the packing loop, on the solver reading `reading`.
    */
    method PackStage(c: PackConfig, reading: StageReading)
      requires c.templates > 0
      modifies this
      ensures PackView() == Stage(c, old(PackView()), reading)
      ensures meshfile == old(meshfile) && conditions == old(conditions)
      ensures status == old(status) && stopGate == old(stopGate)
    {
      ghost var s := PackView();
      var generate := StartStage(c, reading);
      initialization := actualTotalSpheres < c.totalSpheres;
      ghost var snapshot: seq<Event> := [];
      if generate {
        snapshot := [WriteSpheres(Settling(frame))];
        trace := trace + [WriteSpheres(Settling(frame))];
        frame := frame + 1;
      }
      trace := trace + [DoDynamicsThenSync(c.settleDt)];
      planeBottom := reading.maxZ;
      ghost var settled := trace;
      ghost var consolidation: seq<Event> := [];
      if !initialization {
        Consolidate(c);
        consolidation := Consolidation(c.settleDt, c.consolidationSteps);
      }
      stages := stages + 1;
      ghost var r := Stage(c, s, reading);
      assert trace == settled + consolidation;
      assert trace == r.trace;
      assert families == r.families;
      assert frame == r.frame && actualTotalSpheres == r.actual && planeBottom == r.planeBottom;
      assert initialization == r.initialization && stages == r.stages;
    }

    /**
      Writes the first funnel mesh, then packs the hopper stage by stage on
      the solver readings of `script`, one per iteration, until the count
      reaches the target (and the consolidation has run) or the readings end.
    */
    method Pack(c: PackConfig, script: seq<StageReading>) returns (finished: bool)
      requires c.templates > 0
      modifies this
      ensures PackView() == PackRun(c, old(PackView()).(trace := old(trace) + [WriteMesh(Funnel(old(frame)))]), script)
      ensures finished == !initialization
      ensures meshfile == Funnel(old(frame)) && conditions == old(conditions)
      ensures status == old(status) && stopGate == old(stopGate)
    {
      meshfile := Funnel(frame);
      trace := trace + [WriteMesh(meshfile)];
      ghost var s0 := PackView();
      assert s0 == old(PackView()).(trace := old(trace) + [WriteMesh(Funnel(old(frame)))]);
      var k := 0;
      while initialization && k < |script|
        invariant 0 <= k <= |script|
        invariant PackRun(c, s0, script) == PackRun(c, PackView(), script[k..])
        invariant meshfile == Funnel(old(frame)) && conditions == old(conditions)
        invariant status == old(status) && stopGate == old(stopGate)
        decreases |script| - k
      {
        assert script[k..][1..] == script[k + 1..];
        PackStage(c, script[k]);
        k := k + 1;
      }
      finished := !initialization;
    }

    /** The opening trigger: sync, fix the walls, set the gate moving, and drop `status`. */
    method OpenGate()
      modifies this
      ensures trace == old(trace) + OpenCalls
      ensures families == Relabel(Relabel(old(families), ShakingWalls, FixedWalls), GateClosed, GateMoving)
      ensures !status && stopGate == old(stopGate)
      ensures conditions == old(conditions) && meshfile == old(meshfile) && frame == old(frame)
      ensures actualTotalSpheres == old(actualTotalSpheres) && planeBottom == old(planeBottom)
      ensures initialization == old(initialization) && stages == old(stages)
    {
      trace := trace + [DoDynamicsThenSync(0.0)];
      ChangeFamily(ShakingWalls, FixedWalls);
      ChangeFamily(GateClosed, GateMoving);
      status := false;
    }

    /** The stopping trigger: sync, fix the gate again, and drop `stopGate`. */
    method StopGate()
      modifies this
      ensures trace == old(trace) + StopCalls
      ensures families == Relabel(old(families), GateMoving, GateClosed)
      ensures !stopGate && status == old(status)
      ensures conditions == old(conditions) && meshfile == old(meshfile) && frame == old(frame)
      ensures actualTotalSpheres == old(actualTotalSpheres) && planeBottom == old(planeBottom)
      ensures initialization == old(initialization) && stages == old(stages)
    {
      trace := trace + [DoDynamicsThenSync(0.0)];
      ChangeFamily(GateMoving, GateClosed);
      stopGate := false;
    }

    /** One step `i` of the production loop. */
    method ProduceStep(c: ProdConfig, i: nat)
      requires c.timeOut > 0
      modifies this
      ensures ProdView() == ProdStep(c, old(ProdView()), i)
      ensures conditions == old(conditions)
      ensures actualTotalSpheres == old(actualTotalSpheres) && planeBottom == old(planeBottom)
      ensures initialization == old(initialization) && stages == old(stages)
    {
      ghost var s := ProdView();
      trace := trace + [DoDynamics(c.timeStep)];
      var output: seq<Event> := [];
      if i % c.timeOut == 0 || i == 0 {
        meshfile := MeshSnapshot(frame);
        output := [WriteMesh(meshfile), WriteSpheres(Output(frame))];
        trace := trace + output;
        frame := frame + 1;
      }
      ghost var t1 := trace;
      ghost var opening: seq<Event> := [];
      if i > c.timeOut * 2 && status {
        OpenGate();
        opening := OpenCalls;
      }
      ghost var f2 := families;
      ghost var stopping: seq<Event> := [];
      if i >= c.timeOut * 2 + c.gateMotion - 1 && stopGate {
        StopGate();
        stopping := StopCalls;
      }
      ghost var r := ProdStep(c, s, i);
      assert t1 == s.trace + [DoDynamics(c.timeStep)] + output;
      assert trace == s.trace + [DoDynamics(c.timeStep)] + output + opening + stopping;
      assert trace == r.trace;
      assert f2 == (if OpenDue(c, i) && s.status then Relabel(Relabel(s.families, ShakingWalls, FixedWalls), GateClosed, GateMoving) else s.families);
      assert families == r.families;
      assert frame == r.frame && status == r.status && stopGate == r.stopGate && meshfile == r.meshfile;
    }

    /**
      Writes the funnel mesh again, then runs the production loop: `numStep`
      steps with output every `timeOut` steps and the two gate triggers.
    */
    method Produce(c: ProdConfig)
      requires c.timeOut > 0
      modifies this
      ensures ProdView() == ProdAfter(c, ProdState(0, true, true, Funnel(0), old(trace) + [WriteMesh(old(meshfile))], old(families)),
                                      StepCount(c))
      ensures conditions == old(conditions)
      ensures actualTotalSpheres == old(actualTotalSpheres) && planeBottom == old(planeBottom)
      ensures initialization == old(initialization) && stages == old(stages)
    {
      frame := 0;
      trace := trace + [WriteMesh(meshfile)];
      meshfile := Funnel(frame);
      status := true;
      stopGate := true;
      ghost var s0 := ProdView();
      var i := 0;
      while i < c.numStep
        invariant 0 <= i <= StepCount(c)
        invariant ProdView() == ProdAfter(c, s0, i)
        invariant conditions == old(conditions)
        invariant actualTotalSpheres == old(actualTotalSpheres) && planeBottom == old(planeBottom)
        invariant initialization == old(initialization) && stages == old(stages)
      {
        ProduceStep(c, i);
        i := i + 1;
      }
    }
  }

  /**
    Packing the scene as loaded leaves every body in one of the families the
    production run starts from (the shaking walls, the closed gate or the
    particles), so `Production.ProdScene` applies to the state it hands over.
  */
  lemma PackedSceneFamilies(c: PackConfig, s: PackState, script: seq<StageReading>)
    requires c.templates > 0
    requires s.families == SceneFamilies()
    ensures var r := PackRun(c, s, script);
            forall b :: b in r.families ==>
              r.families[b] == ShakingWalls || r.families[b] == GateClosed || r.families[b] == Particles
  {
    PackRunFamilies(c, s, script);
  }
}
