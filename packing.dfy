/**
  The staged packing of the hopper (the `while (initialization)` loop).

  Each iteration ("stage") decides from the last top height whether a new
  layer of clumps fits below the emitter, inserts it if so, writes a snapshot
  for an inserting stage, settles once and reads back the new top height.
  The stage that brings the solver's clump count to the target also runs the
  consolidation settles and then the loop ends.

  This module gives the loop's meaning as functions over a `PackState` and
  proves what the loop does over any run; `GranularFlow.Demo.Pack` is the
  imperative loop, proved equal to `PackRun`.
*/
module Packing {
  import opened Events
  import opened Families

  /** The scenario constants the loop reads. */
  datatype PackConfig = PackConfig(
    templates: nat,          // num_template, the size of the template pool
    totalSpheres: nat,       // the target clump count
    shift: real,             // shift_xyz, the vertical gap above the top surface
    emitterZ: real,          // the ceiling a new layer must stay under
    settleDt: real,          // settle_frame_time
    consolidationSteps: nat) // (int)(0.4 / settle_frame_time)

  /** The loop's variables, the trace of solver calls so far and the body families. */
  datatype PackState = PackState(
    frame: nat,              // frame: stage snapshots written so far
    actual: nat,             // actualTotalSpheres, as last reported by the solver
    planeBottom: real,       // plane_bottom, the last top-height reading
    initialization: bool,    // the loop flag
    stages: nat,             // iterations run (bookkeeping of the model)
    trace: seq<Event>,
    families: map<Body, int>)

  /** The test of a stage: does a new layer fit under the emitter? */
  predicate Generates(c: PackConfig, planeBottom: real)
  {
    !(planeBottom + c.shift > c.emitterZ)
  }

  lemma GeneratesIffBelowEmitter(c: PackConfig, planeBottom: real)
    ensures Generates(c, planeBottom) <==> planeBottom + c.shift <= c.emitterZ
  {
  }

  /** The sampling box of a stage: the tall first box exactly while no stage has been written. */
  function BoxFor(frame: nat): (b: StageBox)
    ensures b == FirstStageBox <==> frame == 0
    ensures b == LaterStageBox <==> frame != 0
  {
    if frame == 0 then FirstStageBox else LaterStageBox
  }

  /** The boxes of `n` inserting stages in a row, starting at frame `lo`. */
  function BoxSchedule(lo: nat, n: nat): (r: seq<StageBox>)
    ensures |r| == n
    ensures forall j :: 0 <= j < n ==> r[j] == BoxFor(lo + j)
  {
    if n == 0 then [] else BoxSchedule(lo, n - 1) + [BoxFor(lo + n - 1)]
  }

  /** The settling snapshot names `lo`, ..., `lo + n - 1`. */
  function SettlingRange(lo: int, n: nat): (r: seq<SphereFile>)
    ensures |r| == n
    ensures forall j :: 0 <= j < n ==> r[j] == Settling(lo + j)
  {
    if n == 0 then [] else SettlingRange(lo, n - 1) + [Settling(lo + n - 1)]
  }

  lemma BoxScheduleAdd(lo: nat, m: nat, n: nat)
    ensures BoxSchedule(lo, m) + BoxSchedule(lo + m, n) == BoxSchedule(lo, m + n)
  {
    assert BoxSchedule(lo, m) + BoxSchedule(lo + m, n) == BoxSchedule(lo, m + n);
  }

  lemma SettlingRangeAdd(lo: int, m: nat, n: nat)
    ensures SettlingRange(lo, m) + SettlingRange(lo + m, n) == SettlingRange(lo, m + n)
  {
    assert SettlingRange(lo, m) + SettlingRange(lo + m, n) == SettlingRange(lo, m + n);
  }

  /**
    The templates of `n` new clumps whose global indices start at `start`:
    clump `i` gets template `i % k`, always an index into the pool.
  */
  function RoundRobin(start: nat, n: nat, k: nat): (r: seq<nat>)
    requires k > 0
    ensures |r| == n
    ensures forall j :: 0 <= j < n ==> r[j] == (start + j) % k && r[j] < k
  {
    if n == 0 then [] else RoundRobin(start, n - 1, k) + [(start + n - 1) % k]
  }

  lemma RoundRobinAdd(start: nat, m: nat, n: nat, k: nat)
    requires k > 0
    ensures RoundRobin(start, m, k) + RoundRobin(start + m, n, k) == RoundRobin(start, m + n, k)
  {
    assert RoundRobin(start, m, k) + RoundRobin(start + m, n, k) == RoundRobin(start, m + n, k);
  }

  /** The seed velocity given to every new pile. */
  const PileVelocity := SetPileVel(-0.30, 0.0, -0.80)

  /** The calls of an inserting stage, from the sampler request to the clump update. */
  function Insertion(c: PackConfig, s: PackState, r: StageReading): seq<Event>
    requires c.templates > 0
  {
    [SampleBox(BoxFor(s.frame)), AddClumps(RoundRobin(s.actual, r.sampled, c.templates)),
     PileVelocity, SetPileFamily(Particles), UpdateClumps]
  }

  /**
    The consolidation after the target is reached: `n` settle calls, the `i`-th
    followed by the settling snapshot numbered `i`.
  */
  function Consolidation(dt: real, n: nat): (t: seq<Event>)
    ensures |t| == 2 * n
    ensures forall j :: 0 <= j < |t| ==>
      t[j] == if j % 2 == 0 then DoDynamicsThenSync(dt) else WriteSpheres(Settling(j / 2))
  {
    if n == 0 then [] else Consolidation(dt, n - 1) + [DoDynamicsThenSync(dt), WriteSpheres(Settling(n - 1))]
  }

  /** One iteration of the packing loop on the reading `r`. */
  function Stage(c: PackConfig, s: PackState, r: StageReading): PackState
    requires c.templates > 0
  {
    var gen := Generates(c, s.planeBottom);
    var actual := if gen then r.numClumps else s.actual;
    var more := actual < c.totalSpheres;
    PackState(
      if gen then s.frame + 1 else s.frame,
      actual,
      r.maxZ,
      more,
      s.stages + 1,
      s.trace + [ClearCache]
        + (if gen then Insertion(c, s, r) else [])
        + (if gen then [WriteSpheres(Settling(s.frame))] else [])
        + [DoDynamicsThenSync(c.settleDt)]
        + (if more then [] else Consolidation(c.settleDt, c.consolidationSteps)),
      if gen then s.families[Pile(s.frame) := Particles] else s.families)
  }

  /** The loop, run on the readings of `script` until it ends or the readings run out. */
  function PackRun(c: PackConfig, s: PackState, script: seq<StageReading>): PackState
    requires c.templates > 0
    decreases |script|
  {
    if !s.initialization || script == [] then s
    else PackRun(c, Stage(c, s, script[0]), script[1..])
  }

  /** The run ended in its consolidation: it was running and stopped by itself. */
  predicate Consolidated(s: PackState, r: PackState)
  {
    s.initialization && !r.initialization
  }

  /**
    The solver reports a count that grows by exactly the clumps the driver
    handed it, on every inserting stage of the run.
  */
  ghost predicate SolverAgrees(c: PackConfig, s: PackState, script: seq<StageReading>)
    requires c.templates > 0
    decreases |script|
  {
    !s.initialization || script == [] ||
    ((Generates(c, s.planeBottom) ==> script[0].numClumps == s.actual + script[0].sampled)
     && SolverAgrees(c, Stage(c, s, script[0]), script[1..]))
  }

  // ---- one stage ----

  lemma InsertionProject<T>(c: PackConfig, s: PackState, r: StageReading, f: Event -> seq<T>)
    requires c.templates > 0
    ensures Project(Insertion(c, s, r), f)
            == f(SampleBox(BoxFor(s.frame))) + f(AddClumps(RoundRobin(s.actual, r.sampled, c.templates)))
               + f(PileVelocity) + f(SetPileFamily(Particles)) + f(UpdateClumps)
  {
    var a, b, d, e, g := SampleBox(BoxFor(s.frame)), AddClumps(RoundRobin(s.actual, r.sampled, c.templates)),
                         PileVelocity, SetPileFamily(Particles), UpdateClumps;
    assert Insertion(c, s, r) == [a] + [b] + [d] + [e] + [g];
    ProjectConcat([a] + [b] + [d] + [e], [g], f);
    ProjectConcat([a] + [b] + [d], [e], f);
    ProjectConcat([a] + [b], [d], f);
    ProjectConcat([a], [b], f);
    ProjectSingleton(a, f);
    ProjectSingleton(b, f);
    ProjectSingleton(d, f);
    ProjectSingleton(e, f);
    ProjectSingleton(g, f);
  }

  lemma {:induction false} ConsolidationProjections(dt: real, n: nat)
    ensures Settles(Consolidation(dt, n)) == Repeat(dt, n)
    ensures SphereFiles(Consolidation(dt, n)) == SettlingRange(0, n)
    ensures Boxes(Consolidation(dt, n)) == []
    ensures AddedTemplates(Consolidation(dt, n)) == []
  {
    if n > 0 {
      var t := Consolidation(dt, n - 1);
      var a, b := DoDynamicsThenSync(dt), WriteSpheres(Settling(n - 1));
      ConsolidationProjections(dt, n - 1);
      ProjectPair(t, a, b, SettleOf);
      ProjectPair(t, a, b, SphereFileOf);
      ProjectPair(t, a, b, BoxOf);
      ProjectPair(t, a, b, TemplatesOf);
    }
  }

  /** Any projection of a stage's trace, part by part. */
  lemma StageProject<T>(c: PackConfig, s: PackState, r: StageReading, f: Event -> seq<T>)
    requires c.templates > 0
    ensures var s' := Stage(c, s, r);
            var gen := Generates(c, s.planeBottom);
            Project(s'.trace, f)
            == Project(s.trace, f) + f(ClearCache)
               + (if gen then Project(Insertion(c, s, r), f) else [])
               + (if gen then f(WriteSpheres(Settling(s.frame))) else [])
               + f(DoDynamicsThenSync(c.settleDt))
               + (if s'.initialization then [] else Project(Consolidation(c.settleDt, c.consolidationSteps), f))
  {
    var s' := Stage(c, s, r);
    var gen := Generates(c, s.planeBottom);
    var a := [ClearCache];
    var b := if gen then Insertion(c, s, r) else [];
    var w := if gen then [WriteSpheres(Settling(s.frame))] else [];
    var d := [DoDynamicsThenSync(c.settleDt)];
    var e := if s'.initialization then [] else Consolidation(c.settleDt, c.consolidationSteps);
    assert s'.trace == s.trace + a + b + w + d + e;
    ProjectConcat(s.trace + a + b + w + d, e, f);
    ProjectConcat(s.trace + a + b + w, d, f);
    ProjectConcat(s.trace + a + b, w, f);
    ProjectConcat(s.trace + a, b, f);
    ProjectConcat(s.trace, a, f);
    ProjectSingleton(ClearCache, f);
    ProjectSingleton(DoDynamicsThenSync(c.settleDt), f);
    if gen {
      ProjectSingleton(WriteSpheres(Settling(s.frame)), f);
    }
  }

  /**
    One stage takes its top height from the reading, advances `frame` only when
    it inserts, keeps the count when it does not, and leaves the loop flag
    saying whether the count is still short of the target.
  */
  lemma StageState(c: PackConfig, s: PackState, r: StageReading)
    requires c.templates > 0
    ensures var s' := Stage(c, s, r);
            && s'.planeBottom == r.maxZ
            && s'.frame == (if Generates(c, s.planeBottom) then s.frame + 1 else s.frame)
            && s'.initialization == (s'.actual < c.totalSpheres)
            && (!Generates(c, s.planeBottom) ==> s'.actual == s.actual)
            && s'.stages == s.stages + 1
  {
  }

  /** Every stage settles exactly once, and its consolidation `n` more times. */
  lemma StageSettles(c: PackConfig, s: PackState, r: StageReading)
    requires c.templates > 0
    ensures var s' := Stage(c, s, r);
            Settles(s'.trace) == Settles(s.trace) + [c.settleDt]
                                 + (if s'.initialization then [] else Repeat(c.settleDt, c.consolidationSteps))
  {
    StageProject(c, s, r, SettleOf);
    InsertionProject(c, s, r, SettleOf);
    ConsolidationProjections(c.settleDt, c.consolidationSteps);
  }

  /** An inserting stage writes the settling snapshot numbered `frame`; the consolidation writes 0, ..., n - 1. */
  lemma StageSnapshots(c: PackConfig, s: PackState, r: StageReading)
    requires c.templates > 0
    ensures var s' := Stage(c, s, r);
            SphereFiles(s'.trace) == SphereFiles(s.trace) + (if Generates(c, s.planeBottom) then [Settling(s.frame)] else [])
                                     + (if s'.initialization then [] else SettlingRange(0, c.consolidationSteps))
  {
    StageProject(c, s, r, SphereFileOf);
    InsertionProject(c, s, r, SphereFileOf);
    ConsolidationProjections(c.settleDt, c.consolidationSteps);
  }

  /** An inserting stage asks the sampler for exactly one box, chosen by `frame`. */
  lemma StageBoxes(c: PackConfig, s: PackState, r: StageReading)
    requires c.templates > 0
    ensures var s' := Stage(c, s, r);
            Boxes(s'.trace) == Boxes(s.trace) + (if Generates(c, s.planeBottom) then [BoxFor(s.frame)] else [])
  {
    StageProject(c, s, r, BoxOf);
    InsertionProject(c, s, r, BoxOf);
    ConsolidationProjections(c.settleDt, c.consolidationSteps);
  }

  /** An inserting stage hands over one template per sampled point, round robin from the current count. */
  lemma StageTemplates(c: PackConfig, s: PackState, r: StageReading)
    requires c.templates > 0
    ensures var s' := Stage(c, s, r);
            AddedTemplates(s'.trace) == AddedTemplates(s.trace)
                                        + (if Generates(c, s.planeBottom) then RoundRobin(s.actual, r.sampled, c.templates) else [])
  {
    StageProject(c, s, r, TemplatesOf);
    InsertionProject(c, s, r, TemplatesOf);
    ConsolidationProjections(c.settleDt, c.consolidationSteps);
  }

  /**
    A stage that inserts nothing, because no layer fits or because the solver
    reports no new clump, never ends a running loop.
  */
  lemma NonInsertingStageContinues(c: PackConfig, s: PackState, r: StageReading)
    requires c.templates > 0
    requires s.actual < c.totalSpheres
    requires !Generates(c, s.planeBottom) || r.numClumps == s.actual
    ensures Stage(c, s, r).initialization
    ensures Stage(c, s, r).actual == s.actual
  {
  }

  // ---- whole runs ----

  /**
    The loop ends only through its consolidation, and only once the solver's
    count has reached the target; while the count is short it keeps going,
    so a run that is still on has used every reading.
  */
  lemma {:induction false} PackRunExit(c: PackConfig, s: PackState, script: seq<StageReading>)
    requires c.templates > 0
    ensures var r := PackRun(c, s, script);
            && s.stages <= r.stages <= s.stages + |script|
            && (!s.initialization ==> r == s)
            && (Consolidated(s, r) ==> r.actual >= c.totalSpheres && r.stages > s.stages)
            && (r.initialization ==> r.stages == s.stages + |script|)
            && (r.stages > s.stages ==> (r.initialization <==> r.actual < c.totalSpheres))
    decreases |script|
  {
    if s.initialization && script != [] {
      var s1 := Stage(c, s, script[0]);
      StageState(c, s, script[0]);
      PackRunExit(c, s1, script[1..]);
    }
  }

  /**
    Every stage settles once, through `DoDynamicsThenSync(settleDt)`, and the
    stopping stage adds exactly `consolidationSteps` more settles.
  */
  lemma {:induction false} PackRunSettles(c: PackConfig, s: PackState, script: seq<StageReading>)
    requires c.templates > 0
    ensures var r := PackRun(c, s, script);
            && r.stages >= s.stages
            && Settles(r.trace) == Settles(s.trace)
                                   + Repeat(c.settleDt, r.stages - s.stages + (if Consolidated(s, r) then c.consolidationSteps else 0))
    decreases |script|
  {
    if s.initialization && script != [] {
      var s1 := Stage(c, s, script[0]);
      var r := PackRun(c, s, script);
      StageState(c, s, script[0]);
      StageSettles(c, s, script[0]);
      PackRunSettles(c, s1, script[1..]);
      if s1.initialization {
        RepeatAdd(c.settleDt, 1, r.stages - s1.stages + (if Consolidated(s1, r) then c.consolidationSteps else 0));
      } else {
        RepeatAdd(c.settleDt, 1, c.consolidationSteps);
      }
    }
  }

  /**
    The settling snapshots of a run: one per inserting stage, numbered by
    consecutive frames, then, if the run stopped, the consolidation's
    snapshots numbered from 0 again. `frame` counts the inserting stages.
  */
  lemma Regroup<T>(a: seq<T>, o: seq<T>, r: seq<T>, t: seq<T>, b: seq<T>, x: seq<T>)
    requires b == a + o && x == b + r + t
    ensures x == a + (o + r) + t
  {
  }

  lemma {:induction false} PackRunSnapshots(c: PackConfig, s: PackState, script: seq<StageReading>)
    requires c.templates > 0
    ensures var r := PackRun(c, s, script);
            && r.frame >= s.frame
            && SphereFiles(r.trace) == SphereFiles(s.trace) + SettlingRange(s.frame, r.frame - s.frame)
                                       + (if Consolidated(s, r) then SettlingRange(0, c.consolidationSteps) else [])
    decreases |script|
  {
    if s.initialization && script != [] {
      var s1 := Stage(c, s, script[0]);
      var r := PackRun(c, s1, script[1..]);
      assert PackRun(c, s, script) == r;
      var own := SettlingRange(s.frame, s1.frame - s.frame);
      StageState(c, s, script[0]);
      StageSnapshots(c, s, script[0]);
      assert own == (if Generates(c, s.planeBottom) then [Settling(s.frame)] else []);
      if s1.initialization {
        PackRunSnapshots(c, s1, script[1..]);
        var tail := if Consolidated(s1, r) then SettlingRange(0, c.consolidationSteps) else [];
        var rest := SettlingRange(s1.frame, r.frame - s1.frame);
        assert SphereFiles(s1.trace) == SphereFiles(s.trace) + own;
        assert SphereFiles(r.trace) == SphereFiles(s1.trace) + rest + tail;
        SettlingRangeAdd(s.frame, s1.frame - s.frame, r.frame - s1.frame);
        assert own + rest == SettlingRange(s.frame, r.frame - s.frame);
        Regroup(SphereFiles(s.trace), own, rest, tail, SphereFiles(s1.trace), SphereFiles(r.trace));
      } else {
        assert r == s1;
      }
    }
  }

  /**
    The consolidation reuses the names of the stage snapshots: when the run
    started at frame 0, the `k`-th stage snapshot and the `k`-th consolidation
    snapshot are the same file.
  */
  lemma ConsolidationReusesSnapshotNames(c: PackConfig, s: PackState, script: seq<StageReading>, k: nat)
    requires c.templates > 0
    requires s.frame == 0
    requires Consolidated(s, PackRun(c, s, script))
    requires k < PackRun(c, s, script).frame && k < c.consolidationSteps
    ensures var r := PackRun(c, s, script);
            var t := SphereFiles(r.trace);
            var o := |SphereFiles(s.trace)|;
            && |t| == o + r.frame + c.consolidationSteps
            && t[o + k] == Settling(k)
            && t[o + r.frame + k] == Settling(k)
  {
    PackRunSnapshots(c, s, script);
  }

  /**
    Each inserting stage asks for one box; the boxes follow the frame count,
    so from frame 0 the tall box is asked for first and never again.
  */
  lemma {:induction false} PackRunBoxes(c: PackConfig, s: PackState, script: seq<StageReading>)
    requires c.templates > 0
    ensures var r := PackRun(c, s, script);
            && r.frame >= s.frame
            && Boxes(r.trace) == Boxes(s.trace) + BoxSchedule(s.frame, r.frame - s.frame)
    decreases |script|
  {
    if s.initialization && script != [] {
      var s1 := Stage(c, s, script[0]);
      var r := PackRun(c, s, script);
      StageState(c, s, script[0]);
      StageBoxes(c, s, script[0]);
      PackRunBoxes(c, s1, script[1..]);
      BoxScheduleAdd(s.frame, s1.frame - s.frame, r.frame - s1.frame);
    }
  }

  /**
    With a solver whose count grows by the clumps handed to it, the clumps
    added over a run are numbered on from the starting count, and clump `i`
    gets template `i % templates`.
  */
  lemma {:induction false} PackRunTemplates(c: PackConfig, s: PackState, script: seq<StageReading>)
    requires c.templates > 0
    requires SolverAgrees(c, s, script)
    ensures var r := PackRun(c, s, script);
            && r.actual >= s.actual
            && AddedTemplates(r.trace) == AddedTemplates(s.trace) + RoundRobin(s.actual, r.actual - s.actual, c.templates)
    decreases |script|
  {
    if s.initialization && script != [] {
      var s1 := Stage(c, s, script[0]);
      var r := PackRun(c, s, script);
      StageState(c, s, script[0]);
      StageTemplates(c, s, script[0]);
      PackRunTemplates(c, s1, script[1..]);
      RoundRobinAdd(s.actual, s1.actual - s.actual, r.actual - s1.actual, c.templates);
    }
  }

  /**
    The only bodies a run adds are the piles of its inserting stages, each in
    the particle family; every other body keeps its family.
  */
  lemma {:induction false} PackRunFamilies(c: PackConfig, s: PackState, script: seq<StageReading>)
    requires c.templates > 0
    ensures var r := PackRun(c, s, script);
            && r.frame >= s.frame
            && (forall b :: b in r.families <==> b in s.families || (b.Pile? && s.frame <= b.stage < r.frame))
            && (forall b: Body :: b.Pile? && s.frame <= b.stage < r.frame ==> b in r.families && r.families[b] == Particles)
            && (forall b :: b in s.families && !(b.Pile? && s.frame <= b.stage < r.frame) ==> r.families[b] == s.families[b])
    decreases |script|
  {
    if s.initialization && script != [] {
      StageState(c, s, script[0]);
      PackRunFamilies(c, Stage(c, s, script[0]), script[1..]);
    }
  }

  /**
    When no layer fits and every reading keeps the top too high for one, no
    stage inserts and a running loop never ends: the count stays short of the
    target however many stages run.
  */
  lemma {:induction false} PackRunStallsWhenFull(c: PackConfig, s: PackState, script: seq<StageReading>)
    requires c.templates > 0
    requires s.initialization && s.actual < c.totalSpheres
    requires !Generates(c, s.planeBottom)
    requires forall j :: 0 <= j < |script| ==> !Generates(c, script[j].maxZ)
    ensures var r := PackRun(c, s, script);
            && r.initialization && r.actual == s.actual && r.frame == s.frame
            && r.stages == s.stages + |script|
    decreases |script|
  {
    if script != [] {
      var s1 := Stage(c, s, script[0]);
      NonInsertingStageContinues(c, s, script[0]);
      assert forall j :: 0 <= j < |script[1..]| ==> !Generates(c, script[1..][j].maxZ) by {
        forall j | 0 <= j < |script[1..]| ensures !Generates(c, script[1..][j].maxZ) {
          assert script[1..][j] == script[j + 1];
        }
      }
      PackRunStallsWhenFull(c, s1, script[1..]);
    }
  }
}
