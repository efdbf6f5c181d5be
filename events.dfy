/**
  The solver calls the granular-flow driver makes, recorded as an event trace,
  and the readings it takes back from the solver.

  The solver itself (contact detection, force models, time integration) is an
  opaque collaborator: the driver only issues calls in some order and reads a
  few observables. Everything the driver does to the solver is one `Event`;
  everything it reads from the solver during packing is one `StageReading`.
*/
module Events {

  /** Names of the per-particle snapshot files (`WriteSphereFile`). */
  datatype SphereFile =
    | Settling(index: int)   // DEMdemo_settling_%04d.csv
    | Output(index: int)     // DEMdemo_output_%04d.csv

  /** Names of the mesh snapshot files (`WriteMeshFile`). */
  datatype MeshFile =
    | Funnel(index: int)        // DEMdemo_funnel_%04d.vtk
    | MeshSnapshot(index: int)  // DEMdemo_mesh_%04d.vtk

  /** The sizes chosen for one sampling box (`sizeX`, `sizeZ`), as the literals of the source. */
  datatype StageBox = StageBox(sizeX: real, sizeZ: real)

  /** The tall box of the very first stage and the flat box of every later one. */
  const FirstStageBox := StageBox(0.49, 0.70)
  const LaterStageBox := StageBox(0.40, 0.0)

  /** One solver call, with the arguments that matter to the control logic. */
  datatype Event =
    | ClearCache
    | SampleBox(box: StageBox)              // the sampler is asked to fill this box
    | AddClumps(templates: seq<nat>)        // template index of each new clump, in order
    | SetPileVel(vx: real, vy: real, vz: real)
    | SetPileFamily(family: int)
    | UpdateClumps
    | WriteSpheres(file: SphereFile)
    | WriteMesh(mesh: MeshFile)
    | DoDynamicsThenSync(dt: real)
    | DoDynamics(dt: real)
    | ChangeFamily(from: int, to: int)

  /**
    What the solver reports during one packing stage: the number of points the
    sampler returned, the clump count `GetNumClumps` reports after the update,
    and the `clump_max_z` inspector reading after the settle call.
  */
  datatype StageReading = StageReading(sampled: nat, numClumps: nat, maxZ: real)

  /** The part of the trace that a projection keeps, in order. */
  function Project<T>(t: seq<Event>, f: Event -> seq<T>): (r: seq<T>)
    ensures t == [] ==> r == []
  {
    if t == [] then [] else f(t[0]) + Project(t[1..], f)
  }

  lemma {:induction false} ProjectConcat<T>(a: seq<Event>, b: seq<Event>, f: Event -> seq<T>)
    ensures Project(a + b, f) == Project(a, f) + Project(b, f)
  {
    if a == [] {
      assert a + b == b;
    } else {
      assert (a + b)[1..] == a[1..] + b;
      ProjectConcat(a[1..], b, f);
    }
  }

  lemma ProjectSingleton<T>(e: Event, f: Event -> seq<T>)
    ensures Project([e], f) == f(e)
  {
    assert [e][1..] == [];
  }

  lemma ProjectAppend<T>(t: seq<Event>, e: Event, f: Event -> seq<T>)
    ensures Project(t + [e], f) == Project(t, f) + f(e)
  {
    ProjectConcat(t, [e], f);
    ProjectSingleton(e, f);
  }

  lemma ProjectPair<T>(t: seq<Event>, a: Event, b: Event, f: Event -> seq<T>)
    ensures Project(t + [a, b], f) == Project(t, f) + f(a) + f(b)
  {
    assert t + [a, b] == (t + [a]) + [b];
    ProjectAppend(t, a, f);
    ProjectAppend(t + [a], b, f);
  }

  /** `n` copies of `x`. */
  function Repeat<T>(x: T, n: nat): (r: seq<T>)
    ensures |r| == n
    ensures forall i :: 0 <= i < n ==> r[i] == x
  {
    if n == 0 then [] else Repeat(x, n - 1) + [x]
  }

  lemma RepeatAdd<T>(x: T, m: nat, n: nat)
    ensures Repeat(x, m) + Repeat(x, n) == Repeat(x, m + n)
  {
    assert Repeat(x, m) + Repeat(x, n) == Repeat(x, m + n);
  }

  // ---- the projections the properties are stated over ----

  function BoxOf(e: Event): seq<StageBox> { if e.SampleBox? then [e.box] else [] }
  function TemplatesOf(e: Event): seq<nat> { if e.AddClumps? then e.templates else [] }
  function SphereFileOf(e: Event): seq<SphereFile> { if e.WriteSpheres? then [e.file] else [] }
  function MeshFileOf(e: Event): seq<MeshFile> { if e.WriteMesh? then [e.mesh] else [] }
  function SettleOf(e: Event): seq<real> { if e.DoDynamicsThenSync? then [e.dt] else [] }
  function StepOf(e: Event): seq<real> { if e.DoDynamics? then [e.dt] else [] }

  /** The calls that change the boundary-condition configuration, and the zero-length syncs around them. */
  datatype Control = Sync | Change(from: int, to: int)

  function ControlOf(e: Event): seq<Control>
  {
    match e
    case DoDynamicsThenSync(dt) => if dt == 0.0 then [Sync] else []
    case ChangeFamily(a, b) => [Change(a, b)]
    case _ => []
  }

  function Boxes(t: seq<Event>): seq<StageBox> { Project(t, BoxOf) }
  function AddedTemplates(t: seq<Event>): seq<nat> { Project(t, TemplatesOf) }
  function SphereFiles(t: seq<Event>): seq<SphereFile> { Project(t, SphereFileOf) }
  function MeshFiles(t: seq<Event>): seq<MeshFile> { Project(t, MeshFileOf) }
  function Settles(t: seq<Event>): seq<real> { Project(t, SettleOf) }
  function Steps(t: seq<Event>): seq<real> { Project(t, StepOf) }
  function Controls(t: seq<Event>): seq<Control> { Project(t, ControlOf) }
}
