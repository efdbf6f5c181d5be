/**
  Families and their boundary conditions in the granular-flow demo.

  Every body of the scene carries one integer family tag. The solver keeps a
  table from family to boundary condition; a family that was never registered
  is integrated freely. `ChangeFamily(a, b)` is a solver call whose body is
  not part of this model: it is taken to move every body of family `a` into
  family `b` (`Relabel`), and that is an assumption of the model.
*/
module Families {
  import opened Events

  /** The family tags the demo uses and their roles. */
  const FixedWalls := 1      // registered Fixed; the walls sit here once the gate opens
  const GateClosed := 3      // registered Fixed; the gate before it opens and after it stops
  const GateMoving := 4      // registered with a prescribed linear velocity (0, 0, gateSpeed)
  const ShakingWalls := 10   // registered with a prescribed (shaking) linear velocity
  const Particles := 100     // the packed clumps; never registered

  /**
    A boundary condition. The velocity components are the motion expressions
    handed to the solver, kept as text; the solver compiles and evaluates them.
  */
  datatype Condition =
    | Unconstrained
    | Fixed
    | PrescribedLinVel(vx: string, vy: string, vz: string)

  /** The two shake expressions registered for the walls. */
  const ShakeXZ := " 0.0 * sin( 300 * 2 * deme::PI * t)"
  const ShakeY := " 0.0 * sin( 30 * 2 * deme::PI * t)"

  /**
    The family table after the four registration calls; `gateSpeedText` is the
    gate speed printed by `to_string_with_precision`.
  */
  function RegisteredConditions(gateSpeedText: string): (t: map<int, Condition>)
    ensures t.Keys == {FixedWalls, GateClosed, GateMoving, ShakingWalls}
    ensures t[FixedWalls] == Fixed && t[GateClosed] == Fixed
    ensures t[GateMoving] == PrescribedLinVel("0", "0", gateSpeedText)
    ensures t[ShakingWalls] == PrescribedLinVel(ShakeXZ, ShakeY, ShakeXZ)
  {
    map[FixedWalls := Fixed, GateClosed := Fixed,
        GateMoving := PrescribedLinVel("0", "0", gateSpeedText),
        ShakingWalls := PrescribedLinVel(ShakeXZ, ShakeY, ShakeXZ)]
  }

  /** The condition in force for a family: an unregistered family is free. */
  function ConditionOf(t: map<int, Condition>, family: int): Condition
  {
    if family in t then t[family] else Unconstrained
  }

  /** The bodies of the scene: five meshes and one pile of clumps per generating stage. */
  datatype Body = Flume | GateFixed | Hopper | Bottom | Gate | Pile(stage: nat)

  /** The family tags given to the meshes right after they are loaded. */
  function SceneFamilies(): (fam: map<Body, int>)
    ensures fam.Keys == {Flume, GateFixed, Hopper, Bottom, Gate}
    ensures forall b :: b in fam && b != Gate ==> fam[b] == ShakingWalls
    ensures fam[Gate] == GateClosed
  {
    map[Flume := ShakingWalls, GateFixed := ShakingWalls, Hopper := ShakingWalls,
        Bottom := ShakingWalls, Gate := GateClosed]
  }

  /** The effect assumed for `ChangeFamily(a, b)`: every body of family `a` is now in `b`. */
  function Relabel(fam: map<Body, int>, a: int, b: int): (r: map<Body, int>)
    ensures r.Keys == fam.Keys
    ensures forall x :: x in fam && fam[x] == a ==> r[x] == b
    ensures forall x :: x in fam && fam[x] != a ==> r[x] == fam[x]
  {
    map x | x in fam :: if fam[x] == a then b else fam[x]
  }

  /**
    Relabelling `a` to `b` and back restores the scene when nothing was in `b`
    before: this is why moving the gate 3 -> 4 and later 4 -> 3 returns it.
  */
  lemma RelabelRoundTrip(fam: map<Body, int>, a: int, b: int)
    requires forall x :: x in fam ==> fam[x] != b
    ensures Relabel(Relabel(fam, a, b), b, a) == fam
  {
    var r := Relabel(Relabel(fam, a, b), b, a);
    assert r.Keys == fam.Keys;
    forall x | x in fam ensures r[x] == fam[x] {
      assert fam[x] != b;
    }
  }

  /** The family a body ends in when the changes are applied to its family in order. */
  function ApplyControl(family: int, c: Control): int
  {
    if c.Change? && c.from == family then c.to else family
  }

  function ApplyChanges(family: int, cs: seq<Control>): int
  {
    if cs == [] then family else ApplyControl(ApplyChanges(family, cs[..|cs| - 1]), cs[|cs| - 1])
  }

  lemma ApplyChangesAppend(family: int, cs: seq<Control>, ds: seq<Control>)
    ensures ApplyChanges(family, cs + ds) == ApplyChanges(ApplyChanges(family, cs), ds)
    decreases |ds|
  {
    if ds == [] {
      assert cs + ds == cs;
    } else {
      assert (cs + ds)[..|cs + ds| - 1] == cs + ds[..|ds| - 1];
      ApplyChangesAppend(family, cs, ds[..|ds| - 1]);
    }
  }

  /** `Relabel` applies one change to every body at once. */
  lemma RelabelIsApplyControl(fam: map<Body, int>, a: int, b: int, x: Body)
    requires x in fam
    ensures x in Relabel(fam, a, b) && Relabel(fam, a, b)[x] == ApplyControl(fam[x], Change(a, b))
  {
  }
}
