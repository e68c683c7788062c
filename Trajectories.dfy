/** The bookkeeping of a found trajectory (`Trajectory` in src/main/solvers/trajectory.ts).

    A trajectory is a list of steps (legs), each with its orbital elements, its attractor and
    possibly a manoeuvre at its start. Drawing it lays out one orbit line per step followed by
    one arrow sprite per manoeuvre, and tabulates each manoeuvre's details; the result panel
    then numbers the manoeuvres and lets a slider show the steps up to a chosen one.
    Scene objects (THREE lines and sprites) are modelled by their kind, their `visible` flag
    and their parent group. */
module Trajectories {
  import opened Wrappers
  import opened Vectors
  import Decimal
  import opened Bodies

  datatype OrbitalElements = OrbitalElements(
    eccentricity: real,
    periapsisDir: Vector3,
    semiMajorAxis: real,
    inclination: real,
    argOfPeriapsis: real,
    ascNodeLongitude: real,
    ascNodeDir: Vector3,
    orbitalParam: real)

  datatype ManeuvreContext = Ejection | Dsm(originId: int, targetId: int) | Circularization

  datatype ManeuvreInfo = ManeuvreInfo(
    deltaVToPrevStep: Vector3,
    progradeDir: Vector3,
    manoeuvrePosition: Vector3,
    context: ManeuvreContext)

  datatype TrajectoryStep = TrajectoryStep(
    orbitElts: OrbitalElements,
    attractorId: int,
    beginAngle: real,
    endAngle: real,
    dateOfStart: real,
    duration: real,
    maneuvre: Option<ManeuvreInfo>)

  /** A manoeuvre as shown in the result panel: its step, its date relative to departure
      (mission-elapsed time) and its delta-V split into prograde, normal and radial parts. */
  datatype ManeuvreDetails = ManeuvreDetails(
    stepIndex: nat,
    dateMET: real,
    progradeDV: real,
    normalDV: real,
    radialDV: real)

  /** `Orbit.fromOrbitalElements(elements, attractor, …)`. */
  datatype Orbit = Orbit(elements: OrbitalElements, attractor: Body)

  /** What a scene object draws: the arc of one step's orbit, or a manoeuvre arrow. */
  datatype ObjectKind =
    | OrbitLine(orbit: Orbit, beginAngle: real, endAngle: real, hue: int)
    | ManeuvreArrow(position: Vector3)

  /** The scene group holding a body's objects (`SolarSystem.objectsOfBody(id)`). */
  class Group {
    const bodyId: int

    constructor (bodyId: int)
      ensures this.bodyId == bodyId
    {
      this.bodyId := bodyId;
    }
  }

  /** A THREE.Object3D: new objects are visible and have no parent. */
  class SceneObject {
    const kind: ObjectKind
    var visible: bool
    var parent: Group?

    constructor (kind: ObjectKind)
      ensures this.kind == kind && visible && parent == null
    {
      this.kind := kind;
      visible := true;
      parent := null;
    }
  }

  /** The hue of step i's orbit line, `hsl(${i*35 % 360}, …)`: a whole degree on the colour
      wheel, a multiple of 5. */
  function LineHue(i: nat): (hue: int)
    ensures 0 <= hue < 360 && hue % 5 == 0
  {
    i * 35 % 360
  }

  /** Each step's line turns the hue 35 degrees further, so the hues repeat every 72 steps. */
  lemma LineHueTurns(i: nat)
    ensures LineHue(i + 1) == (LineHue(i) + 35) % 360
    ensures LineHue(i + 72) == LineHue(i)
  {
    var a := i * 35;
    assert LineHue(i + 1) == (a + 35) % 360 by {
      assert (i + 1) * 35 == a + 35;
    }
    ShiftedModulo(a, 35);
    assert LineHue(i + 72) == (a + 2520) % 360 by {
      assert (i + 72) * 35 == a + 2520;
    }
    ShiftedModulo(a, 2520);
    assert (a % 360 + 2520) % 360 == a % 360;
  }

  /** Adding b to a number moves its remainder modulo 360 by b, around the circle. */
  lemma ShiftedModulo(a: nat, b: nat)
    ensures (a + b) % 360 == (a % 360 + b) % 360
  {
    var q, r := a / 360, a % 360;
    assert a == 360 * q + r;
    var q', r' := (r + b) / 360, (r + b) % 360;
    assert a + b == 360 * (q + q') + r';
  }

  /** The indices of the steps that carry a manoeuvre, in step order. */
  function ManeuvreIndices(steps: seq<TrajectoryStep>): (r: seq<nat>)
    ensures forall j | 0 <= j < |r| :: r[j] < |steps| && steps[r[j]].maneuvre.Some?
  {
    if steps == [] then []
    else
      var last := |steps| - 1;
      ManeuvreIndices(steps[..last]) + (if steps[last].maneuvre.Some? then [last] else [])
  }

  /** Every step with a manoeuvre is listed, each once, in increasing order. */
  lemma {:induction false} ManeuvreIndicesSpec(steps: seq<TrajectoryStep>)
    ensures var r := ManeuvreIndices(steps);
      && (forall a, b | 0 <= a < b < |r| :: r[a] < r[b])
      && (forall i | 0 <= i < |steps| && steps[i].maneuvre.Some? :: i in r)
  {
    if steps != [] {
      var last := |steps| - 1;
      var init := steps[..last];
      ManeuvreIndicesSpec(init);
      var r := ManeuvreIndices(steps);
      forall i | 0 <= i < |steps| && steps[i].maneuvre.Some? ensures i in r {
        if i < last {
          assert init[i] == steps[i];
        }
      }
    }
  }

  /** Extending the steps by one adds that step's index when it has a manoeuvre. */
  lemma ManeuvreIndicesPrefix(steps: seq<TrajectoryStep>, i: nat)
    requires i < |steps|
    ensures ManeuvreIndices(steps[..i + 1]) ==
              ManeuvreIndices(steps[..i]) + (if steps[i].maneuvre.Some? then [i] else [])
  {
    assert steps[..i + 1][..i] == steps[..i];
  }

  /** The details of the manoeuvre of step i, whose orbit has normal `normal`: delta-V
      projected on the prograde direction, the orbit normal and prograde × normal. */
  function DetailsOf(steps: seq<TrajectoryStep>, i: nat, normal: Vector3): (d: ManeuvreDetails)
    requires i < |steps| && steps[i].maneuvre.Some?
    ensures d.stepIndex == i
    ensures i == 0 ==> d.dateMET == 0.0
    ensures steps[0].dateOfStart <= steps[i].dateOfStart ==> d.dateMET >= 0.0
  {
    var m := steps[i].maneuvre.value;
    var radial := Cross(m.progradeDir, normal);
    ManeuvreDetails(
      i,
      steps[i].dateOfStart - steps[0].dateOfStart,
      Dot(m.progradeDir, m.deltaVToPrevStep),
      Dot(normal, m.deltaVToPrevStep),
      Dot(radial, m.deltaVToPrevStep))
  }

  /** A burn along the prograde direction has no radial part; when the orbit normal is also
      perpendicular to the prograde direction, it has no normal part either. */
  lemma ProgradeBurnHasNoSidewaysPart(steps: seq<TrajectoryStep>, i: nat, normal: Vector3, c: real)
    requires i < |steps| && steps[i].maneuvre.Some?
    requires steps[i].maneuvre.value.deltaVToPrevStep == Scale(steps[i].maneuvre.value.progradeDir, c)
    ensures DetailsOf(steps, i, normal).radialDV == 0.0
    ensures Dot(normal, steps[i].maneuvre.value.progradeDir) == 0.0 ==> DetailsOf(steps, i, normal).normalDV == 0.0
  {
    var p := steps[i].maneuvre.value.progradeDir;
    DotScale(Cross(p, normal), p, c);
    DotScale(normal, p, c);
  }

  /** Scaling the second vector scales the dot product. */
  lemma DotScale(u: Vector3, v: Vector3, c: real)
    ensures Dot(u, Scale(v, c)) == c * Dot(u, v)
  {
  }

  /** The visibility flags after showing the steps up to `index`: orbit line i is shown when
      i <= index, and each sprite copies the flag of its step's orbit line. */
  function VisibleAfter(n: nat, ms: seq<ManeuvreDetails>, index: int): (r: seq<bool>)
    requires forall j | 0 <= j < |ms| :: ms[j].stepIndex < n
    ensures |r| == n + |ms|
  {
    var lines := seq(n, i => i <= index);
    lines + seq(|ms|, j requires 0 <= j < |ms| => lines[ms[j].stepIndex])
  }

  /** Showing up to `index` shows exactly orbit lines 0..index and the manoeuvres on them. */
  lemma VisibleAfterSpec(n: nat, ms: seq<ManeuvreDetails>, index: int)
    requires forall j | 0 <= j < |ms| :: ms[j].stepIndex < n
    ensures forall i | 0 <= i < n :: VisibleAfter(n, ms, index)[i] <==> i <= index
    ensures forall j | 0 <= j < |ms| :: VisibleAfter(n, ms, index)[n + j] <==> ms[j].stepIndex <= index
  {
  }

  /** Moving the slider right never hides anything. */
  lemma VisibleAfterMonotone(n: nat, ms: seq<ManeuvreDetails>, lo: int, hi: int)
    requires forall j | 0 <= j < |ms| :: ms[j].stepIndex < n
    requires lo <= hi
    ensures forall k | 0 <= k < n + |ms| :: VisibleAfter(n, ms, lo)[k] ==> VisibleAfter(n, ms, hi)[k]
  {
  }

  /** The step slider: `setMinMax(0, steps.length - 1)` and `value = steps.length - 1`. */
  datatype StepSlider = StepSlider(min: int, max: int, value: int)

  /** Whether the slider can be moved to position k. */
  predicate Reachable(s: StepSlider, k: int) {
    s.min <= k <= s.max
  }

  /** The slider reaches exactly the step indices and starts at the last one. */
  function SliderFor(stepCount: nat): (s: StepSlider)
    ensures forall k :: Reachable(s, k) <==> 0 <= k < stepCount
    ensures stepCount > 0 ==> s.value == stepCount - 1 && Reachable(s, s.value)
  {
    StepSlider(0, stepCount - 1, stepCount - 1)
  }

  /** The slider's starting position shows every orbit line and every manoeuvre sprite. */
  lemma SliderStartShowsEverything(n: nat, ms: seq<ManeuvreDetails>)
    requires forall j | 0 <= j < |ms| :: ms[j].stepIndex < n
    ensures forall k | 0 <= k < n + |ms| :: VisibleAfter(n, ms, SliderFor(n).value)[k]
  {
  }

  /** The length of a manoeuvre's (prograde, normal, radial) delta-V vector. */
  function DeltaVOf(d: ManeuvreDetails): Vector3 {
    Vector3(d.progradeDV, d.normalDV, d.radialDV)
  }

  /** The sum of the manoeuvres' delta-V lengths, in list order. */
  function SumNorms(ms: seq<ManeuvreDetails>, norm: Vector3 -> real): real {
    if ms == [] then 0.0 else SumNorms(ms[..|ms| - 1], norm) + norm(DeltaVOf(ms[|ms| - 1]))
  }

  lemma {:induction false} SumNormsNonNegative(ms: seq<ManeuvreDetails>, norm: Vector3 -> real)
    requires IsEuclideanNorm(norm)
    ensures SumNorms(ms, norm) >= 0.0
  {
    if ms != [] {
      SumNormsNonNegative(ms[..|ms| - 1], norm);
      assert norm(DeltaVOf(ms[|ms| - 1])) >= 0.0;
    }
  }

  /** A manoeuvre label: its number (counting from 1), a colon, then its description. */
  function Numbered(k: nat, description: string): string {
    Decimal.NatToString(k + 1) + ": " + description
  }

  /** Different manoeuvres get different labels, whatever their descriptions. */
  lemma NumberedDistinct(a: nat, da: string, b: nat, db: string)
    requires a != b
    ensures Numbered(a, da) != Numbered(b, db)
  {
    if Numbered(a, da) == Numbered(b, db) {
      Decimal.NumberedPrefixDeterminesNumber(a + 1, da, b + 1, db);
    }
  }

  class Trajectory {
    const steps: seq<TrajectoryStep>
    const system: SolarSystem
    var orbits: seq<Orbit>
    /** `_objects`: the orbit lines, one per step, then the manoeuvre sprites. */
    var objects: seq<SceneObject>
    /** `_maneuvres`. */
    var maneuvres: seq<ManeuvreDetails>

    /** One orbit per step, built from that step's elements around its attractor. */
    ghost predicate Built()
      reads this
    {
      && |orbits| == |steps|
      && forall i | 0 <= i < |steps| :: orbits[i].elements == steps[i].orbitElts
    }

    /** The layout after `draw`. */
    ghost predicate Drawn()
      reads this
    {
      var idx := ManeuvreIndices(steps);
      && Built()
      && |objects| == |steps| + |idx|
      && |maneuvres| == |idx|
      && (forall a, b | 0 <= a < b < |objects| :: objects[a] != objects[b])
      && (forall i | 0 <= i < |steps| ::
            objects[i].kind == OrbitLine(orbits[i], steps[i].beginAngle, steps[i].endAngle, LineHue(i)))
      && (forall k | |steps| <= k < |objects| :: objects[k].kind.ManeuvreArrow?)
      && (forall j | 0 <= j < |idx| ::
            && maneuvres[j].stepIndex == idx[j]
            && maneuvres[j].dateMET == steps[idx[j]].dateOfStart - steps[0].dateOfStart)
    }

    constructor (steps: seq<TrajectoryStep>, system: SolarSystem)
      requires forall i | 0 <= i < |steps| :: system.BodyFromId(steps[i].attractorId).Ok?
      ensures this.steps == steps && this.system == system
      ensures Built()
      ensures forall i | 0 <= i < |steps| ::
                orbits[i] == Orbit(steps[i].orbitElts, system.BodyFromId(steps[i].attractorId).value)
      ensures objects == [] && maneuvres == []
    {
      var built: seq<Orbit> := [];
      for i := 0 to |steps|
        invariant |built| == i
        invariant forall k | 0 <= k < i ::
                    built[k] == Orbit(steps[k].orbitElts, system.BodyFromId(steps[k].attractorId).value)
      {
        var attractor := system.BodyFromId(steps[i].attractorId).value;
        built := built + [Orbit(steps[i].orbitElts, attractor)];
      }
      this.steps := steps;
      this.system := system;
      orbits := built;
      objects := [];
      maneuvres := [];
    }

    /** `draw`: orbit arcs, then manoeuvre sprites, then manoeuvre details. `groups` stands for
        the scene groups of the bodies, `scale` for the rendering scale and `normalOf` for the
        orbit normal computed by the orbit module. */
    method Draw(groups: map<int, Group>, scale: real, normalOf: Orbit -> Vector3)
      requires Built() && objects == [] && maneuvres == []
      requires forall i | 0 <= i < |orbits| :: orbits[i].attractor.id in groups
      requires forall i | 0 <= i < |steps| && steps[i].maneuvre.Some? :: steps[i].attractorId in groups
      modifies this
      ensures Drawn() && orbits == old(orbits)
      ensures forall k | 0 <= k < |objects| :: fresh(objects[k]) && objects[k].visible
      ensures forall i | 0 <= i < |steps| :: objects[i].parent == groups[orbits[i].attractor.id]
      ensures forall j | 0 <= j < |maneuvres| ::
                var step := steps[maneuvres[j].stepIndex];
                && step.maneuvre.Some?
                && objects[|steps| + j].parent == groups[step.attractorId]
                && objects[|steps| + j].kind == ManeuvreArrow(Scale(step.maneuvre.value.manoeuvrePosition, scale))
                && maneuvres[j] == DetailsOf(steps, maneuvres[j].stepIndex, normalOf(orbits[maneuvres[j].stepIndex]))
    {
      ManeuvreIndicesSpec(steps);
      CreateTrajectoryArcs(groups);
      ghost var lines := objects;
      CreateManeuvreSprites(groups, scale);
      CalculateManeuvresDetails(normalOf);
      forall k | 0 <= k < |steps|
        ensures objects[k] == lines[k]
      {
        assert objects[..|steps|][k] == objects[k];
      }
    }

    /** `_createTrajectoryArcs`: one orbit line per step, added to its attractor's group. */
    method CreateTrajectoryArcs(groups: map<int, Group>)
      requires Built() && objects == []
      requires forall i | 0 <= i < |orbits| :: orbits[i].attractor.id in groups
      modifies this
      ensures Built() && orbits == old(orbits) && maneuvres == old(maneuvres)
      ensures |objects| == |steps|
      ensures forall a, b | 0 <= a < b < |objects| :: objects[a] != objects[b]
      ensures forall i | 0 <= i < |steps| ::
                && fresh(objects[i]) && objects[i].visible
                && objects[i].parent == groups[orbits[i].attractor.id]
                && objects[i].kind == OrbitLine(orbits[i], steps[i].beginAngle, steps[i].endAngle, LineHue(i))
    {
      for i := 0 to |orbits|
        invariant orbits == old(orbits) && maneuvres == old(maneuvres)
        invariant |objects| == i
        invariant forall a, b | 0 <= a < b < i :: objects[a] != objects[b]
        invariant forall k | 0 <= k < i ::
                    && fresh(objects[k]) && objects[k].visible
                    && objects[k].parent == groups[orbits[k].attractor.id]
                    && objects[k].kind == OrbitLine(orbits[k], steps[k].beginAngle, steps[k].endAngle, LineHue(k))
      {
        var orbit := orbits[i];
        var line := new SceneObject(OrbitLine(orbit, steps[i].beginAngle, steps[i].endAngle, LineHue(i)));
        line.parent := groups[orbit.attractor.id];
        objects := objects + [line];
      }
    }

    /** `_createManeuvreSprites`: one arrow per step with a manoeuvre, after the orbit lines. */
    method CreateManeuvreSprites(groups: map<int, Group>, scale: real)
      requires |objects| == |steps|
      requires forall a, b | 0 <= a < b < |objects| :: objects[a] != objects[b]
      requires forall i | 0 <= i < |steps| && steps[i].maneuvre.Some? :: steps[i].attractorId in groups
      modifies this
      ensures orbits == old(orbits) && maneuvres == old(maneuvres)
      ensures |objects| == |steps| + |ManeuvreIndices(steps)|
      ensures objects[..|steps|] == old(objects)
      ensures forall a, b | 0 <= a < b < |objects| :: objects[a] != objects[b]
      ensures forall k | |steps| <= k < |objects| ::
                var step := steps[ManeuvreIndices(steps)[k - |steps|]];
                && fresh(objects[k]) && objects[k].visible
                && step.maneuvre.Some?
                && objects[k].parent == groups[step.attractorId]
                && objects[k].kind == ManeuvreArrow(Scale(step.maneuvre.value.manoeuvrePosition, scale))
    {
      var sprites := NewSprites(groups, scale);
      ghost var lines := objects;
      objects := objects + sprites;
      assert objects[..|steps|] == lines;
      forall a, b | 0 <= a < b < |objects| ensures objects[a] != objects[b] {
        if b >= |steps| {
          assert objects[b] == sprites[b - |steps|];
          if a < |steps| {
            assert objects[a] == lines[a];
          } else {
            assert objects[a] == sprites[a - |steps|];
          }
        }
      }
      forall k | |steps| <= k < |objects|
        ensures objects[k] == sprites[k - |steps|]
      {
      }
    }

    /** The arrows `_createManeuvreSprites` creates: one per step with a manoeuvre, in step order. */
    method NewSprites(groups: map<int, Group>, scale: real) returns (sprites: seq<SceneObject>)
      requires forall i | 0 <= i < |steps| && steps[i].maneuvre.Some? :: steps[i].attractorId in groups
      ensures |sprites| == |ManeuvreIndices(steps)|
      ensures forall a, b | 0 <= a < b < |sprites| :: sprites[a] != sprites[b]
      ensures forall j | 0 <= j < |sprites| ::
                var step := steps[ManeuvreIndices(steps)[j]];
                && fresh(sprites[j]) && sprites[j].visible
                && step.maneuvre.Some?
                && sprites[j].parent == groups[step.attractorId]
                && sprites[j].kind == ManeuvreArrow(Scale(step.maneuvre.value.manoeuvrePosition, scale))
    {
      ghost var shown: seq<nat> := [];
      sprites := [];
      for i := 0 to |steps|
        invariant shown == ManeuvreIndices(steps[..i])
        invariant forall j | 0 <= j < |shown| :: shown[j] < i
        invariant |sprites| == |shown|
        invariant forall a, b | 0 <= a < b < |sprites| :: sprites[a] != sprites[b]
        invariant forall j | 0 <= j < |sprites| ::
                    && fresh(sprites[j]) && sprites[j].visible
                    && steps[shown[j]].maneuvre.Some?
                    && sprites[j].parent == groups[steps[shown[j]].attractorId]
                    && sprites[j].kind == ManeuvreArrow(Scale(steps[shown[j]].maneuvre.value.manoeuvrePosition, scale))
      {
        ManeuvreIndicesPrefix(steps, i);
        var step := steps[i];
        if step.maneuvre.Some? {
          var sprite := new SceneObject(ManeuvreArrow(Scale(step.maneuvre.value.manoeuvrePosition, scale)));
          sprite.parent := groups[step.attractorId];
          sprites := sprites + [sprite];
          shown := shown + [i];
        }
      }
      assert steps[..|steps|] == steps;
    }

    /** `_calculateManeuvresDetails`: the details of every manoeuvre, in step order. */
    method CalculateManeuvresDetails(normalOf: Orbit -> Vector3)
      requires |orbits| == |steps| && maneuvres == []
      modifies this
      ensures orbits == old(orbits) && objects == old(objects)
      ensures |maneuvres| == |ManeuvreIndices(steps)|
      ensures forall j | 0 <= j < |maneuvres| ::
                var i := ManeuvreIndices(steps)[j];
                i < |steps| && steps[i].maneuvre.Some? && maneuvres[j] == DetailsOf(steps, i, normalOf(orbits[i]))
    {
      ManeuvreIndicesSpec(steps);
      for i := 0 to |steps|
        invariant orbits == old(orbits) && objects == old(objects)
        invariant |maneuvres| == |ManeuvreIndices(steps[..i])|
        invariant forall j | 0 <= j < |maneuvres| ::
                    var k := ManeuvreIndices(steps[..i])[j];
                    k < i && steps[k].maneuvre.Some? && maneuvres[j] == DetailsOf(steps, k, normalOf(orbits[k]))
      {
        ManeuvreIndicesPrefix(steps, i);
        ManeuvreIndicesSpec(steps[..i]);
        if steps[i].maneuvre.Some? {
          maneuvres := maneuvres + [DetailsOf(steps, i, normalOf(orbits[i]))];
        }
      }
      assert steps[..|steps|] == steps;
    }

    /** `_displayStepsUpTo`: show orbit lines 0..index and the sprites of their manoeuvres;
        nothing but `visible` flags changes. */
    method DisplayStepsUpTo(index: int)
      requires Drawn()
      modifies objects
      ensures forall k | 0 <= k < |objects| ::
                objects[k].visible == VisibleAfter(|steps|, maneuvres, index)[k]
      ensures forall k | 0 <= k < |objects| :: objects[k].parent == old(objects[k].parent)
    {
      ShowLinesUpTo(index);
      SyncSprites(index);
    }

    /** The first loop of `_displayStepsUpTo`: orbit line i is visible iff i <= index. */
    method ShowLinesUpTo(index: int)
      requires |steps| <= |objects|
      requires forall a, b | 0 <= a < b < |objects| :: objects[a] != objects[b]
      modifies objects
      ensures forall k | 0 <= k < |steps| :: objects[k].visible == (k <= index)
      ensures forall k | |steps| <= k < |objects| :: objects[k].visible == old(objects[k].visible)
      ensures forall k | 0 <= k < |objects| :: objects[k].parent == old(objects[k].parent)
    {
      for i := 0 to |steps|
        invariant forall k | 0 <= k < i :: objects[k].visible == (k <= index)
        invariant forall k | i <= k < |objects| :: objects[k].visible == old(objects[k].visible)
        invariant forall k | 0 <= k < |objects| :: objects[k].parent == old(objects[k].parent)
      {
        objects[i].visible := i <= index;
      }
    }

    /** The second loop of `_displayStepsUpTo`: each sprite copies its step's line flag. */
    method SyncSprites(ghost index: int)
      requires |objects| == |steps| + |maneuvres|
      requires forall a, b | 0 <= a < b < |objects| :: objects[a] != objects[b]
      requires forall j | 0 <= j < |maneuvres| :: maneuvres[j].stepIndex < |steps|
      requires forall k | 0 <= k < |steps| :: objects[k].visible == (k <= index)
      modifies objects
      ensures forall k | 0 <= k < |steps| :: objects[k].visible == (k <= index)
      ensures forall k | |steps| <= k < |objects| ::
                objects[k].visible == (maneuvres[k - |steps|].stepIndex <= index)
      ensures forall k | 0 <= k < |objects| :: objects[k].parent == old(objects[k].parent)
    {
      var spritesStart := |steps|;
      for j := 0 to |maneuvres|
        invariant forall k | 0 <= k < spritesStart :: objects[k].visible == (k <= index)
        invariant forall k | spritesStart <= k < spritesStart + j ::
                    objects[k].visible == (maneuvres[k - spritesStart].stepIndex <= index)
        invariant forall k | 0 <= k < |objects| :: objects[k].parent == old(objects[k].parent)
      {
        var visible := objects[maneuvres[j].stepIndex].visible;
        objects[spritesStart + j].visible := visible;
      }
    }

    /** `remove`: detach every object from its parent group. */
    method Remove()
      modifies objects
      ensures forall k | 0 <= k < |objects| ::
                objects[k].parent == null && objects[k].visible == old(objects[k].visible)
    {
      for i := 0 to |objects|
        invariant forall k | 0 <= k < i :: objects[k].parent == null
        invariant forall k | 0 <= k < |objects| :: objects[k].visible == old(objects[k].visible)
      {
        if objects[i].parent != null {
          objects[i].parent := null;
        }
      }
    }

    /** The label of manoeuvre number k (from 0), by its context: the escape from the step's
        attractor, a DSM between two bodies, or the circularization around the step's attractor. */
    function ManeuvreLabel(k: nat, step: TrajectoryStep): (r: Result<string, LookupError>)
      reads system
      requires step.maneuvre.Some?
      ensures step.maneuvre.value.context.Dsm? ==>
                (r.Ok? <==> system.BodyFromId(step.maneuvre.value.context.originId).Ok?
                            && system.BodyFromId(step.maneuvre.value.context.targetId).Ok?)
      ensures !step.maneuvre.value.context.Dsm? ==> (r.Ok? <==> system.BodyFromId(step.attractorId).Ok?)
      ensures r.Err? ==> r.error.NoBodyWithId?
      ensures r.Ok? ==> exists d :: r.value == Numbered(k, d)
    {
      match step.maneuvre.value.context
      case Ejection =>
        (match system.BodyFromId(step.attractorId)
         case Ok(start) => Ok(Numbered(k, start.name + " escape"))
         case Err(e) => Err(e))
      case Dsm(originId, targetId) =>
        (match system.BodyFromId(originId)
         case Err(e) => Err(e)
         case Ok(origin) =>
           match system.BodyFromId(targetId)
           case Err(e) => Err(e)
           case Ok(target) => Ok(Numbered(k, origin.name + "-" + target.name + " DSM")))
      case Circularization =>
        (match system.BodyFromId(step.attractorId)
         case Ok(arrival) => Ok(Numbered(k, arrival.name + " circularization"))
         case Err(e) => Err(e))
    }

    /** The manoeuvre selector's options of `fillResultControls`: one label per manoeuvre, in
        order, all different; or the first failed body lookup. */
    method ManeuvreLabels() returns (r: Result<seq<string>, LookupError>)
      requires Drawn()
      ensures r.Ok? ==> |r.value| == |maneuvres|
      ensures r.Ok? ==> forall j | 0 <= j < |maneuvres| ::
                ManeuvreLabel(j, steps[maneuvres[j].stepIndex]) == Ok(r.value[j])
      ensures r.Ok? ==> forall a, b | 0 <= a < b < |r.value| :: r.value[a] != r.value[b]
      ensures r.Err? ==> exists j | 0 <= j < |maneuvres| ::
                && ManeuvreLabel(j, steps[maneuvres[j].stepIndex]) == Err(r.error)
                && forall m | 0 <= m < j :: ManeuvreLabel(m, steps[maneuvres[m].stepIndex]).Ok?
    {
      var options: seq<string> := [];
      for i := 0 to |maneuvres|
        invariant |options| == i
        invariant forall j | 0 <= j < i :: ManeuvreLabel(j, steps[maneuvres[j].stepIndex]) == Ok(options[j])
        invariant forall a, b | 0 <= a < b < i :: options[a] != options[b]
      {
        var step := steps[maneuvres[i].stepIndex];
        var option := ManeuvreLabel(i, step);
        if option.Err? {
          assert ManeuvreLabel(i, steps[maneuvres[i].stepIndex]) == Err(option.error);
          return Err(option.error);
        }
        forall j | 0 <= j < i ensures options[j] != option.value {
          LabelsDiffer(j, steps[maneuvres[j].stepIndex], i, step);
        }
        options := options + [option.value];
      }
      return Ok(options);
    }

    /** Two different manoeuvres never get the same label, whatever their contexts and bodies. */
    lemma LabelsDiffer(a: nat, stepA: TrajectoryStep, b: nat, stepB: TrajectoryStep)
      requires a != b && stepA.maneuvre.Some? && stepB.maneuvre.Some?
      requires ManeuvreLabel(a, stepA).Ok? && ManeuvreLabel(b, stepB).Ok?
      ensures ManeuvreLabel(a, stepA).value != ManeuvreLabel(b, stepB).value
    {
      var da :| ManeuvreLabel(a, stepA).value == Numbered(a, da);
      var db :| ManeuvreLabel(b, stepB).value == Numbered(b, db);
      NumberedDistinct(a, da, b, db);
    }

    /** `_totalDeltaV`: the sum of the manoeuvres' delta-V lengths; never negative when `norm`
        is the Euclidean length. */
    method TotalDeltaV(norm: Vector3 -> real) returns (total: real)
      ensures total == SumNorms(maneuvres, norm)
      ensures IsEuclideanNorm(norm) ==> total >= 0.0
    {
      total := 0.0;
      for i := 0 to |maneuvres|
        invariant total == SumNorms(maneuvres[..i], norm)
      {
        assert maneuvres[..i + 1][..i] == maneuvres[..i];
        total := total + norm(DeltaVOf(maneuvres[i]));
      }
      assert maneuvres[..|maneuvres|] == maneuvres;
      if IsEuclideanNorm(norm) {
        SumNormsNonNegative(maneuvres, norm);
      }
    }

    /** A manoeuvre on the first step happens at mission-elapsed time 0. */
    lemma FirstStepManeuvreAtZero()
      requires Drawn() && |steps| > 0 && steps[0].maneuvre.Some?
      ensures |maneuvres| > 0 && maneuvres[0].stepIndex == 0 && maneuvres[0].dateMET == 0.0
    {
      ManeuvreIndicesSpec(steps);
      var idx := ManeuvreIndices(steps);
      assert 0 in idx;
    }
  }
}
