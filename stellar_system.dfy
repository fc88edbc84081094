/**
 * The re-patching system of app/stellarSystem/stellarSystem.js: a root
 * attractor (the sun), the other attractors and the orbiters, all bodies of
 * one `Bodies` arena, named by their index there. Every step advances every
 * body on its orbit and then hands each orbiter to the attractor whose sphere
 * of influence it is deepest inside.
 */
module StellarSystems {
  import opened JsMath
  import opened Vectors
  import opened Options
  import opened StellarBodies
  import ConicsConic

  // ---------------------------------------------------------------------
  // Choosing the governing attractor, on plain numbers.

  /**
   * c is the position in [1, hi) of the smallest distance ds[c] among the
   * positions whose distance is strictly below their radius rs, the earliest
   * one on a tie, or None when there is no such position. Position 0 (the
   * root) is never a candidate.
   */
  predicate Closest(ds: seq<real>, rs: seq<real>, hi: nat, c: Option<nat>)
    requires hi <= |ds| == |rs|
  {
    match c
    case None => forall k :: 1 <= k < hi ==> !(ds[k] < rs[k])
    case Some(j) =>
      && 1 <= j < hi && ds[j] < rs[j]
      && forall k :: 1 <= k < hi && ds[k] < rs[k] ==> ds[j] <= ds[k] && (k < j ==> ds[j] < ds[k])
  }

  /** The choice as update makes it, scanning the positions from the first on and keeping a strictly closer one. */
  function Nearest(ds: seq<real>, rs: seq<real>, hi: nat): (c: Option<nat>)
    requires hi <= |ds| == |rs|
    ensures c.Some? ==> 1 <= c.value < hi && ds[c.value] < rs[c.value]
  {
    if hi <= 1 then None
    else
      var k := hi - 1;
      var c := Nearest(ds, rs, k);
      if ds[k] < rs[k] && (c.None? || ds[k] < ds[c.value]) then Some(k) else c
  }

  /** The scan finds the closest position. */
  lemma {:induction false} NearestIsClosest(ds: seq<real>, rs: seq<real>, hi: nat)
    requires hi <= |ds| == |rs|
    ensures Closest(ds, rs, hi, Nearest(ds, rs, hi))
  {
    if hi > 1 {
      NearestIsClosest(ds, rs, hi - 1);
    }
  }

  /** At most one position is the closest one. */
  lemma ClosestUnique(ds: seq<real>, rs: seq<real>, hi: nat, c: Option<nat>, c': Option<nat>)
    requires hi <= |ds| == |rs| && Closest(ds, rs, hi, c) && Closest(ds, rs, hi, c')
    ensures c == c'
  {
    if c.Some? && c'.Some? {
      assert ds[c.value] <= ds[c'.value] && ds[c'.value] <= ds[c.value];
    }
  }

  // ---------------------------------------------------------------------
  // The system's state.

  /**
   * The lists of the system: a massive non-orbiter root first and attractors
   * after it, orbiters in their own list, and every listed body but the root
   * on an orbit.
   */
  ghost predicate Lists(bs: seq<Body>, attractors: seq<nat>, orbiters: seq<nat>) {
    && 1 <= |attractors|
    && (forall j :: 0 <= j < |attractors| ==> attractors[j] < |bs|)
    && bs[attractors[0]].kind != Orbiter && 0.0 < bs[attractors[0]].mass
    && (forall j :: 1 <= j < |attractors| ==> bs[attractors[j]].kind == Attractor && bs[attractors[j]].orbit.Some?)
    && (forall o :: 0 <= o < |orbiters| ==>
          orbiters[o] < |bs| && bs[orbiters[o]].kind == Orbiter && bs[orbiters[o]].orbit.Some?)
  }

  /** The distance from body x to each attractor. */
  ghost function Distances(m: MathFns, bs: seq<Body>, rank: seq<nat>, attractors: seq<nat>, x: nat): (ds: seq<real>)
    requires Ranked(bs, rank) && x < |bs| && forall j :: 0 <= j < |attractors| ==> attractors[j] < |bs|
    ensures |ds| == |attractors|
    decreases |attractors|
  {
    if attractors == [] then []
    else
      var n := |attractors| - 1;
      Distances(m, bs, rank, attractors[..n], x) + [LocalTo(bs, rank, x, attractors[n], Position).Mod(m)]
  }

  /** Entry j of the distances is the length of x's position relative to attractor j. */
  lemma {:induction false} DistanceIs(m: MathFns, bs: seq<Body>, rank: seq<nat>, attractors: seq<nat>, x: nat, j: nat)
    requires Ranked(bs, rank) && x < |bs| && forall i :: 0 <= i < |attractors| ==> attractors[i] < |bs|
    requires j < |attractors|
    ensures Distances(m, bs, rank, attractors, x)[j] == LocalTo(bs, rank, x, attractors[j], Position).Mod(m)
    decreases |attractors|
  {
    var n := |attractors| - 1;
    if j < n {
      DistanceIs(m, bs, rank, attractors[..n], x, j);
    }
  }

  /** The sphere-of-influence radius of each attractor but the root, which is never asked for one. */
  ghost function Radii(m: MathFns, bs: seq<Body>, rank: seq<nat>, attractors: seq<nat>): (rs: seq<real>)
    requires Arena(m, bs, rank) && forall j :: 0 <= j < |attractors| ==> attractors[j] < |bs|
    requires forall j :: 1 <= j < |attractors| ==> bs[attractors[j]].kind == Attractor && bs[attractors[j]].orbit.Some?
    ensures |rs| == |attractors|
    decreases |attractors|
  {
    if attractors == [] then []
    else
      var n := |attractors| - 1;
      Radii(m, bs, rank, attractors[..n]) + [if n == 0 then 0.0 else SphereOfInfluenceRadius(m, bs, attractors[n])]
  }

  /** Entry j of the radii is attractor j's sphere-of-influence radius, and 0 for the root. */
  lemma {:induction false} RadiusIs(m: MathFns, bs: seq<Body>, rank: seq<nat>, attractors: seq<nat>, j: nat)
    requires Arena(m, bs, rank) && forall i :: 0 <= i < |attractors| ==> attractors[i] < |bs|
    requires forall i :: 1 <= i < |attractors| ==> bs[attractors[i]].kind == Attractor && bs[attractors[i]].orbit.Some?
    requires j < |attractors|
    ensures Radii(m, bs, rank, attractors)[j] == if j == 0 then 0.0 else SphereOfInfluenceRadius(m, bs, attractors[j])
    decreases |attractors|
  {
    var n := |attractors| - 1;
    if j < n {
      RadiusIs(m, bs, rank, attractors[..n], j);
    }
  }

  /** The attractor update chooses for body x: the closest one whose sphere contains x, or else the root. */
  ghost function Chosen(m: MathFns, bs: seq<Body>, rank: seq<nat>, attractors: seq<nat>, orbiters: seq<nat>, x: nat): (c: nat)
    requires Arena(m, bs, rank) && Lists(bs, attractors, orbiters) && x < |bs|
    ensures c in attractors
  {
    var ds, rs := Distances(m, bs, rank, attractors, x), Radii(m, bs, rank, attractors);
    match Nearest(ds, rs, |attractors|)
    case Some(j) => attractors[j]
    case None => attractors[0]
  }

  /**
   * Two arenas that agree on every global position and on every attractor
   * other than the root and its parent choose the same attractor for x.
   */
  lemma ChosenFrame(m: MathFns, bs: seq<Body>, rank: seq<nat>, bs': seq<Body>, rank': seq<nat>,
                    attractors: seq<nat>, orbiters: seq<nat>, x: nat)
    requires Arena(m, bs, rank) && Lists(bs, attractors, orbiters) && x < |bs|
    requires Arena(m, bs', rank') && Lists(bs', attractors, orbiters) && |bs'| == |bs|
    requires forall k :: 0 <= k < |bs| ==> Global(bs', rank', k, Position) == Global(bs, rank, k, Position)
    requires forall k :: 0 <= k < |bs| && bs[k].kind != Orbiter ==> bs'[k] == bs[k]
    ensures Chosen(m, bs', rank', attractors, orbiters, x) == Chosen(m, bs, rank, attractors, orbiters, x)
  {
    var rs, rs' := Radii(m, bs, rank, attractors), Radii(m, bs', rank', attractors);
    forall j | 0 <= j < |attractors|
      ensures rs'[j] == rs[j]
    {
      RadiusIs(m, bs, rank, attractors, j);
      RadiusIs(m, bs', rank', attractors, j);
      var a := attractors[j];
      assert BodyOk(m, bs, a);
      if bs[a].orbitParent.Some? {
        assert bs'[bs[a].orbitParent.value] == bs[bs[a].orbitParent.value];
      }
      assert ParentMass(bs', a) == ParentMass(bs, a);
    }
    assert rs' == rs;
    var ds, ds' := Distances(m, bs, rank, attractors, x), Distances(m, bs', rank', attractors, x);
    forall j | 0 <= j < |attractors|
      ensures ds'[j] == ds[j]
    {
      DistanceIs(m, bs, rank, attractors, x, j);
      DistanceIs(m, bs', rank', attractors, x, j);
    }
    assert ds' == ds;
  }

  /** An orbiter is nobody's parent. */
  lemma OrbiterIsLeaf(m: MathFns, bs: seq<Body>, rank: seq<nat>, x: nat)
    requires Arena(m, bs, rank) && x < |bs| && bs[x].kind == Orbiter
    ensures forall l :: 0 <= l < |bs| ==> bs[l].orbitParent != Some(x)
  {
    forall l | 0 <= l < |bs|
      ensures bs[l].orbitParent != Some(x)
    {
      assert BodyOk(m, bs, l);
    }
  }

  /** The chosen attractor is a massive non-orbiter, so any orbiter can be attached to it. */
  lemma ChosenAttachable(m: MathFns, bs: seq<Body>, rank: seq<nat>, attractors: seq<nat>, orbiters: seq<nat>, x: nat)
    requires SqrtLaws(m) && Arena(m, bs, rank) && Lists(bs, attractors, orbiters) && x < |bs| && bs[x].kind == Orbiter
    ensures CanAttach(bs, rank, x, Chosen(m, bs, rank, attractors, orbiters, x))
  {
    var ds, rs := Distances(m, bs, rank, attractors, x), Radii(m, bs, rank, attractors);
    var c := Chosen(m, bs, rank, attractors, orbiters, x);
    var n := Nearest(ds, rs, |attractors|);
    if n.Some? {
      var a := attractors[n.value];
      assert BodyOk(m, bs, a);
      DistanceIs(m, bs, rank, attractors, x, n.value);
      RadiusIs(m, bs, rank, attractors, n.value);
      assert 0.0 <= ds[n.value] < rs[n.value];
    }
    OrbiterIsLeaf(m, bs, rank, x);
    LeafHasNoDescendants(bs, rank, x, c);
  }

  /** Listing body k, now on an orbit, by its kind keeps the lists valid when no other body changed. */
  lemma ListsAfterAdd(bs: seq<Body>, bs': seq<Body>, attractors: seq<nat>, orbiters: seq<nat>,
                      attractors': seq<nat>, orbiters': seq<nat>, k: nat)
    requires Lists(bs, attractors, orbiters) && k < |bs| == |bs'|
    requires forall j :: 0 <= j < |bs| && j != k ==> bs'[j] == bs[j]
    requires bs'[k].kind == bs[k].kind && bs'[k].mass == bs[k].mass && bs'[k].orbit.Some?
    requires attractors' == if bs[k].kind == Attractor then attractors + [k] else attractors
    requires orbiters' == if bs[k].kind == Orbiter then orbiters + [k] else orbiters
    ensures Lists(bs', attractors', orbiters')
  {
  }

  /**
   * addCelestialBody as written leaves body k at its coordinates but under
   * the root: it moves from coords plus its old parent's global position to
   * coords plus the root's, so it stays where it was exactly when the old
   * parent and the root are at the same place.
   */
  lemma AddAsWrittenMoves(bs: seq<Body>, rank: seq<nat>, k: nat, root: nat, b: Body, rank': seq<nat>)
    requires Ranked(bs, rank) && k < |bs| && root < |bs| && !Descends(bs, rank, root, k)
    requires b.coords == bs[k].coords && b.orbitParent == Some(root) && Ranked(bs[k := b], rank')
    ensures Global(bs[k := b], rank', k, Position) == bs[k].coords.Add(Global(bs, rank, root, Position))
    ensures bs[k].orbitParent.Some? ==>
              (Global(bs[k := b], rank', k, Position) == Global(bs, rank, k, Position) <==>
               Global(bs, rank, root, Position) == Global(bs, rank, bs[k].orbitParent.value, Position))
  {
    OutsideSubtreeKeepsGlobal(bs, rank, k, b, rank', root, Position);
  }

  /** Giving orbiter x a new orbit, with no other body changed, keeps the lists valid. */
  lemma ListsAfterReattach(bs: seq<Body>, bs': seq<Body>, attractors: seq<nat>, orbiters: seq<nat>, x: nat)
    requires Lists(bs, attractors, orbiters) && x < |bs| == |bs'| && bs[x].kind == Orbiter
    requires forall j :: 0 <= j < |bs| && j != x ==> bs'[j] == bs[j]
    requires bs'[x].kind == Orbiter && bs'[x].orbit.Some?
    ensures Lists(bs', attractors, orbiters)
  {
  }

  /** Every orbit of the arena was built by the orbit constructor. */
  ghost predicate AllBuilt(m: MathFns, bs: seq<Body>) {
    forall k :: 0 <= k < |bs| && bs[k].orbit.Some? ==> Built(m, bs[k].orbit.value)
  }

  /** The first i bodies of order have advanced by dt, in turn, from b0, to bs. */
  ghost predicate AdvancedTo(m: MathFns, bs: seq<Body>, rank: seq<nat>, b0: seq<Body>, rank0: seq<nat>,
                             order: seq<nat>, i: nat, dt: real) {
    && rank == rank0 && Propagates(m) && AllBuilt(m, b0)
    && (forall k :: 0 <= k < |order| ==> order[k] < |b0|) && i <= |order|
    && bs == AdvanceAll(m, b0, order, i, dt)
  }

  /** b' is b but for its position, velocity and time since periapsis. */
  predicate MovedOnly(b: Body, b': Body) {
    && b'.kind == b.kind && b'.name == b.name && b'.colour == b.colour && b'.size == b.size && b'.mass == b.mass
    && b'.orbitParent == b.orbitParent && b'.orbitAnticlockwise == b.orbitAnticlockwise
    && b'.orbit == b.orbit && b'.orbitAttractor == b.orbitAttractor
  }

  /**
   * The bodies after the update step of the first n bodies of order in
   * turn: each advances on its orbit around its parent's mass. Only
   * positions, velocities and times since periapsis change.
   */
  ghost function AdvanceAll(m: MathFns, bs: seq<Body>, order: seq<nat>, n: nat, dt: real): (r: seq<Body>)
    requires Propagates(m) && AllBuilt(m, bs) && n <= |order| && forall k :: 0 <= k < |order| ==> order[k] < |bs|
    ensures |r| == |bs| && AllBuilt(m, r)
  {
    if n == 0 then bs
    else
      var pre := AdvanceAll(m, bs, order, n - 1, dt);
      var x := order[n - 1];
      pre[x := Advance(m, pre[x], ParentMass(pre, x), dt)]
  }

  /** The advancing half of update: every attractor, then every orbiter, in list order. */
  ghost function Advanced(m: MathFns, bs: seq<Body>, attractors: seq<nat>, orbiters: seq<nat>, dt: real): (r: seq<Body>)
    requires Propagates(m) && AllBuilt(m, bs)
    requires (forall j :: 0 <= j < |attractors| ==> attractors[j] < |bs|) && forall o :: 0 <= o < |orbiters| ==> orbiters[o] < |bs|
    ensures |r| == |bs|
  {
    var first := AdvanceAll(m, bs, attractors, |attractors|, dt);
    AdvanceAll(m, first, orbiters, |orbiters|, dt)
  }

  /** Advancing changes nothing but positions, velocities and times since periapsis. */
  lemma {:induction false} AdvanceAllMoves(m: MathFns, bs: seq<Body>, order: seq<nat>, n: nat, dt: real)
    requires Propagates(m) && AllBuilt(m, bs) && n <= |order| && forall k :: 0 <= k < |order| ==> order[k] < |bs|
    ensures var r := AdvanceAll(m, bs, order, n, dt); forall k :: 0 <= k < |bs| ==> MovedOnly(bs[k], r[k])
  {
    if n > 0 {
      AdvanceAllMoves(m, bs, order, n - 1, dt);
    }
  }

  /** Advancing keeps the arena and the lists valid, on the same ranks. */
  lemma AdvanceAllKeeps(m: MathFns, bs: seq<Body>, rank: seq<nat>, attractors: seq<nat>, orbiters: seq<nat>,
                        order: seq<nat>, n: nat, dt: real, r: seq<Body>)
    requires Propagates(m) && Arena(m, bs, rank) && Lists(bs, attractors, orbiters) && AllBuilt(m, bs)
    requires n <= |order| && forall k :: 0 <= k < |order| ==> order[k] < |bs|
    requires r == AdvanceAll(m, bs, order, n, dt)
    ensures Arena(m, r, rank) && Lists(r, attractors, orbiters)
  {
    AdvanceAllMoves(m, bs, order, n, dt);
    forall k | 0 <= k < |r|
      ensures BodyOk(m, r, k)
    {
      assert BodyOk(m, bs, k);
    }
  }

  const SunOptions := BodyOptions(Some("Sun"), Some(600.0), Some(300.0), None, None,
                                  Some(200.0), Some(200.0), Some(100.0), Some(15.0), Some(600.0), None, None)

  class StellarSystem {
    const world: Bodies
    var attractors: seq<nat>
    var orbiters: seq<nat>

    ghost predicate Valid()
      reads this, world
    {
      world.Valid() && Lists(world.bodies, attractors, orbiters)
    }

    /**
     * A system around sun, or around a new default Sun attractor; no orbiters
     * yet. Any sun is taken, but only one that is a massive non-orbiter gives
     * a system the other operations accept (Valid).
     */
    constructor (world: Bodies, sun: Option<nat>)
      requires world.Valid() && SqrtLaws(world.m)
      requires sun.Some? ==> sun.value < |world.bodies|
      modifies world
      ensures this.world == world && world.Valid() && orbiters == []
      ensures sun.None? ==> Valid()
      ensures sun.Some? ==>
                (Valid() <==> old(world.bodies[sun.value].kind) != Orbiter && 0.0 < old(world.bodies[sun.value].mass))
      ensures sun.Some? ==> attractors == [sun.value] && world.bodies == old(world.bodies)
      ensures sun.None? ==>
                && attractors == [old(|world.bodies|)]
                && world.bodies == old(world.bodies) + [FromOptions(Attractor, SunOptions)]
    {
      var root: nat;
      if sun.Some? {
        root := sun.value;
      } else {
        root := world.Append(FromOptions(Attractor, SunOptions));
      }
      this.world := world;
      attractors := [root];
      orbiters := [];
    }

    /**
     * addCelestialBody: an attractor joins the attractors and an orbiter the
     * orbiters, anything else neither list; a body without an orbit is then
     * put on a circle around the root.
     */
    method AddCelestialBody(k: nat)
      requires Valid() && SqrtLaws(world.m) && k < |world.bodies|
      requires world.bodies[k].orbitAttractor.None? ==> CanAttach(world.bodies, world.rank, k, attractors[0])
      modifies this, world
      ensures Valid() && |world.bodies| == old(|world.bodies|)
      ensures old(world.bodies[k].kind) == Attractor ==> attractors == old(attractors) + [k] && orbiters == old(orbiters)
      ensures old(world.bodies[k].kind) == Orbiter ==> orbiters == old(orbiters) + [k] && attractors == old(attractors)
      ensures old(world.bodies[k].kind) == Plain ==> attractors == old(attractors) && orbiters == old(orbiters)
      ensures forall j :: 0 <= j < |world.bodies| && j != k ==> world.bodies[j] == old(world.bodies[j])
      ensures old(world.bodies[k].orbitAttractor).Some? ==> world.bodies == old(world.bodies)
      ensures old(world.bodies[k].orbitAttractor).None? ==>
                var root, b := old(attractors[0]), world.bodies[k];
                && b == old(world.bodies[k]).(orbitParent := Some(root), orbit := b.orbit, orbitAttractor := Some(root))
                && b.orbit.Some? && b.orbit.value.Foci().0 == Global(old(world.bodies), old(world.rank), root, Position)
    {
      var kind := world.bodies[k].kind;
      if kind == Attractor {
        attractors := attractors + [k];
      } else if kind == Orbiter {
        orbiters := orbiters + [k];
      }
      ghost var bs := world.bodies;
      if world.bodies[k].orbitAttractor.None? {
        world.SetInitialOrbit(k, Some(attractors[0]));
      } else {
        assert BodyOk(world.m, world.bodies, k);
      }
      ListsAfterAdd(bs, world.bodies, old(attractors), old(orbiters), attractors, orbiters, k);
    }

    /**
     * addCelestialBody as written: the guard at stellarSystem.js:32 reads
     * orbit.attractor, which the conic an orbit is made of does not have, so
     * it holds for every body, and every body is put on a circle around the
     * root, whatever orbit and parent its constructor gave it.
     */
    method AddCelestialBodyAsWritten(k: nat)
      requires Valid() && SqrtLaws(world.m) && k < |world.bodies|
      requires CanAttach(world.bodies, world.rank, k, attractors[0])
      modifies this, world
      ensures Valid() && |world.bodies| == old(|world.bodies|)
      ensures old(world.bodies[k].kind) == Attractor ==> attractors == old(attractors) + [k] && orbiters == old(orbiters)
      ensures old(world.bodies[k].kind) == Orbiter ==> orbiters == old(orbiters) + [k] && attractors == old(attractors)
      ensures old(world.bodies[k].kind) == Plain ==> attractors == old(attractors) && orbiters == old(orbiters)
      ensures forall j :: 0 <= j < |world.bodies| && j != k ==> world.bodies[j] == old(world.bodies[j])
      ensures var root, b := old(attractors[0]), world.bodies[k];
              && b == old(world.bodies[k]).(orbitParent := Some(root), orbit := b.orbit, orbitAttractor := Some(root))
              && b.orbit.Some? && b.orbit.value.j == b.orbit.value.n == old(world.bodies[k].coords).Mod(world.m)
              && b.orbit.value.Foci().0 == Global(old(world.bodies), old(world.rank), root, Position)
      ensures Global(world.bodies, world.rank, k, Position) ==
              old(world.bodies[k].coords).Add(Global(old(world.bodies), old(world.rank), old(attractors[0]), Position))
    {
      var kind := world.bodies[k].kind;
      if kind == Attractor {
        attractors := attractors + [k];
      } else if kind == Orbiter {
        orbiters := orbiters + [k];
      }
      ghost var bs, rank := world.bodies, world.rank;
      world.SetInitialOrbit(k, Some(attractors[0]));
      assert world.bodies == bs[k := world.bodies[k]];
      AddAsWrittenMoves(bs, rank, k, old(attractors[0]), world.bodies[k], world.rank);
      ListsAfterAdd(bs, world.bodies, old(attractors), old(orbiters), attractors, orbiters, k);
    }

    /**
     * The inner loop of update for body x: the closest attractor after the
     * root whose sphere of influence strictly contains x, the earliest on a
     * tie, and the root when there is none.
     */
    method NearestAttractor(x: nat) returns (c: nat)
      requires Valid() && x < |world.bodies|
      ensures c == Chosen(world.m, world.bodies, world.rank, attractors, orbiters, x)
      ensures unchanged(OrbitsOf(world.bodies))
    {
      var minD: Option<real> := None;
      var closest: Option<nat> := None;
      for j := 1 to |attractors|
        invariant Scanned(x, j, closest, minD)
      {
        closest, minD := Consider(x, j, closest, minD);
      }
      c := if closest.Some? then attractors[closest.value] else attractors[0];
    }

    /**
     * After the attractors before j: closest is the choice among them and
     * minD its distance.
     */
    ghost predicate Scanned(x: nat, j: nat, closest: Option<nat>, minD: Option<real>)
      reads this, world
      requires Valid() && x < |world.bodies| && j <= |attractors|
    {
      var ds := Distances(world.m, world.bodies, world.rank, attractors, x);
      && closest == Nearest(ds, Radii(world.m, world.bodies, world.rank, attractors), j)
      && (closest.Some? <==> minD.Some?)
      && (closest.Some? ==> minD.value == ds[closest.value])
    }

    /** One step of the inner loop: attractor j replaces the closest one so far when x is strictly inside its sphere and strictly closer. */
    method Consider(x: nat, j: nat, closest: Option<nat>, minD: Option<real>) returns (closest': Option<nat>, minD': Option<real>)
      requires Valid() && x < |world.bodies| && 1 <= j < |attractors|
      requires Scanned(x, j, closest, minD)
      ensures Scanned(x, j + 1, closest', minD')
    {
      var a := attractors[j];
      assert BodyOk(world.m, world.bodies, a);
      var r := SphereOfInfluenceRadius(world.m, world.bodies, a);
      var local := world.GetLocalPosition(x, Some(a));
      var d := local.Mod(world.m);
      DistanceIs(world.m, world.bodies, world.rank, attractors, x, j);
      RadiusIs(world.m, world.bodies, world.rank, attractors, j);
      closest', minD' := closest, minD;
      if d < r {
        if minD.None? || d < minD.value {
          minD' := Some(d);
          closest' := Some(j);
        }
      }
    }

    /**
     * update: every attractor, then every orbiter, advances by dt in list
     * order; then each orbiter is re-patched to the attractor chosen for it
     * when that differs from its current one. Re-patching moves nobody, so
     * the choices are those of the advanced state. An orbiter either keeps its
     * advanced state (always so when it already had the chosen attractor) or
     * now goes around the chosen one; an orbiter whose new orbit cannot be
     * determined keeps its advanced state too.
     */
    method Update(dt: real)
      requires Valid() && Propagates(world.m) && AllBuilt(world.m, world.bodies)
      modifies world
      ensures Valid() && |world.bodies| == old(|world.bodies|)
      ensures Evaluated(world.m, world.bodies, world.rank,
                        old(Advanced(world.m, world.bodies, attractors, orbiters, dt)),
                        old(world.rank), attractors, orbiters)
    {
      ghost var s := AdvanceEvery(dt);
      Repatch(s, old(world.rank));
    }

    /** The advancing loops of update: every attractor, then every orbiter, in list order. */
    method AdvanceEvery(dt: real) returns (ghost s: seq<Body>)
      requires Valid() && Propagates(world.m) && AllBuilt(world.m, world.bodies)
      modifies world
      ensures Valid() && world.rank == old(world.rank) && world.bodies == s
      ensures s == old(Advanced(world.m, world.bodies, attractors, orbiters, dt))
    {
      var first, second := attractors, orbiters;
      ghost var b0, rank0 := world.bodies, world.rank;
      AdvanceEach(b0, rank0, first, dt);
      ghost var b1 := world.bodies;
      AdvanceAllKeeps(world.m, b0, rank0, first, second, first, |first|, dt, b1);
      AdvanceEach(b1, rank0, second, dt);
      s := world.bodies;
      AdvanceAllKeeps(world.m, b1, rank0, first, second, second, |second|, dt, s);
    }

    /** One advancing loop: the bodies of list advance in turn from b0. */
    method AdvanceEach(ghost b0: seq<Body>, ghost rank0: seq<nat>, list: seq<nat>, dt: real)
      requires world.Valid() && AdvancedTo(world.m, world.bodies, world.rank, b0, rank0, list, 0, dt)
      modifies world
      ensures world.Valid() && AdvancedTo(world.m, world.bodies, world.rank, b0, rank0, list, |list|, dt)
    {
      for i := 0 to |list|
        invariant world.Valid() && AdvancedTo(world.m, world.bodies, world.rank, b0, rank0, list, i, dt)
      {
        AdvanceStep(b0, rank0, list, i, dt);
      }
    }

    /** One step of an advancing loop: body i of list advances. */
    method AdvanceStep(ghost b0: seq<Body>, ghost rank0: seq<nat>, list: seq<nat>, i: nat, dt: real)
      requires world.Valid() && AdvancedTo(world.m, world.bodies, world.rank, b0, rank0, list, i, dt) && i < |list|
      modifies world
      ensures world.Valid() && AdvancedTo(world.m, world.bodies, world.rank, b0, rank0, list, i + 1, dt)
    {
      world.Update(list[i], dt);
    }

    /** The evaluation loop of update, from the advanced state. */
    method Repatch(ghost s: seq<Body>, ghost rank0: seq<nat>)
      requires Valid() && Propagates(world.m) && world.bodies == s && world.rank == rank0
      modifies world
      ensures Valid()
      ensures Evaluated(world.m, world.bodies, world.rank, s, rank0, attractors, orbiters)
    {
      ghost var cs := ChoicesOf(world.m, s, rank0, attractors, orbiters, |orbiters|);
      for o := 0 to |orbiters|
        invariant Valid() && Repatched(world.m, world.bodies, world.rank, s, rank0, attractors, orbiters, cs, o)
        invariant FociPlaced(world.m, world.bodies, s, rank0, orbiters, cs, o)
      {
        Step(s, rank0, cs, o);
      }
      EvaluatedAll(world.m, world.bodies, world.rank, s, rank0, attractors, orbiters);
    }

    /** One orbiter's evaluation: its chosen attractor, and a re-patch if that is not its current one. */
    method Step(ghost s: seq<Body>, ghost rank0: seq<nat>, ghost cs: seq<nat>, o: nat)
      requires Valid() && Propagates(world.m) && o < |orbiters|
      requires Repatched(world.m, world.bodies, world.rank, s, rank0, attractors, orbiters, cs, o)
      requires FociPlaced(world.m, world.bodies, s, rank0, orbiters, cs, o)
      modifies world
      ensures Valid() && Repatched(world.m, world.bodies, world.rank, s, rank0, attractors, orbiters, cs, o + 1)
      ensures FociPlaced(world.m, world.bodies, s, rank0, orbiters, cs, o + 1)
    {
      var x := orbiters[o];
      ghost var before, rank := world.bodies, world.rank;
      ChoiceKept(world.m, before, rank, s, rank0, attractors, orbiters, cs, o);
      SameChoices(world.m, s, rank0, attractors, orbiters, cs, o);
      var c := NearestAttractor(x);
      ReattachKeeping(x, c, s, rank0, cs, o);
      RepatchStep(world.m, before, rank, world.bodies, world.rank, s, rank0, attractors, orbiters, cs, o);
      FociOneMore(world.m, before, world.bodies, s, rank0, orbiters, cs, o);
    }

    /**
     * Reattach of the o-th orbiter onto its chosen attractor: it leaves every
     * existing orbit where it was, so the foci placed so far stay placed, and
     * the orbiter ends as its outcome from the advanced state says.
     */
    method ReattachKeeping(x: nat, c: nat, ghost s: seq<Body>, ghost rank0: seq<nat>, ghost cs: seq<nat>, ghost o: nat)
      requires Valid() && Propagates(world.m) && x < |world.bodies| && world.bodies[x].kind == Orbiter
      requires CanAttach(world.bodies, world.rank, x, c)
      requires Repatched(world.m, world.bodies, world.rank, s, rank0, attractors, orbiters, cs, o)
      requires FociPlaced(world.m, world.bodies, s, rank0, orbiters, cs, o)
      requires o < |orbiters| && x == orbiters[o] && c == cs[o]
      modifies world
      ensures Valid() && |world.bodies| == old(|world.bodies|)
      ensures FociPlaced(world.m, old(world.bodies), s, rank0, orbiters, cs, o)
      ensures ShapeOutcome(world.m, s, rank0, x, c, world.bodies[x]) && FocusOutcome(world.m, s, rank0, x, c, world.bodies[x])
      ensures forall k :: 0 <= k < |world.bodies| && k != x ==> world.bodies[k] == old(world.bodies[k])
      ensures forall k :: 0 <= k < |world.bodies| ==>
                Global(world.bodies, world.rank, k, Position) == Global(old(world.bodies), old(world.rank), k, Position)
      ensures old(world.bodies[x].orbitAttractor) == Some(c) ==> world.bodies[x] == old(world.bodies[x])
      ensures old(world.bodies[x].orbitAttractor) != Some(c) ==>
                if DeterminableAround(world.m, old(world.bodies), old(world.rank), x, c)
                then RecalculatedAs(world.m, old(world.bodies), old(world.rank), x, c, world.bodies[x])
                else world.bodies[x] == old(world.bodies[x])
    {
      ghost var before, rank := world.bodies, world.rank;
      Reattach(x, c);
      EvaluatedOrbiter(world.m, before, rank, world.bodies, s, rank0, attractors, orbiters, cs, o, x, c);
    }

    /**
     * Orbiter x moves onto attractor c, which can take it, unless c is
     * already its attractor: when an orbit around c can be determined from
     * their relative state, x is recalculated around c; otherwise it stays as
     * it was.
     */
    method Reattach(x: nat, c: nat)
      requires Valid() && Propagates(world.m) && x < |world.bodies| && world.bodies[x].kind == Orbiter
      requires CanAttach(world.bodies, world.rank, x, c)
      modifies world
      ensures Valid() && |world.bodies| == old(|world.bodies|)
      ensures forall k :: 0 <= k < |world.bodies| && k != x ==> world.bodies[k] == old(world.bodies[k])
      ensures forall k :: 0 <= k < |world.bodies| ==>
                Global(world.bodies, world.rank, k, Position) == Global(old(world.bodies), old(world.rank), k, Position)
      ensures unchanged(OrbitsOf(old(world.bodies)))
      ensures old(world.bodies[x].orbitAttractor) == Some(c) ==> world.bodies[x] == old(world.bodies[x])
      ensures old(world.bodies[x].orbitAttractor) != Some(c) ==>
                if DeterminableAround(world.m, old(world.bodies), old(world.rank), x, c)
                then RecalculatedAs(world.m, old(world.bodies), old(world.rank), x, c, world.bodies[x])
                else world.bodies[x] == old(world.bodies[x])
    {
      if Some(c) != world.bodies[x].orbitAttractor {
        var ok := world.RecalculateOrbit(x, Some(c));
        if ok {
          ListsAfterReattach(old(world.bodies), world.bodies, attractors, orbiters, x);
        }
      }
    }
  }

  /** The attractor chosen for each of the first n orbiters in the given state. */
  ghost function ChoicesOf(m: MathFns, bs: seq<Body>, rank: seq<nat>, attractors: seq<nat>, orbiters: seq<nat>, n: nat): (cs: seq<nat>)
    requires Arena(m, bs, rank) && Lists(bs, attractors, orbiters) && n <= |orbiters|
    ensures |cs| == n
  {
    if n == 0 then []
    else ChoicesOf(m, bs, rank, attractors, orbiters, n - 1) + [Chosen(m, bs, rank, attractors, orbiters, orbiters[n - 1])]
  }

  /** Entry o of the choices is the attractor chosen for orbiter o. */
  lemma {:induction false} ChoiceIs(m: MathFns, bs: seq<Body>, rank: seq<nat>, attractors: seq<nat>, orbiters: seq<nat>, n: nat, o: nat)
    requires Arena(m, bs, rank) && Lists(bs, attractors, orbiters) && o < n <= |orbiters|
    ensures ChoicesOf(m, bs, rank, attractors, orbiters, n)[o] == Chosen(m, bs, rank, attractors, orbiters, orbiters[o])
  {
    if o < n - 1 {
      ChoiceIs(m, bs, rank, attractors, orbiters, n - 1, o);
    }
  }

  /**
   * The body b that evaluating orbiter x against attractor c leaves, from
   * the state s: x recalculated around c when c is not its attractor yet and
   * an orbit around c can be determined from their relative state in s;
   * otherwise x as it is in s.
   */
  ghost predicate Outcome(m: MathFns, s: seq<Body>, rank0: seq<nat>, x: nat, c: nat, b: Body)
    reads if b.orbit.Some? then {b.orbit.value} else {}
  {
    ShapeOutcome(m, s, rank0, x, c, b) && FocusOutcome(m, s, rank0, x, c, b)
  }

  /** Outcome is recalculateOrbit's result around c when that re-patch happens, and x as in s otherwise. */
  lemma OutcomeIs(m: MathFns, s: seq<Body>, rank0: seq<nat>, x: nat, c: nat, b: Body)
    requires Ranked(s, rank0) && x < |s| && c < |s| && SqrtLaws(m) && 0.0 < s[c].mass
    ensures Outcome(m, s, rank0, x, c, b) <==>
              if s[x].orbitAttractor != Some(c) && DeterminableAround(m, s, rank0, x, c)
              then RecalculatedAs(m, s, rank0, x, c, b)
              else b == s[x]
  {
  }

  /** Outcome apart from where a new orbit lies. */
  ghost predicate ShapeOutcome(m: MathFns, s: seq<Body>, rank0: seq<nat>, x: nat, c: nat, b: Body) {
    && Ranked(s, rank0) && x < |s| && c < |s| && SqrtLaws(m) && 0.0 < s[c].mass
    && (if s[x].orbitAttractor != Some(c) && DeterminableAround(m, s, rank0, x, c)
        then ShapedAs(m, s, rank0, x, c, b)
        else b == s[x])
  }

  /** Where a new orbit lies: a re-patched orbiter's orbit has its main focus on the attractor. */
  ghost predicate FocusOutcome(m: MathFns, s: seq<Body>, rank0: seq<nat>, x: nat, c: nat, b: Body)
    reads if b.orbit.Some? then {b.orbit.value} else {}
  {
    && Ranked(s, rank0) && x < |s| && c < |s| && SqrtLaws(m) && 0.0 < s[c].mass
    && (s[x].orbitAttractor != Some(c) && DeterminableAround(m, s, rank0, x, c) && b.orbit.Some? ==>
          b.orbit.value.Foci().0 == Global(s, rank0, c, Position))
  }

  /** Bodies outside the first o orbiters are as in s. */
  ghost predicate KeptOutside(bs: seq<Body>, s: seq<Body>, orbiters: seq<nat>, cs: seq<nat>, o: nat) {
    && |bs| == |s| && o <= |orbiters| == |cs|
    && (forall j :: 0 <= j < |orbiters| ==> orbiters[j] < |s|)
    && (forall k :: 0 <= k < |s| && k !in orbiters[..o] ==> bs[k] == s[k])
  }

  /** Each of the first o orbiters has the shape of its outcome from s against its choice. */
  ghost predicate Shapes(m: MathFns, bs: seq<Body>, s: seq<Body>, rank0: seq<nat>, orbiters: seq<nat>, cs: seq<nat>, o: nat) {
    && |bs| == |s| && o <= |orbiters| == |cs|
    && (forall j :: 0 <= j < |orbiters| ==> orbiters[j] < |s|)
    && (forall j :: 0 <= j < o ==> ShapeOutcome(m, s, rank0, orbiters[j], cs[j], bs[orbiters[j]]))
  }

  /** Each of the first o orbiters that was re-patched has its orbit where its outcome puts it. */
  ghost predicate FociPlaced(m: MathFns, bs: seq<Body>, s: seq<Body>, rank0: seq<nat>, orbiters: seq<nat>, cs: seq<nat>, o: nat)
    reads OrbitsOf(bs)
  {
    && |bs| == |s| && o <= |orbiters| == |cs|
    && (forall j :: 0 <= j < |orbiters| ==> orbiters[j] < |s|)
    && (forall j :: 0 <= j < o ==> FocusOutcome(m, s, rank0, orbiters[j], cs[j], bs[orbiters[j]]))
  }

  /** Mid-evaluation, every body that is not an orbiter is still as in s. */
  lemma NonOrbitersKept(bs: seq<Body>, s: seq<Body>, attractors: seq<nat>, orbiters: seq<nat>, cs: seq<nat>, o: nat)
    requires Lists(s, attractors, orbiters) && KeptOutside(bs, s, orbiters, cs, o)
    ensures forall k :: 0 <= k < |s| && s[k].kind != Orbiter ==> bs[k] == s[k]
  {
    forall k | 0 <= k < |s| && s[k].kind != Orbiter
      ensures bs[k] == s[k]
    {
      assert k !in orbiters[..o];
    }
  }

  /**
   * The evaluation loop's invariant, apart from FociPlaced: from the advanced
   * state s, the first o orbiters have been evaluated against the choices cs
   * made in s, nobody has moved, and the arena and the lists are still valid.
   */
  ghost predicate Repatched(m: MathFns, bs: seq<Body>, rank: seq<nat>, s: seq<Body>, rank0: seq<nat>,
                            attractors: seq<nat>, orbiters: seq<nat>, cs: seq<nat>, o: nat)
  {
    && Arena(m, bs, rank) && Lists(bs, attractors, orbiters)
    && Arena(m, s, rank0) && Lists(s, attractors, orbiters) && |bs| == |s|
    && cs == ChoicesOf(m, s, rank0, attractors, orbiters, |orbiters|)
    && (forall k :: 0 <= k < |s| ==> Global(bs, rank, k, Position) == Global(s, rank0, k, Position))
    && KeptOutside(bs, s, orbiters, cs, o) && Shapes(m, bs, s, rank0, orbiters, cs, o)
  }

  /** Mid-evaluation, orbiter o's choice in s is still its choice, and one it can attach to. */
  lemma ChoiceKept(m: MathFns, bs: seq<Body>, rank: seq<nat>, s: seq<Body>, rank0: seq<nat>,
                   attractors: seq<nat>, orbiters: seq<nat>, cs: seq<nat>, o: nat)
    requires Repatched(m, bs, rank, s, rank0, attractors, orbiters, cs, o) && o < |orbiters| && SqrtLaws(m)
    ensures Chosen(m, bs, rank, attractors, orbiters, orbiters[o]) == cs[o]
    ensures CanAttach(bs, rank, orbiters[o], cs[o])
  {
    var x := orbiters[o];
    NonOrbitersKept(bs, s, attractors, orbiters, cs, o);
    ChosenFrame(m, s, rank0, bs, rank, attractors, orbiters, x);
    ChoiceIs(m, s, rank0, attractors, orbiters, |orbiters|, o);
    ChosenAttachable(m, bs, rank, attractors, orbiters, x);
  }

  /**
   * What Reattach promises for orbiter o about the state mid-loop is its
   * outcome from the advanced state s: so far nobody has moved and no
   * non-orbiter has changed, so o and its choice have the same relative
   * state as in s, and an orbiter evaluated before either already has its
   * choice or is still as in s.
   */
  lemma EvaluatedOrbiter(m: MathFns, bs: seq<Body>, rank: seq<nat>, bs': seq<Body>, s: seq<Body>, rank0: seq<nat>,
                         attractors: seq<nat>, orbiters: seq<nat>, cs: seq<nat>, o: nat, x: nat, c: nat)
    requires Repatched(m, bs, rank, s, rank0, attractors, orbiters, cs, o) && o < |orbiters| && SqrtLaws(m)
    requires FociPlaced(m, bs, s, rank0, orbiters, cs, o)
    requires x == orbiters[o] && c == cs[o]
    requires |bs'| == |bs| && CanAttach(bs, rank, x, c)
    requires bs[x].orbitAttractor == Some(c) ==> bs'[x] == bs[x]
    requires bs[x].orbitAttractor != Some(c) ==>
               if DeterminableAround(m, bs, rank, x, c)
               then RecalculatedAs(m, bs, rank, x, c, bs'[x])
               else bs'[x] == bs[x]
    ensures ShapeOutcome(m, s, rank0, x, c, bs'[x]) && FocusOutcome(m, s, rank0, x, c, bs'[x])
  {
    NonOrbitersKept(bs, s, attractors, orbiters, cs, o);
    ChoiceIs(m, s, rank0, attractors, orbiters, |orbiters|, o);
    ChosenAttachable(m, s, rank0, attractors, orbiters, x);
    assert bs[c] == s[c];
    if x in orbiters[..o] {
      var j :| 0 <= j < o && orbiters[j] == x;
      ChoiceIs(m, s, rank0, attractors, orbiters, |orbiters|, j);
      assert ShapeOutcome(m, s, rank0, x, c, bs[x]) && FocusOutcome(m, s, rank0, x, c, bs[x]);
      if bs[x].orbitAttractor == Some(c) {
        return;
      }
    }
    assert bs[x] == s[x];
    if s[x].orbitAttractor != Some(c) {
      GlobalsAgree(m, s, rank0, bs, rank, x, Velocity);
      GlobalsAgree(m, s, rank0, bs, rank, c, Velocity);
      assert LocalTo(bs, rank, x, c, Position) == LocalTo(s, rank0, x, c, Position);
      assert LocalTo(bs, rank, x, c, Velocity) == LocalTo(s, rank0, x, c, Velocity);
    }
  }

  /**
   * Evaluating orbiter o, which re-patches it only when it is not on its
   * chosen attractor, and then either to that attractor or not at all,
   * extends the evaluated prefix by one.
   */
  lemma RepatchStep(m: MathFns, bs: seq<Body>, rank: seq<nat>, bs': seq<Body>, rank': seq<nat>, s: seq<Body>, rank0: seq<nat>,
                    attractors: seq<nat>, orbiters: seq<nat>, cs: seq<nat>, o: nat)
    requires Repatched(m, bs, rank, s, rank0, attractors, orbiters, cs, o) && o < |orbiters|
    requires Arena(m, bs', rank') && Lists(bs', attractors, orbiters)
    requires |bs'| == |bs| && forall k :: 0 <= k < |bs| && k != orbiters[o] ==> bs'[k] == bs[k]
    requires forall k :: 0 <= k < |bs| ==> Global(bs', rank', k, Position) == Global(bs, rank, k, Position)
    requires ShapeOutcome(m, s, rank0, orbiters[o], cs[o], bs'[orbiters[o]])
    ensures Repatched(m, bs', rank', s, rank0, attractors, orbiters, cs, o + 1)
  {
    SameChoices(m, s, rank0, attractors, orbiters, cs, o);
    KeptOneMore(bs, bs', s, orbiters, cs, o);
    ShapesOneMore(m, bs, bs', s, rank0, orbiters, cs, o);
    forall k | 0 <= k < |s|
      ensures Global(bs', rank', k, Position) == Global(s, rank0, k, Position)
    {
      assert Global(bs', rank', k, Position) == Global(bs, rank, k, Position);
    }
  }

  /** An orbiter listed twice has the same choice both times. */
  lemma SameChoices(m: MathFns, s: seq<Body>, rank0: seq<nat>, attractors: seq<nat>, orbiters: seq<nat>, cs: seq<nat>, o: nat)
    requires Arena(m, s, rank0) && Lists(s, attractors, orbiters) && o < |orbiters|
    requires cs == ChoicesOf(m, s, rank0, attractors, orbiters, |orbiters|)
    ensures forall j :: 0 <= j < |orbiters| && orbiters[j] == orbiters[o] ==> cs[j] == cs[o]
  {
    forall j | 0 <= j < |orbiters| && orbiters[j] == orbiters[o]
      ensures cs[j] == cs[o]
    {
      ChoiceIs(m, s, rank0, attractors, orbiters, |orbiters|, j);
      ChoiceIs(m, s, rank0, attractors, orbiters, |orbiters|, o);
    }
  }

  /** Evaluating orbiter o touches no body outside the first o + 1 orbiters. */
  lemma KeptOneMore(bs: seq<Body>, bs': seq<Body>, s: seq<Body>, orbiters: seq<nat>, cs: seq<nat>, o: nat)
    requires KeptOutside(bs, s, orbiters, cs, o) && o < |orbiters|
    requires |bs'| == |bs| && forall k :: 0 <= k < |bs| && k != orbiters[o] ==> bs'[k] == bs[k]
    ensures KeptOutside(bs', s, orbiters, cs, o + 1)
  {
    assert orbiters[..o + 1] == orbiters[..o] + [orbiters[o]];
  }

  /** Orbiter o's shape joins those of the orbiters before it, which it does not touch. */
  lemma ShapesOneMore(m: MathFns, bs: seq<Body>, bs': seq<Body>, s: seq<Body>, rank0: seq<nat>, orbiters: seq<nat>,
                      cs: seq<nat>, o: nat)
    requires Shapes(m, bs, s, rank0, orbiters, cs, o) && o < |orbiters|
    requires forall j :: 0 <= j < |orbiters| && orbiters[j] == orbiters[o] ==> cs[j] == cs[o]
    requires |bs'| == |bs| && forall k :: 0 <= k < |bs| && k != orbiters[o] ==> bs'[k] == bs[k]
    requires ShapeOutcome(m, s, rank0, orbiters[o], cs[o], bs'[orbiters[o]])
    ensures Shapes(m, bs', s, rank0, orbiters, cs, o + 1)
  {
    var x := orbiters[o];
    forall j | 0 <= j < o + 1
      ensures ShapeOutcome(m, s, rank0, orbiters[j], cs[j], bs'[orbiters[j]])
    {
      if orbiters[j] == x {
        assert cs[j] == cs[o];
      } else {
        assert bs'[orbiters[j]] == bs[orbiters[j]];
      }
    }
  }

  /** Orbiter o's orbit joins those of the orbiters before it, which it does not touch. */
  lemma FociOneMore(m: MathFns, bs: seq<Body>, bs': seq<Body>, s: seq<Body>, rank0: seq<nat>, orbiters: seq<nat>,
                    cs: seq<nat>, o: nat)
    requires FociPlaced(m, bs, s, rank0, orbiters, cs, o) && o < |orbiters|
    requires forall j :: 0 <= j < |orbiters| && orbiters[j] == orbiters[o] ==> cs[j] == cs[o]
    requires |bs'| == |bs| && forall k :: 0 <= k < |bs| && k != orbiters[o] ==> bs'[k] == bs[k]
    requires FocusOutcome(m, s, rank0, orbiters[o], cs[o], bs'[orbiters[o]])
    ensures FociPlaced(m, bs', s, rank0, orbiters, cs, o + 1)
  {
    var x := orbiters[o];
    forall j | 0 <= j < o + 1
      ensures FocusOutcome(m, s, rank0, orbiters[j], cs[j], bs'[orbiters[j]])
    {
      if orbiters[j] == x {
        assert cs[j] == cs[o];
      } else {
        assert bs'[orbiters[j]] == bs[orbiters[j]];
      }
    }
  }

  /**
   * The outcome of update's evaluation loop from the advanced state s: the
   * arena and the lists still hold, nobody has moved, every body that is not
   * an orbiter is as in s, and each orbiter is its outcome against the
   * attractor chosen for it in s: recalculated around that attractor when it
   * is not its attractor yet and an orbit around it can be determined, and
   * otherwise as in s.
   */
  ghost predicate Evaluated(m: MathFns, bs: seq<Body>, rank: seq<nat>, s: seq<Body>, rank0: seq<nat>,
                            attractors: seq<nat>, orbiters: seq<nat>)
    reads OrbitsOf(bs)
  {
    && Arena(m, bs, rank) && Lists(bs, attractors, orbiters)
    && Arena(m, s, rank0) && Lists(s, attractors, orbiters) && |bs| == |s|
    && (forall k :: 0 <= k < |s| ==> Global(bs, rank, k, Position) == Global(s, rank0, k, Position))
    && (forall k :: 0 <= k < |s| && k !in orbiters ==> bs[k] == s[k])
    && (forall o :: 0 <= o < |orbiters| ==>
          Outcome(m, s, rank0, orbiters[o], Chosen(m, s, rank0, attractors, orbiters, orbiters[o]), bs[orbiters[o]]))
  }

  /** Once every orbiter has been evaluated: the non-orbiters are unchanged and each orbiter is as its choice says. */
  lemma EvaluatedAll(m: MathFns, bs: seq<Body>, rank: seq<nat>, s: seq<Body>, rank0: seq<nat>,
                     attractors: seq<nat>, orbiters: seq<nat>)
    requires Arena(m, s, rank0) && Lists(s, attractors, orbiters)
    requires Repatched(m, bs, rank, s, rank0, attractors, orbiters, ChoicesOf(m, s, rank0, attractors, orbiters, |orbiters|), |orbiters|)
    requires FociPlaced(m, bs, s, rank0, orbiters, ChoicesOf(m, s, rank0, attractors, orbiters, |orbiters|), |orbiters|)
    ensures Evaluated(m, bs, rank, s, rank0, attractors, orbiters)
  {
    assert orbiters[..|orbiters|] == orbiters;
    forall o | 0 <= o < |orbiters|
      ensures ChoicesOf(m, s, rank0, attractors, orbiters, |orbiters|)[o] == Chosen(m, s, rank0, attractors, orbiters, orbiters[o])
    {
      ChoiceIs(m, s, rank0, attractors, orbiters, |orbiters|, o);
    }
  }
}
