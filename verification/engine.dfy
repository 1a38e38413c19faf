/**
 * The game engine: the frame limiter wrapped around the host's repaint callback, the pass it
 * runs (update every object, then test collisions, then draw), the per-kind object lists with
 * the destruction subscriptions that keep them in step with the renderer, and ring placement.
 *
 * What the engine does to its collaborators is recorded in `trace`, one Effect per call it
 * makes; what the collaborators answer (which objects have an update, which colliders meet,
 * how many indices a mesh has, the canvas client size) is given by a Scene.
 */
module Engine {
  import opened Arrays
  import opened Vectors
  import Renderer

  type ObjId = Renderer.ObjId

  /** Distance along z between consecutive rings of getSomeRings. */
  const RingSpacing: real := 40.0

  // ---------------------------------------------------------------- ring placement

  /** The centre getSomeRings gives ring i of tot: center + ((i - tot/2) * spacing) * [0, 0, 1]. */
  function RingCenter(center: Vec3, tot: int, i: int): Vec3
  {
    Sum(center, Mul((i as real - tot as real / 2.0) * RingSpacing, Vec3(0.0, 0.0, 1.0)))
  }

  /** The centres of the first n rings the generator yields, in order. */
  function RingCentersBefore(center: Vec3, tot: int, n: nat): (rings: seq<Vec3>)
    ensures |rings| == n
    ensures forall i :: 0 <= i < n ==>
      rings[i].x == center.x && rings[i].y == center.y &&
      rings[i].z == center.z + (i as real - tot as real / 2.0) * RingSpacing
  {
    if n == 0 then [] else RingCentersBefore(center, tot, n - 1) + [RingCenter(center, tot, n - 1)]
  }

  /** getSomeRings(center, tot): the centres of the rings the generator yields. */
  function SomeRings(center: Vec3, tot: int): (rings: seq<Vec3>)
    ensures |rings| == if tot < 0 then 0 else tot
    ensures forall i :: 0 <= i < |rings| ==>
      rings[i].x == center.x && rings[i].y == center.y &&
      rings[i].z == center.z + (i as real - tot as real / 2.0) * RingSpacing
    ensures forall i :: 0 < i < |rings| ==> rings[i].z - rings[i - 1].z == RingSpacing
  {
    RingCentersBefore(center, tot, if tot < 0 then 0 else tot)
  }

  // ---------------------------------------------------------------- frame timing

  /** Number of whole frame intervals contained in delta. */
  function Slots(delta: real, interval: real): int
    requires 0.0 < interval
  {
    (delta / interval).Floor
  }

  lemma MulStrictlyMonotonic(a: real, b: real, c: real)
    requires a < b && 0.0 < c
    ensures a * c < b * c
  {
    assert (b - a) * c > 0.0;
  }

  lemma MulSuccessor(k: real, c: real)
    ensures (k + 1.0) * c == k * c + c
  {
  }

  lemma SlotsBounds(delta: real, interval: real)
    requires 0.0 < interval
    ensures Slots(delta, interval) as real * interval <= delta < Slots(delta, interval) as real * interval + interval
  {
    var q := delta / interval;
    var k := Slots(delta, interval) as real;
    assert k <= q < k + 1.0;
    assert q * interval == delta;
    if k < q {
      MulStrictlyMonotonic(k, q, interval);
    }
    MulStrictlyMonotonic(q, k + 1.0, interval);
    assert delta < (k + 1.0) * interval;
    MulSuccessor(k, interval);
    assert delta < k * interval + interval;
  }

  /** The time taken by n back-to-back intervals. */
  function Intervals(n: nat, interval: real): (r: real)
    ensures n == 0 ==> r == 0.0
    ensures 0.0 <= interval ==> 0.0 <= r
  {
    if n == 0 then 0.0 else Intervals(n - 1, interval) + interval
  }

  lemma {:induction false} IntervalsProduct(n: nat, interval: real)
    ensures Intervals(n, interval) == n as real * interval
  {
    if n > 0 {
      IntervalsProduct(n - 1, interval);
      MulSuccessor((n - 1) as real, interval);
    }
  }

  lemma {:induction false} IntervalsAdd(m: nat, k: nat, interval: real)
    ensures Intervals(m + k, interval) == Intervals(m, interval) + k as real * interval
  {
    if k == 0 {
    } else {
      IntervalsAdd(m, k - 1, interval);
      MulSuccessor((k - 1) as real, interval);
    }
  }

  lemma {:induction false} IntervalsMonotonic(m: nat, n: nat, interval: real)
    requires m <= n && 0.0 <= interval
    ensures Intervals(m, interval) <= Intervals(n, interval)
  {
    if m < n {
      IntervalsMonotonic(m, n - 1, interval);
    }
  }

  /** `delta % interval` for positive operands: what is left of delta after taking out every whole interval. */
  function Remainder(delta: real, interval: real): (r: real)
    requires 0.0 <= delta && 0.0 < interval
    ensures 0.0 <= r < interval
    ensures r <= delta
  {
    SlotsBounds(delta, interval);
    delta - interval * (Slots(delta, interval) as real)
  }

  /** The new `then` of a stepping frameLoop call: `now - (delta % frameInterval)`. */
  function NextThen(thenTime: real, now: real, interval: real): (r: real)
    requires 0.0 < interval < now - thenTime
    ensures thenTime < r <= now
    ensures now - r < interval
    ensures 1 <= Slots(now - thenTime, interval)
    ensures r == thenTime + Slots(now - thenTime, interval) as real * interval
  {
    SlotsBounds(now - thenTime, interval);
    now - Remainder(now - thenTime, interval)
  }

  // ---------------------------------------------------------------- what one pass does

  /** One call the engine makes on a collaborator. */
  datatype Effect =
    | FrameRequested                      // window.requestAnimationFrame(wrapperCallback)
    | Updated(obj: ObjId)                 // obj.update()
    | CameraUpdated                       // webGlManager.camera.update()
    | RingCollided(ring: ObjId)           // spaceship.onRingCollided(ring)
    | AsteroidCollided(asteroid: ObjId)   // spaceship.onAsteroidCollided(asteroid)
    | SpaceshipCollided(obj: ObjId)       // obj.onSpaceshipCollided(spaceship)
    | Drawn                               // webGlManager.draw()

  predicate IsHook(e: Effect)
  {
    e.RingCollided? || e.AsteroidCollided? || e.SpaceshipCollided?
  }

  /** Where an effect belongs in a pass: updates, then the camera, then collision hooks, then the draw. */
  function Phase(e: Effect): nat
  {
    match e
    case Updated(_) => 0
    case CameraUpdated => 1
    case RingCollided(_) => 2
    case AsteroidCollided(_) => 2
    case SpaceshipCollided(_) => 2
    case Drawn => 3
    case FrameRequested => 4
  }

  predicate PhaseOrdered(events: seq<Effect>)
  {
    forall i, j :: 0 <= i < j < |events| ==> Phase(events[i]) <= Phase(events[j])
  }

  /** The two kinds of object collisions are checked for. */
  datatype Kind = RingKind | AsteroidKind

  /** The spaceship's hook for an object of this kind. */
  function SpaceshipHook(kind: Kind, obj: ObjId): Effect
  {
    match kind
    case RingKind => RingCollided(obj)
    case AsteroidKind => AsteroidCollided(obj)
  }

  /** What the collaborators answer during one pass. */
  datatype Scene = Scene(
    hasUpdate: ObjId -> bool,       // the object defines update()
    hitsRing: ObjId -> bool,        // spaceship.collider.intersectWithCircle(ring.collider)
    hitsAsteroid: ObjId -> bool,    // spaceship.collider.intersectWithSphere(asteroid.collider)
    indexCount: ObjId -> nat,       // obj.indices.length
    clientWidth: int,               // canvas.clientWidth
    clientHeight: int)              // canvas.clientHeight

  /** The engine's object lists. */
  datatype Population = Population(
    spaceship: ObjId,
    asteroids: seq<ObjId>,
    rings: seq<ObjId>,
    cubes: seq<ObjId>,
    terrains: seq<ObjId>)

  /** The flattened list #updateGameObjets walks. */
  function UpdateOrder(p: Population): (objs: seq<ObjId>)
    ensures |objs| == |p.asteroids| + |p.rings| + |p.cubes| + 1 + |p.terrains|
    ensures forall o :: o in objs <==>
      o in p.asteroids || o in p.rings || o in p.cubes || o == p.spaceship || o in p.terrains
  {
    p.asteroids + p.rings + p.cubes + [p.spaceship] + p.terrains
  }

  /** The update calls made while walking objs: one per object that has an update, in list order. */
  function UpdateEvents(objs: seq<ObjId>, hasUpdate: ObjId -> bool): (events: seq<Effect>)
    ensures |events| <= |objs|
    ensures forall e :: e in events ==> e.Updated?
  {
    if objs == [] then []
    else
      var last := objs[|objs| - 1];
      UpdateEvents(objs[..|objs| - 1], hasUpdate) + if hasUpdate(last) then [Updated(last)] else []
  }

  /** Exactly the objects of objs that have an update are updated. */
  lemma {:induction false} UpdateEventsMembers(objs: seq<ObjId>, hasUpdate: ObjId -> bool, o: ObjId)
    ensures Updated(o) in UpdateEvents(objs, hasUpdate) <==> o in objs && hasUpdate(o)
  {
    if objs != [] {
      var init := objs[..|objs| - 1];
      assert objs == init + [objs[|objs| - 1]];
      UpdateEventsMembers(init, hasUpdate, o);
    }
  }

  lemma {:induction false} UpdateEventsAppend(a: seq<ObjId>, b: seq<ObjId>, hasUpdate: ObjId -> bool)
    ensures UpdateEvents(a + b, hasUpdate) == UpdateEvents(a, hasUpdate) + UpdateEvents(b, hasUpdate)
  {
    if b == [] {
      assert a + b == a;
    } else {
      var b' := b[..|b| - 1];
      assert (a + b)[..|a + b| - 1] == a + b';
      assert (a + b)[|a + b| - 1] == b[|b| - 1];
      UpdateEventsAppend(a, b', hasUpdate);
    }
  }

  /** #updateGameObjets: every object that has an update, then the camera. */
  function UpdatePass(p: Population, hasUpdate: ObjId -> bool): (events: seq<Effect>)
    ensures |events| >= 1 && events[|events| - 1] == CameraUpdated
    ensures forall k :: 0 <= k < |events| - 1 ==> events[k].Updated?
  {
    UpdateEvents(UpdateOrder(p), hasUpdate) + [CameraUpdated]
  }

  /** Objects are updated kind by kind: asteroids, rings, cubes, the spaceship, terrains; the camera last. */
  lemma UpdatePassOrder(p: Population, hasUpdate: ObjId -> bool)
    ensures UpdatePass(p, hasUpdate) ==
      UpdateEvents(p.asteroids, hasUpdate) + UpdateEvents(p.rings, hasUpdate) + UpdateEvents(p.cubes, hasUpdate) +
      UpdateEvents([p.spaceship], hasUpdate) + UpdateEvents(p.terrains, hasUpdate) + [CameraUpdated]
  {
    var h := hasUpdate;
    UpdateEventsAppend(p.asteroids, p.rings, h);
    UpdateEventsAppend(p.asteroids + p.rings, p.cubes, h);
    UpdateEventsAppend(p.asteroids + p.rings + p.cubes, [p.spaceship], h);
    UpdateEventsAppend(p.asteroids + p.rings + p.cubes + [p.spaceship], p.terrains, h);
  }

  /** The objects of objs the spaceship meets, in list order. */
  function Hits(objs: seq<ObjId>, hits: ObjId -> bool): (r: seq<ObjId>)
    ensures |r| <= |objs|
    ensures forall o :: o in r <==> o in objs && hits(o)
  {
    if objs == [] then []
    else
      var last := objs[|objs| - 1];
      assert objs == objs[..|objs| - 1] + [last];
      Hits(objs[..|objs| - 1], hits) + if hits(last) then [last] else []
  }

  /** Walking two lists one after the other meets the objects of the first, then those of the second. */
  lemma {:induction false} HitsAppend(a: seq<ObjId>, b: seq<ObjId>, hits: ObjId -> bool)
    ensures Hits(a + b, hits) == Hits(a, hits) + Hits(b, hits)
  {
    if b == [] {
      assert a + b == a;
    } else {
      var b' := b[..|b| - 1];
      assert (a + b)[..|a + b| - 1] == a + b';
      assert (a + b)[|a + b| - 1] == b[|b| - 1];
      HitsAppend(a, b', hits);
    }
  }

  /** When every listed object is met, all of them are met, in list order and as often as listed. */
  lemma {:induction false} HitsAll(objs: seq<ObjId>, hits: ObjId -> bool)
    requires forall o :: o in objs ==> hits(o)
    ensures Hits(objs, hits) == objs
  {
    if objs != [] {
      var init := objs[..|objs| - 1];
      assert objs == init + [objs[|objs| - 1]];
      HitsAll(init, hits);
    }
  }

  /** The hooks fired while walking objs: for each object met, the spaceship's hook, then the object's. */
  function Collisions(objs: seq<ObjId>, hits: ObjId -> bool, kind: Kind): (events: seq<Effect>)
    ensures forall e :: e in events ==> IsHook(e)
  {
    if objs == [] then []
    else
      var last := objs[|objs| - 1];
      Collisions(objs[..|objs| - 1], hits, kind) +
        if hits(last) then [SpaceshipHook(kind, last), SpaceshipCollided(last)] else []
  }

  /** Hooks come in pairs, one pair per object met, in list order, the spaceship's hook first. */
  lemma {:induction false} CollisionsPaired(objs: seq<ObjId>, hits: ObjId -> bool, kind: Kind)
    ensures |Collisions(objs, hits, kind)| == 2 * |Hits(objs, hits)|
    ensures forall j :: 0 <= j < |Hits(objs, hits)| ==>
      Collisions(objs, hits, kind)[2 * j] == SpaceshipHook(kind, Hits(objs, hits)[j]) &&
      Collisions(objs, hits, kind)[2 * j + 1] == SpaceshipCollided(Hits(objs, hits)[j])
  {
    if objs != [] {
      CollisionsPaired(objs[..|objs| - 1], hits, kind);
    }
  }

  /** #checkCollisions: rings in list order, then asteroids in list order. */
  function CollisionPass(p: Population, scene: Scene): (events: seq<Effect>)
    ensures forall e :: e in events ==> IsHook(e)
    ensures |events| == 2 * (|Hits(p.rings, scene.hitsRing)| + |Hits(p.asteroids, scene.hitsAsteroid)|)
  {
    CollisionsPaired(p.rings, scene.hitsRing, RingKind);
    CollisionsPaired(p.asteroids, scene.hitsAsteroid, AsteroidKind);
    Collisions(p.rings, scene.hitsRing, RingKind) + Collisions(p.asteroids, scene.hitsAsteroid, AsteroidKind)
  }

  /** #gameLoop: update, check collisions, draw. */
  function PassEvents(p: Population, scene: Scene): (events: seq<Effect>)
    ensures |events| >= 2 && events[|events| - 1] == Drawn && CameraUpdated in events
    ensures FrameRequested !in events
  {
    UpdatePass(p, scene.hasUpdate) + CollisionPass(p, scene) + [Drawn]
  }

  /** The phase found at position k of updates + [camera] + hooks + [draw], with nu updates and nh hooks. */
  function Band(k: nat, nu: nat, nh: nat): nat
  {
    if k < nu then 0 else if k == nu then 1 else if k <= nu + nh then 2 else 3
  }

  /** A trace laid out as updates, the camera, hooks and the draw is in phase order. */
  lemma BlocksOrdered(u: seq<Effect>, c: seq<Effect>)
    requires forall e :: e in u ==> e.Updated?
    requires forall e :: e in c ==> IsHook(e)
    ensures PhaseOrdered(u + [CameraUpdated] + c + [Drawn])
  {
    var e := u + [CameraUpdated] + c + [Drawn];
    forall k | 0 <= k < |e|
      ensures Phase(e[k]) == Band(k, |u|, |c|)
    {
      if k < |u| {
        assert e[k] == u[k] && u[k] in u;
      } else if |u| < k <= |u| + |c| {
        assert e[k] == c[k - |u| - 1] && c[k - |u| - 1] in c;
      }
    }
  }

  /** Updates, the camera, hooks and the draw: one camera update, one draw, no frame request. */
  lemma BlocksCounts(u: seq<Effect>, c: seq<Effect>)
    requires forall e :: e in u ==> e.Updated?
    requires forall e :: e in c ==> IsHook(e)
    ensures multiset(u + [CameraUpdated] + c + [Drawn])[Drawn] == 1
    ensures multiset(u + [CameraUpdated] + c + [Drawn])[CameraUpdated] == 1
    ensures multiset(u + [CameraUpdated] + c + [Drawn])[FrameRequested] == 0
  {
    assert Drawn !in u && Drawn !in c;
    assert CameraUpdated !in u && CameraUpdated !in c;
    assert FrameRequested !in u && FrameRequested !in c;
  }

  /** A pass is the update walk, the camera, the collision walk and the draw, in that order. */
  lemma PassLayout(p: Population, scene: Scene)
    ensures PassEvents(p, scene) ==
      UpdateEvents(UpdateOrder(p), scene.hasUpdate) + [CameraUpdated] + CollisionPass(p, scene) + [Drawn]
  {
  }

  /** A pass holds exactly one draw and one camera update, and requests no frame. */
  lemma PassCounts(p: Population, scene: Scene)
    ensures multiset(PassEvents(p, scene))[Drawn] == 1
    ensures multiset(PassEvents(p, scene))[CameraUpdated] == 1
    ensures multiset(PassEvents(p, scene))[FrameRequested] == 0
  {
    PassLayout(p, scene);
    BlocksCounts(UpdateEvents(UpdateOrder(p), scene.hasUpdate), CollisionPass(p, scene));
  }

  /** Appending one pass to a trace adds exactly one Drawn to it. */
  lemma PassAddsOneDraw(t: seq<Effect>, p: Population, scene: Scene)
    ensures multiset(t + PassEvents(p, scene))[Drawn] == multiset(t)[Drawn] + 1
  {
    PassCounts(p, scene);
  }

  /** A pass keeps its order: every update before the camera, the camera before every hook, every hook before the draw, which closes it. */
  lemma PassOrdered(p: Population, scene: Scene)
    ensures PhaseOrdered(PassEvents(p, scene))
    ensures PassEvents(p, scene)[|PassEvents(p, scene)| - 1] == Drawn
  {
    PassLayout(p, scene);
    BlocksOrdered(UpdateEvents(UpdateOrder(p), scene.hasUpdate), CollisionPass(p, scene));
  }

  // ---------------------------------------------------------------- destruction subscriptions

  /** A closure subscribed to an object's `destroyed` event. */
  datatype Subscriber =
    | DestroyInRenderer     // gameObject => webGlManager.destroy(gameObject)   (#instantiate)
    | RemoveFromRings       // r => #removeItem(#rings, r)                      (#instantiateRing)
    | RemoveFromAsteroids   // ast => #removeItem(#asteroids, ast)              (#instantiateAsteroid)

  /** The three lists a destruction can touch. */
  datatype Registry = Registry(live: seq<ObjId>, rings: seq<ObjId>, asteroids: seq<ObjId>)

  /** #removeItem: drop the first occurrence of value, if there is one. */
  function RemoveItem<T(==)>(arr: seq<T>, value: T): (r: seq<T>)
    ensures value !in arr ==> r == arr
    ensures value in arr ==>
      var i := IndexOf(arr, value);
      arr[i] == value && value !in arr[..i] && r == arr[..i] + arr[i + 1..]
    ensures value in arr ==> multiset(r) == multiset(arr) - multiset{value} && |r| == |arr| - 1
    ensures multiset(r) <= multiset(arr)
  {
    var index := IndexOf(arr, value);
    if index > -1 then
      assert arr == arr[..index] + [value] + arr[index + 1..];
      SpliceOne(arr, index)
    else arr
  }

  /** #removeItem and the renderer's destroy agree on present objects; on absent ones only #removeItem is a no-op. */
  lemma RemoveItemVersusDestroy(arr: seq<ObjId>, value: ObjId)
    ensures value in arr ==> RemoveItem(arr, value) == Renderer.Destroyed(arr, value)
    ensures value !in arr && arr != [] ==> RemoveItem(arr, value) != Renderer.Destroyed(arr, value)
  {
    if value !in arr && arr != [] {
      assert |Renderer.Destroyed(arr, value)| == |arr| - 1;
    }
  }

  /** What one subscriber does when obj is destroyed. */
  function Notified(sub: Subscriber, obj: ObjId, reg: Registry): (r: Registry)
    ensures sub != DestroyInRenderer ==> r.live == reg.live
    ensures sub != RemoveFromRings ==> r.rings == reg.rings
    ensures sub != RemoveFromAsteroids ==> r.asteroids == reg.asteroids
  {
    match sub
    case DestroyInRenderer => reg.(live := Renderer.Destroyed(reg.live, obj))
    case RemoveFromRings => reg.(rings := RemoveItem(reg.rings, obj))
    case RemoveFromAsteroids => reg.(asteroids := RemoveItem(reg.asteroids, obj))
  }

  /** Every subscriber called in subscription order. */
  function NotifyAll(subs: seq<Subscriber>, obj: ObjId, reg: Registry): Registry
  {
    if subs == [] then reg
    else Notified(subs[|subs| - 1], obj, NotifyAll(subs[..|subs| - 1], obj, reg))
  }

  /** Whatever is subscribed, firing `destroyed` never adds to a list, and a list nobody subscribed to stays as it was. */
  lemma {:induction false} NotifyAllNeverAdds(subs: seq<Subscriber>, obj: ObjId, reg: Registry)
    ensures var r := NotifyAll(subs, obj, reg);
      && multiset(r.live) <= multiset(reg.live)
      && multiset(r.rings) <= multiset(reg.rings)
      && multiset(r.asteroids) <= multiset(reg.asteroids)
    ensures DestroyInRenderer !in subs ==> NotifyAll(subs, obj, reg).live == reg.live
    ensures RemoveFromRings !in subs ==> NotifyAll(subs, obj, reg).rings == reg.rings
    ensures RemoveFromAsteroids !in subs ==> NotifyAll(subs, obj, reg).asteroids == reg.asteroids
  {
    if subs != [] {
      var init := subs[..|subs| - 1];
      assert subs == init + [subs[|subs| - 1]];
      NotifyAllNeverAdds(init, obj, reg);
    }
  }

  /**
   * When each kind of subscriber is subscribed at most once, firing `destroyed` touches each
   * subscribed list exactly once and leaves the others alone, whatever the order.
   */
  lemma {:induction false} NotifyAllOnce(subs: seq<Subscriber>, obj: ObjId, reg: Registry)
    requires forall i, j :: 0 <= i < j < |subs| ==> subs[i] != subs[j]
    ensures NotifyAll(subs, obj, reg).live ==
      if DestroyInRenderer in subs then Renderer.Destroyed(reg.live, obj) else reg.live
    ensures NotifyAll(subs, obj, reg).rings ==
      if RemoveFromRings in subs then RemoveItem(reg.rings, obj) else reg.rings
    ensures NotifyAll(subs, obj, reg).asteroids ==
      if RemoveFromAsteroids in subs then RemoveItem(reg.asteroids, obj) else reg.asteroids
  {
    if subs != [] {
      var init := subs[..|subs| - 1];
      var last := subs[|subs| - 1];
      assert subs == init + [last];
      assert last !in init;
      NotifyAllOnce(init, obj, reg);
      var mid := NotifyAll(init, obj, reg);
      assert NotifyAll(subs, obj, reg) == Notified(last, obj, mid);
      forall s: Subscriber ensures s in subs <==> s in init || s == last {
      }
    }
  }

  /** Two subscribers run one after the other. */
  lemma NotifyPair(first: Subscriber, second: Subscriber, obj: ObjId, reg: Registry)
    ensures NotifyAll([first, second], obj, reg) == Notified(second, obj, Notified(first, obj, reg))
  {
    var two := [first, second];
    assert two[..1] == [first] && [first][..0] == [];
    assert NotifyAll([first], obj, reg) == Notified(first, obj, reg);
    assert NotifyAll(two, obj, reg) == Notified(second, obj, NotifyAll([first], obj, reg));
  }

  /** A ring registered through #instantiateRing leaves the renderer's list and #rings once each when destroyed. */
  lemma DestroyedRingLeavesBothLists(ring: ObjId, reg: Registry)
    requires ring in reg.live && ring in reg.rings
    ensures var r := NotifyAll([DestroyInRenderer, RemoveFromRings], ring, reg);
      multiset(r.live) == multiset(reg.live) - multiset{ring} &&
      multiset(r.rings) == multiset(reg.rings) - multiset{ring} &&
      r.asteroids == reg.asteroids
  {
    NotifyPair(DestroyInRenderer, RemoveFromRings, ring, reg);
    var mid := Notified(DestroyInRenderer, ring, reg);
    assert mid == reg.(live := Renderer.Destroyed(reg.live, ring));
    assert Notified(RemoveFromRings, ring, mid) == mid.(rings := RemoveItem(reg.rings, ring));
  }

  /** The same for an asteroid registered through #instantiateAsteroid. */
  lemma DestroyedAsteroidLeavesBothLists(asteroid: ObjId, reg: Registry)
    requires asteroid in reg.live && asteroid in reg.asteroids
    ensures var r := NotifyAll([DestroyInRenderer, RemoveFromAsteroids], asteroid, reg);
      multiset(r.live) == multiset(reg.live) - multiset{asteroid} &&
      multiset(r.asteroids) == multiset(reg.asteroids) - multiset{asteroid} &&
      r.rings == reg.rings
  {
    NotifyPair(DestroyInRenderer, RemoveFromAsteroids, asteroid, reg);
    var mid := Notified(DestroyInRenderer, asteroid, reg);
    assert mid == reg.(live := Renderer.Destroyed(reg.live, asteroid));
    assert Notified(RemoveFromAsteroids, asteroid, mid) == mid.(asteroids := RemoveItem(reg.asteroids, asteroid));
  }

  // ---------------------------------------------------------------- the engine object

  class GameEngine {
    const manager: Renderer.WebGlManager
    /** 1000 / fpsLimit milliseconds. */
    const frameInterval: real
    /** #then: the reference time of the frame limiter. */
    var thenTime: real
    /** #frameCount: passes run so far. */
    var frameCount: nat
    /** setup() has run, so #then holds a time. */
    var started: bool

    var spaceship: ObjId
    var asteroids: seq<ObjId>
    var rings: seq<ObjId>
    var cubes: seq<ObjId>
    var terrains: seq<ObjId>

    /** The closures subscribed to each object's `destroyed` event, in subscription order. */
    var subscribers: map<ObjId, seq<Subscriber>>
    /** Every call made on a collaborator, oldest first. */
    var trace: seq<Effect>

    /** The time setup() stored in #then. */
    ghost var startTime: real
    /** Whole frame intervals #then has advanced since startTime. */
    ghost var elapsedFrames: nat

    ghost predicate Valid()
      reads this
    {
      && 0.0 < frameInterval
      && DrawsCounted()
      && ClockValid()
    }

    /** #frameCount is the number of passes that reached the draw call. */
    ghost predicate DrawsCounted()
      reads this`trace, this`frameCount
    {
      multiset(trace)[Drawn] == frameCount
    }

    /** #then sits a whole number of frame intervals after the start, and no more passes ran than intervals went by. */
    ghost predicate ClockValid()
      reads this`started, this`thenTime, this`startTime, this`elapsedFrames, this`frameCount
    {
      && (started ==> thenTime == startTime + Intervals(elapsedFrames, frameInterval) && frameCount <= elapsedFrames)
      && (!started ==> frameCount == 0)
    }

    /** The five lists of game objects the engine owns. */
    function Objects(): Population
      reads this`spaceship, this`asteroids, this`rings, this`cubes, this`terrains
    {
      Population(spaceship, asteroids, rings, cubes, terrains)
    }

    /** The three lists a `destroyed` subscriber can remove an object from. */
    function Lists(): Registry
      reads this, manager
    {
      Registry(manager.objects, rings, asteroids)
    }

    function SubscribersOf(obj: ObjId): seq<Subscriber>
      reads this
    {
      if obj in subscribers then subscribers[obj] else []
    }

    /** The constructor, with the spaceship setup() creates and registers. */
    constructor (manager: Renderer.WebGlManager, fpsLimit: real, ship: ObjId)
      requires 0.0 < fpsLimit
      modifies manager`objects
      ensures Valid() && !started
      ensures this.manager == manager && frameInterval == 1000.0 / fpsLimit && frameCount == 0
      ensures Objects() == Population(ship, [], [], [], [])
      ensures subscribers == map[ship := [DestroyInRenderer]]
      ensures trace == []
      ensures manager.objects == old(manager.objects) + [ship]
    {
      this.manager := manager;
      frameInterval := 1000.0 / fpsLimit;
      frameCount := 0;
      started := false;
      thenTime := 0.0;
      spaceship := ship;
      asteroids, rings, cubes, terrains := [], [], [], [];
      subscribers := map[];
      trace := [];
      startTime, elapsedFrames := 0.0, 0;
      new;
      Instantiate(ship);
      assert [] + [DestroyInRenderer] == [DestroyInRenderer];
    }

    /** #instantiate: subscribe the renderer's destroy, then make the object live. */
    method Instantiate(obj: ObjId)
      modifies this`subscribers, manager`objects
      ensures subscribers == old(subscribers)[obj := old(SubscribersOf(obj)) + [DestroyInRenderer]]
      ensures manager.objects == old(manager.objects) + [obj]
    {
      subscribers := subscribers[obj := SubscribersOf(obj) + [DestroyInRenderer]];
      manager.Instantiate(obj);
    }

    /** #instantiateRing: #instantiate, then subscribe removal from #rings. */
    method InstantiateRing(ring: ObjId)
      modifies this`subscribers, manager`objects
      ensures subscribers == old(subscribers)[ring := old(SubscribersOf(ring)) + [DestroyInRenderer, RemoveFromRings]]
      ensures manager.objects == old(manager.objects) + [ring]
    {
      ghost var before := old(SubscribersOf(ring));
      Instantiate(ring);
      subscribers := subscribers[ring := SubscribersOf(ring) + [RemoveFromRings]];
      assert before + [DestroyInRenderer] + [RemoveFromRings] == before + [DestroyInRenderer, RemoveFromRings];
    }

    /** #instantiateAsteroid: #instantiate, then subscribe removal from #asteroids. */
    method InstantiateAsteroid(asteroid: ObjId)
      modifies this`subscribers, manager`objects
      ensures subscribers == old(subscribers)[asteroid := old(SubscribersOf(asteroid)) + [DestroyInRenderer, RemoveFromAsteroids]]
      ensures manager.objects == old(manager.objects) + [asteroid]
    {
      ghost var before := old(SubscribersOf(asteroid));
      Instantiate(asteroid);
      subscribers := subscribers[asteroid := SubscribersOf(asteroid) + [RemoveFromAsteroids]];
      assert before + [DestroyInRenderer] + [RemoveFromAsteroids] == before + [DestroyInRenderer, RemoveFromAsteroids];
    }

    /** setup(), per ring of getSomeRings: push it on #rings, then #instantiateRing. */
    method AddRing(ring: ObjId)
      modifies this`rings, this`subscribers, manager`objects
      ensures rings == old(rings) + [ring]
      ensures subscribers == old(subscribers)[ring := old(SubscribersOf(ring)) + [DestroyInRenderer, RemoveFromRings]]
      ensures manager.objects == old(manager.objects) + [ring]
    {
      rings := rings + [ring];
      InstantiateRing(ring);
    }

    /** #createAsteroids, per asteroid: #instantiateAsteroid, then push it on #asteroids. */
    method AddAsteroid(asteroid: ObjId)
      modifies this`asteroids, this`subscribers, manager`objects
      ensures asteroids == old(asteroids) + [asteroid]
      ensures subscribers == old(subscribers)[asteroid := old(SubscribersOf(asteroid)) + [DestroyInRenderer, RemoveFromAsteroids]]
      ensures manager.objects == old(manager.objects) + [asteroid]
    {
      InstantiateAsteroid(asteroid);
      asteroids := asteroids + [asteroid];
    }

    /** #createTerrainChunks, per chunk: straight into the renderer, with no subscription, then push on #terrains. */
    method AddTerrain(terrain: ObjId)
      modifies this`terrains, manager`objects
      ensures terrains == old(terrains) + [terrain]
      ensures manager.objects == old(manager.objects) + [terrain]
    {
      manager.Instantiate(terrain);
      terrains := terrains + [terrain];
    }

    /** setup(): `#cubes[0] = new Cube()`, then #instantiate. */
    method SetFirstCube(cube: ObjId)
      modifies this`cubes, this`subscribers, manager`objects
      ensures cubes == if old(cubes) == [] then [cube] else old(cubes)[0 := cube]
      ensures subscribers == old(subscribers)[cube := old(SubscribersOf(cube)) + [DestroyInRenderer]]
      ensures manager.objects == old(manager.objects) + [cube]
    {
      cubes := if cubes == [] then [cube] else cubes[0 := cube];
      Instantiate(cube);
    }

    /** An object fires its `destroyed` event: its subscribers run in subscription order. */
    method EmitDestroyed(obj: ObjId)
      modifies this`rings, this`asteroids, manager`objects
      ensures Lists() == NotifyAll(old(SubscribersOf(obj)), obj, old(Lists()))
    {
      var subs := SubscribersOf(obj);
      var i := 0;
      while i < |subs|
        invariant 0 <= i <= |subs|
        invariant Lists() == NotifyAll(subs[..i], obj, old(Lists()))
      {
        assert subs[..i + 1][..i] == subs[..i];
        RunSubscriber(subs[i], obj);
        i := i + 1;
      }
      assert subs[..i] == subs;
    }

    /** One subscriber callback: the renderer's destroy, or #removeItem on the rings or asteroids list. */
    method RunSubscriber(sub: Subscriber, obj: ObjId)
      modifies this`rings, this`asteroids, manager`objects
      ensures Lists() == Notified(sub, obj, old(Lists()))
    {
      match sub {
        case DestroyInRenderer => manager.Destroy(obj);
        case RemoveFromRings => rings := RemoveItem(rings, obj);
        case RemoveFromAsteroids => asteroids := RemoveItem(asteroids, obj);
      }
    }

    /** #updateGameObjets. */
    method UpdateGameObjects(scene: Scene)
      modifies this`trace
      ensures trace == old(trace) + UpdatePass(Objects(), scene.hasUpdate)
    {
      var gameObjectList := UpdateOrder(Objects());
      var i := 0;
      while i < |gameObjectList|
        invariant 0 <= i <= |gameObjectList|
        invariant trace == old(trace) + UpdateEvents(gameObjectList[..i], scene.hasUpdate)
      {
        var gameObject := gameObjectList[i];
        assert gameObjectList[..i + 1][..i] == gameObjectList[..i];
        if scene.hasUpdate(gameObject) {
          trace := trace + [Updated(gameObject)];
        }
        i := i + 1;
      }
      assert gameObjectList[..i] == gameObjectList;
      trace := trace + [CameraUpdated];
    }

    /** #checkCollisions: the ring loop, then the asteroid loop. */
    method CheckCollisions(scene: Scene)
      modifies this`trace
      ensures trace == old(trace) + CollisionPass(Objects(), scene)
    {
      CollisionLoop(rings, scene.hitsRing, RingKind);
      CollisionLoop(asteroids, scene.hitsAsteroid, AsteroidKind);
    }

    /** One loop of #checkCollisions: for each object the spaceship meets, its hook, then the object's. */
    method CollisionLoop(objs: seq<ObjId>, hits: ObjId -> bool, kind: Kind)
      modifies this`trace
      ensures trace == old(trace) + Collisions(objs, hits, kind)
    {
      var i := 0;
      while i < |objs|
        invariant 0 <= i <= |objs|
        invariant trace == old(trace) + Collisions(objs[..i], hits, kind)
      {
        var obj := objs[i];
        assert objs[..i + 1][..i] == objs[..i];
        if hits(obj) {
          trace := trace + [SpaceshipHook(kind, obj), SpaceshipCollided(obj)];
        }
        i := i + 1;
      }
      assert objs[..i] == objs;
    }

    /** #gameLoop: update, collisions, draw. */
    method GameLoop(scene: Scene)
      modifies this`trace, manager`canvasWidth, manager`canvasHeight, manager`drawCalls
      ensures trace == old(trace) + PassEvents(Objects(), scene)
      ensures manager.drawCalls == old(manager.drawCalls) + Renderer.DrawPass(manager.objects, scene.indexCount)
      ensures manager.canvasWidth == Renderer.DisplaySize(scene.clientWidth, Renderer.None)
      ensures manager.canvasHeight == Renderer.DisplaySize(scene.clientHeight, Renderer.None)
      ensures Objects() == old(Objects())
    {
      ghost var before, objs := trace, Objects();
      UpdateGameObjects(scene);
      ghost var updated := trace;
      CheckCollisions(scene);
      trace := trace + [Drawn];
      assert trace == before + (UpdatePass(objs, scene.hasUpdate) + CollisionPass(objs, scene) + [Drawn]) by {
        assert updated == before + UpdatePass(objs, scene.hasUpdate);
      }
      manager.Draw(scene.indexCount, scene.clientWidth, scene.clientHeight);
    }

    /** frameLoop: re-arm the callback, then run one pass if more than one frame interval has gone by. */
    method FrameLoop(now: int, scene: Scene) returns (stepped: bool)
      requires Valid() && started
      modifies this`trace, this`thenTime, this`elapsedFrames, this`frameCount
      modifies manager`canvasWidth, manager`canvasHeight, manager`drawCalls
      ensures Valid() && started
      ensures stepped <==> now as real - old(thenTime) > frameInterval
      ensures stepped ==> thenTime == NextThen(old(thenTime), now as real, frameInterval)
      ensures stepped ==> frameCount == old(frameCount) + 1
      ensures stepped ==> trace == old(trace) + [FrameRequested] + PassEvents(old(Objects()), scene)
      ensures stepped ==> manager.drawCalls == old(manager.drawCalls) + Renderer.DrawPass(manager.objects, scene.indexCount)
      ensures stepped ==> manager.canvasWidth == Renderer.DisplaySize(scene.clientWidth, Renderer.None)
      ensures stepped ==> manager.canvasHeight == Renderer.DisplaySize(scene.clientHeight, Renderer.None)
      ensures !stepped ==> thenTime == old(thenTime) && frameCount == old(frameCount)
      ensures !stepped ==> trace == old(trace) + [FrameRequested]
      ensures !stepped ==> unchanged(manager)
    {
      RequestAnimationFrame();
      var delta := now as real - thenTime;
      stepped := delta > frameInterval;
      if stepped {
        Step(now, scene);
      }
    }

    /** `requestAnimationFrame(wrapperCallback)`: the callback is re-armed before anything else happens. */
    method RequestAnimationFrame()
      requires Valid()
      modifies this`trace
      ensures Valid()
      ensures trace == old(trace) + [FrameRequested]
      ensures Objects() == old(Objects())
    {
      trace := trace + [FrameRequested];
      assert multiset(trace)[Drawn] == old(multiset(trace)[Drawn]);
    }

    /** The stepping branch of frameLoop: move #then, count the pass, run #gameLoop. */
    method Step(now: int, scene: Scene)
      requires Valid() && started && 0.0 < frameInterval < now as real - thenTime
      modifies this`trace, this`thenTime, this`elapsedFrames, this`frameCount
      modifies manager`canvasWidth, manager`canvasHeight, manager`drawCalls
      ensures Valid()
      ensures thenTime == NextThen(old(thenTime), now as real, frameInterval)
      ensures frameCount == old(frameCount) + 1
      ensures trace == old(trace) + PassEvents(old(Objects()), scene)
      ensures manager.drawCalls == old(manager.drawCalls) + Renderer.DrawPass(old(manager.objects), scene.indexCount)
      ensures manager.canvasWidth == Renderer.DisplaySize(scene.clientWidth, Renderer.None)
      ensures manager.canvasHeight == Renderer.DisplaySize(scene.clientHeight, Renderer.None)
      ensures Objects() == old(Objects())
    {
      ghost var before, objs := trace, Objects();
      PassAddsOneDraw(before, objs, scene);
      AdvanceClock(now);
      GameLoop(scene);
      assert trace == before + PassEvents(objs, scene);
    }

    /** The stepping branch of frameLoop before #gameLoop: `#then = now - delta % interval`, and one more pass counted. */
    method AdvanceClock(now: int)
      requires Valid() && started && 0.0 < frameInterval < now as real - thenTime
      modifies this`thenTime, this`elapsedFrames, this`frameCount
      ensures thenTime == NextThen(old(thenTime), now as real, frameInterval)
      ensures frameCount == old(frameCount) + 1
      ensures ClockValid()
      ensures Objects() == old(Objects())
    {
      var delta := now as real - thenTime;
      ghost var k := Slots(delta, frameInterval);
      assert NextThen(thenTime, now as real, frameInterval) == thenTime + k as real * frameInterval;
      IntervalsAdd(elapsedFrames, k, frameInterval);
      thenTime := now as real - Remainder(delta, frameInterval);
      elapsedFrames := elapsedFrames + k;
      frameCount := frameCount + 1;
    }

    /**
     * The end of setup(): store `Date.now()` in #then, then make the first frameLoop call, whose
     * own `Date.now()` may read a later time.
     */
    method Start(setupTime: int, firstFrameTime: int, scene: Scene) returns (stepped: bool)
      requires Valid() && !started
      modifies this`started, this`startTime, this`thenTime, this`elapsedFrames, this`frameCount, this`trace
      modifies manager`canvasWidth, manager`canvasHeight, manager`drawCalls
      ensures Valid() && started && startTime == setupTime as real
      ensures stepped <==> firstFrameTime as real - setupTime as real > frameInterval
      ensures stepped ==> thenTime == NextThen(setupTime as real, firstFrameTime as real, frameInterval) && frameCount == 1
      ensures stepped ==> trace == old(trace) + [FrameRequested] + PassEvents(old(Objects()), scene)
      ensures !stepped ==> thenTime == setupTime as real && frameCount == 0
      ensures !stepped ==> trace == old(trace) + [FrameRequested] && unchanged(manager)
    {
      ghost var before, objs := trace, Objects();
      thenTime := setupTime as real;
      started := true;
      startTime, elapsedFrames := setupTime as real, 0;
      assert Objects() == objs;
      stepped := FrameLoop(firstFrameTime, scene);
      assert stepped ==> trace == before + [FrameRequested] + PassEvents(objs, scene);
    }
  }

  /** The limiter never runs ahead of the clock: passes times the interval never exceed the time #then has advanced. */
  lemma FramesWithinElapsedTime(engine: GameEngine)
    requires engine.Valid() && engine.started
    ensures engine.frameCount as real * engine.frameInterval <= engine.thenTime - engine.startTime
  {
    IntervalsMonotonic(engine.frameCount, engine.elapsedFrames, engine.frameInterval);
    IntervalsProduct(engine.frameCount, engine.frameInterval);
  }
}
