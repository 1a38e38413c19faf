/**
 * The player's cockpit: health, points and the points display, the position clamped to the
 * play field, the direction intents set by the keyboard, and the laser magazine with its
 * reload and cooldown timers.  The timers are host callbacks; here each pending one is a
 * counter and its completion an explicit event.
 */
module Cockpit {
  import opened Numbers
  import opened Vectors

  const MaxHealth: real := 100.0
  /** The initial #lastLaser: the tenth laser, index 9. */
  const InitialLastLaser: int := 9
  /** The points display is left-padded to this many characters. */
  const PointsWidth: nat := 8

  const KeyW: int := 87
  const KeyS: int := 83
  const KeyA: int := 65
  const KeyD: int := 68
  const KeySpace: int := 32

  /** The entries of the game settings object the cockpit reads. */
  datatype Settings = Settings(
    fpsLimit: real,
    gameSpeed: real,
    maxHalfX: real,
    maxHalfY: real,
    cockpitSpeed: real,
    maxLasers: nat,
    pointsPerSecond: real,
    damagePerSecond: real,
    ringRestoreHealth: real,
    ringPoints: real,
    asteroidDamage: real,
    asteroidPoints: real,
    terrainDamage: real,
    terrainPoints: real)

  /** Settings under which health and points keep their ranges: no amount and no bound is negative. */
  predicate NonNegative(s: Settings)
  {
    && 0.0 <= s.gameSpeed && 0.0 <= s.maxHalfX && 0.0 <= s.maxHalfY
    && 0.0 <= s.pointsPerSecond && 0.0 <= s.damagePerSecond
    && 0.0 <= s.ringRestoreHealth && 0.0 <= s.ringPoints
    && 0.0 <= s.asteroidDamage && 0.0 <= s.asteroidPoints
    && 0.0 <= s.terrainDamage && 0.0 <= s.terrainPoints
  }

  // ---------------------------------------------------------------- health, points, position

  /** A per-second amount scaled to one frame: `perSecond * gameSpeed / fpsLimit`. */
  function PerFrame(perSecond: real, s: Settings): (r: real)
    requires 0.0 < s.fpsLimit
    ensures 0.0 <= perSecond && 0.0 <= s.gameSpeed ==> 0.0 <= r
    ensures r * s.fpsLimit == perSecond * s.gameSpeed
  {
    assert 0.0 <= perSecond && 0.0 <= s.gameSpeed ==> 0.0 <= perSecond * s.gameSpeed;
    perSecond * s.gameSpeed / s.fpsLimit
  }

  /** `x -= amount; x = Math.max(0, x)`: a deduction floored at zero. */
  function Deducted(x: real, amount: real): (r: real)
    ensures 0.0 <= r
    ensures x - amount <= r
    ensures r == 0.0 || r == x - amount
    ensures 0.0 <= amount && x <= MaxHealth ==> r <= MaxHealth
  {
    Max(0.0, x - amount)
  }

  /** `health += amount; health = Math.min(100, health)`: a restoration capped at full health. */
  function Restored(health: real, amount: real): (r: real)
    ensures r <= MaxHealth
    ensures r <= health + amount
    ensures r == MaxHealth || r == health + amount
    ensures 0.0 <= health && 0.0 <= amount ==> 0.0 <= r
  {
    Min(MaxHealth, health + amount)
  }

  /** `Math.min(Math.max(v, -bound), bound)`. */
  function Clamp(v: real, bound: real): (r: real)
    ensures 0.0 <= bound ==> -bound <= r <= bound
    ensures -bound <= v <= bound ==> r == v
    ensures 0.0 <= bound && v < -bound ==> r == -bound
    ensures bound < v ==> r == bound
  {
    Min(Max(v, -bound), bound)
  }

  /** The key-driven speeds: the public fields up, down, left and right. */
  datatype Intent = Intent(up: real, down: real, left: real, right: real)

  /** No key held. */
  const Idle: Intent := Intent(0.0, 0.0, 0.0, 0.0)

  predicate InBounds(p: Vec3, s: Settings)
  {
    -s.maxHalfX <= p.x <= s.maxHalfX && -s.maxHalfY <= p.y <= s.maxHalfY
  }

  /** The move of one update(): `(left - right) * gameSpeed / fpsLimit` across, `(up - down) * gameSpeed / fpsLimit` up. */
  function Displacement(i: Intent, s: Settings): (d: Vec3)
    requires 0.0 < s.fpsLimit
    ensures d.x * s.fpsLimit == (i.left - i.right) * s.gameSpeed
    ensures d.y * s.fpsLimit == (i.up - i.down) * s.gameSpeed
    ensures d.z == 0.0
    ensures i.left == i.right && i.up == i.down ==> d == Zero
  {
    Vec3((i.left - i.right) * s.gameSpeed / s.fpsLimit, (i.up - i.down) * s.gameSpeed / s.fpsLimit, 0.0)
  }

  /** The position after update(): moved by the intents, then x and y clamped to the borders. */
  function Moved(p: Vec3, i: Intent, s: Settings): (r: Vec3)
    requires 0.0 < s.fpsLimit
    ensures r.z == p.z
    ensures 0.0 <= s.maxHalfX && 0.0 <= s.maxHalfY ==> InBounds(r, s)
  {
    var q := Sum(p, Displacement(i, s));
    Vec3(Clamp(q.x, s.maxHalfX), Clamp(q.y, s.maxHalfY), q.z)
  }

  /** Inside the borders the clamp does nothing: the craft moves by exactly the displacement. */
  lemma MovedInsideField(p: Vec3, i: Intent, s: Settings)
    requires 0.0 < s.fpsLimit
    requires InBounds(Sum(p, Displacement(i, s)), s)
    ensures Moved(p, i, s) == Sum(p, Displacement(i, s))
  {
  }

  /** Past any of the four borders the craft stops on that border. */
  lemma MovedStopsAtBorder(p: Vec3, i: Intent, s: Settings)
    requires 0.0 < s.fpsLimit && 0.0 <= s.maxHalfX && 0.0 <= s.maxHalfY
    ensures var q := Sum(p, Displacement(i, s));
      && (s.maxHalfX < q.x ==> Moved(p, i, s).x == s.maxHalfX)
      && (q.x < -s.maxHalfX ==> Moved(p, i, s).x == -s.maxHalfX)
      && (s.maxHalfY < q.y ==> Moved(p, i, s).y == s.maxHalfY)
      && (q.y < -s.maxHalfY ==> Moved(p, i, s).y == -s.maxHalfY)
  {
  }

  /** With no key held a craft inside the field stays where it is. */
  lemma IdleStaysPut(p: Vec3, s: Settings)
    requires 0.0 < s.fpsLimit && InBounds(p, s)
    ensures Moved(p, Idle, s) == p
  {
  }

  // ---------------------------------------------------------------- keys

  predicate IsDirectionKey(keyCode: int)
  {
    keyCode == KeyW || keyCode == KeyS || keyCode == KeyA || keyCode == KeyD
  }

  /** The intent a direction key drives: W up, S down, A left, D right. */
  function Driven(i: Intent, keyCode: int): real
    requires IsDirectionKey(keyCode)
  {
    if keyCode == KeyW then i.up
    else if keyCode == KeyS then i.down
    else if keyCode == KeyA then i.left
    else i.right
  }

  /** The key-down handler's effect on the intents: the pressed direction takes `speed`. */
  function Pressed(i: Intent, keyCode: int, speed: real): (r: Intent)
    ensures forall k :: IsDirectionKey(k) ==> Driven(r, k) == if k == keyCode then speed else Driven(i, k)
    ensures !IsDirectionKey(keyCode) ==> r == i
  {
    var a := if keyCode == KeyW then i.(up := speed) else i;
    var b := if keyCode == KeyS then a.(down := speed) else a;
    var c := if keyCode == KeyA then b.(left := speed) else b;
    if keyCode == KeyD then c.(right := speed) else c
  }

  /** The key-up handler's effect on the intents: the released direction drops to 0. */
  function Released(i: Intent, keyCode: int): (r: Intent)
    ensures forall k :: IsDirectionKey(k) ==> Driven(r, k) == if k == keyCode then 0.0 else Driven(i, k)
    ensures !IsDirectionKey(keyCode) ==> r == i
  {
    var a := if keyCode == KeyW then i.(up := 0.0) else i;
    var b := if keyCode == KeyS then a.(down := 0.0) else a;
    var c := if keyCode == KeyA then b.(left := 0.0) else b;
    if keyCode == KeyD then c.(right := 0.0) else c
  }

  /** Pressing and releasing a key leaves the intents as releasing it alone would: the press is forgotten. */
  lemma ReleaseUndoesPress(i: Intent, keyCode: int, speed: real)
    ensures Released(Pressed(i, keyCode, speed), keyCode) == Released(i, keyCode)
  {
    var r1 := Released(Pressed(i, keyCode, speed), keyCode);
    var r2 := Released(i, keyCode);
    assert Driven(r1, KeyW) == Driven(r2, KeyW) && Driven(r1, KeyS) == Driven(r2, KeyS);
    assert Driven(r1, KeyA) == Driven(r2, KeyA) && Driven(r1, KeyD) == Driven(r2, KeyD);
  }

  // ---------------------------------------------------------------- the laser magazine

  /**
   * #lastLaser and #canShoot, with the host timers still to fire: the reload chain
   * (#delayedReload) and the cooldown (#delayedCooldown).
   */
  datatype Magazine = Magazine(lastLaser: int, canShoot: bool, reloadsPending: nat, cooldownsPending: nat)

  /** The magazine a fresh cockpit starts with. */
  const InitialMagazine: Magazine := Magazine(InitialLastLaser, true, 0, 0)

  /**
   * lastLaser indexes a laser or is -1 (empty); at most one reload chain runs, and only while
   * the magazine is not full; a cooldown is pending exactly when the cockpit cannot shoot.
   */
  predicate MagazineOk(m: Magazine, capacity: nat)
  {
    && -1 <= m.lastLaser <= capacity - 1
    && m.reloadsPending <= 1
    && (m.reloadsPending == 1 ==> m.lastLaser < capacity - 1)
    && m.cooldownsPending == if m.canShoot then 0 else 1
  }

  predicate CanFire(m: Magazine)
  {
    m.canShoot && m.lastLaser >= 0
  }

  /** shoot(): when allowed, start a reload chain if the magazine was full, use one laser and start the cooldown. */
  function Shot(m: Magazine, capacity: nat): (r: Magazine)
    ensures MagazineOk(m, capacity) ==> MagazineOk(r, capacity)
    ensures r.lastLaser == if CanFire(m) then m.lastLaser - 1 else m.lastLaser
    ensures r.canShoot ==> r == m
  {
    if m.canShoot && m.lastLaser >= 0 then
      var reloads := if m.lastLaser == capacity - 1 then m.reloadsPending + 1 else m.reloadsPending;
      Magazine(m.lastLaser - 1, false, reloads, m.cooldownsPending + 1)
    else m
  }

  /** A reload timer fires: one laser back, and the chain goes on while the magazine is not full. */
  function Reloaded(m: Magazine, capacity: nat): (r: Magazine)
    ensures MagazineOk(m, capacity) ==> MagazineOk(r, capacity)
    ensures r.lastLaser == if m.reloadsPending > 0 then m.lastLaser + 1 else m.lastLaser
    ensures r.canShoot == m.canShoot && r.cooldownsPending == m.cooldownsPending
  {
    if m.reloadsPending == 0 then m
    else
      var last := m.lastLaser + 1;
      Magazine(last, m.canShoot, m.reloadsPending - 1 + (if last < capacity - 1 then 1 else 0), m.cooldownsPending)
  }

  /** The cooldown timer fires: the cockpit may shoot again. */
  function CooledDown(m: Magazine): (r: Magazine)
    ensures r.lastLaser == m.lastLaser && r.reloadsPending == m.reloadsPending
    ensures m.cooldownsPending > 0 ==> r.canShoot
    ensures m.canShoot ==> r.canShoot
  {
    if m.cooldownsPending == 0 then m
    else m.(canShoot := true, cooldownsPending := m.cooldownsPending - 1)
  }

  /** What can happen to the magazine: the space key, or one of its timers firing. */
  datatype MagazineEvent = SpaceDown | ReloadTimer | CooldownTimer

  function Next(m: Magazine, e: MagazineEvent, capacity: nat): Magazine
  {
    match e
    case SpaceDown => Shot(m, capacity)
    case ReloadTimer => Reloaded(m, capacity)
    case CooldownTimer => CooledDown(m)
  }

  /** The magazine after a sequence of events. */
  function Run(m: Magazine, events: seq<MagazineEvent>, capacity: nat): (r: Magazine)
    ensures SpaceDown !in events && ReloadTimer !in events ==> r.lastLaser == m.lastLaser
    ensures CooldownTimer !in events && !m.canShoot ==> !r.canShoot
  {
    if events == [] then m
    else Next(Run(m, events[..|events| - 1], capacity), events[|events| - 1], capacity)
  }

  /** How many of the events were shots actually fired. */
  function Shots(m: Magazine, events: seq<MagazineEvent>, capacity: nat): nat
  {
    if events == [] then 0
    else
      var init := events[..|events| - 1];
      Shots(m, init, capacity) + if events[|events| - 1] == SpaceDown && CanFire(Run(m, init, capacity)) then 1 else 0
  }

  /** How many of the events were reloads that put a laser back. */
  function Reloads(m: Magazine, events: seq<MagazineEvent>, capacity: nat): nat
  {
    if events == [] then 0
    else
      var init := events[..|events| - 1];
      Reloads(m, init, capacity) +
        if events[|events| - 1] == ReloadTimer && Run(m, init, capacity).reloadsPending > 0 then 1 else 0
  }

  /** The fresh magazine is well formed when there are at least ten lasers. */
  lemma InitialMagazineOk(capacity: nat)
    requires 10 <= capacity
    ensures MagazineOk(InitialMagazine, capacity)
  {
  }

  /** A shot uses exactly one laser and blocks the next shot; a refused shot changes nothing. */
  lemma ShotEffect(m: Magazine, capacity: nat)
    requires MagazineOk(m, capacity)
    ensures CanFire(m) ==> Shot(m, capacity).lastLaser == m.lastLaser - 1 && !Shot(m, capacity).canShoot
    ensures CanFire(m) ==> (Shot(m, capacity).reloadsPending == 1 <==> m.reloadsPending == 1 || m.lastLaser == capacity - 1)
    ensures !CanFire(m) ==> Shot(m, capacity) == m
  {
  }

  /** Every event keeps the magazine well formed. */
  lemma NextKeepsOk(m: Magazine, e: MagazineEvent, capacity: nat)
    requires MagazineOk(m, capacity)
    ensures MagazineOk(Next(m, e, capacity), capacity)
  {
  }

  lemma {:induction false} RunKeepsOk(m: Magazine, events: seq<MagazineEvent>, capacity: nat)
    requires MagazineOk(m, capacity)
    ensures MagazineOk(Run(m, events, capacity), capacity)
  {
    if events != [] {
      RunKeepsOk(m, events[..|events| - 1], capacity);
      NextKeepsOk(Run(m, events[..|events| - 1], capacity), events[|events| - 1], capacity);
    }
  }

  /** Lasers are only used by shots and only given back by reloads. */
  lemma {:induction false} LasersAccounted(m: Magazine, events: seq<MagazineEvent>, capacity: nat)
    ensures Run(m, events, capacity).lastLaser == m.lastLaser - Shots(m, events, capacity) + Reloads(m, events, capacity)
  {
    if events != [] {
      LasersAccounted(m, events[..|events| - 1], capacity);
    }
  }

  /**
   * Shots are paid for with cooldowns: apart from the one shot a ready cockpit has in hand, each
   * shot needs its own completed cooldown, and one still unspent keeps the cockpit ready.
   */
  lemma {:induction false} ShotsNeedCooldowns(m: Magazine, events: seq<MagazineEvent>, capacity: nat)
    ensures Shots(m, events, capacity) + (if Run(m, events, capacity).canShoot then 1 else 0)
         <= (if m.canShoot then 1 else 0) + multiset(events)[CooldownTimer]
  {
    if events != [] {
      var init := events[..|events| - 1];
      var e := events[|events| - 1];
      assert events == init + [e];
      ShotsNeedCooldowns(m, init, capacity);
    }
  }

  /** A cockpit that cannot shoot fires nothing until a cooldown completes. */
  lemma NoShotWithoutCooldown(m: Magazine, events: seq<MagazineEvent>, capacity: nat)
    requires !m.canShoot && CooldownTimer !in events
    ensures Shots(m, events, capacity) == 0
  {
    ShotsNeedCooldowns(m, events, capacity);
  }

  /** j reload timers firing in a row. */
  function ReloadTimers(j: nat): (r: seq<MagazineEvent>)
    ensures |r| == j && forall e :: e in r ==> e == ReloadTimer
  {
    seq(j, _ => ReloadTimer)
  }

  lemma {:induction false} ReloadChainSteps(m: Magazine, j: nat, capacity: nat)
    requires MagazineOk(m, capacity) && m.reloadsPending == 1
    requires j <= capacity - 1 - m.lastLaser
    ensures var r := Run(m, ReloadTimers(j), capacity);
      && r.lastLaser == m.lastLaser + j
      && r.reloadsPending == (if j < capacity - 1 - m.lastLaser then 1 else 0)
      && r.canShoot == m.canShoot
  {
    if j > 0 {
      assert ReloadTimers(j)[..j - 1] == ReloadTimers(j - 1);
      ReloadChainSteps(m, j - 1, capacity);
    }
  }

  /** A running reload chain, left alone, refills the magazine and then stops. */
  lemma ReloadChainRefills(m: Magazine, capacity: nat)
    requires MagazineOk(m, capacity) && m.reloadsPending == 1
    ensures var r := Run(m, ReloadTimers(capacity - 1 - m.lastLaser), capacity);
      r.lastLaser == capacity - 1 && r.reloadsPending == 0
  {
    ReloadChainSteps(m, capacity - 1 - m.lastLaser, capacity);
  }

  // ---------------------------------------------------------------- the points display

  predicate IsDigit(c: char)
  {
    '0' <= c <= '9'
  }

  predicate AllDigits(s: seq<char>)
  {
    forall i :: 0 <= i < |s| ==> IsDigit(s[i])
  }

  /** Number.prototype.toString() of a natural number: its decimal digits, with no leading zero. */
  function DecimalDigits(n: nat): (r: seq<char>)
    ensures 1 <= |r| && AllDigits(r)
    ensures r[0] == '0' ==> n == 0
  {
    if n < 10 then ["0123456789"[n]]
    else DecimalDigits(n / 10) + ["0123456789"[n % 10]]
  }

  /** Number.prototype.toString() of an integer. */
  function IntegerText(n: int): (r: seq<char>)
    ensures 1 <= |r|
    ensures 0 <= n ==> AllDigits(r)
    ensures n < 0 ==> r[0] == '-' && AllDigits(r[1..])
  {
    if n < 0 then "-" + DecimalDigits(-n) else DecimalDigits(n)
  }

  /** String.prototype.padStart(width, c) with a one-character filler. */
  function PadStart(s: seq<char>, width: nat, c: char): (r: seq<char>)
    ensures |r| == if |s| < width then width else |s|
    ensures r[|r| - |s|..] == s
    ensures forall i :: 0 <= i < |r| - |s| ==> r[i] == c
  {
    if |s| < width then seq(width - |s|, _ => c) + s else s
  }

  /** `parseInt(points).toString().padStart(8, "0")`. */
  function PointsText(points: real): (r: seq<char>)
    ensures PointsWidth <= |r|
    ensures |r| == if |IntegerText(Truncate(points))| < PointsWidth then PointsWidth else |IntegerText(Truncate(points))|
  {
    PadStart(IntegerText(Truncate(points)), PointsWidth, '0')
  }

  /** Reading a digit string back as a number. */
  function ParseDecimal(s: seq<char>): nat
    requires AllDigits(s)
  {
    if s == [] then 0
    else ParseDecimal(s[..|s| - 1]) * 10 + (s[|s| - 1] as int - '0' as int)
  }

  lemma {:induction false} ParseDecimalDigits(n: nat)
    ensures ParseDecimal(DecimalDigits(n)) == n
  {
    if n >= 10 {
      var d := DecimalDigits(n);
      assert d[..|d| - 1] == DecimalDigits(n / 10);
      ParseDecimalDigits(n / 10);
    }
  }

  lemma {:induction false} ParseIgnoresLeadingZeros(zeros: seq<char>, s: seq<char>)
    requires forall i :: 0 <= i < |zeros| ==> zeros[i] == '0'
    requires AllDigits(s)
    ensures AllDigits(zeros + s)
    ensures ParseDecimal(zeros + s) == ParseDecimal(s)
  {
    if s == [] {
      assert zeros + s == zeros;
      if zeros != [] {
        ParseIgnoresLeadingZeros(zeros[..|zeros| - 1], []);
        assert zeros[..|zeros| - 1] + [] == zeros[..|zeros| - 1];
      }
    } else {
      assert (zeros + s)[..|zeros + s| - 1] == zeros + s[..|s| - 1];
      ParseIgnoresLeadingZeros(zeros, s[..|s| - 1]);
    }
  }

  /** For non-negative points the display is all digits, at least eight of them, and reads back as the whole points. */
  lemma PointsTextReadsBack(points: real)
    requires 0.0 <= points
    ensures AllDigits(PointsText(points))
    ensures ParseDecimal(PointsText(points)) == points.Floor
  {
    var n := Truncate(points);
    var digits := DecimalDigits(n);
    var r := PointsText(points);
    var zeros := r[..|r| - |digits|];
    assert r == zeros + digits;
    ParseIgnoresLeadingZeros(zeros, digits);
    ParseDecimalDigits(n);
  }

  /**
   * A negative truncation keeps its sign inside the padding ("000000-3"): zeros, then '-', then
   * the decimal digits of the magnitude, which `ParseDecimalDigits` reads back.
   */
  lemma NegativePointsText(points: real)
    requires Truncate(points) < 0
    ensures var s := IntegerText(Truncate(points)); var r := PointsText(points);
      && r[|r| - |s|] == '-'
      && (forall k :: 0 <= k < |r| - |s| ==> r[k] == '0')
      && r[|r| - |s| + 1..] == DecimalDigits(-Truncate(points))
  {
    var n := Truncate(points);
    var digits := DecimalDigits(-n);
    var s := IntegerText(n);
    assert s == "-" + digits;
    var r := PointsText(points);
    var w := |r| - |s|;
    assert r[w..] == s;
    assert r[w + 1..] == digits by {
      assert r[w + 1..] == r[w..][1..];
    }
  }

  // ---------------------------------------------------------------- the cockpit object

  class Cockpit {
    const settings: Settings
    /** #lasers.length: one laser indicator per settings.maxLasers. */
    const capacity: nat
    const deltaSpeed: real

    var health: real
    var points: real
    /** #pointsDisplay.textContent. */
    var pointsText: seq<char>
    var position: Vec3
    var intent: Intent

    var lastLaser: int
    var canShoot: bool
    /** #delayedReload timers scheduled and not yet fired. */
    var reloadsPending: nat
    /** #delayedCooldown timers scheduled and not yet fired. */
    var cooldownsPending: nat

    function MagazineState(): Magazine
      reads this`lastLaser, this`canShoot, this`reloadsPending, this`cooldownsPending
    {
      Magazine(lastLaser, canShoot, reloadsPending, cooldownsPending)
    }

    /** Health within [0, 100], points not negative, the craft inside the field. */
    predicate InRange()
      reads this`health, this`points, this`position
    {
      0.0 <= health <= MaxHealth && 0.0 <= points && InBounds(position, settings)
    }

    ghost predicate Valid()
      reads this
    {
      && 0.0 < settings.fpsLimit
      && capacity == settings.maxLasers
      && MagazineOk(MagazineState(), capacity)
      && (NonNegative(settings) ==> InRange())
    }

    /** The constructor; the element shows pointsShown until the first change of points. */
    constructor (settings: Settings, pointsShown: seq<char>)
      requires 0.0 < settings.fpsLimit && 10 <= settings.maxLasers
      ensures Valid()
      ensures this.settings == settings && capacity == settings.maxLasers && deltaSpeed == settings.cockpitSpeed
      ensures health == MaxHealth && points == 0.0 && pointsText == pointsShown
      ensures position == Vec3(0.0, 0.0, 0.0) && intent == Idle
      ensures MagazineState() == InitialMagazine
    {
      this.settings := settings;
      capacity := settings.maxLasers;
      deltaSpeed := settings.cockpitSpeed;
      health := MaxHealth;
      points := 0.0;
      pointsText := pointsShown;
      position := Vec3(0.0, 0.0, 0.0);
      intent := Idle;
      lastLaser := InitialLastLaser;
      canShoot := true;
      reloadsPending, cooldownsPending := 0, 0;
    }

    /** update(): move and clamp, earn the per-frame points, lose the per-frame health. */
    method Update()
      requires Valid()
      modifies this`position, this`points, this`pointsText, this`health
      ensures Valid()
      ensures position == Moved(old(position), intent, settings)
      ensures points == old(points) + PerFrame(settings.pointsPerSecond, settings)
      ensures pointsText == PointsText(points)
      ensures health == Deducted(old(health), PerFrame(settings.damagePerSecond, settings))
    {
      Move();
      EarnFramePoints();
      WearFrameHealth();
    }

    /** The move step of update(): add the displacement, then clamp x and y to the borders. */
    method Move()
      requires Valid()
      modifies this`position
      ensures Valid()
      ensures position == Moved(old(position), intent, settings)
    {
      position := Sum(position, Displacement(intent, settings));
      position := position.(x := Min(Max(position.x, -settings.maxHalfX), settings.maxHalfX));
      position := position.(y := Min(Max(position.y, -settings.maxHalfY), settings.maxHalfY));
    }

    /** The points step of update(). */
    method EarnFramePoints()
      requires Valid()
      modifies this`points, this`pointsText
      ensures Valid()
      ensures points == old(points) + PerFrame(settings.pointsPerSecond, settings)
      ensures pointsText == PointsText(points)
    {
      points := points + PerFrame(settings.pointsPerSecond, settings);
      pointsText := PointsText(points);
    }

    /** The health step of update(). */
    method WearFrameHealth()
      requires Valid()
      modifies this`health
      ensures Valid()
      ensures health == Deducted(old(health), PerFrame(settings.damagePerSecond, settings))
    {
      health := health - PerFrame(settings.damagePerSecond, settings);
      health := Max(0.0, health);
    }

    /** onRingCollided(): health restored up to 100, ring points earned. */
    method OnRingCollided()
      requires Valid()
      modifies this`health, this`points, this`pointsText
      ensures Valid()
      ensures health == Restored(old(health), settings.ringRestoreHealth)
      ensures points == old(points) + settings.ringPoints
      ensures pointsText == PointsText(points)
    {
      health := health + settings.ringRestoreHealth;
      health := Min(MaxHealth, health);
      points := points + settings.ringPoints;
      pointsText := PointsText(points);
    }

    /** onAsteroidCollided(): health and points both lose an amount, each floored at 0. */
    method OnAsteroidCollided()
      requires Valid()
      modifies this`health, this`points, this`pointsText
      ensures Valid()
      ensures health == Deducted(old(health), settings.asteroidDamage)
      ensures points == Deducted(old(points), settings.asteroidPoints)
      ensures pointsText == PointsText(points)
    {
      health := health - settings.asteroidDamage;
      health := Max(0.0, health);
      points := points - settings.asteroidPoints;
      points := Max(0.0, points);
      pointsText := PointsText(points);
    }

    /** onGroundCollided(): as for an asteroid, with the terrain amounts. */
    method OnGroundCollided()
      requires Valid()
      modifies this`health, this`points, this`pointsText
      ensures Valid()
      ensures health == Deducted(old(health), settings.terrainDamage)
      ensures points == Deducted(old(points), settings.terrainPoints)
      ensures pointsText == PointsText(points)
    {
      health := health - settings.terrainDamage;
      health := Max(0.0, health);
      points := points - settings.terrainPoints;
      points := Max(0.0, points);
      pointsText := PointsText(points);
    }

    /** shoot(). */
    method Shoot()
      requires Valid()
      modifies this`lastLaser, this`canShoot, this`reloadsPending, this`cooldownsPending
      ensures Valid()
      ensures MagazineState() == Shot(old(MagazineState()), capacity)
      ensures old(CanFire(MagazineState())) ==> lastLaser == old(lastLaser) - 1 && !canShoot
      ensures !old(CanFire(MagazineState())) ==> MagazineState() == old(MagazineState())
    {
      if canShoot && lastLaser >= 0 {
        if lastLaser == capacity - 1 {
          reloadsPending := reloadsPending + 1;
        }
        lastLaser := lastLaser - 1;
        canShoot := false;
        cooldownsPending := cooldownsPending + 1;
      }
    }

    /** A #delayedReload timer fires. */
    method ReloadElapsed()
      requires Valid() && reloadsPending > 0
      modifies this`lastLaser, this`reloadsPending
      ensures Valid()
      ensures MagazineState() == Reloaded(old(MagazineState()), capacity)
      ensures lastLaser == old(lastLaser) + 1
      ensures reloadsPending == 1 <==> lastLaser < capacity - 1
    {
      reloadsPending := reloadsPending - 1;
      lastLaser := lastLaser + 1;
      if lastLaser < capacity - 1 {
        reloadsPending := reloadsPending + 1;
      }
    }

    /** A #delayedCooldown timer fires. */
    method CooldownElapsed()
      requires Valid() && cooldownsPending > 0
      modifies this`canShoot, this`cooldownsPending
      ensures Valid()
      ensures MagazineState() == CooledDown(old(MagazineState()))
      ensures canShoot
    {
      cooldownsPending := cooldownsPending - 1;
      canShoot := true;
    }

    /** The keydown listener: a direction key sets its intent to deltaSpeed; space shoots. */
    method KeyDown(keyCode: int)
      requires Valid()
      modifies this`intent, this`lastLaser, this`canShoot, this`reloadsPending, this`cooldownsPending
      ensures Valid()
      ensures intent == Pressed(old(intent), keyCode, deltaSpeed)
      ensures MagazineState() == if keyCode == KeySpace then Shot(old(MagazineState()), capacity) else old(MagazineState())
    {
      if keyCode == KeyW {
        intent := intent.(up := deltaSpeed);
      }
      if keyCode == KeyS {
        intent := intent.(down := deltaSpeed);
      }
      if keyCode == KeyA {
        intent := intent.(left := deltaSpeed);
      }
      if keyCode == KeyD {
        intent := intent.(right := deltaSpeed);
      }
      if keyCode == KeySpace {
        Shoot();
      }
    }

    /** The keyup listener: a direction key drops its intent to 0. */
    method KeyUp(keyCode: int)
      modifies this`intent
      ensures intent == Released(old(intent), keyCode)
    {
      if keyCode == KeyW {
        intent := intent.(up := 0.0);
      }
      if keyCode == KeyS {
        intent := intent.(down := 0.0);
      }
      if keyCode == KeyA {
        intent := intent.(left := 0.0);
      }
      if keyCode == KeyD {
        intent := intent.(right := 0.0);
      }
    }
  }
}
