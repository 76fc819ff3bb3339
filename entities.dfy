/** The entity records of the game (player, enemy, shot), its constants, and
    the per-entity laws the update code applies: how an enemy moves on a
    formation tick, how a row re-activates it, how a shot is placed and moved,
    how the player is kept inside the field. */
module Entities {
  import opened Raylib

  const NUM_SHOOTS := 50
  const NUM_MAX_ENEMIES := 900
  const ROW := 15
  const FIRST_WAVE := 60
  const SCREEN_WIDTH: real := 600.0
  const SCREEN_HEIGHT: real := 600.0
  /** Fraction by which the formation's tick period shrinks on every descent. */
  const PROG_SPEED: real := 0.15
  /** Formation ticks between two changes of horizontal direction. */
  const SIDE_STEPS := 30
  /** Fire-rate counter step per frame with fire held, and the period at which a shot is admitted. */
  const FIRE_STEP := 5
  const FIRE_PERIOD := 20
  const KILL_SCORE := 100
  /** An enemy whose top edge is at or above this height hurts the player. */
  const NEAR_TOP: real := 5.0
  const ENEMY_SIZE: real := 10.0
  const PLAYER_SIZE: real := 20.0

  /** The three waves; only FIRST is ever entered by the update code. */
  datatype EnemyWave = FIRST | SECOND | THIRD

  datatype Player = Player(rec: Rectangle, speed: Vector2, hp: int)

  datatype Enemy = Enemy(rec: Rectangle, speed: Vector2, active: bool, dead: bool, heal: bool)

  datatype Shoot = Shoot(rec: Rectangle, speed: Vector2, active: bool)

  /** A zero-initialised C struct. */
  const ZERO_RECT := Rectangle(0.0, 0.0, 0.0, 0.0)
  const ZERO_PLAYER := Player(ZERO_RECT, Vector2(0.0, 0.0), 0)
  const ZERO_ENEMY := Enemy(ZERO_RECT, Vector2(0.0, 0.0), false, false, false)
  const ZERO_SHOOT := Shoot(ZERO_RECT, Vector2(0.0, 0.0), false)

  // ---------------------------------------------------------------- player

  /** One axis of the player's clamp: a position at or below 0 is pulled to 0,
      then a box reaching the far edge is pulled back inside it. */
  function ClampToField(pos: real, size: real, limit: real): (r: real)
    ensures 0.0 <= size <= limit ==> 0.0 <= r && r + size <= limit
    ensures 0.0 < pos && pos + size < limit ==> r == pos
    ensures size <= limit && pos <= 0.0 ==> r == 0.0
    ensures pos + size >= limit ==> r == limit - size
  {
    var low := if pos <= 0.0 then 0.0 else pos;
    if low + size >= limit then limit - size else low
  }

  /** The player's rectangle after PlayerMovement: moved by its speed along
      each held direction, then clamped to the field axis by axis.  A
      player of the usual size ends inside the field. */
  function Steered(p: Player, right: bool, left: bool, up: bool, down: bool): (r: Rectangle)
    ensures r.width == p.rec.width && r.height == p.rec.height
    ensures 0.0 <= p.rec.width <= SCREEN_WIDTH ==> 0.0 <= r.x && r.x + r.width <= SCREEN_WIDTH
    ensures 0.0 <= p.rec.height <= SCREEN_HEIGHT ==> 0.0 <= r.y && r.y + r.height <= SCREEN_HEIGHT
    ensures !right && !left && 0.0 < p.rec.x && p.rec.x + p.rec.width < SCREEN_WIDTH ==> r.x == p.rec.x
    ensures !up && !down && 0.0 < p.rec.y && p.rec.y + p.rec.height < SCREEN_HEIGHT ==> r.y == p.rec.y
  {
    var x := p.rec.x + (if right then p.speed.x else 0.0) - (if left then p.speed.x else 0.0);
    var y := p.rec.y - (if up then p.speed.y else 0.0) + (if down then p.speed.y else 0.0);
    p.rec.(x := ClampToField(x, p.rec.width, SCREEN_WIDTH), y := ClampToField(y, p.rec.height, SCREEN_HEIGHT))
  }

  /** The player after InitPlayer: its y is computed from the height it had
      before the call, which is 0 on the very first call. */
  function InitialPlayer(before: Player, startGame: bool): (p: Player)
    ensures p.rec.width == PLAYER_SIZE && p.rec.height == PLAYER_SIZE
    ensures p.rec.y == SCREEN_HEIGHT - 50.0 - before.rec.height
    ensures p.hp == if startGame then 3 else before.hp
  {
    Player(Rectangle(20.0, SCREEN_HEIGHT - 50.0 - before.rec.height, PLAYER_SIZE, PLAYER_SIZE),
           Vector2(5.0, 0.0),
           if startGame then 3 else before.hp)
  }

  /** The first InitPlayer, over the zeroed player, places it at y == 550;
      every later one sees the height 20 it set and places it at y == 530. */
  lemma InitialPlayerSettles(b: bool)
    ensures var first := InitialPlayer(ZERO_PLAYER, true);
      first.rec.y == 550.0 && InitialPlayer(first, b).rec.y == 530.0
  {
  }

  /** The hit test of PlayerCollisionWithEnemies; it does not look at the
      enemy's active or dead flag. */
  predicate Threatens(p: Player, e: Enemy)
  {
    e.rec.y <= NEAR_TOP || CheckCollisionRecs(p.rec, e.rec)
  }

  /** The hit test ignores the flags: an enemy already shot down, inactive
      and dead, threatens the player exactly where a live one would. */
  lemma ThreatIgnoresFlags(p: Player, e: Enemy, active: bool, dead: bool)
    ensures Threatens(p, e.(active := active, dead := dead)) <==> Threatens(p, e)
    ensures Threatens(p, Killed(e)) <==> Threatens(p, e)
  {
  }

  /** Whether one of the first n enemies of the pool threatens the player. */
  ghost predicate Struck(p: Player, s: seq<Enemy>, n: int)
  {
    exists k :: 0 <= k < n && k < |s| && Threatens(p, s[k])
  }

  // --------------------------------------------------------------- enemies

  /** The record InitEnemies writes in iteration i (into slot 899 - i);
      readWidth is the width of enemy[i] that the iteration reads. */
  function FormationSlot(i: int, readWidth: real, heal: bool): (e: Enemy)
    ensures e.active && !e.dead && e.heal == heal
    ensures e.rec.width == ENEMY_SIZE && e.rec.height == ENEMY_SIZE
    ensures e.speed == Vector2(3.0, 32.0)
  {
    Enemy(Rectangle((i % ROW) as real * 35.0 + readWidth / 2.0,
                    if i <= FIRST_WAVE then ((i / ROW + 1) * 15 + 75) as real else (45 + 75) as real,
                    ENEMY_SIZE, ENEMY_SIZE),
          Vector2(3.0, 32.0), true, false, heal)
  }

  /** The pool after InitEnemies, given the pool before it: iteration i
      writes slot 899 - i and reads the width of enemy[i], which that loop has
      already rewritten when i >= 450 and not yet otherwise. */
  function Formation(before: seq<Enemy>, heals: seq<bool>): (r: seq<Enemy>)
    requires |before| == NUM_MAX_ENEMIES && |heals| == NUM_MAX_ENEMIES
    ensures |r| == NUM_MAX_ENEMIES
  {
    seq(NUM_MAX_ENEMIES, k requires 0 <= k < NUM_MAX_ENEMIES =>
      var i := NUM_MAX_ENEMIES - 1 - k;
      FormationSlot(i, if i >= NUM_MAX_ENEMIES / 2 then ENEMY_SIZE else before[i].rec.width, heals[i]))
  }

  /** The pool InitEnemies leaves once every enemy already has its size: the
      layout no longer depends on what the pool held before. */
  function SteadyFormation(heals: seq<bool>): (r: seq<Enemy>)
    requires |heals| == NUM_MAX_ENEMIES
    ensures |r| == NUM_MAX_ENEMIES
  {
    seq(NUM_MAX_ENEMIES, k requires 0 <= k < NUM_MAX_ENEMIES =>
      FormationSlot(NUM_MAX_ENEMIES - 1 - k, ENEMY_SIZE, heals[NUM_MAX_ENEMIES - 1 - k]))
  }

  ghost predicate Sized(s: seq<Enemy>)
  {
    forall k :: 0 <= k < |s| ==> s[k].rec.width == ENEMY_SIZE
  }

  /** InitEnemies fills the whole pool with live, active, full-size enemies. */
  lemma FormationFresh(before: seq<Enemy>, heals: seq<bool>)
    requires |before| == NUM_MAX_ENEMIES && |heals| == NUM_MAX_ENEMIES
    ensures var r := Formation(before, heals);
      Sized(r) && Consistent(r) && forall k :: 0 <= k < |r| ==> r[k].active && r[k].heal == heals[NUM_MAX_ENEMIES - 1 - k]
  {
    var r := Formation(before, heals);
    forall k | 0 <= k < |r|
      ensures r[k].active && !r[k].dead && r[k].rec.width == ENEMY_SIZE && r[k].heal == heals[NUM_MAX_ENEMIES - 1 - k]
    {
      var i := NUM_MAX_ENEMIES - 1 - k;
      assert r[k] == FormationSlot(i, if i >= NUM_MAX_ENEMIES / 2 then ENEMY_SIZE else before[i].rec.width, heals[i]);
    }
  }

  /** Over a pool of full-size enemies, InitEnemies always lays out the same
      formation. */
  lemma FormationOfSized(before: seq<Enemy>, heals: seq<bool>)
    requires |before| == NUM_MAX_ENEMIES && |heals| == NUM_MAX_ENEMIES && Sized(before)
    ensures Formation(before, heals) == SteadyFormation(heals)
  {
  }

  /** On the very first InitEnemies, over the zeroed pool, the enemies whose
      iteration index is below 450 (those in slots 450..899) sit 5 units
      further left than in every later formation, because the width they read
      is still 0. */
  lemma FirstFormationShifted(heals: seq<bool>, k: int)
    requires |heals| == NUM_MAX_ENEMIES && 0 <= k < NUM_MAX_ENEMIES
    ensures var first, later := Formation(seq(NUM_MAX_ENEMIES, _ => ZERO_ENEMY), heals), SteadyFormation(heals);
      first[k].rec == (if k >= NUM_MAX_ENEMIES / 2 then later[k].rec.(x := later[k].rec.x - ENEMY_SIZE / 2.0)
                       else later[k].rec)
  {
    var zero := seq(NUM_MAX_ENEMIES, _ => ZERO_ENEMY);
    var i := NUM_MAX_ENEMIES - 1 - k;
    var first, later := Formation(zero, heals), SteadyFormation(heals);
    assert first[k] == FormationSlot(i, if i >= NUM_MAX_ENEMIES / 2 then ENEMY_SIZE else zero[i].rec.width, heals[i]);
    assert later[k] == FormationSlot(i, ENEMY_SIZE, heals[i]);
  }

  /** The update loops visit slots 0..activeEnemies-1, but InitEnemies lays
      its grid rows out from slot 899 down: the 60 slots of the first wave
      come from iterations 840..899, so they all start on the line y == 120,
      each sharing its rectangle with the slot one row (15 slots) further on. */
  lemma FirstWaveStacked(heals: seq<bool>, k: int)
    requires |heals| == NUM_MAX_ENEMIES && 0 <= k < FIRST_WAVE
    ensures var f := SteadyFormation(heals);
      f[k].rec.y == 120.0 && (k + ROW < FIRST_WAVE ==> f[k + ROW].rec == f[k].rec)
  {
    var f := SteadyFormation(heals);
    var i := NUM_MAX_ENEMIES - 1 - k;
    assert f[k] == FormationSlot(i, ENEMY_SIZE, heals[i]);
    if k + ROW < FIRST_WAVE {
      assert f[k + ROW] == FormationSlot(i - ROW, ENEMY_SIZE, heals[i - ROW]);
      assert (i - ROW) % ROW == i % ROW;
    }
  }

  /** The grid test `i <= FIRST_WAVE` admits 61 iterations: the last of them
      (slot 839) opens a fifth grid row of its own, at y == 150, below the four
      full rows, at y <= 135, of slots 840..899; every other slot sits at
      y == 120. */
  lemma GridHasLoneFifthRow(heals: seq<bool>)
    requires |heals| == NUM_MAX_ENEMIES
    ensures var f, lone := SteadyFormation(heals), NUM_MAX_ENEMIES - 1 - FIRST_WAVE;
      && f[lone].rec.y == 150.0
      && (forall k :: lone < k < NUM_MAX_ENEMIES ==> f[k].rec.y <= 135.0)
      && (forall k :: 0 <= k < lone ==> f[k].rec.y == 120.0)
  {
    var f := SteadyFormation(heals);
    forall k | 0 <= k < NUM_MAX_ENEMIES
      ensures f[k].rec.y == if NUM_MAX_ENEMIES - 1 - k > FIRST_WAVE then 120.0
                            else ((NUM_MAX_ENEMIES - 1 - k) / ROW * 15 + 90) as real
    {
      var i := NUM_MAX_ENEMIES - 1 - k;
      assert f[k] == FormationSlot(i, ENEMY_SIZE, heals[i]);
    }
    forall k | NUM_MAX_ENEMIES - 1 - FIRST_WAVE < k < NUM_MAX_ENEMIES
      ensures f[k].rec.y <= 135.0
    {
      assert (NUM_MAX_ENEMIES - 1 - k) / ROW <= 3;
    }
  }

  /** One formation tick applied to one enemy. */
  function StepEnemy(e: Enemy, goingDown: bool, movingLeft: bool): (r: Enemy)
    ensures r.active == e.active && r.dead == e.dead && r.heal == e.heal && r.speed == e.speed
    ensures r.rec.width == e.rec.width && r.rec.height == e.rec.height
    ensures !e.active ==> r == e
    ensures e.active && goingDown ==> r.rec.x == e.rec.x && r.rec.y == e.rec.y + e.speed.y
    ensures e.active && !goingDown ==>
      r.rec.y == e.rec.y && r.rec.x == e.rec.x + (if movingLeft then -e.speed.x else e.speed.x)
  {
    if !e.active then e
    else if goingDown then e.(rec := e.rec.(y := e.rec.y + e.speed.y))
    else e.(rec := e.rec.(x := e.rec.x + e.speed.x * (if movingLeft then -1.0 else 1.0)))
  }

  /** InitRowOfEnemies applied to one enemy: a dead enemy is left alone, any
      other one becomes active. */
  function Revive(e: Enemy): (r: Enemy)
    ensures r.dead == e.dead && r.rec == e.rec && r.speed == e.speed && r.heal == e.heal
    ensures r.active <==> !e.dead || e.active
  {
    if !e.dead then e.(active := true) else e
  }

  /** A formation tick over the pool: the first n enemies step. */
  function Advanced(s: seq<Enemy>, n: int, goingDown: bool, movingLeft: bool): (r: seq<Enemy>)
    ensures |r| == |s|
  {
    seq(|s|, k requires 0 <= k < |s| => if k < n then StepEnemy(s[k], goingDown, movingLeft) else s[k])
  }

  /** InitRowOfEnemies over the pool. */
  function Revived(s: seq<Enemy>): (r: seq<Enemy>)
    ensures |r| == |s|
  {
    seq(|s|, k requires 0 <= k < |s| => Revive(s[k]))
  }

  /** Neither a tick nor a new row changes which enemies are dead, moves an
      enemy's size, or breaks "dead means inactive". */
  lemma TickKeepsPool(s: seq<Enemy>, n: int, goingDown: bool, movingLeft: bool)
    ensures var a := Advanced(s, n, goingDown, movingLeft);
      (forall k :: 0 <= k < |s| ==> a[k].dead == s[k].dead && a[k].rec.width == s[k].rec.width) &&
      (Consistent(s) ==> Consistent(a))
  {
  }

  lemma RowKeepsPool(s: seq<Enemy>)
    ensures var r := Revived(s);
      (forall k :: 0 <= k < |s| ==> r[k].dead == s[k].dead && r[k].rec.width == s[k].rec.width) &&
      (Consistent(s) ==> Consistent(r)) &&
      (forall k :: 0 <= k < |s| ==> (r[k].active <==> !s[k].dead || s[k].active))
  {
  }

  /** A shot's hit on an enemy. */
  function Killed(e: Enemy): (r: Enemy)
    ensures !r.active && r.dead
    ensures r.rec == e.rec && r.speed == e.speed && r.heal == e.heal
  {
    e.(active := false, dead := true)
  }

  /** Dead enemies are never active. */
  ghost predicate Consistent(s: seq<Enemy>)
  {
    forall k :: 0 <= k < |s| ==> s[k].dead ==> !s[k].active
  }

  function CountDead(s: seq<Enemy>): (n: nat)
    ensures n <= |s|
  {
    if |s| == 0 then 0 else CountDead(s[..|s| - 1]) + (if s[|s| - 1].dead then 1 else 0)
  }

  /** Killing an enemy that is not yet dead adds exactly one to the dead count. */
  lemma {:induction false} CountDeadKill(s: seq<Enemy>, j: int)
    requires 0 <= j < |s| && !s[j].dead
    ensures CountDead(s[j := Killed(s[j])]) == CountDead(s) + 1
  {
    var n := |s| - 1;
    var t := s[j := Killed(s[j])];
    if j == n {
      assert t[..n] == s[..n];
    } else {
      assert t[..n] == s[..n][j := Killed(s[j])];
      CountDeadKill(s[..n], j);
    }
  }

  // ----------------------------------------------------------------- shots

  /** A pool slot as InitShots leaves it. */
  function ReadyShot(p: Player): (s: Shoot)
    ensures !s.active && s.speed == Vector2(0.0, -7.0)
    ensures s.rec == Rectangle(p.rec.x, p.rec.y + p.rec.height / 2.0, 5.0, 10.0)
  {
    Shoot(Rectangle(p.rec.x, p.rec.y + p.rec.height / 2.0, 5.0, 10.0), Vector2(0.0, -7.0), false)
  }

  /** A slot claimed by ShotInit: placed at the player and made active, its
      size and speed kept. */
  function Fired(s: Shoot, p: Player): (r: Shoot)
    ensures r.active && r.speed == s.speed
    ensures r.rec == s.rec.(x := p.rec.x, y := p.rec.y + p.rec.height / 4.0)
  {
    s.(rec := s.rec.(x := p.rec.x, y := p.rec.y + p.rec.height / 4.0), active := true)
  }

  /** The index of the first inactive slot, or |s| when every slot is in use. */
  function FirstFree(s: seq<Shoot>): (k: nat)
    ensures k <= |s|
    ensures forall j :: 0 <= j < k ==> s[j].active
    ensures k < |s| ==> !s[k].active
  {
    if |s| == 0 || !s[0].active then 0 else 1 + FirstFree(s[1..])
  }

  /** The pool as InitShots leaves it. */
  function ReadyPool(p: Player): (r: seq<Shoot>)
    ensures |r| == NUM_SHOOTS
  {
    seq(NUM_SHOOTS, _ => ReadyShot(p))
  }

  function CountActive(s: seq<Shoot>): (n: nat)
    ensures n <= |s|
  {
    if |s| == 0 then 0 else CountActive(s[..|s| - 1]) + (if s[|s| - 1].active then 1 else 0)
  }

  /** Activating one inactive slot adds exactly one live shot. */
  lemma {:induction false} CountActiveClaim(s: seq<Shoot>, k: int, x: Shoot)
    requires 0 <= k < |s| && !s[k].active && x.active
    ensures CountActive(s[k := x]) == CountActive(s) + 1
  {
    var n := |s| - 1;
    if k == n {
      assert s[k := x][..n] == s[..n];
    } else {
      assert s[k := x][..n] == s[..n][k := x];
      CountActiveClaim(s[..n], k, x);
    }
  }

  /** A pool in which no slot became active has no more live shots than
      before. */
  lemma {:induction false} CountActiveShrinks(a: seq<Shoot>, b: seq<Shoot>)
    requires |a| == |b| && forall k :: 0 <= k < |b| ==> b[k].active ==> a[k].active
    ensures CountActive(b) <= CountActive(a)
  {
    if |a| > 0 {
      var n := |a| - 1;
      assert forall k :: 0 <= k < n ==> b[..n][k] == b[k] && a[..n][k] == a[k];
      CountActiveShrinks(a[..n], b[..n]);
    }
  }

  /** A shot's per-frame move by its own velocity. */
  function MoveShot(s: Shoot): (r: Shoot)
    ensures r.active == s.active && r.speed == s.speed
    ensures r.rec == s.rec.(x := s.rec.x + s.speed.x, y := s.rec.y + s.speed.y)
  {
    s.(rec := s.rec.(x := s.rec.x + s.speed.x, y := s.rec.y + s.speed.y))
  }

  /** The field-exit test of ShotBehaviour: the right edge at or past the
      screen's width, or the bottom edge at or above the top. */
  predicate LeavesField(r: Rectangle)
  {
    r.x + r.width >= SCREEN_WIDTH || r.y + r.height <= 0.0
  }
}
