/** The game state of the Space-Invaders clone and its per-frame update
    (main.c:81-627 without drawing, windowing and file I/O).  The C program
    keeps this state in globals; here it is one object.  The entity globals
    (player and the three fixed-size arrays) are fields of their own; the
    scalar globals are grouped, under their C names, into two records: the
    round's status and the formation controller's clock. */
module Invaders {
  import opened Raylib
  import opened Entities
  import opened Health
  import opened Ledger
  import opened Combat

  /** One frame's input.  `right` stands for "KEY_RIGHT or D held", and so on
      for the other directions; `fire` for the space bar held; the two
      `Pressed` fields for the edge-triggered P and Enter keys; frameTime for
      the value GetFrameTime returns. */
  datatype Input = Input(right: bool, left: bool, up: bool, down: bool, fire: bool,
                         pausePressed: bool, enterPressed: bool, frameTime: real)

  /** The round's scalar globals (main.c:85-100). */
  datatype Status = Status(gameOver: bool, waitingForRestart: bool, pause: bool, score: int,
                           victory: bool, wave: EnemyWave, shootRate: int,
                           activeEnemies: int, enemiesKill: int)

  /** The formation controller's globals (main.c:102-107). */
  datatype Marching = Marching(enemyBehaviourTimerCounter: real, enemyMoveToSideCounter: int,
                               isEnemyMovingLeft: bool, goingDown: bool, progression: real)

  /** The status StartGame leaves: a new round of a new game. */
  const NEW_GAME := Status(false, false, false, 0, false, FIRST, 0, FIRST_WAVE, 0)

  /** The ledger after one LoseHp call made with vitals v, table t and the
      current score: the score is saved only by the call that ends the game,
      and only when the table admits it. */
  ghost function LedgerAfterLoss(v: Vitals, t: seq<SaveData>, score: int): seq<SaveData>
  {
    if v.Playing() && LoseHpEffect(v).gameOver && Admits(t, score)
    then Inserted(t, SaveData(PLAYER_NAME, score))
    else t
  }

  /** The vitals v and table t after a run of LoseHp calls that started
      from v0 and t0: unchanged when no call was made, otherwise as after
      the first call alone. */
  ghost predicate Collided(v0: Vitals, t0: seq<SaveData>, hit: bool, v: Vitals, t: seq<SaveData>, score: int)
  {
    v == (if hit then LoseHpEffect(v0) else v0) &&
    t == (if hit then LedgerAfterLoss(v0, t0, score) else t0)
  }

  // ------------------------------------------------ one frame, as a value

  /** Whether the formation clock reaches its period this frame. */
  predicate Ticks(m: Marching, dt: real)
  {
    m.enemyBehaviourTimerCounter + dt >= m.progression
  }

  /** Whether this frame's tick is the thirtieth, which descends and flips. */
  predicate Descends(m: Marching, dt: real)
  {
    Ticks(m, dt) && m.enemyMoveToSideCounter + 1 >= SIDE_STEPS
  }

  /** Whether this frame's descent turns the formation rightwards and so
      introduces a new row. */
  predicate RowDueAt(m: Marching, dt: real)
  {
    Descends(m, dt) && m.isEnemyMovingLeft
  }

  /** The formation controller after one EnemyBehaviour: the clock restarts
      on a tick, the side counter counts ticks modulo 30, and the thirtieth
      tick flips the direction and shortens the period by PROG_SPEED. */
  function Marched(m: Marching, dt: real): (r: Marching)
    ensures !r.goingDown
    ensures r.isEnemyMovingLeft == (m.isEnemyMovingLeft != Descends(m, dt))
    ensures 0 <= m.enemyMoveToSideCounter < SIDE_STEPS ==> 0 <= r.enemyMoveToSideCounter < SIDE_STEPS
    ensures m.progression > 0.0 ==>
      0.0 < r.progression <= m.progression && (r.progression < m.progression <==> Descends(m, dt))
  {
    var tick, descend := Ticks(m, dt), Descends(m, dt);
    Marching(if tick then 0.0 else m.enemyBehaviourTimerCounter + dt,
             if descend then 0 else if tick then m.enemyMoveToSideCounter + 1 else m.enemyMoveToSideCounter,
             m.isEnemyMovingLeft != descend,
             false,
             if descend then m.progression * (1.0 - PROG_SPEED) else m.progression)
  }

  /** The enemy pool after one EnemyBehaviour: on a tick the first n enemies
      step in the new direction (or descend), then a due row revives the pool.
      No enemy's dead flag or size changes. */
  function MarchedPool(s: seq<Enemy>, m: Marching, n: int, dt: real): (r: seq<Enemy>)
    ensures |r| == |s|
    ensures forall k :: 0 <= k < |s| ==> r[k].dead == s[k].dead && r[k].rec.width == s[k].rec.width
    ensures Consistent(s) ==> Consistent(r)
  {
    var descend := Descends(m, dt);
    var moved := if Ticks(m, dt) then Advanced(s, n, descend, m.isEnemyMovingLeft != descend) else s;
    TickKeepsPool(s, n, descend, m.isEnemyMovingLeft != descend);
    RowKeepsPool(moved);
    if RowDueAt(m, dt) then Revived(moved) else moved
  }

  /** The shot pool after ShotInit with fire held, rate being the counter
      after its step: the first free slot is claimed when the counter is a
      multiple of 20 and a slot is free, which adds exactly one live shot. */
  function Armed(s: seq<Shoot>, p: Player, rate: int): (r: seq<Shoot>)
    ensures |r| == |s|
    ensures CountActive(r) == CountActive(s) + (if rate % FIRE_PERIOD == 0 && FirstFree(s) < |s| then 1 else 0)
    ensures forall k :: 0 <= k < |s| && k != FirstFree(s) ==> r[k] == s[k]
  {
    var k := FirstFree(s);
    if rate % FIRE_PERIOD == 0 && k < |s| then
      CountActiveClaim(s, k, Fired(s[k], p));
      s[k := Fired(s[k], p)]
    else s
  }

  /** The whole game state as a value: the status, the player, the formation
      controller, and the contents of the enemy pool, the shot pool and the
      score table. */
  datatype Frame = Frame(status: Status, player: Player, marching: Marching,
                         enemies: seq<Enemy>, shots: seq<Shoot>, table: seq<SaveData>)

  /** The state with the pause cleared, as UpdateGame hands it to the
      subsystems after P has unpaused it (or it was not paused). */
  function Resumed(f: Frame): (r: Frame)
    ensures !r.status.pause
    ensures r == f <==> !f.status.pause
  {
    f.(status := f.status.(pause := false))
  }

  /** PlayerMovement on the state. */
  function Steer(f: Frame, right: bool, left: bool, up: bool, down: bool): Frame
  {
    f.(player := f.player.(rec := Steered(f.player, right, left, up, down)))
  }

  /** PlayerCollisionWithEnemies on the state: when some enemy below the
      high-water count threatens the player, one LoseHp takes effect. */
  ghost function Collide(f: Frame): Frame
  {
    var v0 := Vitals(f.player.hp, f.status.gameOver, f.status.waitingForRestart);
    var hit := Struck(f.player, f.enemies, f.status.activeEnemies);
    var v := if hit then LoseHpEffect(v0) else v0;
    f.(status := f.status.(gameOver := v.gameOver, waitingForRestart := v.waitingForRestart),
       player := f.player.(hp := v.hp),
       table := if hit then LedgerAfterLoss(v0, f.table, f.status.score) else f.table)
  }

  /** EnemyBehaviour on the state. */
  function March(f: Frame, dt: real): Frame
  {
    f.(marching := Marched(f.marching, dt),
       enemies := MarchedPool(f.enemies, f.marching, f.status.activeEnemies, dt),
       status := f.status.(activeEnemies := f.status.activeEnemies + if RowDueAt(f.marching, dt) then ROW else 0))
  }

  /** ShotInit on the state. */
  function Arm(f: Frame, fire: bool): Frame
  {
    if !fire then f
    else
      var rate := f.status.shootRate + FIRE_STEP;
      f.(status := f.status.(shootRate := rate), shots := Armed(f.shots, f.player, rate))
  }

  /** ShotBehaviour on the state: the fold of Combat over the whole pool. */
  function Volley(f: Frame): Frame
    requires |f.shots| <= |f.enemies| && 0 <= f.status.activeEnemies <= |f.enemies|
  {
    var c := CombatState(f.shots, f.enemies, f.status.shootRate, f.status.enemiesKill, f.status.score, f.player.hp);
    var r := OuterPass(c, |f.shots|, f.status.activeEnemies);
    f.(shots := r.shots, enemies := r.enemies, player := f.player.(hp := r.hp),
       status := f.status.(shootRate := r.shootRate, enemiesKill := r.enemiesKill, score := r.score))
  }

  /** The unpaused frame: the five subsystems composed in the source's order.
      The requires asks that no loop index passes the enemy pool. */
  ghost function PlayedFrame(f: Frame, input: Input): Frame
    requires |f.enemies| == NUM_MAX_ENEMIES && |f.shots| == NUM_SHOOTS && 0 <= f.status.activeEnemies
    requires f.status.activeEnemies + (if RowDueAt(f.marching, input.frameTime) then ROW else 0) <= NUM_MAX_ENEMIES
  {
    Volley(Arm(March(Collide(Steer(f, input.right, input.left, input.up, input.down)), input.frameTime), input.fire))
  }

  // Each step function, read off the components a method's contract gives.

  lemma SteerFrame(f: Frame, g: Frame, right: bool, left: bool, up: bool, down: bool)
    requires g == f.(player := f.player.(rec := Steered(f.player, right, left, up, down)))
    ensures g == Steer(f, right, left, up, down)
  {
  }

  lemma CollideFrame(f: Frame, g: Frame)
    requires g.marching == f.marching && g.enemies == f.enemies && g.shots == f.shots
    requires g.player.rec == f.player.rec && g.player.speed == f.player.speed
    requires g.status == f.status.(gameOver := g.status.gameOver, waitingForRestart := g.status.waitingForRestart)
    requires Collided(Vitals(f.player.hp, f.status.gameOver, f.status.waitingForRestart), f.table,
                      Struck(f.player, f.enemies, f.status.activeEnemies),
                      Vitals(g.player.hp, g.status.gameOver, g.status.waitingForRestart), g.table, f.status.score)
    ensures g == Collide(f)
  {
  }

  lemma MarchFrame(f: Frame, g: Frame, dt: real)
    requires g.player == f.player && g.shots == f.shots && g.table == f.table
    requires g.marching == Marched(f.marching, dt)
    requires g.status == f.status.(activeEnemies := f.status.activeEnemies + if RowDueAt(f.marching, dt) then ROW else 0)
    requires g.enemies == MarchedPool(f.enemies, f.marching, f.status.activeEnemies, dt)
    ensures g == March(f, dt)
  {
  }

  lemma ArmFrame(f: Frame, g: Frame, fire: bool)
    requires g.player == f.player && g.marching == f.marching && g.enemies == f.enemies && g.table == f.table
    requires g.status == f.status.(shootRate := f.status.shootRate + if fire then FIRE_STEP else 0)
    requires g.shots == if fire then Armed(f.shots, f.player, g.status.shootRate) else f.shots
    ensures g == Arm(f, fire)
  {
  }

  lemma VolleyFrame(f: Frame, g: Frame)
    requires |f.shots| <= |f.enemies| && 0 <= f.status.activeEnemies <= |f.enemies|
    requires g.marching == f.marching && g.table == f.table
    requires g.player.rec == f.player.rec && g.player.speed == f.player.speed
    requires g.status == f.status.(shootRate := g.status.shootRate, enemiesKill := g.status.enemiesKill,
                                   score := g.status.score)
    requires CombatState(g.shots, g.enemies, g.status.shootRate, g.status.enemiesKill, g.status.score, g.player.hp) ==
             OuterPass(CombatState(f.shots, f.enemies, f.status.shootRate, f.status.enemiesKill, f.status.score,
                                   f.player.hp), |f.shots|, f.status.activeEnemies)
    ensures g == Volley(f)
  {
  }

  /** A run of the five steps, state by state, is the composed frame. */
  lemma FrameChain(f0: Frame, f1: Frame, f2: Frame, f3: Frame, f4: Frame, f5: Frame, input: Input)
    requires |f0.enemies| == NUM_MAX_ENEMIES && |f0.shots| == NUM_SHOOTS && 0 <= f0.status.activeEnemies
    requires f0.status.activeEnemies + (if RowDueAt(f0.marching, input.frameTime) then ROW else 0) <= NUM_MAX_ENEMIES
    requires f1 == Steer(f0, input.right, input.left, input.up, input.down) && f2 == Collide(f1)
    requires f3 == March(f2, input.frameTime) && f4 == Arm(f3, input.fire)
    requires |f4.shots| <= |f4.enemies| && 0 <= f4.status.activeEnemies <= |f4.enemies|
    requires f5 == Volley(f4)
    ensures f5 == PlayedFrame(f0, input)
  {
  }

  /** What a frame from f to r keeps: the pause flag, the dead enemies
      (dead stay dead), the score in step with the kills, all but at most one
      hit point, the formation's pace (it only speeds up) and all but at most
      one new row, the live shots plus at most one, and the order of an
      ordered score table. */
  ghost predicate Conserves(f: Frame, r: Frame)
  {
    && |f.enemies| == |r.enemies| == NUM_MAX_ENEMIES
    && r.status.pause == f.status.pause
    && (forall k :: 0 <= k < NUM_MAX_ENEMIES ==> f.enemies[k].dead ==> r.enemies[k].dead)
    && f.status.enemiesKill <= r.status.enemiesKill
    && r.status.score - f.status.score == KILL_SCORE * (r.status.enemiesKill - f.status.enemiesKill)
    && f.player.hp - 1 <= r.player.hp <= MAX_HP
    && r.marching.progression <= f.marching.progression
    && (r.status.activeEnemies == f.status.activeEnemies || r.status.activeEnemies == f.status.activeEnemies + ROW)
    && CountActive(r.shots) <= CountActive(f.shots) + 1
    && (Sorted(f.table) ==> Sorted(r.table))
  }

  /** PlayerCollisionWithEnemies costs at most one hit point, touches only
      the vitals and the table, and keeps an ordered table ordered. */
  lemma CollideConserves(f: Frame)
    ensures var r := Collide(f);
      && r.enemies == f.enemies && r.shots == f.shots && r.marching == f.marching
      && r.status == f.status.(gameOver := r.status.gameOver, waitingForRestart := r.status.waitingForRestart)
      && r.player == f.player.(hp := r.player.hp)
      && f.player.hp - 1 <= r.player.hp <= f.player.hp
      && (Sorted(f.table) ==> Sorted(r.table))
  {
    var v0 := Vitals(f.player.hp, f.status.gameOver, f.status.waitingForRestart);
    if Sorted(f.table) && v0.Playing() && LoseHpEffect(v0).gameOver && Admits(f.table, f.status.score) {
      InsertedSorted(f.table, SaveData(PLAYER_NAME, f.status.score));
    }
  }

  /** EnemyBehaviour keeps every dead flag, only speeds the formation up,
      and adds at most one row. */
  lemma MarchConserves(f: Frame, dt: real)
    requires f.marching.progression > 0.0
    ensures var r := March(f, dt);
      && r.shots == f.shots && r.table == f.table && r.player == f.player
      && r.status == f.status.(activeEnemies := r.status.activeEnemies)
      && (r.status.activeEnemies == f.status.activeEnemies || r.status.activeEnemies == f.status.activeEnemies + ROW)
      && |r.enemies| == |f.enemies|
      && (forall k :: 0 <= k < |f.enemies| ==> r.enemies[k].dead == f.enemies[k].dead)
      && r.marching.progression <= f.marching.progression
  {
  }

  /** ShotInit adds at most one live shot and touches only the shot pool and
      the fire-rate counter. */
  lemma ArmConserves(f: Frame, fire: bool)
    ensures var r := Arm(f, fire);
      && r.enemies == f.enemies && r.table == f.table && r.player == f.player && r.marching == f.marching
      && r.status == f.status.(shootRate := r.status.shootRate)
      && |r.shots| == |f.shots| && CountActive(r.shots) <= CountActive(f.shots) + 1
  {
  }

  /** ShotBehaviour never revives an enemy or a shot, pays 100 points per
      kill, and never costs a hit point. */
  lemma VolleyConserves(f: Frame)
    requires |f.shots| <= |f.enemies| && 0 <= f.status.activeEnemies <= |f.enemies|
    requires f.player.hp <= MAX_HP
    ensures var r := Volley(f);
      && r.table == f.table && r.marching == f.marching
      && r.player == f.player.(hp := r.player.hp)
      && r.status == f.status.(shootRate := r.status.shootRate, enemiesKill := r.status.enemiesKill,
                               score := r.status.score)
      && |r.enemies| == |f.enemies|
      && (forall k :: 0 <= k < |f.enemies| ==> f.enemies[k].dead ==> r.enemies[k].dead)
      && f.status.enemiesKill <= r.status.enemiesKill
      && r.status.score - f.status.score == KILL_SCORE * (r.status.enemiesKill - f.status.enemiesKill)
      && f.player.hp <= r.player.hp <= MAX_HP
      && (forall k :: 0 <= k < |f.shots| ==> r.shots[k].active ==> f.shots[k].active)
      && CountActive(r.shots) <= CountActive(f.shots)
  {
    var c := CombatState(f.shots, f.enemies, f.status.shootRate, f.status.enemiesKill, f.status.score, f.player.hp);
    OuterPassEvolves(c, |f.shots|, f.status.activeEnemies);
    var r := OuterPass(c, |f.shots|, f.status.activeEnemies);
    CountActiveShrinks(f.shots, r.shots);
  }

  /** Every unpaused frame conserves, whatever the input, and leaves the
      player where PlayerMovement put it. */
  lemma FrameLaws(f: Frame, input: Input)
    requires |f.enemies| == NUM_MAX_ENEMIES && |f.shots| == NUM_SHOOTS && 0 <= f.status.activeEnemies
    requires f.status.activeEnemies + (if RowDueAt(f.marching, input.frameTime) then ROW else 0) <= NUM_MAX_ENEMIES
    requires f.player.hp <= MAX_HP && f.marching.progression > 0.0
    ensures Conserves(f, PlayedFrame(f, input))
    ensures PlayedFrame(f, input).player.rec == Steered(f.player, input.right, input.left, input.up, input.down)
  {
    var f1 := Steer(f, input.right, input.left, input.up, input.down);
    var f2 := Collide(f1);
    var f3 := March(f2, input.frameTime);
    var f4 := Arm(f3, input.fire);
    CollideConserves(f1);
    MarchConserves(f2, input.frameTime);
    ArmConserves(f3, input.fire);
    VolleyConserves(f4);
  }

  class Game {
    var status: Status
    var player: Player
    const enemy: array<Enemy>
    const shoot: array<Shoot>
    var marching: Marching
    const datas: array<SaveData>

    ghost predicate Shape()
    {
      enemy.Length == NUM_MAX_ENEMIES && shoot.Length == NUM_SHOOTS && datas.Length == LEDGER_SIZE
    }

    /** The invariant every frame keeps.  The high-water count is bounded
        below only: the source never caps it (see UpdateGame). */
    ghost predicate Valid()
      reads this, enemy
    {
      && Shape()
      && 0 <= marching.enemyMoveToSideCounter < SIDE_STEPS
      && !marching.goingDown
      && marching.progression > 0.0
      && status.shootRate >= 0
      && FIRST_WAVE <= status.activeEnemies
      && 0 <= player.hp <= MAX_HP && (!status.gameOver ==> 1 <= player.hp)
      && !(status.gameOver && status.waitingForRestart)
      && player.rec.width == PLAYER_SIZE && player.rec.height == PLAYER_SIZE
      && Sized(enemy[..]) && Consistent(enemy[..])
    }

    ghost function Life(): Vitals
      reads this
    {
      Vitals(player.hp, status.gameOver, status.waitingForRestart)
    }

    ghost function Battle(): CombatState
      reads this, shoot, enemy
    {
      CombatState(shoot[..], enemy[..], status.shootRate, status.enemiesKill, status.score, player.hp)
    }

    /** Whether this frame's formation tick introduces a new row. */
    ghost predicate RowDue(dt: real)
      reads this
    {
      RowDueAt(marching, dt)
    }

    ghost function Snapshot(): Frame
      reads this, enemy, shoot, datas
    {
      Frame(status, player, marching, enemy[..], shoot[..], datas[..])
    }

    /** Whether UpdateGame runs the play subsystems for this input. */
    ghost predicate Advances(input: Input)
      reads this
    {
      !status.gameOver && !status.waitingForRestart && status.pause == input.pausePressed
    }

    /** What both resets leave behind, over a pool of full-size enemies. */
    ghost predicate RoundStart(heals: seq<bool>)
      reads this, enemy, shoot
      requires Shape() && |heals| == NUM_MAX_ENEMIES
    {
      && player.rec == Rectangle(20.0, SCREEN_HEIGHT - 50.0 - PLAYER_SIZE, PLAYER_SIZE, PLAYER_SIZE)
      && player.speed == Vector2(5.0, 0.0)
      && !marching.isEnemyMovingLeft && !marching.goingDown
      && enemy[..] == SteadyFormation(heals)
      && shoot[..] == ReadyPool(player)
    }

    /** main: the zero-initialised globals, the score table as LoadGame read
        it, then StartGame.  heals gives the outcome of each random heal draw
        of InitEnemies, in draw order. */
    constructor (ledger: seq<SaveData>, heals: seq<bool>)
      requires |ledger| == LEDGER_SIZE && |heals| == NUM_MAX_ENEMIES
      ensures Valid() && datas[..] == ledger
      ensures status == NEW_GAME
      ensures marching == Marching(0.0, 0, false, false, 1.0)
      ensures player == Player(Rectangle(20.0, SCREEN_HEIGHT - 50.0, PLAYER_SIZE, PLAYER_SIZE), Vector2(5.0, 0.0), 3)
      ensures enemy[..] == Formation(seq(NUM_MAX_ENEMIES, _ => ZERO_ENEMY), heals)
      ensures shoot[..] == ReadyPool(player)
    {
      enemy := new Enemy[NUM_MAX_ENEMIES](_ => ZERO_ENEMY);
      shoot := new Shoot[NUM_SHOOTS](_ => ZERO_SHOOT);
      datas := new SaveData[LEDGER_SIZE](k requires 0 <= k < LEDGER_SIZE => ledger[k]);
      status := Status(false, false, false, 0, false, FIRST, 0, 0, 0);
      player := ZERO_PLAYER;
      marching := Marching(0.0, 0, false, false, 0.0);
      new;
      assert enemy[..] == seq(NUM_MAX_ENEMIES, _ => ZERO_ENEMY);
      StartGame(heals);
    }

    // ------------------------------------------------------------ resets

    /** Hard reset: a new game from scratch (the score table is kept). */
    method StartGame(heals: seq<bool>)
      requires Shape() && |heals| == NUM_MAX_ENEMIES && 0 <= marching.enemyMoveToSideCounter < SIDE_STEPS
      modifies this`status, this`marching, this`player, enemy, shoot
      ensures Valid()
      ensures status == NEW_GAME
      ensures marching == old(marching).(isEnemyMovingLeft := false, goingDown := false, progression := 1.0)
      ensures player == InitialPlayer(old(player), true)
      ensures enemy[..] == Formation(old(enemy[..]), heals)
      ensures shoot[..] == ReadyPool(player)
    {
      ghost var before := enemy[..];
      status := status.(shootRate := 0, pause := false, gameOver := false, waitingForRestart := false,
                        victory := false, wave := FIRST, activeEnemies := FIRST_WAVE, enemiesKill := 0, score := 0);
      marching := marching.(isEnemyMovingLeft := false, goingDown := false, progression := 1.0);
      InitPlayer(true);
      InitEnemies(heals);
      FormationFresh(before, heals);
      InitShots();
    }

    /** Soft reset after a non-fatal hit: score, kills, wave, victory flag,
        hit points and the formation's speed are kept. */
    method RezetGame(heals: seq<bool>)
      requires Valid() && !status.gameOver && |heals| == NUM_MAX_ENEMIES
      modifies this`status, this`marching, this`player, enemy, shoot
      ensures Valid() && RoundStart(heals)
      ensures status == old(status).(shootRate := 0, pause := false, gameOver := false,
                                     waitingForRestart := false, activeEnemies := FIRST_WAVE)
      ensures marching == old(marching).(isEnemyMovingLeft := false, goingDown := false)
      ensures player == InitialPlayer(old(player), false)
    {
      ghost var before := enemy[..];
      status := status.(shootRate := 0, pause := false, gameOver := false, waitingForRestart := false,
                        activeEnemies := FIRST_WAVE);
      marching := marching.(isEnemyMovingLeft := false, goingDown := false);
      InitPlayer(false);
      InitEnemies(heals);
      FormationFresh(before, heals);
      FormationOfSized(before, heals);
      InitShots();
    }

    /** One frame.  While the game is over or waiting for a restart only the
        Enter key is looked at; otherwise P toggles the pause and, unless
        paused, the player, the formation and the shots are updated, in that
        order.  The source lets activeEnemies grow without limit while the
        loops over it index a 900-slot array; the third requires asks exactly
        that no index past the array is read this frame. */
    method UpdateGame(input: Input, heals: seq<bool>)
      requires Valid() && |heals| == NUM_MAX_ENEMIES
      requires status.activeEnemies <= NUM_MAX_ENEMIES
      requires Advances(input) && RowDue(input.frameTime) ==> status.activeEnemies + ROW <= NUM_MAX_ENEMIES
      modifies this`status, this`marching, this`player, enemy, shoot, datas
      ensures Valid() && status.activeEnemies <= NUM_MAX_ENEMIES
      // the two waiting states
      ensures old(status.gameOver || status.waitingForRestart) && !input.enterPressed ==>
        status == old(status) && marching == old(marching) && player == old(player) &&
        unchanged(enemy) && unchanged(shoot) && unchanged(datas)
      ensures old(status.gameOver) && input.enterPressed ==>
        RoundStart(heals) && status == NEW_GAME &&
        marching == old(marching).(isEnemyMovingLeft := false, goingDown := false, progression := 1.0) &&
        player == InitialPlayer(old(player), true) && player.hp == MAX_HP && unchanged(datas)
      ensures old(status.waitingForRestart) && input.enterPressed ==>
        RoundStart(heals) &&
        status == old(status).(shootRate := 0, pause := false, waitingForRestart := false,
                               activeEnemies := FIRST_WAVE) &&
        marching == old(marching).(isEnemyMovingLeft := false, goingDown := false) &&
        player == InitialPlayer(old(player), false) && unchanged(datas)
      // playing
      ensures old(!status.gameOver && !status.waitingForRestart) ==>
        status.pause == (old(status.pause) != input.pausePressed)
      ensures old(!status.gameOver && !status.waitingForRestart) && status.pause ==>
        status == old(status).(pause := true) && marching == old(marching) && player == old(player) &&
        unchanged(enemy) && unchanged(shoot) && unchanged(datas)
      ensures old(Advances(input)) ==>
        var resumed := Resumed(old(Snapshot()));
        Snapshot() == PlayedFrame(resumed, input) && Conserves(resumed, Snapshot())
      ensures old(!status.gameOver && !status.waitingForRestart) ==>
        && (forall k :: 0 <= k < NUM_MAX_ENEMIES ==> old(enemy[k].dead) ==> enemy[k].dead)
        && old(status.enemiesKill) <= status.enemiesKill
        && status.score - old(status.score) == KILL_SCORE * (status.enemiesKill - old(status.enemiesKill))
        && player.hp >= old(player.hp) - 1
        && marching.progression <= old(marching.progression)
        && (status.activeEnemies == old(status.activeEnemies) ||
            status.activeEnemies == old(status.activeEnemies) + ROW)
    {
      if !status.gameOver && !status.waitingForRestart {
        if input.pausePressed {
          status := status.(pause := !status.pause);
        }
        if !status.pause {
          PlayFrame(input);
        }
      } else {
        if input.enterPressed {
          if status.gameOver {
            StartGame(heals);
            FormationOfSized(old(enemy[..]), heals);
            status := status.(gameOver := false);
          }
          if status.waitingForRestart {
            status := status.(waitingForRestart := false);
            RezetGame(heals);
          }
        }
      }
    }

    /** The unpaused branch of UpdateGame: the five subsystems in order. */
    method PlayFrame(input: Input)
      requires Valid() && status.activeEnemies <= NUM_MAX_ENEMIES
      requires RowDue(input.frameTime) ==> status.activeEnemies + ROW <= NUM_MAX_ENEMIES
      modifies this`status, this`marching, this`player, enemy, shoot, datas
      ensures Valid() && status.activeEnemies <= NUM_MAX_ENEMIES
      ensures Snapshot() == PlayedFrame(old(Snapshot()), input)
      ensures Conserves(old(Snapshot()), Snapshot())
    {
      ghost var f0 := Snapshot();
      PlayerMovement(input.right, input.left, input.up, input.down);
      ghost var f1 := Snapshot();
      PlayerCollisionWithEnemies();
      ghost var f2 := Snapshot();
      EnemyBehaviour(input.frameTime);
      ghost var f3 := Snapshot();
      ShotInit(input.fire);
      ghost var f4 := Snapshot();
      ShotBehaviour();
      FrameChain(f0, f1, f2, f3, f4, Snapshot(), input);
      FrameLaws(f0, input);
    }

    // ------------------------------------------------------------ player

    /** Moves the player by its speed for each held direction, then clamps it
        to the field. */
    method PlayerMovement(right: bool, left: bool, up: bool, down: bool)
      modifies this`player
      ensures player == old(player).(rec := Steered(old(player), right, left, up, down))
      ensures Snapshot() == Steer(old(Snapshot()), right, left, up, down)
    {
      var rec := SteerRec(player, right, left, up, down);
      player := player.(rec := rec);
      SteerFrame(old(Snapshot()), Snapshot(), right, left, up, down);
    }

    /** The arithmetic of PlayerMovement: the held keys move the rectangle by
        the player's speed, then each axis is pushed back inside the window. */
    static method SteerRec(p: Player, right: bool, left: bool, up: bool, down: bool) returns (rec: Rectangle)
      ensures rec == Steered(p, right, left, up, down)
    {
      var x, y := p.rec.x, p.rec.y;
      if right {
        x := x + p.speed.x;
      }
      if left {
        x := x - p.speed.x;
      }
      if up {
        y := y - p.speed.y;
      }
      if down {
        y := y + p.speed.y;
      }
      x := Clamp(x, p.rec.width, SCREEN_WIDTH);
      y := Clamp(y, p.rec.height, SCREEN_HEIGHT);
      rec := p.rec.(x := x, y := y);
    }

    /** One axis of the clamp in PlayerMovement: first the near edge, then the
        far one. */
    static method Clamp(pos: real, size: real, limit: real) returns (r: real)
      ensures r == ClampToField(pos, size, limit)
    {
      r := pos;
      if r <= 0.0 {
        r := 0.0;
      }
      if r + size >= limit {
        r := limit - size;
      }
    }

    /** Every enemy below the high-water count, whether active, dead or
        neither, that touches the player or has reached the top band calls
        LoseHp; the gate in LoseHp makes only the first call count. */
    method PlayerCollisionWithEnemies()
      requires Valid() && status.activeEnemies <= NUM_MAX_ENEMIES
      modifies this`player, this`status, datas
      ensures Valid()
      ensures player.rec == old(player.rec) && player.speed == old(player.speed)
      ensures status == old(status).(gameOver := status.gameOver, waitingForRestart := status.waitingForRestart)
      ensures Collided(old(Life()), old(datas[..]), Struck(old(player), enemy[..], status.activeEnemies),
                       Life(), datas[..], status.score)
      ensures old(player.hp) - 1 <= player.hp <= old(player.hp)
      ensures Snapshot() == Collide(old(Snapshot()))
    {
      var i := 0;
      while i < status.activeEnemies
        invariant 0 <= i <= status.activeEnemies
        invariant player.rec == old(player.rec) && player.speed == old(player.speed)
        invariant status == old(status).(gameOver := status.gameOver, waitingForRestart := status.waitingForRestart)
        invariant Collided(old(Life()), old(datas[..]), Struck(old(player), enemy[..], i),
                           Life(), datas[..], status.score)
      {
        if enemy[i].rec.y <= NEAR_TOP || CheckCollisionRecs(player.rec, enemy[i].rec) {
          LoseHp();
        }
        i := i + 1;
      }
      CollideFrame(old(Snapshot()), Snapshot());
    }

    method InitPlayer(startGame: bool)
      modifies this`player
      ensures player == InitialPlayer(old(player), startGame)
    {
      var rec := player.rec;
      rec := rec.(x := 20.0);
      rec := rec.(y := SCREEN_HEIGHT - 50.0 - rec.height);
      rec := rec.(width := PLAYER_SIZE, height := PLAYER_SIZE);
      player := player.(rec := rec, speed := Vector2(5.0, 0.0));
      if startGame {
        player := player.(hp := 3);
      }
    }

    /** The life-loss gate: nothing happens once the game is over or waiting
        for a restart; otherwise one hit point goes, and the game either ends
        (saving an admitted score) or waits for a restart. */
    method LoseHp()
      requires Shape()
      modifies this`player, this`status, datas
      ensures Life() == LoseHpEffect(old(Life()))
      ensures player.rec == old(player.rec) && player.speed == old(player.speed)
      ensures status == old(status).(gameOver := status.gameOver, waitingForRestart := status.waitingForRestart)
      ensures datas[..] == LedgerAfterLoss(old(Life()), old(datas[..]), status.score)
    {
      if !status.waitingForRestart && !status.gameOver {
        player := player.(hp := player.hp - 1);
        if player.hp <= 0 {
          status := status.(gameOver := true);
          var admitted := CheckScore(status.score);
          if admitted {
            Save(SaveData(PLAYER_NAME, status.score));
          }
        } else {
          status := status.(waitingForRestart := true);
        }
      }
    }

    method GainHP()
      modifies this`player
      ensures player == old(player).(hp := HealedHp(old(player.hp)))
    {
      player := player.(hp := player.hp + 1);
      if player.hp > MAX_HP {
        player := player.(hp := MAX_HP);
      }
    }

    // --------------------------------------------------------- formation

    /** One frame of the formation controller: the clock runs, and once it
        reaches the period every active enemy below the high-water count
        steps; each thirtieth tick the direction flips and the formation
        descends instead, speeds up by PROG_SPEED and, when the new direction
        is rightwards, gains a row. */
    method EnemyBehaviour(dt: real)
      requires Valid() && status.activeEnemies <= NUM_MAX_ENEMIES
      modifies enemy, this`marching, this`status
      ensures Valid()
      ensures marching == Marched(old(marching), dt)
      ensures status == old(status).(activeEnemies := old(status.activeEnemies) +
                                                      if RowDueAt(old(marching), dt) then ROW else 0)
      ensures enemy[..] == MarchedPool(old(enemy[..]), old(marching), old(status.activeEnemies), dt)
      ensures Snapshot() == March(old(Snapshot()), dt)
      ensures forall k :: 0 <= k < NUM_MAX_ENEMIES ==> enemy[k].dead == old(enemy[k].dead)
      ensures marching.progression < old(marching.progression) <==>
              marching.isEnemyMovingLeft != old(marching.isEnemyMovingLeft)
    {
      ghost var f := Snapshot();
      ghost var descend, newRow := Descends(marching, dt), RowDueAt(marching, dt);
      marching := marching.(enemyBehaviourTimerCounter := marching.enemyBehaviourTimerCounter + dt);
      if marching.enemyBehaviourTimerCounter >= marching.progression {
        marching := marching.(enemyMoveToSideCounter := marching.enemyMoveToSideCounter + 1);
        if marching.enemyMoveToSideCounter >= SIDE_STEPS {
          marching := marching.(enemyMoveToSideCounter := 0, isEnemyMovingLeft := !marching.isEnemyMovingLeft,
                                goingDown := true);
        }

        assert marching.goingDown == descend && (newRow <==> descend && !marching.isEnemyMovingLeft);
        MarchActive();

        if marching.goingDown {
          Descend();
        }

        marching := marching.(enemyBehaviourTimerCounter := 0.0);
      }
      assert status == old(status).(activeEnemies := old(status.activeEnemies) + if newRow then ROW else 0);
      MarchFrame(f, Snapshot(), dt);
    }

    /** The descent branch of EnemyBehaviour: the formation speeds up and,
        when its new direction is rightwards, gains a row. */
    method Descend()
      requires Shape()
      modifies enemy, this`marching, this`status
      ensures marching == old(marching).(progression := old(marching.progression) * (1.0 - PROG_SPEED),
                                         goingDown := false)
      ensures enemy[..] == if old(marching.isEnemyMovingLeft) then old(enemy[..]) else Revived(old(enemy[..]))
      ensures status == old(status).(activeEnemies := old(status.activeEnemies) +
                                                      if old(marching.isEnemyMovingLeft) then 0 else ROW)
    {
      marching := marching.(progression := marching.progression * (1.0 - PROG_SPEED));
      if marching.isEnemyMovingLeft == false {
        InitRowOfEnemies();
      }
      marching := marching.(goingDown := false);
    }

    /** The stepping loop of EnemyBehaviour: every active enemy below the
        high-water count descends or moves sideways, as the controller's
        flags say. */
    method MarchActive()
      requires Shape() && 0 <= status.activeEnemies <= NUM_MAX_ENEMIES
      modifies enemy
      ensures enemy[..] == Advanced(old(enemy[..]), status.activeEnemies, marching.goingDown,
                                    marching.isEnemyMovingLeft)
    {
      var i := 0;
      while i < status.activeEnemies
        invariant 0 <= i <= status.activeEnemies
        invariant forall k :: 0 <= k < i ==>
          enemy[k] == StepEnemy(old(enemy[k]), marching.goingDown, marching.isEnemyMovingLeft)
        invariant forall k :: i <= k < NUM_MAX_ENEMIES ==> enemy[k] == old(enemy[k])
      {
        if enemy[i].active {
          if marching.goingDown {
            enemy[i] := enemy[i].(rec := enemy[i].rec.(y := enemy[i].rec.y + enemy[i].speed.y));
          } else {
            enemy[i] := enemy[i].(rec := enemy[i].rec.(
              x := enemy[i].rec.x + enemy[i].speed.x * (if marching.isEnemyMovingLeft then -1.0 else 1.0)));
          }
        }
        i := i + 1;
      }
      assert forall k :: 0 <= k < NUM_MAX_ENEMIES ==>
        enemy[..][k] == Advanced(old(enemy[..]), status.activeEnemies, marching.goingDown,
                                 marching.isEnemyMovingLeft)[k];
    }

    /** Fills the whole pool, walking it from the last slot to the first:
        iteration i writes slot 899 - i and takes the x offset from the width
        of enemy[i]. */
    method InitEnemies(heals: seq<bool>)
      requires Shape() && |heals| == NUM_MAX_ENEMIES
      modifies enemy
      ensures enemy[..] == Formation(old(enemy[..]), heals)
    {
      ghost var target := Formation(enemy[..], heals);
      FormationFresh(enemy[..], heals);
      var i := 0;
      while i < NUM_MAX_ENEMIES
        invariant 0 <= i <= NUM_MAX_ENEMIES
        invariant forall k :: NUM_MAX_ENEMIES - i <= k < NUM_MAX_ENEMIES ==> enemy[k] == target[k]
        invariant forall k :: 0 <= k < NUM_MAX_ENEMIES - i ==> enemy[k] == old(enemy[k])
      {
        var slot := NUM_MAX_ENEMIES - 1 - i;
        ghost var w := if i >= NUM_MAX_ENEMIES / 2 then ENEMY_SIZE else old(enemy[i]).rec.width;
        assert enemy[i].rec.width == w by {
          if i >= NUM_MAX_ENEMIES / 2 {
            assert enemy[i] == target[i];
          }
        }
        var x := (i % ROW) as real * 35.0 + enemy[i].rec.width / 2.0;
        var y := if i <= FIRST_WAVE then ((i / ROW + 1) * 15 + 75) as real else (45 + 75) as real;
        enemy[slot] := Enemy(Rectangle(x, y, 10.0, 10.0), Vector2(3.0, (8 * 4) as real), true, false, heals[i]);
        assert enemy[slot] == FormationSlot(i, w, heals[i]) == target[slot];
        i := i + 1;
      }
      assert forall k :: 0 <= k < NUM_MAX_ENEMIES ==> enemy[..][k] == target[k];
    }

    /** Re-activates every enemy of the pool that is not dead and raises the
        high-water count by one row, with no upper limit. */
    method InitRowOfEnemies()
      requires Shape()
      modifies enemy, this`status
      ensures enemy[..] == Revived(old(enemy[..]))
      ensures status == old(status).(activeEnemies := old(status.activeEnemies) + ROW)
    {
      var i := 0;
      while i < NUM_MAX_ENEMIES
        invariant 0 <= i <= NUM_MAX_ENEMIES
        modifies enemy
        invariant forall k :: NUM_MAX_ENEMIES - i <= k < NUM_MAX_ENEMIES ==> enemy[k] == Revive(old(enemy[k]))
        invariant forall k :: 0 <= k < NUM_MAX_ENEMIES - i ==> enemy[k] == old(enemy[k])
      {
        if !enemy[NUM_MAX_ENEMIES - 1 - i].dead {
          enemy[NUM_MAX_ENEMIES - 1 - i] := enemy[NUM_MAX_ENEMIES - 1 - i].(active := true);
        }
        i := i + 1;
      }
      assert forall k :: 0 <= k < NUM_MAX_ENEMIES ==> enemy[..][k] == Revived(old(enemy[..]))[k];
      status := status.(activeEnemies := status.activeEnemies + ROW);
    }

    // ------------------------------------------------------------- shots

    /** The rate-limited spawn: with fire held the counter grows by 5, and the
        first free slot is claimed only when the new count is a multiple of 20. */
    method ShotInit(fire: bool)
      requires Shape()
      modifies this`status, shoot
      ensures status == old(status).(shootRate := old(status.shootRate) + if fire then FIRE_STEP else 0)
      ensures shoot[..] == if fire then Armed(old(shoot[..]), player, status.shootRate) else old(shoot[..])
      ensures CountActive(shoot[..]) == CountActive(old(shoot[..])) +
        (if fire && status.shootRate % FIRE_PERIOD == 0 && FirstFree(old(shoot[..])) < NUM_SHOOTS then 1 else 0)
      ensures Snapshot() == Arm(old(Snapshot()), fire)
    {
      if fire {
        status := status.(shootRate := status.shootRate + FIRE_STEP);
        ClaimSlot();
      }
      ArmFrame(old(Snapshot()), Snapshot(), fire);
    }

    /** The loop of ShotInit: the first inactive slot is placed at the player
        and made active, provided the fire counter is a multiple of 20. */
    method ClaimSlot()
      requires Shape()
      modifies shoot
      ensures shoot[..] == Armed(old(shoot[..]), player, status.shootRate)
    {
      var i := 0;
      while i < NUM_SHOOTS
        invariant 0 <= i <= NUM_SHOOTS
        invariant shoot[..] == old(shoot[..])
        invariant forall j :: 0 <= j < i ==> shoot[j].active || status.shootRate % FIRE_PERIOD != 0
      {
        if !shoot[i].active && status.shootRate % FIRE_PERIOD == 0 {
          shoot[i] := shoot[i].(rec := shoot[i].rec.(x := player.rec.x, y := player.rec.y + player.rec.height / 4.0),
                                active := true);
          break;
        }
        i := i + 1;
      }
    }

    /** Moves every active shot and resolves its hits against the enemies
        below the high-water count, as the fold Combat.OuterPass describes. */
    method ShotBehaviour()
      requires Valid() && status.activeEnemies <= NUM_MAX_ENEMIES
      modifies shoot, enemy, this`status, this`player
      ensures status == old(status).(shootRate := status.shootRate, enemiesKill := status.enemiesKill,
                                     score := status.score)
      ensures Valid()
      ensures Battle() == OuterPass(old(Battle()), NUM_SHOOTS, status.activeEnemies)
      ensures Evolves(old(Battle()), Battle(), status.activeEnemies)
      ensures player.rec == old(player.rec) && player.speed == old(player.speed)
      ensures Snapshot() == Volley(old(Snapshot()))
    {
      ghost var c0 := Battle();
      var i := 0;
      while i < NUM_SHOOTS
        invariant 0 <= i <= NUM_SHOOTS
        invariant status == old(status).(shootRate := status.shootRate, enemiesKill := status.enemiesKill,
                                         score := status.score)
        invariant Battle() == OuterPass(c0, i, status.activeEnemies)
        invariant player.rec == old(player.rec) && player.speed == old(player.speed)
      {
        ResolveShot(i);
        i := i + 1;
      }
      OuterPassEvolves(c0, NUM_SHOOTS, status.activeEnemies);
      VolleyFrame(old(Snapshot()), Snapshot());
      assert Valid();
    }

    /** One iteration of the outer loop of ShotBehaviour: an active shot moves
        and is checked against every enemy below the high-water count. */
    method ResolveShot(i: int)
      requires Shape() && 0 <= i < NUM_SHOOTS && 0 <= status.activeEnemies <= NUM_MAX_ENEMIES
      modifies shoot, enemy, this`status, this`player
      ensures status == old(status).(shootRate := status.shootRate, enemiesKill := status.enemiesKill,
                                     score := status.score)
      ensures Battle() == ShotStep(old(Battle()), i, status.activeEnemies)
      ensures player.rec == old(player.rec) && player.speed == old(player.speed)
    {
      if shoot[i].active {
        shoot[i] := shoot[i].(rec := shoot[i].rec.(x := shoot[i].rec.x + shoot[i].speed.x));
        shoot[i] := shoot[i].(rec := shoot[i].rec.(y := shoot[i].rec.y + shoot[i].speed.y));
        assert shoot[..] == old(shoot[..])[i := MoveShot(old(shoot[i]))];
        ghost var start := Battle();
        var j := 0;
        while j < status.activeEnemies
          invariant 0 <= j <= status.activeEnemies
          invariant status == old(status).(shootRate := status.shootRate, enemiesKill := status.enemiesKill,
                                           score := status.score)
          invariant Battle() == InnerPass(start, i, j)
          invariant player.rec == old(player.rec) && player.speed == old(player.speed)
        {
          ShotMeetsEnemy(i, j);
          j := j + 1;
        }
      }
    }

    /** The body of the inner loop of ShotBehaviour: shot i against enemy j. */
    method ShotMeetsEnemy(i: int, j: int)
      requires Shape() && 0 <= i < NUM_SHOOTS && 0 <= j < NUM_MAX_ENEMIES
      modifies shoot, enemy, this`status, this`player
      ensures status == old(status).(shootRate := status.shootRate, enemiesKill := status.enemiesKill,
                                     score := status.score)
      ensures Battle() == HitCheck(old(Battle()), i, j)
      ensures player.rec == old(player.rec) && player.speed == old(player.speed)
    {
      if enemy[j].active {
        if CheckCollisionRecs(shoot[i].rec, enemy[j].rec) {
          shoot[i] := shoot[i].(active := false);
          enemy[j] := enemy[j].(active := false, dead := true);
          status := status.(shootRate := 0, enemiesKill := status.enemiesKill + 1,
                            score := status.score + KILL_SCORE);
          if enemy[i].heal {
            GainHP();
          }
        }
        if LeavesField(shoot[i].rec) {
          shoot[i] := shoot[i].(active := false);
          status := status.(shootRate := 0);
        }
      }
    }

    /** Parks every shot, inactive, at the player's position. */
    method InitShots()
      requires Shape()
      modifies shoot
      ensures shoot[..] == ReadyPool(player)
    {
      var i := 0;
      while i < NUM_SHOOTS
        invariant 0 <= i <= NUM_SHOOTS
        invariant forall k :: 0 <= k < i ==> shoot[k] == ReadyShot(player)
      {
        shoot[i] := Shoot(Rectangle(player.rec.x, player.rec.y + player.rec.height / 2.0, 5.0, 10.0),
                          Vector2(0.0, -7.0), false);
        i := i + 1;
      }
      assert forall k :: 0 <= k < NUM_SHOOTS ==> shoot[..][k] == ReadyPool(player)[k];
    }

    // -------------------------------------------------------- score table

    /** The intended ranked insert: find the slot, shift the entries below it
        down by one (dropping the last), place the new entry. */
    method Save(newData: SaveData)
      requires Shape()
      modifies datas
      ensures datas[..] == Inserted(old(datas[..]), newData)
    {
      ghost var t := datas[..];
      var i := 0;
      while i < LEDGER_SIZE && newData.score < datas[i].score
        invariant 0 <= i <= LEDGER_SIZE
        invariant forall k :: 0 <= k < i ==> newData.score < t[k].score
      {
        i := i + 1;
      }
      assert i == Rank(t, newData.score);

      var j := LEDGER_SIZE - 1;
      while j > i
        invariant 0 <= j < LEDGER_SIZE && (i < LEDGER_SIZE ==> i <= j) && (i == LEDGER_SIZE ==> j == LEDGER_SIZE - 1)
        invariant forall k :: 0 <= k <= j && k < LEDGER_SIZE ==> datas[k] == t[k]
        invariant forall k :: j < k < LEDGER_SIZE ==> datas[k] == t[k - 1]
      {
        datas[j] := datas[j - 1];
        j := j - 1;
      }

      if i < LEDGER_SIZE {
        datas[i] := newData;
      }
      InsertedLayout(t, newData);
      forall k | 0 <= k < LEDGER_SIZE
        ensures datas[k] == Inserted(t, newData)[k]
      {
        if i < LEDGER_SIZE {
          assert j == i;
        }
      }
      assert datas[..] == Inserted(t, newData);
    }

    /** Whether a score beats at least one entry of the table. */
    method CheckScore(candidate: int) returns (r: bool)
      requires Shape()
      ensures r <==> Admits(datas[..], candidate)
    {
      var i := 0;
      while i < LEDGER_SIZE
        invariant 0 <= i <= LEDGER_SIZE
        invariant forall k :: 0 <= k < i ==> candidate <= datas[k].score
      {
        if candidate > datas[i].score {
          assert datas[..][i] == datas[i];
          return true;
        }
        i := i + 1;
      }
      return false;
    }
  }
}
