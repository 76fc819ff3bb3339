/** The shot pass of ShotBehaviour (main.c:509-547) as a pure fold: the
    outer loop over the shot pool, the inner loop over the enemies up to the
    high-water count, and the relation every pass keeps between the state
    before and after it.  The fold follows the C loops literally, including
    the three behaviours that look unintended (see the scenario lemmas at the
    end). */
module Combat {
  import opened Raylib
  import opened Entities
  import opened Health

  /** Everything ShotBehaviour reads or writes. */
  datatype CombatState = CombatState(shots: seq<Shoot>, enemies: seq<Enemy>,
                                     shootRate: int, enemiesKill: int, score: int, hp: int)

  /** Shot i destroys enemy j.  The heal test reads enemy i, the SHOT's index,
      exactly as main.c:534 does. */
  function Hit(c: CombatState, i: int, j: int): (r: CombatState)
    requires 0 <= i < |c.shots| && i < |c.enemies| && 0 <= j < |c.enemies|
    ensures |r.shots| == |c.shots| && |r.enemies| == |c.enemies|
    ensures r.enemies[j].dead && !r.enemies[j].active
    ensures forall k :: 0 <= k < |c.enemies| && k != j ==> r.enemies[k] == c.enemies[k]
    ensures !r.shots[i].active && forall k :: 0 <= k < |c.shots| && k != i ==> r.shots[k] == c.shots[k]
    ensures r.enemiesKill == c.enemiesKill + 1 && r.score == c.score + KILL_SCORE && r.shootRate == 0
    ensures r.hp == if c.enemies[i].heal then HealedHp(c.hp) else c.hp
  {
    var enemies := c.enemies[j := Killed(c.enemies[j])];
    c.(shots := c.shots[i := c.shots[i].(active := false)],
       enemies := enemies,
       shootRate := 0,
       enemiesKill := c.enemiesKill + 1,
       score := c.score + KILL_SCORE,
       hp := if enemies[i].heal then HealedHp(c.hp) else c.hp)
  }

  /** The body of the inner loop for shot i and enemy j.  Both tests run only
      when enemy j is active; neither looks at whether shot i is still active. */
  function HitCheck(c: CombatState, i: int, j: int): (r: CombatState)
    requires 0 <= i < |c.shots| && i < |c.enemies| && 0 <= j < |c.enemies|
    ensures |r.shots| == |c.shots| && |r.enemies| == |c.enemies|
    ensures !c.enemies[j].active ==> r == c
    ensures forall k :: 0 <= k < |c.enemies| && k != j ==> r.enemies[k] == c.enemies[k]
    ensures forall k :: 0 <= k < |c.shots| && k != i ==> r.shots[k] == c.shots[k]
  {
    if !c.enemies[j].active then c
    else
      var c1 := if CheckCollisionRecs(c.shots[i].rec, c.enemies[j].rec) then Hit(c, i, j) else c;
      if LeavesField(c1.shots[i].rec)
      then c1.(shots := c1.shots[i := c1.shots[i].(active := false)], shootRate := 0)
      else c1
  }

  /** The first n iterations of the inner loop for shot i. */
  function InnerPass(c: CombatState, i: int, n: int): (r: CombatState)
    requires 0 <= i < |c.shots| && i < |c.enemies| && 0 <= n <= |c.enemies|
    ensures |r.shots| == |c.shots| && |r.enemies| == |c.enemies|
    ensures forall k :: n <= k < |c.enemies| ==> r.enemies[k] == c.enemies[k]
    ensures forall k :: 0 <= k < |c.shots| && k != i ==> r.shots[k] == c.shots[k]
  {
    if n == 0 then c else HitCheck(InnerPass(c, i, n - 1), i, n - 1)
  }

  /** One iteration of the outer loop: an active shot moves, then is checked
      against the first ae enemies. */
  function ShotStep(c: CombatState, i: int, ae: int): (r: CombatState)
    requires 0 <= i < |c.shots| && |c.shots| <= |c.enemies| && 0 <= ae <= |c.enemies|
    ensures |r.shots| == |c.shots| && |r.enemies| == |c.enemies|
    ensures !c.shots[i].active ==> r == c
    ensures forall k :: ae <= k < |c.enemies| ==> r.enemies[k] == c.enemies[k]
    ensures forall k :: 0 <= k < |c.shots| && k != i ==> r.shots[k] == c.shots[k]
  {
    if c.shots[i].active
    then InnerPass(c.(shots := c.shots[i := MoveShot(c.shots[i])]), i, ae)
    else c
  }

  /** The first n iterations of the outer loop. */
  function OuterPass(c: CombatState, n: int, ae: int): (r: CombatState)
    requires 0 <= n <= |c.shots| <= |c.enemies| && 0 <= ae <= |c.enemies|
    ensures |r.shots| == |c.shots| && |r.enemies| == |c.enemies|
    ensures forall k :: ae <= k < |c.enemies| ==> r.enemies[k] == c.enemies[k]
    ensures forall k :: n <= k < |c.shots| ==> r.shots[k] == c.shots[k]
  {
    if n == 0 then c else ShotStep(OuterPass(c, n - 1, ae), n - 1, ae)
  }

  /** What a shot pass may do to the state, with ae the high-water count:
      an enemy either stays as it was or, if it was active and below ae, is
      killed; no shot is activated and inactive shots are untouched; score
      grows by 100 per kill; a kill leaves the fire-rate counter at 0, which
      is otherwise kept or reset; hit points never drop and never pass the
      cap when they start within it; and, given that dead enemies are inactive, the kill count grows by
      exactly the number of newly dead enemies. */
  ghost predicate Evolves(c: CombatState, r: CombatState, ae: int)
  {
    && |r.shots| == |c.shots| && |r.enemies| == |c.enemies|
    && (forall k :: 0 <= k < |c.enemies| ==>
          r.enemies[k] == c.enemies[k] ||
          (k < ae && c.enemies[k].active && r.enemies[k] == Killed(c.enemies[k])))
    && (forall k :: 0 <= k < |c.shots| ==> !c.shots[k].active ==> r.shots[k] == c.shots[k])
    && (forall k :: 0 <= k < |c.shots| ==> r.shots[k].active ==> c.shots[k].active)
    && c.enemiesKill <= r.enemiesKill
    && r.score - c.score == KILL_SCORE * (r.enemiesKill - c.enemiesKill)
    && (r.shootRate == c.shootRate || r.shootRate == 0)
    && (c.enemiesKill < r.enemiesKill ==> r.shootRate == 0)
    && (c.hp <= MAX_HP ==> c.hp <= r.hp <= MAX_HP)
    && (Consistent(c.enemies) ==>
          Consistent(r.enemies) &&
          r.enemiesKill - c.enemiesKill == CountDead(r.enemies) - CountDead(c.enemies))
  }

  lemma EvolvesRefl(c: CombatState, ae: int)
    ensures Evolves(c, c, ae)
  {
  }

  lemma EvolvesTrans(a: CombatState, b: CombatState, c: CombatState, ae: int)
    requires Evolves(a, b, ae) && Evolves(b, c, ae)
    ensures Evolves(a, c, ae)
  {
    forall k | 0 <= k < |a.enemies|
      ensures c.enemies[k] == a.enemies[k] ||
              (k < ae && a.enemies[k].active && c.enemies[k] == Killed(a.enemies[k]))
    {
      if b.enemies[k] != a.enemies[k] {
        assert !b.enemies[k].active;
      }
    }
  }

  /** A kill is a pass of the kind Evolves describes. */
  lemma HitEvolves(c: CombatState, i: int, j: int, ae: int)
    requires 0 <= i < |c.shots| && i < |c.enemies| && 0 <= j < ae <= |c.enemies| && c.enemies[j].active
    ensures Evolves(c, Hit(c, i, j), ae)
  {
    if Consistent(c.enemies) {
      CountDeadKill(c.enemies, j);
    }
  }

  /** Retiring shot i at the edge of the field is one too. */
  lemma RetireEvolves(c: CombatState, i: int, ae: int)
    requires 0 <= i < |c.shots|
    ensures Evolves(c, c.(shots := c.shots[i := c.shots[i].(active := false)], shootRate := 0), ae)
  {
  }

  /** One inner-loop iteration is a pass of the kind Evolves describes. */
  lemma HitCheckEvolves(c: CombatState, i: int, j: int, ae: int)
    requires 0 <= i < |c.shots| && i < |c.enemies| && 0 <= j < ae <= |c.enemies|
    ensures Evolves(c, HitCheck(c, i, j), ae)
  {
    if !c.enemies[j].active {
      EvolvesRefl(c, ae);
    } else {
      var c1 := if CheckCollisionRecs(c.shots[i].rec, c.enemies[j].rec) then Hit(c, i, j) else c;
      if CheckCollisionRecs(c.shots[i].rec, c.enemies[j].rec) {
        HitEvolves(c, i, j, ae);
      } else {
        EvolvesRefl(c, ae);
      }
      if LeavesField(c1.shots[i].rec) {
        RetireEvolves(c1, i, ae);
        EvolvesTrans(c, c1, HitCheck(c, i, j), ae);
      }
    }
  }

  lemma {:induction false} InnerPassEvolves(c: CombatState, i: int, n: int, ae: int)
    requires 0 <= i < |c.shots| && i < |c.enemies| && 0 <= n <= ae <= |c.enemies|
    ensures Evolves(c, InnerPass(c, i, n), ae)
  {
    if n == 0 {
      EvolvesRefl(c, ae);
    } else {
      var m := InnerPass(c, i, n - 1);
      InnerPassEvolves(c, i, n - 1, ae);
      HitCheckEvolves(m, i, n - 1, ae);
      EvolvesTrans(c, m, InnerPass(c, i, n), ae);
    }
  }

  lemma ShotStepEvolves(c: CombatState, i: int, ae: int)
    requires 0 <= i < |c.shots| <= |c.enemies| && 0 <= ae <= |c.enemies|
    ensures Evolves(c, ShotStep(c, i, ae), ae)
  {
    if c.shots[i].active {
      var moved := c.(shots := c.shots[i := MoveShot(c.shots[i])]);
      assert Evolves(c, moved, ae);
      InnerPassEvolves(moved, i, ae, ae);
      EvolvesTrans(c, moved, ShotStep(c, i, ae), ae);
    } else {
      EvolvesRefl(c, ae);
    }
  }

  /** The whole shot pass keeps the Evolves relation: hit enemies end inactive
      and dead, dead enemies stay dead, enemies at or past the high-water count
      are untouched, score and kills move in lock-step, a kill resets the fire
      rate, and hit points only grow, up to the cap. */
  lemma {:induction false} OuterPassEvolves(c: CombatState, n: int, ae: int)
    requires 0 <= n <= |c.shots| <= |c.enemies| && 0 <= ae <= |c.enemies|
    ensures Evolves(c, OuterPass(c, n, ae), ae)
  {
    if n == 0 {
      EvolvesRefl(c, ae);
    } else {
      var m := OuterPass(c, n - 1, ae);
      OuterPassEvolves(c, n - 1, ae);
      ShotStepEvolves(m, n - 1, ae);
      EvolvesTrans(c, m, OuterPass(c, n, ae), ae);
    }
  }

  // ------------------------------------------------ behaviours kept as written

  const FAR := Rectangle(300.0, 300.0, 10.0, 10.0)
  const TARGET := Rectangle(0.0, 0.0, 10.0, 10.0)
  const SHOT_SPEED := Vector2(0.0, -7.0)

  /** main.c:534 tests enemy[i].heal with the shot index i: shot 0 destroys
      the healing enemy 1, but enemy 0 does not heal, so hit points stay at 2
      where the destroyed enemy's flag would have raised them to 3. */
  lemma HealReadsShotIndex()
    ensures var c := CombatState([Shoot(Rectangle(0.0, 10.0, 5.0, 10.0), SHOT_SPEED, true)],
                                 [Enemy(FAR, Vector2(3.0, 32.0), false, true, false),
                                  Enemy(TARGET, Vector2(3.0, 32.0), true, false, true)],
                                 0, 0, 0, 2);
            var r := OuterPass(c, 1, 2);
            r.enemies[1].dead && r.enemies[1].heal && r.enemiesKill == 1 && r.hp == 2
  {
    var c := CombatState([Shoot(Rectangle(0.0, 10.0, 5.0, 10.0), SHOT_SPEED, true)],
                         [Enemy(FAR, Vector2(3.0, 32.0), false, true, false),
                          Enemy(TARGET, Vector2(3.0, 32.0), true, false, true)],
                         0, 0, 0, 2);
    var m := c.(shots := [MoveShot(c.shots[0])]);
    assert c.shots[0 := MoveShot(c.shots[0])] == m.shots;
    assert HitCheck(m, 0, 0) == m;
    assert CheckCollisionRecs(m.shots[0].rec, m.enemies[1].rec);
    var h := Hit(m, 0, 1);
    assert h.hp == 2 && h.enemiesKill == 1;
    assert HitCheck(m, 0, 1) == h;
    assert InnerPass(m, 0, 2) == HitCheck(InnerPass(m, 0, 1), 0, 1);
    assert OuterPass(c, 1, 2) == ShotStep(c, 0, 2) == InnerPass(m, 0, 2);
  }

  /** main.c:520-536 never re-tests shoot[i].active inside the enemy loop:
      one shot overlapping two active enemies destroys both. */
  lemma OneShotKillsEveryOverlap()
    ensures var c := CombatState([Shoot(Rectangle(0.0, 10.0, 5.0, 10.0), SHOT_SPEED, true)],
                                 [Enemy(TARGET, Vector2(3.0, 32.0), true, false, false),
                                  Enemy(TARGET, Vector2(3.0, 32.0), true, false, false)],
                                 0, 0, 0, 3);
            var r := OuterPass(c, 1, 2);
            r.enemies[0].dead && r.enemies[1].dead && r.enemiesKill == 2 && r.score == 200
  {
    var c := CombatState([Shoot(Rectangle(0.0, 10.0, 5.0, 10.0), SHOT_SPEED, true)],
                         [Enemy(TARGET, Vector2(3.0, 32.0), true, false, false),
                          Enemy(TARGET, Vector2(3.0, 32.0), true, false, false)],
                         0, 0, 0, 3);
    var m := c.(shots := [MoveShot(c.shots[0])]);
    assert c.shots[0 := MoveShot(c.shots[0])] == m.shots;
    var h0 := Hit(m, 0, 0);
    assert HitCheck(m, 0, 0) == h0;
    assert h0.enemies[1].active && !h0.shots[0].active;
    var h1 := Hit(h0, 0, 1);
    assert HitCheck(h0, 0, 1) == h1;
    assert InnerPass(m, 0, 2) == HitCheck(InnerPass(m, 0, 1), 0, 1);
    assert OuterPass(c, 1, 2) == ShotStep(c, 0, 2) == InnerPass(m, 0, 2);
  }

  /** main.c:538 tests the field exit only inside the enemy[j].active branch:
      with no active enemy in range, a shot past the top edge stays active. */
  lemma ExitIgnoredWithoutTargets()
    ensures var c := CombatState([Shoot(Rectangle(0.0, -20.0, 5.0, 10.0), SHOT_SPEED, true)],
                                 [Enemy(FAR, Vector2(3.0, 32.0), false, true, false)],
                                 5, 0, 0, 3);
            var r := OuterPass(c, 1, 1);
            LeavesField(r.shots[0].rec) && r.shots[0].active && r.shootRate == 5
  {
    var c := CombatState([Shoot(Rectangle(0.0, -20.0, 5.0, 10.0), SHOT_SPEED, true)],
                         [Enemy(FAR, Vector2(3.0, 32.0), false, true, false)],
                         5, 0, 0, 3);
    var m := c.(shots := [MoveShot(c.shots[0])]);
    assert c.shots[0 := MoveShot(c.shots[0])] == m.shots;
    assert m.shots[0].rec.y == -27.0;
    assert HitCheck(m, 0, 0) == m;
    assert InnerPass(m, 0, 1) == HitCheck(InnerPass(m, 0, 0), 0, 0) == m;
    assert OuterPass(c, 1, 1) == ShotStep(OuterPass(c, 0, 1), 0, 1) == ShotStep(c, 0, 1) == InnerPass(m, 0, 1);
  }
}
