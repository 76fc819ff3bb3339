/** Hit points and the two flags that stop play: the life-loss gate of
    LoseHp (main.c:385-402) and the capped heal of GainHP (main.c:404-409). */
module Health {

  const MAX_HP := 3

  /** The part of the game state LoseHp reads and writes. */
  datatype Vitals = Vitals(hp: int, gameOver: bool, waitingForRestart: bool)
  {
    /** Play runs only when neither flag is set. */
    predicate Playing() { !gameOver && !waitingForRestart }
  }

  /** The effect of one LoseHp call on the vitals. */
  function LoseHpEffect(v: Vitals): (r: Vitals)
    ensures !v.Playing() ==> r == v
    ensures v.Playing() ==> r.hp == v.hp - 1 && (r.gameOver <==> r.hp <= 0) && (r.waitingForRestart <==> !r.gameOver)
    ensures !r.Playing()
  {
    if !v.waitingForRestart && !v.gameOver then
      var hp := v.hp - 1;
      if hp <= 0 then v.(hp := hp, gameOver := true) else v.(hp := hp, waitingForRestart := true)
    else v
  }

  /** The effect of n LoseHp calls in a row. */
  function LoseHpRepeated(v: Vitals, n: nat): Vitals
  {
    if n == 0 then v else LoseHpEffect(LoseHpRepeated(v, n - 1))
  }

  /** However many times LoseHp runs, only the first call has an effect: hit
      points drop by at most one, and never both flags end up set. */
  lemma {:induction false} LoseHpAtMostOnce(v: Vitals, n: nat)
    ensures LoseHpRepeated(v, n) == if n == 0 then v else LoseHpEffect(v)
    ensures LoseHpRepeated(v, n).hp >= v.hp - 1
    ensures !(v.gameOver && v.waitingForRestart) ==>
      !(LoseHpRepeated(v, n).gameOver && LoseHpRepeated(v, n).waitingForRestart)
  {
    if n > 1 {
      LoseHpAtMostOnce(v, n - 1);
    }
  }

  /** The hit points after GainHP. */
  function HealedHp(hp: int): (r: int)
    ensures r <= MAX_HP
    ensures hp < MAX_HP ==> r == hp + 1
    ensures hp >= MAX_HP ==> r == MAX_HP
  {
    if hp + 1 > MAX_HP then MAX_HP else hp + 1
  }
}
