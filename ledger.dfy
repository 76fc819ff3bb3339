/** The ten-entry high-score table: which scores it admits (CheckScore,
    main.c:619-627) and the ranked insert that Save (main.c:599-617) is meant
    to perform. */
module Ledger {

  const LEDGER_SIZE := 10
  /** The name every new entry is saved under (main.c:395). */
  const PLAYER_NAME := "IRRA"

  datatype SaveData = SaveData(name: string, score: int)

  /** A score is admitted when it is strictly greater than some entry. */
  ghost predicate Admits(t: seq<SaveData>, score: int)
  {
    exists k :: 0 <= k < |t| && t[k].score < score
  }

  /** Best score first. */
  ghost predicate Sorted(t: seq<SaveData>)
  {
    forall i, j :: 0 <= i < j < |t| ==> t[i].score >= t[j].score
  }

  /** The slot a new score goes to: the first entry whose score is at or
      below it, so that every entry in front of the slot is strictly higher
      (entries further on are not looked at); |t| when every entry is
      strictly higher. */
  function Rank(t: seq<SaveData>, score: int): (p: nat)
    ensures p <= |t|
    ensures forall k :: 0 <= k < p ==> score < t[k].score
    ensures p < |t| ==> t[p].score <= score
  {
    if |t| == 0 || t[0].score <= score then 0 else 1 + Rank(t[1..], score)
  }

  /** The table after the intended Save: the new entry placed at its rank, the
      entries below it shifted down one slot, the last entry dropped. */
  function Inserted(t: seq<SaveData>, e: SaveData): (r: seq<SaveData>)
    ensures |r| == |t|
  {
    var p := Rank(t, e.score);
    if p < |t| then t[..p] + [e] + t[p..|t| - 1] else t
  }

  /** Where every entry of the table ends up after an insert. */
  lemma InsertedLayout(t: seq<SaveData>, e: SaveData)
    ensures Rank(t, e.score) == |t| ==> Inserted(t, e) == t
    ensures Rank(t, e.score) < |t| ==> Inserted(t, e)[Rank(t, e.score)] == e
    ensures forall k :: 0 <= k < Rank(t, e.score) ==> Inserted(t, e)[k] == t[k]
    ensures forall k :: Rank(t, e.score) < k < |t| ==> Inserted(t, e)[k] == t[k - 1]
  {
    var p := Rank(t, e.score);
    if p < |t| {
      SpliceLayout(t, p, e);
    }
  }

  /** Putting e in at p and dropping the last entry moves every entry from p
      on down one slot. */
  lemma SpliceLayout(t: seq<SaveData>, p: nat, e: SaveData)
    requires p < |t|
    ensures var r := t[..p] + [e] + t[p..|t| - 1];
      && r[p] == e
      && (forall k :: 0 <= k < p ==> r[k] == t[k])
      && (forall k :: p < k < |t| ==> r[k] == t[k - 1])
  {
    var front, back := t[..p] + [e], t[p..|t| - 1];
    var r := front + back;
    forall k | p < k < |t|
      ensures r[k] == t[k - 1]
    {
      assert r[k] == back[k - (p + 1)];
    }
  }

  /** An insert keeps exactly the old entries except the last one, and adds
      the new one. */
  lemma InsertedDropsOnlyLast(t: seq<SaveData>, e: SaveData)
    requires Rank(t, e.score) < |t|
    ensures multiset(Inserted(t, e)) == multiset(t) - multiset{t[|t| - 1]} + multiset{e}
  {
    SpliceMultiset(t, Rank(t, e.score), e);
  }

  /** Putting e in at p and dropping the last entry swaps one for the other. */
  lemma SpliceMultiset(t: seq<SaveData>, p: nat, e: SaveData)
    requires p < |t|
    ensures multiset(t[..p] + [e] + t[p..|t| - 1]) == multiset(t) - multiset{t[|t| - 1]} + multiset{e}
  {
    var n := |t| - 1;
    var front, back := t[..p], t[p..n];
    calc {
      t;
      t[..n] + [t[n]];
      { assert t[..n] == front + back; }
      front + back + [t[n]];
    }
    var rest := multiset(front) + multiset(back);
    assert multiset(front + back + [t[n]]) == multiset(front + back) + multiset([t[n]]);
    assert multiset(t) == rest + multiset{t[n]};
    assert multiset(front + [e] + back) == multiset(front + [e]) + multiset(back);
    assert multiset(front + [e]) == multiset(front) + multiset([e]);
    assert multiset(t) - multiset{t[n]} == rest;
  }

  /** An insert into a table sorted best-first leaves it sorted. */
  lemma InsertedSorted(t: seq<SaveData>, e: SaveData)
    requires Sorted(t)
    ensures Sorted(Inserted(t, e))
  {
    var p, r := Rank(t, e.score), Inserted(t, e);
    InsertedLayout(t, e);
    if p < |t| {
      forall i, j | 0 <= i < j < |r| ensures r[i].score >= r[j].score {
        if j < p {
        } else if i < p && j == p {
        } else if i < p {
          assert r[j] == t[j - 1];
        } else if i == p {
          assert r[j] == t[j - 1];
          assert t[p].score <= e.score;
          assert t[p].score >= t[j - 1].score || j - 1 == p;
        } else {
          assert r[i] == t[i - 1] && r[j] == t[j - 1];
        }
      }
    }
  }

  /** An admitted score always finds a slot in the table, sorted or not. */
  lemma AdmittedIsPlaced(t: seq<SaveData>, score: int)
    requires Admits(t, score)
    ensures Rank(t, score) < |t|
  {
    var k :| 0 <= k < |t| && t[k].score < score;
    assert Rank(t, score) <= k;
  }

  /** In a table sorted best-first, a score is admitted exactly when it beats
      the last (lowest) entry, which is then the one evicted. */
  lemma AdmitsIffBeatsLast(t: seq<SaveData>, score: int)
    requires Sorted(t) && |t| > 0
    ensures Admits(t, score) <==> t[|t| - 1].score < score
  {
    if Admits(t, score) {
      var k :| 0 <= k < |t| && t[k].score < score;
      assert k == |t| - 1 || t[k].score >= t[|t| - 1].score;
    }
  }

  /** The scan of Save as written (main.c:603): the loop runs on while
      `score < t[i].score || i < 10`. */
  predicate ScanGuardAsWritten(t: seq<SaveData>, score: int, i: int)
    requires 0 <= i < |t|
  {
    score < t[i].score || i < LEDGER_SIZE
  }

  /** Where the written scan stops, looking from index i on and only inside
      the table: the first index whose guard is false, or |t| when the guard
      holds at every index left, in which case the C loop runs past the end. */
  function ScanAsWritten(t: seq<SaveData>, score: int, i: nat): (p: nat)
    requires i <= |t|
    ensures i <= p <= |t|
    ensures p < |t| ==> !ScanGuardAsWritten(t, score, p)
    decreases |t| - i
  {
    if i == |t| || !ScanGuardAsWritten(t, score, i) then i else ScanAsWritten(t, score, i + 1)
  }

  /** A scan that starts where the guard holds on every index left reaches
      the end of the table. */
  lemma {:induction false} ScanRunsToEnd(t: seq<SaveData>, score: int, i: nat)
    requires i <= |t| && forall k :: i <= k < |t| ==> ScanGuardAsWritten(t, score, k)
    ensures ScanAsWritten(t, score, i) == |t|
    decreases |t| - i
  {
    if i < |t| {
      ScanRunsToEnd(t, score, i + 1);
    }
  }

  /** Whatever the table and the score, the written guard holds at every index
      of the ten-entry table, so the scan runs past the last entry and reads
      t[10].score; the C loop then stops at index 10 or later, depending on
      memory past the table, whereas the intended rank lies inside the table
      whenever the table has a place for the score.  At index 10, as at any
      later one, the shift loop `j = 9; j > i` does not run, and the entry is
      written past the table. */
  lemma ScanAsWrittenOverruns(t: seq<SaveData>, score: int)
    requires |t| == LEDGER_SIZE
    ensures forall i :: 0 <= i < |t| ==> ScanGuardAsWritten(t, score, i)
    ensures ScanAsWritten(t, score, 0) == LEDGER_SIZE
    ensures !(LEDGER_SIZE - 1 > ScanAsWritten(t, score, 0))
    ensures Rank(t, score) < LEDGER_SIZE ==> ScanAsWritten(t, score, 0) != Rank(t, score)
  {
    ScanRunsToEnd(t, score, 0);
  }
}
