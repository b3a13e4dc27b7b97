/**
 The exponential backoff of a page, said without powers: the first pause is one unit and each later
 one is twice the pause before it.
 */
module Pauses {
  import opened World

  predicate Doubling(s: seq<nat>) {
    forall j, k | 0 <= j < |s| && k == j + 1 && k < |s| :: s[k] == 2 * s[j]
  }

  // The pauses after the failed tries 1..n of a page.
  predicate FromOne(s: seq<nat>) { Doubling(s) && (s != [] ==> s[0] == 1) }

  function Sum(s: seq<nat>): nat {
    if s == [] then 0 else Sum(s[..|s| - 1]) + s[|s| - 1]
  }

  /** All pauses from the first try on add up to one less than twice the last. */
  lemma {:induction false} DoublingSum(s: seq<nat>)
    requires FromOne(s) && s != []
    ensures Sum(s) + 1 == 2 * s[|s| - 1]
  {
    var short := s[..|s| - 1];
    if short != [] {
      DoublingSum(short);
      assert s[|s| - 1] == 2 * s[|s| - 2];
    } else {
      assert Sum(s) == Sum([]) + s[0];
    }
  }

  // Powers of two are the pauses: after n + 1 failed tries the pause is Pow2(n).
  lemma {:induction false} PauseIsPower(s: seq<nat>, n: nat)
    requires FromOne(s) && n < |s|
    ensures s[n] == Pow2(n)
  {
    if n > 0 {
      PauseIsPower(s, n - 1);
      assert s[n] == 2 * s[n - 1];
    }
  }

  /** What a page may pause in all is exactly the sum of its pauses. */
  lemma PowerIsSum(s: seq<nat>)
    requires FromOne(s)
    ensures Pow2(|s|) == Sum(s) + 1
  {
    if s != [] {
      DoublingSum(s);
      PauseIsPower(s, |s| - 1);
    }
  }

  // The pauses of k failed tries in a row, the first of them being the one after tries + 1 tries.
  function Ladder(tries: nat, k: nat): (r: seq<nat>)
    ensures |r| == k && forall j | 0 <= j < k :: r[j] == Pow2(tries + j)
  {
    if k == 0 then [] else Ladder(tries, k - 1) + [Pow2(tries + k - 1)]
  }

  lemma LadderGrows(tries: nat, k: nat)
    ensures Ladder(tries, k + 1) == Ladder(tries, k) + [Pow2(tries + k)]
  {}

  lemma LadderDoubles(tries: nat, k: nat)
    ensures Doubling(Ladder(tries, k)) && (tries == 0 ==> FromOne(Ladder(tries, k)))
  {
    hide Pow2;
    var s := Ladder(tries, k);
    forall j, n | 0 <= j < |s| && n == j + 1 && n < |s| ensures s[n] == 2 * s[j] { NextPower(tries + j); }
    FirstPower();
  }

  lemma NextPower(n: nat)
    ensures Pow2(n + 1) == 2 * Pow2(n)
  {}

  lemma FirstPower()
    ensures Pow2(0) == 1
  {}

  // ---- the pauses of one process ----

  // The units a worker waits after that many tries.
  function UnitsAfter(tries: nat): nat { if tries == 0 then 1 else Pow2(tries - 1) }

  // One pause more, the one after that many tries.
  predicate PausedAfter(before: seq<nat>, after: seq<nat>, tries: nat) { after == before + [UnitsAfter(tries)] }

  predicate MayPause(before: seq<nat>, after: seq<nat>, tries: nat) {
    after == before || PausedAfter(before, after, tries)
  }

  // What a process adds to its pauses while it works on a page with that many tries: each pause is twice
  // the one before, and the first of a page that had no try is one unit.
  predicate Climbs(before: seq<nat>, after: seq<nat>, tries: nat) {
    && before <= after && Doubling(after[|before|..]) && (tries == 0 ==> FromOne(after[|before|..]))
  }

  lemma LadderClimbs(before: seq<nat>, after: seq<nat>, tries: nat, k: nat)
    requires MayPause(before + Ladder(tries, k), after, tries + k + 1)
    ensures Climbs(before, after, tries)
  {
    hide Ladder, Pow2, Doubling, FromOne;
    LadderGrows(tries, k);
    LadderDoubles(tries, k);
    LadderDoubles(tries, k + 1);
    if after == before + Ladder(tries, k) {
      assert after[|before|..] == Ladder(tries, k);
    } else {
      assert after == before + (Ladder(tries, k) + [Pow2(tries + k)]);
      assert after[|before|..] == Ladder(tries, k + 1);
    }
  }

  lemma NextRung(before: seq<nat>, after: seq<nat>, tries: nat, k: nat)
    requires PausedAfter(before + Ladder(tries, k), after, tries + k + 1)
    ensures after == before + Ladder(tries, k + 1)
  {
    hide Ladder, Pow2;
    LadderGrows(tries, k);
  }

  lemma NoRung(before: seq<nat>, tries: nat)
    ensures before + Ladder(tries, 0) == before && Climbs(before, before, tries)
  {}

  lemma SamePause(pauses: seq<nat>, tries: nat)
    ensures MayPause(pauses, pauses, tries)
  {}

  // One round of the retry loop, seen from its start.
  lemma StepOnLadder(before: seq<nat>, after: seq<nat>, tries: nat, k: nat, again: bool, raised: bool)
    requires if again then PausedAfter(before + Ladder(tries, k), after, tries + k + 1)
             else if raised then MayPause(before + Ladder(tries, k), after, tries + k + 1)
             else after == before + Ladder(tries, k)
    ensures if again then after == before + Ladder(tries, k + 1) else Climbs(before, after, tries)
  {
    hide Ladder, Climbs, PausedAfter;
    if again {
      NextRung(before, after, tries, k);
    } else {
      LadderClimbs(before, after, tries, k);
    }
  }
}
