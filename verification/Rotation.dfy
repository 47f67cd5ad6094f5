/** The rotating scan of Observer.reconcile: which of the eligible nodes one pass observes, and its fairness. */
module Rotation {
  const MAX_CALLS_PER_PASS := 8

  /** Is the node at position i eligible, counting on round the list? */
  predicate At(eligible: seq<bool>, i: nat)
    requires eligible != []
  {
    eligible[i % |eligible|]
  }

  /** How many of the d positions from a on are eligible. */
  function Count(eligible: seq<bool>, a: nat, d: nat): (n: nat)
    requires eligible != []
    ensures n <= d
  {
    if d == 0 then 0 else Count(eligible, a, d - 1) + if At(eligible, a + d - 1) then 1 else 0
  }

  /** The positions, as distances from the offset, that a scan of d positions observes. */
  function Chosen(eligible: seq<bool>, a: nat, d: nat): (picks: seq<nat>)
    requires eligible != []
    ensures forall i :: 0 <= i < |picks| ==> picks[i] < d && At(eligible, a + picks[i])
    ensures forall i, j :: 0 <= i < j < |picks| ==> picks[i] < picks[j]
  {
    if d == 0 then []
    else
      var before := Chosen(eligible, a, d - 1);
      if At(eligible, a + d - 1) && |before| < MAX_CALLS_PER_PASS then before + [d - 1] else before
  }

  /** One position more of a scan. */
  lemma ChosenStep(eligible: seq<bool>, a: nat, d: nat)
    requires eligible != []
    ensures var before := Chosen(eligible, a, d);
            Chosen(eligible, a, d + 1) ==
            if eligible[(a + d) % |eligible|] && |before| < MAX_CALLS_PER_PASS then before + [d] else before
  {
  }

  /** The cursor once these places from the offset are observed. */
  function CursorPast(cursor: nat, offset: nat, picks: seq<nat>, n: nat): nat
    requires n > 0
  {
    if picks == [] then cursor else (offset + picks[|picks| - 1] + 1) % n
  }

  lemma PastOneMore(cursor: nat, offset: nat, picks: seq<nat>, d: nat, n: nat)
    requires n > 0
    ensures CursorPast(cursor, offset, picks + [d], n) == (offset + d + 1) % n
    ensures CursorPast(cursor, offset, [], n) == cursor
  {
  }

  /** Where the next pass begins. */
  function NextCursor(eligible: seq<bool>, cursor: nat): nat
    requires eligible != []
  {
    CursorPast(cursor, cursor % |eligible|, Chosen(eligible, cursor % |eligible|, |eligible|), |eligible|)
  }

  /** The pass that begins at this cursor observes the node at position t. */
  predicate Observes(eligible: seq<bool>, cursor: nat, t: nat)
    requires eligible != [] && t < |eligible|
  {
    var a := cursor % |eligible|;
    exists i :: 0 <= i < |Chosen(eligible, a, |eligible|)| && (a + Chosen(eligible, a, |eligible|)[i]) % |eligible| == t
  }

  /** The cursor after k passes over an unchanged list. */
  function CursorAfter(eligible: seq<bool>, cursor: nat, k: nat): nat
    requires eligible != []
  {
    if k == 0 then cursor else NextCursor(eligible, CursorAfter(eligible, cursor, k - 1))
  }

  // ----- counting ---------------------------------------------------------------------

  lemma {:induction false} CountSplits(eligible: seq<bool>, a: nat, d1: nat, d2: nat)
    requires eligible != []
    ensures Count(eligible, a, d1 + d2) == Count(eligible, a, d1) + Count(eligible, a + d1, d2)
  {
    if d2 > 0 {
      CountSplits(eligible, a, d1, d2 - 1);
      assert a + (d1 + d2) - 1 == (a + d1) + d2 - 1;
    }
  }

  lemma SameRemainder(a: nat, n: nat, j: nat)
    requires n > 0
    ensures (a % n + j) % n == (a + j) % n
  {
    var q, r := a / n, a % n;
    assert a == q * n + r;
    assert a + j == q * n + (r + j);
    Multiples(r + j, n, q);
  }

  lemma {:induction false} Multiples(x: nat, n: nat, q: nat)
    requires n > 0
    ensures q * n >= 0 && (q * n + x) % n == x % n
  {
    if q > 0 {
      Multiples(x, n, q - 1);
      assert q * n + x == ((q - 1) * n + x) + n;
      OneMore((q - 1) * n + x, n);
    }
  }

  lemma OneMore(y: int, n: nat)
    requires n > 0
    ensures (y + n) % n == y % n
  {
    var q, r := y / n, y % n;
    assert y + n == (q + 1) * n + r;
    Unique(y + n, n, q + 1, r);
  }

  lemma Unique(x: int, n: nat, q: int, r: nat)
    requires n > 0 && x == q * n + r && r < n
    ensures x % n == r
  {
    SameParts(n, q, r, x / n, x % n);
  }

  lemma SameParts(n: nat, q: int, r: nat, q': int, r': nat)
    requires n > 0 && q * n + r == q' * n + r' && r < n && r' < n
    ensures r == r'
  {
    AtLeast(q - q', n);
    AtLeast(q' - q, n);
    assert (q - q') * n == r' - r;
  }

  lemma AtLeast(k: int, n: nat)
    requires n > 0
    ensures k >= 1 ==> k * n >= n
    ensures k <= 0 ==> k * n <= 0
  {
  }

  lemma {:induction false} CountFolds(eligible: seq<bool>, a: nat, d: nat)
    requires eligible != []
    ensures Count(eligible, a % |eligible|, d) == Count(eligible, a, d)
  {
    if d > 0 {
      CountFolds(eligible, a, d - 1);
      SameRemainder(a, |eligible|, d - 1);
      assert a % |eligible| + d - 1 == a % |eligible| + (d - 1);
    }
  }

  /** The number of eligible nodes does not depend on where one begins to count. */
  lemma {:induction false} CountRound(eligible: seq<bool>, a: nat)
    requires eligible != []
    ensures Count(eligible, a, |eligible|) == Count(eligible, 0, |eligible|)
  {
    var n := |eligible|;
    if a > 0 {
      CountRound(eligible, a - 1);
      CountSplits(eligible, a - 1, 1, n);
      CountSplits(eligible, a - 1, n, 1);
      OneMore(a - 1, n);
      assert Count(eligible, a - 1, 1) == if At(eligible, a - 1) then 1 else 0 by {
        assert Count(eligible, a - 1, 0) == 0;
      }
      assert Count(eligible, a - 1 + n, 1) == if At(eligible, a - 1 + n) then 1 else 0 by {
        assert Count(eligible, a - 1 + n, 0) == 0;
      }
    }
  }

  /** A scan observes the first eight of the eligible nodes from its offset on. */
  lemma {:induction false} ChosenIsFirst(eligible: seq<bool>, a: nat, d: nat)
    requires eligible != []
    ensures |Chosen(eligible, a, d)| == if Count(eligible, a, d) < MAX_CALLS_PER_PASS then Count(eligible, a, d) else MAX_CALLS_PER_PASS
    ensures forall i :: 0 <= i < |Chosen(eligible, a, d)| ==> Count(eligible, a, Chosen(eligible, a, d)[i]) == i
  {
    if d > 0 {
      ChosenIsFirst(eligible, a, d - 1);
    }
  }

  lemma {:induction false} ChosenHas(eligible: seq<bool>, a: nat, d: nat, x: nat)
    requires eligible != [] && x < d && At(eligible, a + x) && Count(eligible, a, x) < MAX_CALLS_PER_PASS
    ensures x in Chosen(eligible, a, d)
  {
    if x < d - 1 {
      ChosenHas(eligible, a, d - 1, x);
    } else {
      ChosenIsFirst(eligible, a, d - 1);
    }
  }

  lemma {:induction false} CountMonotone(eligible: seq<bool>, a: nat, x: nat, y: nat)
    requires eligible != [] && x <= y
    ensures Count(eligible, a, x) <= Count(eligible, a, y)
  {
    CountSplits(eligible, a, x, y - x);
  }

  /** A scan observes at most eight nodes and none twice. */
  lemma ScanIsBounded(eligible: seq<bool>, a: nat, d: nat)
    requires eligible != [] && d <= |eligible|
    ensures var picks := Chosen(eligible, a, d);
            && |picks| <= MAX_CALLS_PER_PASS
            && forall i, j :: 0 <= i < j < |picks| ==> (a + picks[i]) % |eligible| != (a + picks[j]) % |eligible|
  {
    var picks, n := Chosen(eligible, a, d), |eligible|;
    ChosenIsFirst(eligible, a, d);
    forall i, j | 0 <= i < j < |picks| ensures (a + picks[i]) % n != (a + picks[j]) % n {
      Apart(a + picks[i], a + picks[j], n);
    }
  }

  lemma Apart(x: nat, y: nat, n: nat)
    requires n > 0 && x < y < x + n
    ensures x % n != y % n
  {
    if x % n == y % n {
      var k := y / n - x / n;
      assert y - x == k * n;
      AtLeast(k, n);
    }
  }

  // ----- fairness ---------------------------------------------------------------------

  /** How far round from the cursor position t comes. */
  function Distance(n: nat, cursor: nat, t: nat): (d: nat)
    requires t < n
    ensures d < n
  {
    if cursor % n <= t then t - cursor % n else t + n - cursor % n
  }

  lemma DistanceReaches(n: nat, cursor: nat, t: nat)
    requires t < n
    ensures (cursor % n + Distance(n, cursor, t)) % n == t
  {
    if cursor % n > t {
      OneMore(t, n);
    }
  }

  /** How many eligible nodes come before t. */
  function Rank(eligible: seq<bool>, cursor: nat, t: nat): nat
    requires eligible != [] && t < |eligible|
  {
    Count(eligible, cursor % |eligible|, Distance(|eligible|, cursor, t))
  }

  lemma RankIsBelowTotal(eligible: seq<bool>, cursor: nat, t: nat)
    requires eligible != [] && t < |eligible| && eligible[t]
    ensures Rank(eligible, cursor, t) < Count(eligible, 0, |eligible|)
  {
    var n, a, d := |eligible|, cursor % |eligible|, Distance(|eligible|, cursor, t);
    DistanceReaches(n, cursor, t);
    CountMonotone(eligible, a, d + 1, n);
    CountRound(eligible, a);
  }

  /** One pass observes an eligible node, or brings it eight places nearer. */
  lemma PassObservesOrNears(eligible: seq<bool>, cursor: nat, t: nat)
    requires eligible != [] && t < |eligible| && eligible[t]
    ensures Observes(eligible, cursor, t)
            || Rank(eligible, NextCursor(eligible, cursor), t) == Rank(eligible, cursor, t) - MAX_CALLS_PER_PASS
  {
    var n, a, d := |eligible|, cursor % |eligible|, Distance(|eligible|, cursor, t);
    DistanceReaches(n, cursor, t);
    if Rank(eligible, cursor, t) < MAX_CALLS_PER_PASS {
      ChosenHas(eligible, a, n, d);
      var i :| 0 <= i < |Chosen(eligible, a, n)| && Chosen(eligible, a, n)[i] == d;
    } else {
      PassNears(eligible, cursor, t);
    }
  }

  lemma PassNears(eligible: seq<bool>, cursor: nat, t: nat)
    requires eligible != [] && t < |eligible| && Rank(eligible, cursor, t) >= MAX_CALLS_PER_PASS
    ensures Rank(eligible, NextCursor(eligible, cursor), t) == Rank(eligible, cursor, t) - MAX_CALLS_PER_PASS
  {
    hide Distance, At;
    var n, a, d := |eligible|, cursor % |eligible|, Distance(|eligible|, cursor, t);
    ChosenIsFirst(eligible, a, n);
    CountMonotone(eligible, a, d, n);
    var last := Chosen(eligible, a, n)[7];
    Nearer(eligible, a, d, last);
    NextDistance(n, cursor, t, last);
    var b := (a + last + 1) % n;
    assert NextCursor(eligible, cursor) == b;
    Unique(b, n, 0, b);
    CountFolds(eligible, a + last + 1, d - last - 1);
    CountSplits(eligible, a, last + 1, d - last - 1);
  }

  lemma Nearer(eligible: seq<bool>, a: nat, d: nat, last: nat)
    requires eligible != [] && Count(eligible, a, last) == 7 && At(eligible, a + last) && Count(eligible, a, d) >= 8
    ensures last < d && Count(eligible, a, last + 1) == 8
  {
    if d <= last {
      CountMonotone(eligible, a, d, last);
    }
  }

  lemma NextDistance(n: nat, cursor: nat, t: nat, last: nat)
    requires t < n && last < Distance(n, cursor, t)
    ensures Distance(n, (cursor % n + last + 1) % n, t) == Distance(n, cursor, t) - last - 1
  {
    var a, d := cursor % n, Distance(n, cursor, t);
    var b := a + last + 1;
    if b < n {
      Unique(b, n, 0, b);
      Unique(b % n, n, 0, b % n);
    } else {
      Unique(b, n, 1, b - n);
      Unique(b % n, n, 0, b % n);
    }
  }

  /**
   * Fairness: over a stable list with E eligible nodes, however they are mixed with others, every
   * eligible node is observed within any ceil(E / 8) consecutive passes.
   */
  lemma EveryEligibleNodeIsObserved(eligible: seq<bool>, cursor: nat, t: nat, passes: nat)
    requires eligible != [] && t < |eligible| && eligible[t]
    requires MAX_CALLS_PER_PASS * passes >= Count(eligible, 0, |eligible|)
    ensures exists k :: 0 <= k < passes && Observes(eligible, CursorAfter(eligible, cursor, k), t)
  {
    RankIsBelowTotal(eligible, cursor, t);
    ObservedWithin(eligible, cursor, t, passes, 0);
  }

  lemma {:induction false} ObservedWithin(eligible: seq<bool>, cursor: nat, t: nat, passes: nat, k: nat)
    requires eligible != [] && t < |eligible| && eligible[t] && k <= passes
    requires Rank(eligible, CursorAfter(eligible, cursor, k), t) < MAX_CALLS_PER_PASS * (passes - k)
    ensures exists j :: k <= j < passes && Observes(eligible, CursorAfter(eligible, cursor, j), t)
    decreases passes - k
  {
    PassObservesOrNears(eligible, CursorAfter(eligible, cursor, k), t);
    if !Observes(eligible, CursorAfter(eligible, cursor, k), t) {
      ObservedWithin(eligible, cursor, t, passes, k + 1);
    }
  }

  lemma CursorSteps(eligible: seq<bool>, cursor: nat, k: nat)
    requires eligible != []
    ensures CursorAfter(eligible, cursor, 0) == cursor
    ensures CursorAfter(eligible, cursor, k + 1) == NextCursor(eligible, CursorAfter(eligible, cursor, k))
  {
  }
}
