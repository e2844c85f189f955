/**
 * The pool of client handlers and its load-balanced assignment.
 *
 * Each handler is a dictionary entry: a lower-case key, an e-mail address and a
 * `next_available_slot` counter. One assignment picks the first handler, in
 * insertion order, whose counter is minimal, displays its capitalized key, and
 * increments the counter of the entry found again under the lower-cased display
 * name.
 */
module Pool {
  import opened Wrappers
  import opened Text

  /** `k` is the first minimal position among the first `n` counters. */
  ghost predicate IsFirstMinIn(s: seq<nat>, n: nat, k: nat) {
    k < n <= |s|
    && (forall j | 0 <= j < n :: s[k] <= s[j])
    && (forall j | 0 <= j < k :: s[k] < s[j])
  }

  /** `k` is where Python's `min` over the counters stops: the first minimal position. */
  ghost predicate IsFirstMin(s: seq<nat>, k: nat) {
    IsFirstMinIn(s, |s|, k)
  }

  /** The first minimal position among the first `n` counters, scanning left to right. */
  ghost function FirstMinUpTo(s: seq<nat>, n: nat): (k: nat)
    requires 0 < n <= |s|
    ensures IsFirstMinIn(s, n, k)
  {
    if n == 1 then 0
    else
      var k' := FirstMinUpTo(s, n - 1);
      if s[n - 1] < s[k'] then n - 1 else k'
  }

  /** The first minimal position, as the left-to-right scan of `min` finds it. */
  ghost function FirstMinIndex(s: seq<nat>): (k: nat)
    requires |s| > 0
    ensures IsFirstMin(s, k)
  {
    FirstMinUpTo(s, |s|)
  }

  /** At most one position is the first minimum. */
  lemma FirstMinUnique(s: seq<nat>, i: nat, j: nat)
    requires IsFirstMin(s, i) && IsFirstMin(s, j)
    ensures i == j
  {
    var atI, atJ := s[i], s[j];
    assert !(i < j) && !(j < i);
  }

  /** The counters after one assignment: only the first minimal one grows, by one. */
  ghost function Next(s: seq<nat>): (r: seq<nat>)
    requires |s| > 0
    ensures |r| == |s|
    ensures forall i | 0 <= i < |s| && i != FirstMinIndex(s) :: r[i] == s[i]
    ensures r[FirstMinIndex(s)] == s[FirstMinIndex(s)] + 1
  {
    var k := FirstMinIndex(s);
    s[k := s[k] + 1]
  }

  /**
   * One assignment described without reference to the scan: the counter that is
   * the first minimum grows by one and every other counter stays.
   */
  lemma NextRaisesOnlyFirstMin(s: seq<nat>, i: nat)
    requires i < |s|
    ensures IsFirstMin(s, i) ==> Next(s)[i] == s[i] + 1
    ensures !IsFirstMin(s, i) ==> Next(s)[i] == s[i]
  {
    if IsFirstMin(s, i) {
      FirstMinUnique(s, i, FirstMinIndex(s));
    }
  }

  /** No two counters are more than one apart. */
  ghost predicate Balanced(s: seq<nat>) {
    forall i, j | 0 <= i < |s| && 0 <= j < |s| :: s[i] <= s[j] + 1
  }

  /** Incrementing a minimal counter keeps the counters within one of each other. */
  lemma NextKeepsBalanced(s: seq<nat>)
    requires |s| > 0 && Balanced(s)
    ensures Balanced(Next(s))
  {
  }

  /**
   * The selection step of `min(clients.items(), key=...)`: scan left to right and
   * move only on a strictly smaller counter, so ties go to the earliest handler.
   */
  method SelectHandler(slots: seq<nat>) returns (k: nat)
    requires |slots| > 0
    ensures IsFirstMin(slots, k)
  {
    k := 0;
    var i := 1;
    while i < |slots|
      invariant 1 <= i <= |slots|
      invariant IsFirstMinIn(slots, i, k)
    {
      if slots[i] < slots[k] {
        k := i;
      }
      i := i + 1;
    }
  }

  /** The position of `key` among the dictionary keys, or nothing if it is absent. */
  function IndexOf(keys: seq<string>, key: string): (r: Option<nat>)
    ensures r.Some? <==> key in keys
    ensures r.Some? ==> r.value < |keys| && keys[r.value] == key
    ensures r.Some? ==> forall j | 0 <= j < r.value :: keys[j] != key
  {
    if keys == [] then None
    else if keys[0] == key then Some(0)
    else match IndexOf(keys[1..], key)
      case None => None
      case Some(i) => Some(i + 1)
  }

  /** The total load handed out so far. */
  function Sum(s: seq<nat>): nat {
    if s == [] then 0 else Sum(s[..|s| - 1]) + s[|s| - 1]
  }

  /** Raising one counter by one raises the total by one. */
  lemma {:induction false} SumIncrement(s: seq<nat>, k: nat, t: seq<nat>)
    requires k < |s| && t == s[k := s[k] + 1]
    ensures Sum(t) == Sum(s) + 1
  {
    if k == |s| - 1 {
      assert t[..|t| - 1] == s[..|s| - 1];
    } else {
      SumIncrement(s[..|s| - 1], k, t[..|t| - 1]);
    }
  }

  /** No counter below `lo` means a total of at least `|s| * lo`. */
  lemma {:induction false} SumAtLeast(s: seq<nat>, lo: nat)
    requires forall i | 0 <= i < |s| :: lo <= s[i]
    ensures |s| * lo <= Sum(s)
  {
    if s != [] {
      SumAtLeast(s[..|s| - 1], lo);
      assert (|s| - 1) * lo + lo == |s| * lo;
    }
  }

  /** No counter above `hi` means a total of at most `|s| * hi`. */
  lemma {:induction false} SumAtMost(s: seq<nat>, hi: nat)
    requires forall i | 0 <= i < |s| :: s[i] <= hi
    ensures Sum(s) <= |s| * hi
  {
    if s != [] {
      SumAtMost(s[..|s| - 1], hi);
      assert (|s| - 1) * hi + hi == |s| * hi;
    }
  }

  /** The total exceeds `|s| * m` when no counter is below `m` and one is above it. */
  lemma {:induction false} SumAbove(s: seq<nat>, m: nat, i: nat)
    requires i < |s| && m < s[i]
    requires forall j | 0 <= j < |s| :: m <= s[j]
    ensures |s| * m < Sum(s)
  {
    if i == |s| - 1 {
      SumAtLeast(s[..|s| - 1], m);
      assert (|s| - 1) * m + m == |s| * m;
    } else {
      SumAbove(s[..|s| - 1], m, i);
      assert (|s| - 1) * m + m == |s| * m;
    }
  }

  /** The total falls short of `|s| * m` when no counter is above `m` and one is below it. */
  lemma {:induction false} SumBelow(s: seq<nat>, m: nat, i: nat)
    requires i < |s| && s[i] < m
    requires forall j | 0 <= j < |s| :: s[j] <= m
    ensures Sum(s) < |s| * m
  {
    if i == |s| - 1 {
      SumAtMost(s[..|s| - 1], m);
      assert (|s| - 1) * m + m == |s| * m;
    } else {
      SumBelow(s[..|s| - 1], m, i);
      assert (|s| - 1) * m + m == |s| * m;
    }
  }

  /** Balanced counters whose total is a multiple `|s| * m` of the pool size are all `m`. */
  lemma EvenShare(s: seq<nat>, m: nat)
    requires Balanced(s) && Sum(s) == |s| * m
    ensures forall i | 0 <= i < |s| :: s[i] == m
  {
    forall i | 0 <= i < |s|
      ensures s[i] == m
    {
      if s[i] > m {
        SumAbove(s, m, i);
      } else if s[i] < m {
        SumBelow(s, m, i);
      }
    }
  }

  /** The counters after `n` assignments. */
  ghost function Run(s: seq<nat>, n: nat): (r: seq<nat>)
    requires |s| > 0
    ensures |r| == |s|
  {
    if n == 0 then s else Next(Run(s, n - 1))
  }

  /** One assignment raises the total load by one. */
  lemma NextAddsOne(s: seq<nat>)
    requires |s| > 0
    ensures Sum(Next(s)) == Sum(s) + 1
  {
    SumIncrement(s, FirstMinIndex(s), Next(s));
  }

  /** Every assignment adds one to the total and keeps the counters balanced. */
  lemma {:induction false} RunInvariant(s: seq<nat>, n: nat)
    requires |s| > 0 && Balanced(s)
    ensures Balanced(Run(s, n)) && Sum(Run(s, n)) == Sum(s) + n
  {
    if n > 0 {
      RunInvariant(s, n - 1);
      NextKeepsBalanced(Run(s, n - 1));
      NextAddsOne(Run(s, n - 1));
    }
  }

  /**
   * Starting from equal counters, `m` rounds of one assignment per handler give
   * every handler exactly `m` assignments.
   */
  lemma FairRounds(s: seq<nat>, c: nat, m: nat)
    requires |s| > 0 && forall i | 0 <= i < |s| :: s[i] == c
    ensures forall i | 0 <= i < |s| :: Run(s, |s| * m)[i] == c + m
  {
    SumAtLeast(s, c);
    SumAtMost(s, c);
    RunInvariant(s, |s| * m);
    assert Sum(Run(s, |s| * m)) == |s| * (c + m);
    EvenShare(Run(s, |s| * m), c + m);
  }

  /** The three handlers of the application, each with its address and counter. */
  class HandlerPool {
    /** The dictionary keys, in insertion order. */
    const keys: seq<string>
    const emails: seq<string>
    /** `next_available_slot` of each handler, by position. */
    var slots: seq<nat>

    ghost predicate Valid()
      reads this
    {
      |keys| == |emails| == |slots| > 0
      && (forall i, j | 0 <= i < j < |keys| :: keys[i] != keys[j])
      && (forall i | 0 <= i < |keys| :: NoUpper(keys[i]))
      && Balanced(slots)
    }

    constructor ()
      ensures Valid()
      ensures keys == ["alpha", "beta", "gamma"]
      ensures emails == ["alpha@gmail.com", "beta@gmail.com", "gamma@gmail.com"]
      ensures slots == [0, 0, 0]
    {
      keys := ["alpha", "beta", "gamma"];
      emails := ["alpha@gmail.com", "beta@gmail.com", "gamma@gmail.com"];
      slots := [0, 0, 0];
      new;
      assert forall i | 0 <= i < 5 :: !IsUpper(keys[0][i]);
      assert forall i | 0 <= i < 4 :: !IsUpper(keys[1][i]);
      assert forall i | 0 <= i < 5 :: !IsUpper(keys[2][i]);
    }

    /**
     * Picks the first least-loaded handler, returns its display name and address,
     * and adds one to that handler's counter alone.
     */
    method Assign() returns (k: nat, name: string, email: string)
      requires Valid()
      modifies this
      ensures Valid()
      ensures IsFirstMin(old(slots), k)
      ensures name == Capitalize(keys[k]) && email == emails[k]
      ensures slots == old(slots)[k := old(slots)[k] + 1]
      ensures slots == Next(old(slots))
    {
      k := SelectHandler(slots);
      name := Capitalize(keys[k]);
      email := emails[k];
      CapitalizeRoundTripOnKey(keys[k]);
      var entry := IndexOf(keys, Lower(name)).value;
      assert entry == k;
      FirstMinUnique(slots, k, FirstMinIndex(slots));
      NextKeepsBalanced(slots);
      slots := slots[entry := slots[entry] + 1];
    }
  }

  /**
   * From the initial counters the first three assignments go to alpha, beta and
   * gamma in turn: ties go to the earliest handler.
   */
  lemma FirstRoundInInsertionOrder()
    ensures Run([0, 0, 0], 1) == [1, 0, 0]
    ensures Run([0, 0, 0], 2) == [1, 1, 0]
    ensures Run([0, 0, 0], 3) == [1, 1, 1]
  {
    FirstMinUnique([0, 0, 0], 0, FirstMinIndex([0, 0, 0]));
    FirstMinUnique([1, 0, 0], 1, FirstMinIndex([1, 0, 0]));
    FirstMinUnique([1, 1, 0], 2, FirstMinIndex([1, 1, 0]));
  }
}
