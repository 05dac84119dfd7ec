/**
 The credit rank of a node's vote account: the current accounts are sorted in place, stably, by
 credit difference, and the first account of the node gives the rank.
 */
module VoteRank {
  import opened Wrappers
  import opened Words

  /** One epoch's entry: epoch, credits, previous credits. */
  datatype EpochCredits = EpochCredits(epoch: int64, credits: int64, previous: int64)

  datatype VoteAccount = VoteAccount(nodePubkey: string, epochCredits: seq<EpochCredits>)

  /** Credits earned in the last epoch, in wrapping 64-bit arithmetic; 0 without any epoch. */
  function CreditDiff(a: VoteAccount): int64 {
    if a.epochCredits == [] then 0
    else
      var last := a.epochCredits[|a.epochCredits| - 1];
      WrapI64(last.credits - last.previous)
  }

  /** The credits a sample reports: the difference to the epoch before in the list, not to the entry's own
      previous credits. */
  function SampleCredits(a: VoteAccount): int64 {
    var n := |a.epochCredits|;
    if n == 0 then 0
    else if n == 1 then a.epochCredits[0].credits
    else WrapI64(a.epochCredits[n - 1].credits - a.epochCredits[n - 2].credits)
  }

  lemma WrapTellsApart(x: int64, y: int64, z: int64)
    ensures WrapI64(x - y) == WrapI64(x - z) <==> y == z
    ensures WrapI64(x) == x
  {
  }

  /** A sample reports the credits the account is ranked by exactly when its last entry says of the epoch
      before what that epoch's entry says. */
  lemma SampleIsRankedByIff(a: VoteAccount)
    ensures SampleCredits(a) == CreditDiff(a) <==>
              var n := |a.epochCredits|;
              n > 0 ==> a.epochCredits[n - 1].previous == if n > 1 then a.epochCredits[n - 2].credits else 0
  {
    var n := |a.epochCredits|;
    if n > 0 {
      var last := a.epochCredits[n - 1];
      hide WrapI64;
      WrapTellsApart(last.credits, last.previous, if n > 1 then a.epochCredits[n - 2].credits else 0);
    }
  }

  // ----- The ranking without sorting

  /** `i` ranks before `j`: more credits, or as many and earlier in the list. */
  predicate Before(accounts: seq<VoteAccount>, i: nat, j: nat)
    requires i < |accounts| && j < |accounts|
  {
    var a, b := CreditDiff(accounts[i]), CreditDiff(accounts[j]);
    a > b || (a == b && i < j)
  }

  ghost function AllBefore(accounts: seq<VoteAccount>, i: nat): set<nat>
    requires i < |accounts|
  {
    set j: nat | j < |accounts| && Before(accounts, j, i)
  }

  /** One more than the accounts with strictly more credits and the earlier ones with as many. */
  ghost function Rank(accounts: seq<VoteAccount>, i: nat): nat
    requires i < |accounts|
  {
    1 + |AllBefore(accounts, i)|
  }

  lemma RankCounts(accounts: seq<VoteAccount>, i: nat)
    requires i < |accounts|
    ensures var d := CreditDiff(accounts[i]);
            Rank(accounts, i) ==
              1 + |set j: nat | j < |accounts| && CreditDiff(accounts[j]) > d|
                + |set j: nat | j < i && CreditDiff(accounts[j]) == d|
  {
    var d := CreditDiff(accounts[i]);
    var larger := set j: nat | j < |accounts| && CreditDiff(accounts[j]) > d;
    var earlier := set j: nat | j < i && CreditDiff(accounts[j]) == d;
    assert AllBefore(accounts, i) == larger + earlier;
    assert larger !! earlier;
  }

  /** A smaller rank is an earlier place: ranks order the accounts strictly. */
  lemma RankOrders(accounts: seq<VoteAccount>, i: nat, j: nat)
    requires i < |accounts| && j < |accounts|
    ensures Before(accounts, i, j) <==> Rank(accounts, i) < Rank(accounts, j)
  {
    if Before(accounts, i, j) {
      RankSmaller(accounts, i, j);
    } else if i != j {
      RankSmaller(accounts, j, i);
    }
  }

  lemma RankSmaller(accounts: seq<VoteAccount>, i: nat, j: nat)
    requires i < |accounts| && j < |accounts| && Before(accounts, i, j)
    ensures Rank(accounts, i) < Rank(accounts, j)
  {
    assert AllBefore(accounts, i) <= AllBefore(accounts, j);
    assert i in AllBefore(accounts, j) && i !in AllBefore(accounts, i);
    ProperSubsetIsSmaller(AllBefore(accounts, i), AllBefore(accounts, j));
  }

  lemma ProperSubsetIsSmaller(a: set<nat>, b: set<nat>)
    requires a < b
    ensures |a| < |b|
  {
    assert b == a + (b - a);
    assert b - a != {};
  }

  // ----- The ranking by sorting

  /** `p` names, position by position, the account of the original list that stands there. */
  ghost predicate Arrangement(p: seq<nat>, n: nat) {
    && |p| == n
    && (forall x :: 0 <= x < n ==> p[x] < n)
    && (forall x, y :: 0 <= x < y < n ==> p[x] != p[y])
  }

  ghost predicate Ranked(accounts: seq<VoteAccount>, p: seq<nat>) {
    && Arrangement(p, |accounts|)
    && forall x, y :: 0 <= x < y < |p| ==> Before(accounts, p[x], p[y])
  }

  ghost function Elements(p: seq<nat>): set<nat> {
    set x | x in p
  }

  lemma {:induction false} DistinctCount(p: seq<nat>)
    requires forall x, y :: 0 <= x < y < |p| ==> p[x] != p[y]
    ensures |Elements(p)| == |p|
  {
    if p == [] {
      assert Elements(p) == {};
    } else {
      var rest := p[..|p| - 1];
      DistinctCount(rest);
      assert Elements(p) == Elements(rest) + {p[|p| - 1]};
    }
  }

  ghost function Below(n: nat): (r: set<nat>)
    ensures |r| == n && forall j :: j in r <==> 0 <= j < n
  {
    if n == 0 then {} else Below(n - 1) + {n - 1}
  }

  /** Every account has a place. */
  lemma PlaceOf(p: seq<nat>, n: nat, j: nat) returns (x: nat)
    requires Arrangement(p, n) && j < n
    ensures x < |p| && p[x] == j
  {
    DistinctCount(p);
    if j !in Elements(p) {
      assert Elements(p) <= Below(n);
      ProperSubsetIsSmaller(Elements(p), Below(n));
    }
    x :| 0 <= x < |p| && p[x] == j;
  }

  /** In a ranked arrangement every account stands at its rank. */
  lemma PositionIsRank(accounts: seq<VoteAccount>, p: seq<nat>, k: nat)
    requires Ranked(accounts, p) && k < |p|
    ensures Rank(accounts, p[k]) == k + 1
  {
    hide CreditDiff;
    var ahead := p[..k];
    forall j: nat | j < |accounts| ensures j in AllBefore(accounts, p[k]) <==> j in ahead {
      var x := PlaceOf(p, |accounts|, j);
      if x < k {
        assert ahead[x] == j && Before(accounts, p[x], p[k]);
      } else if x > k {
        assert Before(accounts, p[k], p[x]);
      }
    }
    assert AllBefore(accounts, p[k]) == Elements(ahead);
    DistinctCount(ahead);
  }

  /** There is only one stable order, so it does not matter how the library sorts. */
  lemma StableOrderIsUnique(accounts: seq<VoteAccount>, p: seq<nat>, q: seq<nat>)
    requires Ranked(accounts, p) && Ranked(accounts, q)
    ensures p == q
  {
    forall k: nat | k < |p| ensures p[k] == q[k] {
      PositionIsRank(accounts, p, k);
      PositionIsRank(accounts, q, k);
      RankOrders(accounts, p[k], q[k]);
      RankOrders(accounts, q[k], p[k]);
    }
  }

  // ----- The sort

  /** The array holds the original accounts in the given arrangement. */
  ghost predicate Holds(a: seq<VoteAccount>, accounts: seq<VoteAccount>, p: seq<nat>) {
    && |a| == |accounts| && Arrangement(p, |accounts|)
    && forall x :: 0 <= x < |a| ==> a[x] == accounts[p[x]]
  }

  function Swapped<T>(s: seq<T>, j: nat): seq<T>
    requires 0 < j < |s|
  {
    s[j := s[j - 1]][j - 1 := s[j]]
  }

  lemma SwapHolds(a: seq<VoteAccount>, accounts: seq<VoteAccount>, p: seq<nat>, j: nat)
    requires Holds(a, accounts, p) && 0 < j < |a|
    ensures Holds(Swapped(a, j), accounts, Swapped(p, j))
  {
  }

  /** The first `i` accounts are ranked, the others are where they were. */
  ghost predicate RankedUpTo(accounts: seq<VoteAccount>, p: seq<nat>, i: nat) {
    && Arrangement(p, |accounts|) && i <= |p|
    && (forall x :: i <= x < |p| ==> p[x] == x)
    && (forall x :: 0 <= x < i ==> p[x] < i)
    && forall x, y :: 0 <= x < y < i ==> Before(accounts, p[x], p[y])
  }

  /** Account `i` is on its way down and has got to position `j`. */
  ghost predicate Sinking(accounts: seq<VoteAccount>, p: seq<nat>, i: nat, j: nat) {
    && Arrangement(p, |accounts|) && j <= i < |p| && p[j] == i
    && (forall x :: i < x < |p| ==> p[x] == x)
    && (forall x :: 0 <= x <= i && x != j ==> p[x] < i)
    && (forall x, y :: 0 <= x < y <= i && x != j && y != j ==> Before(accounts, p[x], p[y]))
    && forall y :: j < y <= i ==> Before(accounts, i, p[y])
  }

  lemma SinkOne(accounts: seq<VoteAccount>, p: seq<nat>, i: nat, j: nat)
    requires Sinking(accounts, p, i, j) && j > 0
    requires CreditDiff(accounts[p[j]]) > CreditDiff(accounts[p[j - 1]])
    ensures Sinking(accounts, Swapped(p, j), i, j - 1)
  {
    hide CreditDiff;
  }

  lemma SinkStep(a: seq<VoteAccount>, accounts: seq<VoteAccount>, p: seq<nat>, i: nat, j: nat)
    requires Holds(a, accounts, p) && Sinking(accounts, p, i, j) && 0 < j < |a|
    requires CreditDiff(a[j]) > CreditDiff(a[j - 1])
    ensures |p| == |a| && Holds(Swapped(a, j), accounts, Swapped(p, j)) && Sinking(accounts, Swapped(p, j), i, j - 1)
  {
    SinkOne(accounts, p, i, j);
    SwapHolds(a, accounts, p, j);
  }

  lemma Sunk(a: seq<VoteAccount>, accounts: seq<VoteAccount>, p: seq<nat>, i: nat, j: nat)
    requires Holds(a, accounts, p) && Sinking(accounts, p, i, j) && j < |a|
    requires j > 0 ==> CreditDiff(a[j]) <= CreditDiff(a[j - 1])
    ensures RankedUpTo(accounts, p, i + 1)
  {
    hide CreditDiff;
    forall x | 0 <= x < j ensures Before(accounts, p[x], i) {
      if x < j - 1 {
        assert Before(accounts, p[x], p[j - 1]);
      }
    }
  }

  lemma StartSinking(accounts: seq<VoteAccount>, p: seq<nat>, i: nat)
    requires RankedUpTo(accounts, p, i) && i < |accounts|
    ensures Sinking(accounts, p, i, i)
  {
    hide CreditDiff;
  }

  lemma RankedInFull(accounts: seq<VoteAccount>, p: seq<nat>)
    requires RankedUpTo(accounts, p, |accounts|)
    ensures Ranked(accounts, p)
  {
    hide CreditDiff;
  }

  /** Moves the account at `i` down past those with fewer credits. */
  method Insert(a: array<VoteAccount>, i: nat, ghost accounts: seq<VoteAccount>, ghost p: seq<nat>) returns (ghost q: seq<nat>)
    requires i < a.Length && Holds(a[..], accounts, p) && Sinking(accounts, p, i, i)
    modifies a
    ensures Holds(a[..], accounts, q) && RankedUpTo(accounts, q, i + 1)
  {
    hide *;
    q := p;
    var j := i;
    while j > 0 && CreditDiff(a[j]) > CreditDiff(a[j - 1])
      invariant 0 <= j <= i
      invariant Holds(a[..], accounts, q) && Sinking(accounts, q, i, j)
    {
      ghost var s := a[..];
      SinkStep(s, accounts, q, i, j);
      a[j], a[j - 1] := a[j - 1], a[j];
      SwappedIs(s, a[..], j);
      q := Swapped(q, j);
      j := j - 1;
    }
    Sunk(a[..], accounts, q, i, j);
  }

  /** sort.SliceStable on the accounts, as an insertion sort. */
  method SortByCredits(a: array<VoteAccount>) returns (ghost p: seq<nat>)
    modifies a
    ensures Ranked(old(a[..]), p) && Holds(a[..], old(a[..]), p)
  {
    hide *;
    ghost var accounts := a[..];
    p := seq(a.Length, i => i);
    FirstArrangement(accounts, p);
    for i := 0 to a.Length
      invariant |a[..]| == |accounts| && Holds(a[..], accounts, p) && RankedUpTo(accounts, p, i)
    {
      StartSinking(accounts, p, i);
      p := Insert(a, i, accounts, p);
    }
    RankedInFull(accounts, p);
  }

  lemma FirstArrangement(a: seq<VoteAccount>, p: seq<nat>)
    requires |p| == |a| && forall x :: 0 <= x < |p| ==> p[x] == x
    ensures Holds(a, a, p) && RankedUpTo(a, p, 0)
  {
  }

  lemma SwappedIs<T>(s: seq<T>, t: seq<T>, j: nat)
    requires 0 < j < |s| == |t| && t[j] == s[j - 1] && t[j - 1] == s[j]
    requires forall x :: 0 <= x < |s| && x != j && x != j - 1 ==> t[x] == s[x]
    ensures t == Swapped(s, j)
  {
  }

  ghost predicate NoneOf(given: seq<VoteAccount>, pubkey: string) {
    forall i :: 0 <= i < |given| ==> given[i].nodePubkey != pubkey
  }

  /** Of the node's accounts, `which` has the best rank, and `r` is that account and its rank. */
  ghost predicate BestOf(given: seq<VoteAccount>, pubkey: string, which: nat, r: (VoteAccount, nat)) {
    && which < |given| && given[which].nodePubkey == pubkey
    && r == (given[which], Rank(given, which))
    && forall j: nat :: j < |given| && given[j].nodePubkey == pubkey ==> Rank(given, which) <= Rank(given, j)
  }

  /** GetCreditRankedVoteAccountFromPubkey on the current accounts: of the accounts of a node, the
      best-ranked one and its rank in the list as the RPC node returned it. */
  method RankedVoteAccount(accounts: array<VoteAccount>, pubkey: string) returns (r: Option<(VoteAccount, nat)>, ghost which: nat)
    modifies accounts
    ensures r.None? <==> NoneOf(old(accounts[..]), pubkey)
    ensures r.Some? ==> BestOf(old(accounts[..]), pubkey, which, r.value)
  {
    ghost var given := accounts[..];
    hide *;
    which := 0;
    ghost var p := SortByCredits(accounts);
    ghost var sorted := accounts[..];
    for i := 0 to accounts.Length
      invariant accounts[..] == sorted && NoneOf(sorted[..i], pubkey)
    {
      if accounts[i].nodePubkey == pubkey {
        which := BestOfNode(sorted, given, p, pubkey, i);
        return Some((accounts[i], i + 1)), which;
      }
      NoneOfMore(sorted, pubkey, i);
    }
    assert sorted[..accounts.Length] == sorted;
    r := None;
    NoneOfNode(sorted, given, p, pubkey);
  }

  lemma NoneOfMore(s: seq<VoteAccount>, pubkey: string, i: nat)
    requires i < |s| && NoneOf(s[..i], pubkey) && s[i].nodePubkey != pubkey
    ensures NoneOf(s[..i + 1], pubkey)
  {
    assert forall x :: 0 <= x < i ==> s[..i + 1][x] == s[..i][x];
  }

  lemma BestOfNode(a: seq<VoteAccount>, given: seq<VoteAccount>, p: seq<nat>, pubkey: string, i: nat) returns (which: nat)
    requires Holds(a, given, p) && Ranked(given, p) && i < |a| && a[i].nodePubkey == pubkey
    requires NoneOf(a[..i], pubkey)
    ensures BestOf(given, pubkey, which, (a[i], i + 1)) && !NoneOf(given, pubkey)
  {
    which := p[i];
    PositionIsRank(given, p, i);
    assert forall y :: 0 <= y < i ==> a[y] == a[..i][y];
    forall j: nat | j < |given| && given[j].nodePubkey == pubkey ensures i + 1 <= Rank(given, j) {
      var x := PlaceOf(p, |given|, j);
      PositionIsRank(given, p, x);
    }
  }

  lemma NoneOfNode(a: seq<VoteAccount>, given: seq<VoteAccount>, p: seq<nat>, pubkey: string)
    requires Holds(a, given, p)
    requires NoneOf(a, pubkey)
    ensures NoneOf(given, pubkey)
  {
    forall j: nat | j < |given| ensures given[j].nodePubkey != pubkey {
      var x := PlaceOf(p, |given|, j);
      assert a[x] == given[j];
    }
  }
}
