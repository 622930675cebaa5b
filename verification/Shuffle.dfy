/** The Fisher-Yates shuffle: internal/games/scratch.go and internal/games/blackjack/cards.go. */
module Shuffle {

  /** Answers of the sampler: the draw for position i is a value in 0..i. */
  predicate ValidChoices(c: seq<nat>, n: nat) {
    |c| == n && forall i :: 0 <= i < n ==> c[i] <= i
  }

  function Swap<T>(s: seq<T>, i: nat, j: nat): (r: seq<T>)
    requires j <= i < |s|
    ensures |r| == |s| && r[i] == s[j] && r[j] == s[i]
    ensures forall k :: 0 <= k < |s| && k != i && k != j ==> r[k] == s[k]
  {
    s[i := s[j]][j := s[i]]
  }

  /** The loop from position i down to 1. */
  function Steps<T>(s: seq<T>, c: seq<nat>, i: nat): (r: seq<T>)
    requires ValidChoices(c, |s|) && i < |s|
    ensures |r| == |s|
    decreases i
  {
    if i == 0 then s else Steps(Swap(s, i, c[i]), c, i - 1)
  }

  function Shuffled<T>(s: seq<T>, c: seq<nat>): (r: seq<T>)
    requires ValidChoices(c, |s|)
  {
    if s == [] then [] else Steps(s, c, |s| - 1)
  }

  method ShuffleInPlace<T>(cells: array<T>, c: seq<nat>)
    requires ValidChoices(c, cells.Length)
    modifies cells
    ensures cells[..] == Shuffled(old(cells[..]), c)
  {
    var i := cells.Length - 1;
    while i > 0
      invariant i < cells.Length
      invariant i >= 0 ==> Shuffled(old(cells[..]), c) == Steps(cells[..], c, i)
      invariant i < 0 ==> cells.Length == 0
    {
      var j := c[i];
      ghost var before := cells[..];
      cells[i], cells[j] := cells[j], cells[i];
      assert cells[..] == Swap(before, i, j);
      i := i - 1;
    }
  }

  lemma {:induction false} StepsKeep<T>(s: seq<T>, c: seq<nat>, i: nat, k: nat)
    requires ValidChoices(c, |s|) && i < k < |s|
    ensures Steps(s, c, i)[k] == s[k]
    decreases i
  {
    if i > 0 { StepsKeep(Swap(s, i, c[i]), c, i - 1, k); }
  }

  /** The draw for position i alone decides what ends there. */
  lemma {:induction false} StepsFixes<T>(s: seq<T>, c: seq<nat>, i: nat)
    requires ValidChoices(c, |s|) && i < |s|
    ensures Steps(s, c, i)[i] == s[c[i]]
  {
    if i > 0 { StepsKeep(Swap(s, i, c[i]), c, i - 1, i); }
  }

  lemma SwapPermutes<T>(s: seq<T>, i: nat, j: nat)
    requires j <= i < |s|
    ensures multiset(Swap(s, i, j)) == multiset(s)
    ensures multiset(Swap(s, i, j)[..i + 1]) == multiset(s[..i + 1])
  {
    assert Swap(s, i, j)[..i + 1] == s[..i + 1][i := s[j]][j := s[i]];
  }

  lemma {:induction false} StepsPermute<T>(s: seq<T>, c: seq<nat>, i: nat)
    requires ValidChoices(c, |s|) && i < |s|
    ensures multiset(Steps(s, c, i)) == multiset(s)
    decreases i
  {
    if i > 0 {
      SwapPermutes(s, i, c[i]);
      StepsPermute(Swap(s, i, c[i]), c, i - 1);
    }
  }

  /** Every choice vector yields a rearrangement. */
  lemma ShuffledPermutes<T>(s: seq<T>, c: seq<nat>)
    requires ValidChoices(c, |s|)
    ensures multiset(Shuffled(s, c)) == multiset(s)
  {
    if s != [] { StepsPermute(s, c, |s| - 1); }
  }

  predicate Distinct<T(==)>(s: seq<T>) {
    forall i, j :: 0 <= i < j < |s| ==> s[i] != s[j]
  }

  lemma {:induction false} StepsInjective<T>(s: seq<T>, c: seq<nat>, d: seq<nat>, i: nat)
    requires ValidChoices(c, |s|) && ValidChoices(d, |s|) && i < |s| && Distinct(s)
    requires Steps(s, c, i) == Steps(s, d, i)
    ensures c[..i + 1] == d[..i + 1]
    decreases i
  {
    StepsFixes(s, c, i);
    StepsFixes(s, d, i);
    assert c[i] == d[i];
    if i > 0 {
      StepsInjective(Swap(s, i, c[i]), c, d, i - 1);
      assert c[..i + 1] == c[..i] + [c[i]] && d[..i + 1] == d[..i] + [d[i]];
    }
  }

  /** On distinct elements no two choice vectors give the same arrangement. */
  lemma ShuffledInjective<T>(s: seq<T>, c: seq<nat>, d: seq<nat>)
    requires ValidChoices(c, |s|) && ValidChoices(d, |s|) && Distinct(s)
    requires Shuffled(s, c) == Shuffled(s, d)
    ensures c == d
  {
    if s != [] {
      StepsInjective(s, c, d, |s| - 1);
      assert c[..|s|] == c && d[..|s|] == d;
    }
  }

  lemma {:induction false} StepsLocal<T>(s: seq<T>, c: seq<nat>, d: seq<nat>, i: nat)
    requires ValidChoices(c, |s|) && ValidChoices(d, |s|) && i < |s|
    requires forall k :: 0 <= k <= i ==> c[k] == d[k]
    ensures Steps(s, c, i) == Steps(s, d, i)
    decreases i
  {
    if i > 0 { StepsLocal(Swap(s, i, c[i]), c, d, i - 1); }
  }

  lemma StepsExtend<T>(s: seq<T>, rest: seq<nat>, i: nat, j: nat)
    requires ValidChoices(rest, |s|) && j <= i < |s| && i > 0
    ensures ValidChoices(rest[i := j], |s|)
    ensures Steps(s, rest[i := j], i) == Steps(Swap(s, i, j), rest, i - 1)
  {
    StepsLocal(Swap(s, i, j), rest[i := j], rest, i - 1);
  }

  lemma InitPermutes<T>(u: seq<T>, t: seq<T>, i: nat)
    requires |u| == |t| && i < |u| && u[i] == t[i]
    requires multiset(u[..i + 1]) == multiset(t[..i + 1])
    ensures multiset(u[..i]) == multiset(t[..i])
  {
    ButLast(u, i);
    ButLast(t, i);
  }

  lemma ButLast<T>(s: seq<T>, i: nat)
    requires i < |s|
    ensures multiset(s[..i]) == multiset(s[..i + 1]) - multiset{s[i]}
  {
    assert s[..i + 1] == s[..i] + [s[i]];
  }

  lemma FindDraw<T>(s: seq<T>, t: seq<T>, i: nat) returns (j: nat)
    requires |s| == |t| && i < |s|
    requires multiset(s[..i + 1]) == multiset(t[..i + 1])
    ensures j <= i && s[j] == t[i]
  {
    assert t[..i + 1][i] in multiset(s[..i + 1]);
    j :| 0 <= j <= i && s[..i + 1][j] == t[i];
  }

  /** Putting the right element in place leaves a smaller rearrangement to reach. */
  lemma SwapTowards<T>(s: seq<T>, t: seq<T>, i: nat, j: nat)
    requires |s| == |t| && j <= i < |s| && s[j] == t[i]
    requires multiset(s[..i + 1]) == multiset(t[..i + 1])
    requires forall k :: i < k < |s| ==> s[k] == t[k]
    ensures multiset(Swap(s, i, j)[..i]) == multiset(t[..i])
    ensures forall k :: i <= k < |s| ==> Swap(s, i, j)[k] == t[k]
  {
    SwapPermutes(s, i, j);
    InitPermutes(Swap(s, i, j), t, i);
  }

  function NoDraws(n: nat): (c: seq<nat>)
    ensures ValidChoices(c, n)
  {
    seq(n, _ => 0)
  }

  /** Recovers a choice vector for any target that rearranges the first i + 1 cells. */
  lemma {:induction false} StepsReach<T>(s: seq<T>, t: seq<T>, i: nat) returns (c: seq<nat>)
    requires |s| == |t| && i < |s|
    requires multiset(s[..i + 1]) == multiset(t[..i + 1])
    requires forall k :: i < k < |s| ==> s[k] == t[k]
    ensures ValidChoices(c, |s|) && Steps(s, c, i) == t
    decreases i
  {
    var j := FindDraw(s, t, i);
    if i == 0 {
      c := NoDraws(|s|);
      assert s == t;
    } else {
      SwapTowards(s, t, i, j);
      var rest := StepsReach(Swap(s, i, j), t, i - 1);
      c := rest[i := j];
      StepsExtend(s, rest, i, j);
    }
  }

  /** Every rearrangement is reached, repeated elements or not. */
  lemma ShuffledOnto<T>(s: seq<T>, t: seq<T>) returns (c: seq<nat>)
    requires multiset(s) == multiset(t)
    ensures ValidChoices(c, |s|) && Shuffled(s, c) == t
  {
    assert |s| == |multiset(s)| && |t| == |multiset(t)|;
    if s == [] {
      c := [];
    } else {
      assert s[..|s|] == s && t[..|t|] == t;
      c := StepsReach(s, t, |s| - 1);
    }
  }

  /** Choice vectors correspond one-to-one with the rearrangements of distinct elements. */
  lemma ShuffleBijection<T>(s: seq<T>, t: seq<T>)
    requires Distinct(s)
    ensures multiset(t) == multiset(s) <==>
              exists c :: ValidChoices(c, |s|) && Shuffled(s, c) == t
    ensures forall c, d :: ValidChoices(c, |s|) && ValidChoices(d, |s|) && Shuffled(s, c) == Shuffled(s, d) ==> c == d
  {
    if multiset(t) == multiset(s) {
      var c := ShuffledOnto(s, t);
    }
    forall c | ValidChoices(c, |s|) && Shuffled(s, c) == t ensures multiset(t) == multiset(s) {
      ShuffledPermutes(s, c);
    }
    forall c, d | ValidChoices(c, |s|) && ValidChoices(d, |s|) && Shuffled(s, c) == Shuffled(s, d) ensures c == d {
      ShuffledInjective(s, c, d);
    }
  }
}
