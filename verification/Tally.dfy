/** Sums over sequences, used to count owners, offsets and bytes. */
module Tallies {

  /** Sum of m over the first n entries. */
  ghost function TallyTo<T(!new)>(s: seq<T>, n: nat, m: T -> nat): nat
    requires n <= |s|
  {
    if n == 0 then 0 else TallyTo(s, n - 1, m) + m(s[n - 1])
  }

  ghost function Tally<T(!new)>(s: seq<T>, m: T -> nat): nat { TallyTo(s, |s|, m) }

  lemma {:induction false} TallyAgree<T(!new)>(s: seq<T>, t: seq<T>, n: nat, m: T -> nat)
    requires n <= |s| && n <= |t| && forall k :: 0 <= k < n ==> m(s[k]) == m(t[k])
    ensures TallyTo(s, n, m) == TallyTo(t, n, m)
  {
    if n > 0 {
      TallyAgree(s, t, n - 1, m);
    }
  }

  lemma TallyAppend<T(!new)>(s: seq<T>, x: T, m: T -> nat)
    ensures Tally(s + [x], m) == Tally(s, m) + m(x)
  {
    TallyAgree(s, s + [x], |s|, m);
  }

  lemma {:induction false} TallyTailTo<T(!new)>(s: seq<T>, t: seq<T>, n: nat, m: T -> nat)
    requires n < |s| && n <= |t| && forall k :: 0 <= k < n ==> s[k + 1] == t[k]
    ensures TallyTo(s, n + 1, m) == m(s[0]) + TallyTo(t, n, m)
  {
    if n > 0 {
      TallyTailTo(s, t, n - 1, m);
    }
  }

  lemma TallyTail<T(!new)>(s: seq<T>, m: T -> nat)
    requires s != []
    ensures Tally(s, m) == m(s[0]) + Tally(s[1..], m)
  {
    TallyTailTo(s, s[1..], |s| - 1, m);
  }

  lemma {:induction false} TallyUpdateTo<T(!new)>(s: seq<T>, t: seq<T>, i: nat, n: nat, m: T -> nat)
    requires i < n <= |s| == |t| && forall k :: 0 <= k < n && k != i ==> s[k] == t[k]
    ensures TallyTo(t, n, m) == TallyTo(s, n, m) - m(s[i]) + m(t[i])
  {
    if i == n - 1 {
      TallyAgree(s, t, n - 1, m);
    } else {
      TallyUpdateTo(s, t, i, n - 1, m);
    }
  }

  lemma TallyUpdate<T(!new)>(s: seq<T>, i: nat, x: T, m: T -> nat)
    requires i < |s|
    ensures Tally(s[i := x], m) == Tally(s, m) - m(s[i]) + m(x)
  {
    TallyUpdateTo(s, s[i := x], i, |s|, m);
  }

  lemma {:induction false} TallyAtLeast<T(!new)>(s: seq<T>, n: nat, i: nat, m: T -> nat)
    requires i < n <= |s|
    ensures TallyTo(s, n, m) >= m(s[i])
  {
    if i < n - 1 {
      TallyAtLeast(s, n - 1, i, m);
    }
  }

  /** One entry is no more than the whole sum; two different entries together are not either. */
  lemma {:induction false} TallyPair<T(!new)>(s: seq<T>, n: nat, i: nat, j: nat, m: T -> nat)
    requires i < j < n <= |s|
    ensures TallyTo(s, n, m) >= m(s[i]) + m(s[j])
  {
    if j == n - 1 {
      TallyAtLeast(s, n - 1, i, m);
    } else {
      TallyPair(s, n - 1, i, j, m);
    }
  }

  lemma {:induction false} TallyZero<T(!new)>(s: seq<T>, n: nat, m: T -> nat)
    requires n <= |s| && forall k :: 0 <= k < n ==> m(s[k]) == 0
    ensures TallyTo(s, n, m) == 0
  {
    if n > 0 {
      TallyZero(s, n - 1, m);
    }
  }

  lemma {:induction false} TallySome<T(!new)>(s: seq<T>, n: nat, m: T -> nat) returns (i: nat)
    requires n <= |s| && TallyTo(s, n, m) > 0
    ensures i < n && m(s[i]) > 0
  {
    if m(s[n - 1]) > 0 {
      i := n - 1;
    } else {
      i := TallySome(s, n - 1, m);
    }
  }
}
