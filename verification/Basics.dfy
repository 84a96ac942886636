/** Small building blocks shared by every part of the model. */
module Basics {

  type Path = string

  type Byte = n: nat | n < 256

  type Bytes = seq<Byte>

  /** A folder: a flat map from relative paths to contents. */
  type Files = map<Path, Bytes>

  type DeviceId = string

  /** A certificate in DER form. */
  type Cert = seq<Byte>

  /** A BLAKE3 digest. */
  type Digest = h: seq<Byte> | |h| == 32 witness seq(32, _ => 0)

  /** The range of Rust's `u64`. */
  type U64 = n: nat | n < 0x1_0000_0000_0000_0000

  /** The range of Rust's `i64`. */
  type I64 = n: int | -0x8000_0000_0000_0000 <= n < 0x8000_0000_0000_0000

  datatype Option<+T> = None | Some(value: T)

  ghost predicate Distinct<T>(s: seq<T>) {
    forall i {:trigger s[..i]} :: 0 <= i < |s| ==> s[i] !in s[..i]
  }

  ghost function ToSet<T>(s: seq<T>): set<T> {
    set x | x in s
  }

  lemma {:induction false} DistinctCardinality<T>(s: seq<T>)
    requires Distinct(s)
    ensures |ToSet(s)| == |s|
  {
    if s == [] {
      assert ToSet(s) == {};
    } else {
      var n := |s| - 1;
      assert forall i {:trigger s[..n][..i]} :: 0 <= i < n ==> s[..n][..i] == s[..i];
      DistinctCardinality(s[..n]);
      assert s == s[..n] + [s[n]];
      assert ToSet(s) == ToSet(s[..n]) + {s[n]};
    }
  }

  /** Every finite set can be listed. */
  lemma {:induction false} Listing<T>(s: set<T>) returns (list: seq<T>)
    ensures Distinct(list) && forall x :: x in list <==> x in s
  {
    if s == {} {
      list := [];
    } else {
      var x :| x in s;
      var rest := Listing(s - {x});
      list := rest + [x];
      assert forall i {:trigger list[..i]} :: 0 <= i <= |rest| ==> list[..i] == rest[..i];
      assert forall y :: y in list <==> y in rest || y == x;
    }
  }

  /** The first `n` values of a function. */
  ghost function Image<T(!new)>(f: nat -> T, n: nat): set<T> {
    set i: nat | i < n :: f(i)
  }

  lemma {:induction false} ImageSize<T(!new)>(f: nat -> T, n: nat)
    requires forall i, j :: 0 <= i < j < n ==> f(i) != f(j)
    ensures |Image(f, n)| == n
  {
    if n == 0 {
      assert Image(f, n) == {};
    } else {
      ImageSize(f, n - 1);
      assert Image(f, n) == Image(f, n - 1) + {f(n - 1)};
    }
  }

  /** A set that holds different values has at least as many elements. */
  lemma {:induction false} AllInside<T(!new)>(f: nat -> T, n: nat, s: set<T>)
    requires forall i, j :: 0 <= i < j < n ==> f(i) != f(j)
    requires forall i: nat :: i < n ==> f(i) in s
    ensures n <= |s|
  {
    ImageSize(f, n);
    assert s == Image(f, n) + (s - Image(f, n));
  }

  /** Of more values than a set has elements, all different, one lies outside the set. */
  lemma {:induction false} OneOutside<T(!new)>(f: nat -> T, n: nat, s: set<T>)
    requires forall i, j :: 0 <= i < j < n ==> f(i) != f(j)
    requires |s| < n
    ensures exists i: nat :: i < n && f(i) !in s
  {
    if forall i: nat :: i < n ==> f(i) in s {
      AllInside(f, n, s);
    }
  }
}

/** Runs of a step relation, and the two ways of reasoning about all of them. */
module Runs {

  /** Consecutive states are related by the listed actions. */
  ghost predicate IsRun<S(!new), A(!new)>(next: (S, A, S) -> bool, states: seq<S>, actions: seq<A>) {
    && |states| == |actions| + 1
    && forall i :: 0 <= i < |actions| ==> next(states[i], actions[i], states[i + 1])
  }

  ghost predicate Preserves<S(!new), A(!new)>(next: (S, A, S) -> bool, inv: S -> bool) {
    forall s, a, s' :: inv(s) && next(s, a, s') ==> inv(s')
  }

  /** What every step preserves holds all along a run. */
  lemma {:induction false} InvariantAlongRun<S(!new), A(!new)>(next: (S, A, S) -> bool, inv: S -> bool,
                                                               states: seq<S>, actions: seq<A>, i: nat)
    requires IsRun(next, states, actions) && i < |states|
    requires Preserves(next, inv) && inv(states[0])
    ensures inv(states[i])
  {
    if i > 0 {
      InvariantAlongRun(next, inv, states, actions, i - 1);
      assert next(states[i - 1], actions[i - 1], states[i - 1 + 1]);
    }
  }

  ghost predicate UsesUp<S(!new), A(!new)>(next: (S, A, S) -> bool, inv: S -> bool, supply: S -> nat) {
    forall s, a, s' :: inv(s) && next(s, a, s') ==> supply(s') < supply(s)
  }

  /** If every step uses up some of a finite supply, the supply bounds the length of the run. */
  lemma {:induction false} SupplyAlongRun<S(!new), A(!new)>(next: (S, A, S) -> bool, inv: S -> bool, supply: S -> nat,
                                                            states: seq<S>, actions: seq<A>, i: nat)
    requires IsRun(next, states, actions) && i < |states|
    requires Preserves(next, inv) && inv(states[0])
    requires UsesUp(next, inv, supply)
    ensures i + supply(states[i]) <= supply(states[0])
  {
    if i > 0 {
      SupplyAlongRun(next, inv, supply, states, actions, i - 1);
      InvariantAlongRun(next, inv, states, actions, i - 1);
      assert next(states[i - 1], actions[i - 1], states[i - 1 + 1]);
    }
  }

  /** Every step raises a flag exactly when its action is one of those that do, and none lowers it. */
  ghost predicate Latches<S(!new), A(!new)>(next: (S, A, S) -> bool, inv: S -> bool, flag: S -> bool,
                                            raises: A -> bool) {
    forall s, a, s' :: inv(s) && next(s, a, s') ==> (flag(s') <==> flag(s) || raises(a))
  }

  /** Such a flag is up exactly when one of the actions so far has raised it. */
  lemma {:induction false} FlagAlongRun<S(!new), A(!new)>(next: (S, A, S) -> bool, inv: S -> bool, flag: S -> bool,
                                                          raises: A -> bool, states: seq<S>, actions: seq<A>, i: nat)
    requires IsRun(next, states, actions) && i < |states|
    requires Preserves(next, inv) && inv(states[0])
    requires Latches(next, inv, flag, raises) && !flag(states[0])
    ensures flag(states[i]) <==> exists j :: 0 <= j < i && raises(actions[j])
  {
    if i > 0 {
      FlagAlongRun(next, inv, flag, raises, states, actions, i - 1);
      InvariantAlongRun(next, inv, states, actions, i - 1);
      assert next(states[i - 1], actions[i - 1], states[i - 1 + 1]);
    }
  }

  /** A step followed by a run is a run. */
  lemma {:induction false} StepThenRun<S(!new), A(!new)>(next: (S, A, S) -> bool, s: S, a: A, states: seq<S>,
                                                         actions: seq<A>)
    requires IsRun(next, states, actions) && next(s, a, states[0])
    ensures IsRun(next, [s] + states, [a] + actions)
  {
    var all, acts := [s] + states, [a] + actions;
    forall i | 0 <= i < |acts| ensures next(all[i], acts[i], all[i + 1]) {
      if i > 0 {
        assert next(states[i - 1], actions[i - 1], states[i - 1 + 1]);
      }
    }
  }

  lemma {:induction false} RunSuffix<S(!new), A(!new)>(next: (S, A, S) -> bool, states: seq<S>, actions: seq<A>, i: nat)
    requires IsRun(next, states, actions) && i < |states|
    ensures IsRun(next, states[i..], actions[i..])
  {
    var tail, rest := states[i..], actions[i..];
    forall k | 0 <= k < |rest| ensures next(tail[k], rest[k], tail[k + 1]) {
      assert next(states[i + k], actions[i + k], states[i + k + 1]);
    }
  }
}
