/** Result shapes and sequence vocabulary shared by every module. */
module Wrappers {

  datatype Option<+T> = None | Some(value: T)

  datatype Result<+T, +E> = Success(value: T) | Failure(error: E)

  /** `xs` lists every element of `s` exactly once: what a lister returns, in an order nobody controls. */
  ghost predicate Enumerates<T>(xs: seq<T>, s: set<T>) {
    && (forall i :: 0 <= i < |xs| ==> xs[i] in s)
    && (forall x :: x in s ==> x in xs)
    && NoDuplicates(xs)
  }

  ghost predicate NoDuplicates<T>(xs: seq<T>) {
    forall i, j :: 0 <= i < j < |xs| ==> xs[i] != xs[j]
  }

  lemma TwoElements<T>(xs: seq<T>)
    requires NoDuplicates(xs) && |xs| > 1
    ensures exists x, y :: x in xs && y in xs && x != y
  {
    assert xs[0] in xs && xs[1] in xs && xs[0] != xs[1];
  }

  /** The parts of a string between separators: strings.Split. */
  function Split(s: string, sep: char): (r: seq<string>)
    ensures r != []
  {
    if s == "" then [""]
    else
      var rest := Split(s[1..], sep);
      if s[0] == sep then [""] + rest else [[s[0]] + rest[0]] + rest[1..]
  }

  predicate Lacks(s: string, c: char) { forall i :: 0 <= i < |s| ==> s[i] != c }

  lemma {:induction false} SplitOne(s: string, sep: char)
    requires Lacks(s, sep)
    ensures Split(s, sep) == [s]
  {
    if s != "" {
      SplitOne(s[1..], sep);
      assert [s[0]] + s[1..] == s;
    }
  }

  lemma {:induction false} SplitMore(a: string, s: string, sep: char)
    requires Lacks(a, sep)
    ensures Split(a + [sep] + s, sep) == [a] + Split(s, sep)
  {
    var whole := a + [sep] + s;
    if a == "" {
      assert whole[1..] == s;
    } else {
      SplitMore(a[1..], s, sep);
      assert whole[1..] == a[1..] + [sep] + s;
      assert [a[0]] + a[1..] == a;
    }
  }

  /** Each state of the trace is related to the next. */
  ghost predicate Chain<S>(related: (S, S) -> bool, trace: seq<S>) {
    trace != [] && forall i, j :: 0 <= i < j < |trace| && j == i + 1 ==> related(trace[i], trace[j])
  }

  lemma ChainMore<S>(related: (S, S) -> bool, trace: seq<S>, s: S)
    requires Chain(related, trace) && related(trace[|trace| - 1], s)
    ensures Chain(related, trace + [s])
  {
    var more := trace + [s];
    forall i, j | 0 <= i < j < |more| && j == i + 1 ensures related(more[i], more[j]) {
      if j < |trace| {
        assert related(trace[i], trace[j]);
      }
    }
  }

  /** Every finite set can be listed. */
  lemma Listed<T>(s: set<T>) returns (xs: seq<T>)
    ensures Enumerates(xs, s)
  {
    if s == {} {
      xs := [];
    } else {
      var x :| x in s;
      var rest := Listed(s - {x});
      xs := [x] + rest;
    }
  }
}
