/** How large a compiled route is: replicated rules repeat their children, once per policy. */
module Expansion {
  import opened Names
  import opened Rules
  import opened Routes
  import opened SideTable

  function Pow2(n: nat): (r: nat)
    ensures r >= 1
  {
    if n == 0 then 1 else 2 * Pow2(n - 1)
  }

  /** For each service in traversal order, how many rules on its path are replicated, itself included. */
  function Copies(r: Rule): seq<nat>
    decreases r, 1
  {
    var below := if r.service.Some? then [0] else CopiesOf(r.children);
    if r.kind == REPLICATED then Raise(below) else below
  }

  function CopiesOf(rs: seq<Rule>): seq<nat>
    decreases rs, 0
  {
    if rs == [] then [] else Copies(rs[0]) + CopiesOf(rs[1..])
  }

  function Raise(ns: seq<nat>): seq<nat> {
    seq(|ns|, i requires 0 <= i < |ns| => ns[i] + 1)
  }

  function SumPow2(ns: seq<nat>): nat {
    if ns == [] then 0 else Pow2(ns[0]) + SumPow2(ns[1..])
  }

  /** Rules on the longest path, counting only rules that are read. */
  function Depth(r: Rule): nat
    decreases r, 1
  {
    1 + if r.service.Some? then 0 else DepthOf(r.children)
  }

  function DepthOf(rs: seq<Rule>): nat
    decreases rs, 0
  {
    if rs == [] then 0 else if Depth(rs[0]) > DepthOf(rs[1..]) then Depth(rs[0]) else DepthOf(rs[1..])
  }

  lemma {:induction false} SumOfRaised(ns: seq<nat>)
    ensures SumPow2(Raise(ns)) == 2 * SumPow2(ns)
  {
    if ns != [] {
      assert Raise(ns)[1..] == Raise(ns[1..]);
      SumOfRaised(ns[1..]);
    }
  }

  lemma {:induction false} SumOfMore(a: seq<nat>, b: seq<nat>)
    ensures SumPow2(a + b) == SumPow2(a) + SumPow2(b)
  {
    if a == [] {
      assert a + b == b;
    } else {
      assert (a + b)[1..] == a[1..] + b;
      SumOfMore(a[1..], b);
    }
  }

  /** The fully expanded route holds exactly 2^k strings for a service under k replicated rules. */
  lemma {:induction false} ExactSize(sha: Sha1, r: Rule)
    requires Valid(r)
    ensures Compile(sha, r).Success?
    ensures |Strings(Compile(sha, r).value)| == SumPow2(Copies(r))
    decreases r, 1
  {
    CompilesIffValid(sha, r);
    var below := if r.service.Some? then [0] else CopiesOf(r.children);
    if r.service.Some? {
      StringsOfLeaf(sha, r);
      assert SumPow2([0]) == 1;
    } else {
      StringsOfInner(sha, r);
      ExactSizeOf(sha, r.children);
    }
    SumOfRaised(below);
  }

  lemma {:induction false} ExactSizeOf(sha: Sha1, rs: seq<Rule>)
    requires forall i :: 0 <= i < |rs| ==> Valid(rs[i])
    ensures CompileAll(sha, rs).Success?
    ensures |StringsOf(CompileAll(sha, rs).value)| == SumPow2(CopiesOf(rs))
    decreases rs, 0
  {
    if rs != [] {
      ExactSize(sha, rs[0]);
      ExactSizeOf(sha, rs[1..]);
      assert CompileAll(sha, rs).value[1..] == CompileAll(sha, rs[1..]).value;
      SumOfMore(Copies(rs[0]), CopiesOf(rs[1..]));
    }
  }

  // ---- The bound ----

  ghost predicate Within(ns: seq<nat>, n: nat, d: nat) { |ns| == n && forall i :: 0 <= i < |ns| ==> ns[i] <= d }

  lemma {:induction false} CopiesWithin(r: Rule)
    ensures Within(Copies(r), |Services(r)|, Depth(r))
    decreases r, 1
  {
    if r.service.None? {
      CopiesOfWithin(r.children);
    }
  }

  lemma {:induction false} CopiesOfWithin(rs: seq<Rule>)
    ensures Within(CopiesOf(rs), |ServicesOf(rs)|, DepthOf(rs))
    decreases rs, 0
  {
    if rs != [] {
      CopiesWithin(rs[0]);
      CopiesOfWithin(rs[1..]);
    }
  }

  lemma {:induction false} Pow2Grows(a: nat, b: nat)
    requires a <= b
    ensures Pow2(a) <= Pow2(b)
  {
    if a < b {
      Pow2Grows(a, b - 1);
    }
  }

  lemma {:induction false} SumBound(ns: seq<nat>, d: nat)
    requires Within(ns, |ns|, d)
    ensures SumPow2(ns) <= |ns| * Pow2(d)
  {
    if ns != [] {
      Pow2Grows(ns[0], d);
      SumBound(ns[1..], d);
      calc {
        |ns| * Pow2(d);
        (1 + |ns[1..]|) * Pow2(d);
        Pow2(d) + |ns[1..]| * Pow2(d);
      }
    }
  }

  /** At most one string per service and per subset of the levels above it. */
  lemma SizeBound(sha: Sha1, r: Rule)
    requires Valid(r)
    ensures Compile(sha, r).Success?
    ensures |Strings(Compile(sha, r).value)| <= |Services(r)| * Pow2(Depth(r))
  {
    ExactSize(sha, r);
    CopiesWithin(r);
    SumBound(Copies(r), Depth(r));
  }
}
