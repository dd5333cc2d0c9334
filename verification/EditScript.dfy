/** Line edit scripts: the table-driven longest common subsequence and the script read back from it. */
module EditScript {
  type Line = string

  /** Line numbers are 1-based; each operation carries the numbers of the sides it touches. */
  datatype Op =
    | Equal(text: Line, oldLine: nat, newLine: nat)
    | Delete(text: Line, oldLine: nat)
    | Insert(text: Line, newLine: nat)

  // ---- What a script means ----

  function Before(ops: seq<Op>): (r: seq<Line>)
    ensures |r| <= |ops|
  {
    if ops == [] then [] else (if ops[0].Insert? then [] else [ops[0].text]) + Before(ops[1..])
  }

  function After(ops: seq<Op>): (r: seq<Line>)
    ensures |r| <= |ops|
  {
    if ops == [] then [] else (if ops[0].Delete? then [] else [ops[0].text]) + After(ops[1..])
  }

  function Deletions(ops: seq<Op>): nat {
    if ops == [] then 0 else (if ops[0].Delete? then 1 else 0) + Deletions(ops[1..])
  }

  function Insertions(ops: seq<Op>): nat {
    if ops == [] then 0 else (if ops[0].Insert? then 1 else 0) + Insertions(ops[1..])
  }

  function Cost(ops: seq<Op>): nat {
    Deletions(ops) + Insertions(ops)
  }

  predicate IsScript(ops: seq<Op>, a: seq<Line>, b: seq<Line>) {
    Before(ops) == a && After(ops) == b
  }

  /** Line numbers count up consecutively on each side, starting after `i` and `j`. */
  predicate NumberedFrom(ops: seq<Op>, i: nat, j: nat) {
    ops == [] ||
    match ops[0]
    case Equal(_, o, n) => o == i + 1 && n == j + 1 && NumberedFrom(ops[1..], i + 1, j + 1)
    case Delete(_, o) => o == i + 1 && NumberedFrom(ops[1..], i + 1, j)
    case Insert(_, n) => n == j + 1 && NumberedFrom(ops[1..], i, j + 1)
  }

  // ---- Longest common subsequence of two prefixes ----

  function Lcs(a: seq<Line>, b: seq<Line>, i: nat, j: nat): nat
    requires i <= |a| && j <= |b|
  {
    if i == 0 || j == 0 then 0
    else if a[i - 1] == b[j - 1] then Lcs(a, b, i - 1, j - 1) + 1
    else
      var up, left := Lcs(a, b, i - 1, j), Lcs(a, b, i, j - 1);
      if up >= left then up else left
  }

  lemma {:induction false} LcsGrowsByAtMostOne(a: seq<Line>, b: seq<Line>, i: nat, j: nat)
    requires i <= |a| && j <= |b|
    ensures Lcs(a, b, i, j) <= i && Lcs(a, b, i, j) <= j
    ensures i > 0 ==> Lcs(a, b, i - 1, j) <= Lcs(a, b, i, j) <= Lcs(a, b, i - 1, j) + 1
    ensures j > 0 ==> Lcs(a, b, i, j - 1) <= Lcs(a, b, i, j) <= Lcs(a, b, i, j - 1) + 1
    decreases i + j
  {
    if i > 0 && j > 0 {
      LcsGrowsByAtMostOne(a, b, i - 1, j);
      LcsGrowsByAtMostOne(a, b, i, j - 1);
      LcsGrowsByAtMostOne(a, b, i - 1, j - 1);
    }
  }

  lemma {:induction false} LcsOfPrefixes(a: seq<Line>, b: seq<Line>, p: nat, q: nat, i: nat, j: nat)
    requires i <= p <= |a| && j <= q <= |b|
    ensures Lcs(a[..p], b[..q], i, j) == Lcs(a, b, i, j)
    decreases i + j
  {
    if i > 0 && j > 0 {
      LcsOfPrefixes(a, b, p, q, i - 1, j);
      LcsOfPrefixes(a, b, p, q, i, j - 1);
      LcsOfPrefixes(a, b, p, q, i - 1, j - 1);
    }
  }

  // ---- Appending an operation ----

  lemma {:induction false} Snoc(ops: seq<Op>, x: Op)
    ensures Before(ops + [x]) == Before(ops) + (if x.Insert? then [] else [x.text])
    ensures After(ops + [x]) == After(ops) + (if x.Delete? then [] else [x.text])
    ensures Deletions(ops + [x]) == Deletions(ops) + (if x.Delete? then 1 else 0)
    ensures Insertions(ops + [x]) == Insertions(ops) + (if x.Insert? then 1 else 0)
  {
    var all := ops + [x];
    if ops == [] {
      assert all == [x] && all[1..] == [];
    } else {
      var rest := ops[1..];
      Snoc(rest, x);
      assert all[0] == ops[0] && all[1..] == rest + [x];
      Assoc(if ops[0].Insert? then [] else [ops[0].text], Before(rest), if x.Insert? then [] else [x.text]);
      Assoc(if ops[0].Delete? then [] else [ops[0].text], After(rest), if x.Delete? then [] else [x.text]);
    }
  }

  lemma Assoc<T>(a: seq<T>, b: seq<T>, c: seq<T>)
    ensures a + (b + c) == (a + b) + c
  {
  }

  /** Removing the last operation of a script leaves a script between shorter prefixes. */
  lemma {:induction false} LastOperation(ops: seq<Op>, a: seq<Line>, b: seq<Line>)
    requires IsScript(ops, a, b) && ops != []
    ensures var x, init := ops[|ops| - 1], ops[..|ops| - 1];
            var p, q := |a| - (if x.Insert? then 0 else 1), |b| - (if x.Delete? then 0 else 1);
            && p >= 0 && q >= 0 && IsScript(init, a[..p], b[..q])
            && (!x.Insert? ==> a[p] == x.text) && (!x.Delete? ==> b[q] == x.text)
            && Cost(ops) == Cost(init) + (if x.Equal? then 0 else 1)
  {
    var init, x := ops[..|ops| - 1], ops[|ops| - 1];
    assert ops == init + [x];
    Snoc(init, x);
  }

  /** No script between two sequences changes fewer lines than those outside a longest common subsequence. */
  lemma {:induction false} EveryScriptCostsAtLeast(ops: seq<Op>, a: seq<Line>, b: seq<Line>)
    requires IsScript(ops, a, b)
    ensures Cost(ops) >= |a| + |b| - 2 * Lcs(a, b, |a|, |b|)
    decreases |ops|
  {
    if ops != [] {
      LastOperation(ops, a, b);
      var x := ops[|ops| - 1];
      var p, q := |a| - (if x.Insert? then 0 else 1), |b| - (if x.Delete? then 0 else 1);
      EveryScriptCostsAtLeast(ops[..|ops| - 1], a[..p], b[..q]);
      LcsOfPrefixes(a, b, p, q, p, q);
      LcsGrowsByAtMostOne(a, b, |a|, |b|);
    }
  }

  // ---- The code: fill the table, walk back, reverse ----

  function Reverse<T>(s: seq<T>): seq<T> {
    if s == [] then [] else [s[|s| - 1]] + Reverse(s[..|s| - 1])
  }

  lemma {:induction false} ReversePush<T>(s: seq<T>, x: T)
    ensures Reverse(s + [x]) == [x] + Reverse(s)
  {
    assert (s + [x])[..|s|] == s;
  }

  /** The table is right in all rows before `i` and, in row `i`, in all columns before `j`. */
  ghost predicate Filled(dp: array2<nat>, a: seq<Line>, b: seq<Line>, i: nat, j: nat)
    reads dp
  {
    && dp.Length0 == |a| + 1 && dp.Length1 == |b| + 1
    && forall r, c :: 0 <= r <= |a| && 0 <= c <= |b| && (r < i || (r == i && c < j)) ==> dp[r, c] == Lcs(a, b, r, c)
  }

  method FillTable(a: seq<Line>, b: seq<Line>) returns (dp: array2<nat>)
    ensures fresh(dp) && Filled(dp, a, b, |a| + 1, 0)
  {
    dp := new nat[|a| + 1, |b| + 1]((_, _) => 0);
    var i := 1;
    while i <= |a|
      invariant 1 <= i <= |a| + 1 && Filled(dp, a, b, i, 0)
      invariant forall r :: i <= r <= |a| ==> dp[r, 0] == 0
    {
      var j := 1;
      while j <= |b|
        invariant 1 <= j <= |b| + 1 && Filled(dp, a, b, i, j)
        invariant forall r :: i <= r <= |a| ==> dp[r, 0] == 0
      {
        if a[i - 1] == b[j - 1] {
          dp[i, j] := dp[i - 1, j - 1] + 1;
        } else {
          dp[i, j] := if dp[i - 1, j] >= dp[i, j - 1] then dp[i - 1, j] else dp[i, j - 1];
        }
        j := j + 1;
      }
      i := i + 1;
    }
  }

  /** The part of a script from position (i, j) to the end, and what the walk still owes. */
  ghost predicate Suffix(ops: seq<Op>, a: seq<Line>, b: seq<Line>, i: nat, j: nat) {
    && i <= |a| && j <= |b|
    && Before(ops) == a[i..] && After(ops) == b[j..] && NumberedFrom(ops, i, j)
    && Deletions(ops) + i - Lcs(a, b, i, j) == |a| - Lcs(a, b, |a|, |b|)
    && Insertions(ops) + j - Lcs(a, b, i, j) == |b| - Lcs(a, b, |a|, |b|)
  }

  lemma {:induction false} Prepend(ops: seq<Op>, a: seq<Line>, b: seq<Line>, i: nat, j: nat, x: Op)
    requires Suffix(ops, a, b, i, j)
    requires match x
             case Equal(t, o, n) => i > 0 && j > 0 && t == a[i - 1] == b[j - 1] && o == i && n == j
             case Delete(t, o) => i > 0 && t == a[i - 1] && o == i && Lcs(a, b, i - 1, j) == Lcs(a, b, i, j)
             case Insert(t, n) => j > 0 && t == b[j - 1] && n == j && Lcs(a, b, i, j - 1) == Lcs(a, b, i, j)
    ensures Suffix([x] + ops, a, b, if x.Insert? then i else i - 1, if x.Delete? then j else j - 1)
  {
    assert ([x] + ops)[1..] == ops;
    assert !x.Insert? ==> a[i - 1..] == [a[i - 1]] + a[i..];
    assert !x.Delete? ==> b[j - 1..] == [b[j - 1]] + b[j..];
  }

  /**
   * The script is sound, numbered consecutively on both sides, and no script between the two changes
   * fewer lines.
   */
  method BuildEditScript(a: seq<Line>, b: seq<Line>) returns (ops: seq<Op>)
    ensures IsScript(ops, a, b) && NumberedFrom(ops, 0, 0)
    ensures Deletions(ops) == |a| - Lcs(a, b, |a|, |b|) && Insertions(ops) == |b| - Lcs(a, b, |a|, |b|)
    ensures forall other :: IsScript(other, a, b) ==> Cost(ops) <= Cost(other)
  {
    var dp := FillTable(a, b);
    var rev: seq<Op> := [];
    var i, j := |a|, |b|;
    while i > 0 || j > 0
      invariant 0 <= i && 0 <= j && Suffix(Reverse(rev), a, b, i, j) && Filled(dp, a, b, |a| + 1, 0)
      decreases i + j
    {
      var op :=
        if i > 0 && j > 0 && a[i - 1] == b[j - 1] then Equal(a[i - 1], i, j)
        else if j > 0 && (i == 0 || dp[i, j - 1] >= dp[i - 1, j]) then Insert(b[j - 1], j)
        else Delete(a[i - 1], i);
      Prepend(Reverse(rev), a, b, i, j, op);
      ReversePush(rev, op);
      rev := rev + [op];
      i, j := if op.Insert? then i else i - 1, if op.Delete? then j else j - 1;
    }
    ops := Reverse(rev);
    assert a[0..] == a && b[0..] == b;
    forall other | IsScript(other, a, b) ensures Cost(ops) <= Cost(other) {
      EveryScriptCostsAtLeast(other, a, b);
    }
  }

  /** The independent two-row computation yields the same length. */
  method LongestCommonSubsequenceLength(a: seq<Line>, b: seq<Line>) returns (r: nat)
    ensures r == Lcs(a, b, |a|, |b|)
  {
    if |a| == 0 || |b| == 0 {
      return 0;
    }
    var prev := new nat[|b| + 1](_ => 0);
    var curr := new nat[|b| + 1](_ => 0);
    var i := 1;
    while i <= |a|
      invariant 1 <= i <= |a| + 1 && prev.Length == curr.Length == |b| + 1 && prev != curr
      invariant fresh(prev) && fresh(curr)
      invariant forall c :: 0 <= c <= |b| ==> prev[c] == Lcs(a, b, i - 1, c)
      invariant curr[0] == 0
    {
      var j := 1;
      while j <= |b|
        invariant 1 <= j <= |b| + 1
        invariant forall c :: 0 <= c <= |b| ==> prev[c] == Lcs(a, b, i - 1, c)
        invariant forall c :: 0 <= c < j ==> curr[c] == Lcs(a, b, i, c)
      {
        if a[i - 1] == b[j - 1] {
          curr[j] := prev[j - 1] + 1;
        } else {
          curr[j] := if prev[j] >= curr[j - 1] then prev[j] else curr[j - 1];
        }
        j := j + 1;
      }
      prev, curr := curr, prev;
      forall c | 0 <= c < curr.Length {
        curr[c] := 0;
      }
      i := i + 1;
    }
    r := prev[|b|];
  }
}
