/** Brace counting over agent output: the extraction of the first balanced `{...}` block
    (src/orchestration/phases/ProductPlanningPhase.ts). */
module JsonExtraction {
  import opened Wrappers

  /** Number of `{` minus number of `}` among the first `i` characters. */
  ghost function Balance(s: string, i: nat): int
    requires i <= |s|
  {
    if i == 0 then 0
    else Balance(s, i - 1) + (if s[i - 1] == '{' then 1 else if s[i - 1] == '}' then -1 else 0)
  }

  /** `s[i..j]` opens at balance zero and `j` is the first later place where the balance is zero again. */
  ghost predicate BlockAt(s: string, i: nat, j: nat) {
    && i < j <= |s|
    && s[i] == '{'
    && Balance(s, i) == 0
    && Balance(s, j) == 0
    && forall k :: i < k < j ==> Balance(s, k) != 0
  }

  /** No `{` before `i` is met at balance zero. */
  ghost predicate NoOpenBefore(s: string, i: nat)
    requires i <= |s|
  {
    forall k :: 0 <= k < i && s[k] == '{' ==> Balance(s, k) != 0
  }

  ghost predicate BraceFree(s: string) {
    forall k :: 0 <= k < |s| ==> s[k] != '{' && s[k] != '}'
  }

  /** The whole string is one balanced block. */
  ghost predicate IsBlock(s: string) {
    BlockAt(s, 0, |s|)
  }

  /** What extraction means: the first block that opens at balance zero, none when there is no block. */
  ghost predicate Extracts(s: string, r: Option<string>) {
    match r
    case Some(block) => exists i: nat, j: nat :: BlockAt(s, i, j) && NoOpenBefore(s, i) && block == s[i..j]
    case None => forall i: nat, j: nat :: !BlockAt(s, i, j)
  }

  method ExtractBalanced(s: string) returns (r: Option<string>)
    ensures Extracts(s, r)
  {
    var depth := 0;
    var start := -1;
    for i := 0 to |s|
      invariant depth == Balance(s, i)
      invariant start == -1 ==> NoOpenBefore(s, i)
      invariant start != -1 ==> 0 <= start < i && s[start] == '{' && Balance(s, start) == 0 && NoOpenBefore(s, start)
      invariant start != -1 ==> forall k :: start < k <= i ==> Balance(s, k) > 0
    {
      if s[i] == '{' {
        if depth == 0 {
          start := i;
        }
        depth := depth + 1;
      } else if s[i] == '}' {
        depth := depth - 1;
        if depth == 0 && start != -1 {
          assert BlockAt(s, start, i + 1);
          return Some(s[start..i + 1]);
        }
      }
    }
    r := None;
  }

  lemma FirstBlockIsUnique(s: string, i: nat, j: nat, i': nat, j': nat)
    requires BlockAt(s, i, j) && NoOpenBefore(s, i)
    requires BlockAt(s, i', j') && NoOpenBefore(s, i')
    ensures i == i' && j == j'
  {
  }

  /** The meaning determines the result. */
  lemma ExtractionIsUnique(s: string, r: Option<string>, r': Option<string>)
    requires Extracts(s, r) && Extracts(s, r')
    ensures r == r'
  {
    if r.Some? && r'.Some? {
      var i: nat, j: nat :| BlockAt(s, i, j) && NoOpenBefore(s, i) && r.value == s[i..j];
      var i': nat, j': nat :| BlockAt(s, i', j') && NoOpenBefore(s, i') && r'.value == s[i'..j'];
      FirstBlockIsUnique(s, i, j, i', j');
    }
  }

  // ---- Recovery of a block embedded in text ----

  lemma {:induction false} BalanceOfBraceFree(p: string, s: string, i: nat)
    requires BraceFree(p) && i <= |p|
    ensures Balance(p + s, i) == 0
  {
    if i > 0 {
      BalanceOfBraceFree(p, s, i - 1);
      assert (p + s)[i - 1] == p[i - 1];
    }
  }

  lemma {:induction false} BalanceShifts(p: string, b: string, q: string, i: nat)
    requires BraceFree(p) && i <= |b|
    ensures Balance(p + b + q, |p| + i) == Balance(b, i)
  {
    if i == 0 {
      assert p + b + q == p + (b + q);
      BalanceOfBraceFree(p, b + q, |p|);
    } else {
      BalanceShifts(p, b, q, i - 1);
      assert (p + b + q)[|p| + i - 1] == b[i - 1];
    }
  }

  /** Between brace-free text and any tail, the first balanced block is exactly `b` if and only if
      `b` is itself one balanced block. */
  lemma EmbeddedBlock(p: string, b: string, q: string)
    requires BraceFree(p)
    ensures IsBlock(b) <==> |b| > 0 && BlockAt(p + b + q, |p|, |p| + |b|)
    ensures NoOpenBefore(p + b + q, |p|)
  {
    var s := p + b + q;
    forall k: nat | k <= |b| ensures Balance(s, |p| + k) == Balance(b, k) {
      BalanceShifts(p, b, q, k);
    }
    if |b| > 0 {
      assert s[|p|] == b[0];
      assert forall k :: |p| < k < |p| + |b| ==> Balance(s, k) == Balance(b, k - |p|);
      assert forall k :: 0 < k < |b| ==> Balance(b, k) == Balance(s, |p| + k);
    }
    assert forall k :: 0 <= k < |p| ==> s[k] == p[k];
  }

  /** Extraction gives back `b` from `p + b + q` if and only if `b` is one balanced block. */
  lemma RecoversEmbeddedBlock(p: string, b: string, q: string, r: Option<string>)
    requires BraceFree(p) && |b| > 0 && b[0] == '{'
    requires Extracts(p + b + q, r)
    ensures r == Some(b) <==> IsBlock(b)
  {
    var s := p + b + q;
    EmbeddedBlock(p, b, q);
    BalanceShifts(p, b, q, 0);
    assert s[|p|] == b[0] && s[|p|..|p| + |b|] == b;
    if r.Some? {
      var i: nat, j: nat :| BlockAt(s, i, j) && NoOpenBefore(s, i) && r.value == s[i..j];
      assert i == |p|;
      if IsBlock(b) {
        FirstBlockIsUnique(s, i, j, |p|, |p| + |b|);
      }
      if r.value == b {
        assert j == |p| + |b|;
      }
    }
  }

  /** Braces are counted inside string literals too, so a JSON text with `}` in a string is cut short. */
  lemma StringLiteralBracesCutTheBlock()
    ensures Extracts("{\"a\":\"}\"}", Some("{\"a\":\"}"))
    ensures !IsBlock("{\"a\":\"}\"}")
  {
    var s := "{\"a\":\"}\"}";
    assert Balance(s, 1) == 1 && Balance(s, 2) == 1 && Balance(s, 3) == 1 && Balance(s, 4) == 1;
    assert Balance(s, 5) == 1 && Balance(s, 6) == 1 && Balance(s, 7) == 0 && Balance(s, 8) == 0 && Balance(s, 9) == -1;
    assert s[0..7] == "{\"a\":\"}";
    assert BlockAt(s, 0, 7);
  }
}
