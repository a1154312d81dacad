/** Comparing contract code with what was reviewed, apart from the values fixed at deployment. */
module RuntimeMask {
  import opened Prelude

  datatype Reference = Reference(start: int, length: int)

  predicate IsHex(c: char) {
    '0' <= c <= '9' || 'a' <= c <= 'f' || 'A' <= c <= 'F'
  }

  /** "0x" and at least one whole byte. */
  predicate IsBytecode(s: string) {
    |s| >= 4 && |s| % 2 == 0 && s[0] == '0' && s[1] == 'x' && forall k :: 2 <= k < |s| ==> IsHex(s[k])
  }

  function Lower(c: char): char {
    if 'A' <= c <= 'Z' then c - 'A' + 'a' else c
  }

  function Digits(bytecode: string): (d: seq<char>)
    requires |bytecode| >= 2
    ensures |d| == |bytecode| - 2 && forall k :: 0 <= k < |d| ==> d[k] == Lower(bytecode[k + 2])
  {
    seq(|bytecode| - 2, k requires 0 <= k < |bytecode| - 2 => Lower(bytecode[k + 2]))
  }

  predicate Fits(r: Reference, digits: nat) {
    r.start >= 0 && r.length == 32 && (r.start + r.length) * 2 <= digits
  }

  predicate AllFit(references: seq<seq<Reference>>, digits: nat) {
    forall i, j :: 0 <= i < |references| && 0 <= j < |references[i]| ==> Fits(references[i][j], digits)
  }

  lemma NotAllFit(references: seq<seq<Reference>>, n: nat, digits: nat)
    requires n <= |references| && !AllFit(references[..n], digits)
    ensures !AllFit(references, digits)
  {
    var i, j :| 0 <= i < n && 0 <= j < |references[..n][i]| && !Fits(references[..n][i][j], digits);
    assert !Fits(references[i][j], digits);
  }

  predicate Covers(r: Reference, k: int) {
    r.start * 2 <= k < (r.start + r.length) * 2
  }

  /** Digit `k` belongs to one of the first references. */
  predicate Covered(references: seq<seq<Reference>>, k: int) {
    exists i, j :: 0 <= i < |references| && 0 <= j < |references[i]| && Covers(references[i][j], k)
  }

  predicate Accepted(bytecode: string, references: seq<seq<Reference>>) {
    IsBytecode(bytecode) && references != [] && AllFit(references, |bytecode| - 2)
  }

  /** `out` is the code with the covered digits zeroed. */
  predicate IsMasked(bytecode: string, references: seq<seq<Reference>>, out: string)
    requires |bytecode| >= 2
  {
    && |out| == |bytecode| && out[..2] == "0x"
    && forall k :: 0 <= k < |bytecode| - 2 ==>
         out[k + 2] == if Covered(references, k) then '0' else Lower(bytecode[k + 2])
  }

  /** Two accepted codes are told apart exactly by their length and by the digits outside the references. */
  lemma MaskedAlikeIff(a: string, b: string, references: seq<seq<Reference>>, x: string, y: string)
    requires |a| >= 2 && |b| >= 2 && IsMasked(a, references, x) && IsMasked(b, references, y)
    ensures x == y <==>
      |a| == |b| && forall k :: 0 <= k < |a| - 2 && !Covered(references, k) ==> Lower(a[k + 2]) == Lower(b[k + 2])
  {
    if x == y {
      forall k | 0 <= k < |a| - 2 && !Covered(references, k) ensures Lower(a[k + 2]) == Lower(b[k + 2]) {
        assert x[k + 2] == y[k + 2];
      }
    } else if |a| == |b| {
      assert x[..2] == y[..2];
      assert x[0] == x[..2][0] && x[1] == x[..2][1] && y[0] == y[..2][0] && y[1] == y[..2][1];
      var k :| 0 <= k < |x| && x[k] != y[k];
      assert k >= 2;
      var m := k - 2;
      assert x[m + 2] != y[m + 2] && !Covered(references, m);
      assert Lower(a[m + 2]) != Lower(b[m + 2]);
    }
  }

  /** The mask is laid over the digits in place, reference by reference. */
  method NormalizedMarketRuntime(bytecode: string, references: seq<seq<Reference>>) returns (out: Option<string>)
    ensures out.Some? <==> Accepted(bytecode, references)
    ensures out.Some? ==> IsMasked(bytecode, references, out.value)
  {
    if !IsBytecode(bytecode) || references == [] {
      return None;
    }
    var digits := Digits(bytecode);
    var runtime := new char[|digits|](i requires 0 <= i < |digits| => digits[i]);
    for i := 0 to |references|
      invariant AllFit(references[..i], |digits|)
      invariant forall k :: 0 <= k < |digits| ==> runtime[k] == if Covered(references[..i], k) then '0' else digits[k]
    {
      var ok := MaskGroup(runtime, digits, references, i);
      if !ok {
        assert !AllFit(references, |digits|) by { NotAllFit(references, i + 1, |digits|); }
        return None;
      }
    }
    assert references[..|references|] == references;
    out := Some("0x" + runtime[..]);
  }

  /** One list of references. */
  method MaskGroup(runtime: array<char>, digits: seq<char>, references: seq<seq<Reference>>, i: nat) returns (ok: bool)
    requires i < |references| && runtime.Length == |digits| && AllFit(references[..i], |digits|)
    requires forall k :: 0 <= k < |digits| ==> runtime[k] == if Covered(references[..i], k) then '0' else digits[k]
    modifies runtime
    ensures ok <==> AllFit(references[..i + 1], |digits|)
    ensures ok ==> forall k :: 0 <= k < |digits| ==>
      runtime[k] == if Covered(references[..i + 1], k) then '0' else digits[k]
  {
    var group := references[i];
    for j := 0 to |group|
      invariant forall m :: 0 <= m < j ==> Fits(group[m], |digits|)
      invariant forall k :: 0 <= k < |digits| ==>
        runtime[k] == if Covered(references[..i], k) || CoveredBy(group[..j], k) then '0' else digits[k]
    {
      if !Fits(group[j], |digits|) {
        assert references[..i + 1][i] == group;
        return false;
      }
      Fill(runtime, group[j].start * 2, (group[j].start + group[j].length) * 2);
      forall k ensures CoveredBy(group[..j + 1], k) <==> CoveredBy(group[..j], k) || Covers(group[j], k) {
        OneMoreCovers(group, j, k);
      }
    }
    assert group[..|group|] == group;
    forall k ensures Covered(references[..i + 1], k) <==> Covered(references[..i], k) || CoveredBy(group, k) {
      OneMoreGroup(references, i, k);
    }
    return true;
  }

  predicate CoveredBy(group: seq<Reference>, k: int) {
    exists j :: 0 <= j < |group| && Covers(group[j], k)
  }

  lemma OneMoreCovers(group: seq<Reference>, j: nat, k: int)
    requires j < |group|
    ensures CoveredBy(group[..j + 1], k) <==> CoveredBy(group[..j], k) || Covers(group[j], k)
  {
    assert group[..j + 1] == group[..j] + [group[j]];
    if CoveredBy(group[..j], k) {
      var m :| 0 <= m < j && Covers(group[..j][m], k);
      assert Covers(group[..j + 1][m], k);
    }
    if Covers(group[j], k) {
      assert Covers(group[..j + 1][j], k);
    }
  }

  lemma OneMoreGroup(references: seq<seq<Reference>>, i: nat, k: int)
    requires i < |references|
    ensures Covered(references[..i + 1], k) <==> Covered(references[..i], k) || CoveredBy(references[i], k)
  {
    assert references[..i + 1] == references[..i] + [references[i]];
    if Covered(references[..i], k) {
      var m, n :| 0 <= m < i && 0 <= n < |references[..i][m]| && Covers(references[..i][m][n], k);
      assert Covers(references[..i + 1][m][n], k);
    }
    if CoveredBy(references[i], k) {
      var n :| 0 <= n < |references[i]| && Covers(references[i][n], k);
      assert Covers(references[..i + 1][i][n], k);
    }
  }

  method Fill(runtime: array<char>, from: nat, to: nat)
    requires from <= to <= runtime.Length
    modifies runtime
    ensures forall k :: 0 <= k < runtime.Length ==> runtime[k] == if from <= k < to then '0' else old(runtime[k])
  {
    for k := from to to
      invariant forall m :: 0 <= m < runtime.Length ==> runtime[m] == if from <= m < k then '0' else old(runtime[m])
    {
      runtime[k] := '0';
    }
  }
}
