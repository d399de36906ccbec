/** The output row `Stat` and its identity order.

    Equality (`PartialEq`) and ordering (`Ord::cmp`) of a `Stat` look only at
    the identity tuple `(roi_name, phase_start, phase_end)`, compared
    lexicographically; the numeric fields never take part. ROI names compare
    as Rust strings do, element by element with a proper prefix first; byte
    order on UTF-8 is code point order, which is `<` on Dafny's `char`. */
module Stats {
  import opened Numbers

  /** One output row. `variance` is the square of the source's `std_dev`. */
  datatype Stat = Stat(
    roiName: string,
    avgVolPhaseStart: Num,
    phaseStart: int,
    phaseEnd: int,
    avg: Num,
    variance: Num,
    n: nat)

  datatype Ordering = Less | Equal | Greater {
    function Reverse(): (r: Ordering) {
      match this
      case Less => Greater
      case Equal => Equal
      case Greater => Less
    }
  }

  /** `String::cmp`. */
  function CompareStrings(a: string, b: string): (r: Ordering)
    decreases |a|
  {
    if |a| == 0 && |b| == 0 then Equal
    else if |a| == 0 then Less
    else if |b| == 0 then Greater
    else if a[0] < b[0] then Less
    else if b[0] < a[0] then Greater
    else CompareStrings(a[1..], b[1..])
  }

  /** `i32::cmp`. */
  function CompareInts(a: int, b: int): (r: Ordering) {
    if a < b then Less else if b < a then Greater else Equal
  }

  /** `PartialEq for Stat`. */
  predicate SameIdentity(a: Stat, b: Stat) {
    a.roiName == b.roiName && a.phaseStart == b.phaseStart && a.phaseEnd == b.phaseEnd
  }

  /** `Ord::cmp for Stat`: name first, then start phase, then end phase. */
  function Compare(a: Stat, b: Stat): (r: Ordering) {
    var o := CompareStrings(a.roiName, b.roiName);
    if o != Equal then o
    else
      var o' := CompareInts(a.phaseStart, b.phaseStart);
      if o' != Equal then o' else CompareInts(a.phaseEnd, b.phaseEnd)
  }

  /** `a <= b` under `Ord for Stat`. */
  predicate Le(a: Stat, b: Stat) {
    Compare(a, b) != Greater
  }

  // Lexicographic order on strings, stated independently of `CompareStrings`

  /** `a` comes strictly before `b`: a proper prefix of it, or smaller at the
      first position where they differ. */
  predicate LexLess(a: string, b: string) {
    || (|a| < |b| && a == b[..|a|])
    || exists k :: 0 <= k < |a| && k < |b| && a[..k] == b[..k] && a[k] < b[k]
  }

  lemma {:induction false} CompareStringsEqual(a: string, b: string)
    ensures CompareStrings(a, b) == Equal <==> a == b
    decreases |a|
  {
    if |a| > 0 && |b| > 0 && a[0] == b[0] {
      CompareStringsEqual(a[1..], b[1..]);
      assert a == [a[0]] + a[1..] && b == [b[0]] + b[1..];
    }
  }

  lemma {:induction false} CompareStringsReverse(a: string, b: string)
    ensures CompareStrings(b, a) == CompareStrings(a, b).Reverse()
    decreases |a|
  {
    if |a| > 0 && |b| > 0 && a[0] == b[0] {
      CompareStringsReverse(a[1..], b[1..]);
    }
  }

  /** `CompareStrings` says `Less` exactly for lexicographically smaller strings. */
  lemma {:induction false} CompareStringsIsLexicographic(a: string, b: string)
    ensures CompareStrings(a, b) == Less <==> LexLess(a, b)
    decreases |a|
  {
    if |a| == 0 {
      if |b| > 0 {
        assert a == b[..0];
      } else {
        assert !LexLess(a, b);
      }
    } else if |b| == 0 {
      assert !LexLess(a, b);
    } else if a[0] < b[0] {
      assert a[..0] == b[..0];
    } else if b[0] < a[0] {
      if |a| < |b| {
        assert a[0] != b[..|a|][0];
      }
      forall k | 0 < k <= |a| && k <= |b|
        ensures a[..k] != b[..k]
      {
        assert a[..k][0] != b[..k][0];
      }
    } else {
      CompareStringsIsLexicographic(a[1..], b[1..]);
      LexLessOfTails(a, b);
    }
  }

  /** With equal first characters, the order is decided by the tails. */
  lemma LexLessOfTails(a: string, b: string)
    requires |a| > 0 && |b| > 0 && a[0] == b[0]
    ensures LexLess(a, b) <==> LexLess(a[1..], b[1..])
  {
    var a', b' := a[1..], b[1..];
    if |a'| < |b'| && a' == b'[..|a'|] {
      assert a == b[..|a|];
    }
    if |a| < |b| && a == b[..|a|] {
      assert a' == b'[..|a'|];
    }
    if k :| 0 <= k < |a'| && k < |b'| && a'[..k] == b'[..k] && a'[k] < b'[k] {
      assert a[..k + 1] == [a[0]] + a'[..k];
      assert b[..k + 1] == [b[0]] + b'[..k];
      assert a[..k + 1] == b[..k + 1] && a[k + 1] < b[k + 1];
    }
    if k :| 0 <= k < |a| && k < |b| && a[..k] == b[..k] && a[k] < b[k] {
      assert k > 0;
      assert a'[..k - 1] == a[1..k] == b[1..k] == b'[..k - 1];
      assert a'[k - 1] < b'[k - 1];
    }
  }

  lemma {:induction false} CompareStringsTransitive(a: string, b: string, c: string)
    requires CompareStrings(a, b) == Less && CompareStrings(b, c) == Less
    ensures CompareStrings(a, c) == Less
    decreases |a|
  {
    if |a| > 0 && |b| > 0 && |c| > 0 && a[0] == b[0] && b[0] == c[0] {
      CompareStringsTransitive(a[1..], b[1..], c[1..]);
    }
  }

  /** `PartialEq` and `Ord` agree: `cmp` is `Equal` exactly on equal identities. */
  lemma CompareEqualIsSameIdentity(a: Stat, b: Stat)
    ensures Compare(a, b) == Equal <==> SameIdentity(a, b)
  {
    CompareStringsEqual(a.roiName, b.roiName);
  }

  /** `cmp` is the lexicographic order on `(roi_name, phase_start, phase_end)`. */
  lemma CompareIsLexicographic(a: Stat, b: Stat)
    ensures Compare(a, b) == Less <==>
      || LexLess(a.roiName, b.roiName)
      || (a.roiName == b.roiName && a.phaseStart < b.phaseStart)
      || (a.roiName == b.roiName && a.phaseStart == b.phaseStart && a.phaseEnd < b.phaseEnd)
  {
    CompareStringsEqual(a.roiName, b.roiName);
    CompareStringsIsLexicographic(a.roiName, b.roiName);
  }

  /** Only the identity tuple matters: rows with the same identities compare alike. */
  lemma CompareSeesOnlyIdentity(a: Stat, a': Stat, b: Stat, b': Stat)
    requires SameIdentity(a, a') && SameIdentity(b, b')
    ensures Compare(a, b) == Compare(a', b')
  {
  }

  lemma CompareReverse(a: Stat, b: Stat)
    ensures Compare(b, a) == Compare(a, b).Reverse()
  {
    CompareStringsReverse(a.roiName, b.roiName);
  }

  /** `Le` is a total preorder whose equivalence classes are the identities. */
  lemma LeIsTotalPreorder(a: Stat, b: Stat, c: Stat)
    ensures Le(a, a)
    ensures Le(a, b) || Le(b, a)
    ensures Le(a, b) && Le(b, a) ==> SameIdentity(a, b)
    ensures Le(a, b) && Le(b, c) ==> Le(a, c)
  {
    CompareStringsEqual(a.roiName, a.roiName);
    CompareReverse(a, b);
    CompareEqualIsSameIdentity(a, b);
    CompareEqualIsSameIdentity(b, c);
    CompareEqualIsSameIdentity(a, c);
    CompareStringsEqual(a.roiName, b.roiName);
    CompareStringsEqual(b.roiName, c.roiName);
    CompareStringsEqual(a.roiName, c.roiName);
    if CompareStrings(a.roiName, b.roiName) == Less && CompareStrings(b.roiName, c.roiName) == Less {
      CompareStringsTransitive(a.roiName, b.roiName, c.roiName);
    }
  }
}
