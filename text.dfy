/** `Array.prototype.join` over strings, with a positional characterisation of its result. */
module Text {

  /** The parts in order with `sep` between neighbours, built left to right as the
      array method does: the string so far, then the separator, then the next part.
      Its contract gives the base cases only; where every part and separator lands is
      `JoinLength`, `JoinPart` and `JoinSeparator`, and `JoinCharacterised` is the converse. */
  function Join(parts: seq<string>, sep: string): (r: string)
    ensures |parts| == 0 ==> r == ""
    ensures |parts| == 1 ==> r == parts[0]
    decreases |parts|
  {
    if |parts| == 0 then ""
    else if |parts| == 1 then parts[0]
    else Join(parts[..|parts| - 1], sep) + sep + parts[|parts| - 1]
  }

  /** Where part `i` begins in the joined string: every earlier part followed by one separator. */
  function Start(parts: seq<string>, sep: string, i: nat): nat
    requires i <= |parts|
  {
    if i == 0 then 0 else Start(parts, sep, i - 1) + |parts[i - 1]| + |sep|
  }

  /** `s` occurs in `r` beginning at position `k`. */
  predicate OccursAt(r: string, s: string, k: nat)
  {
    k + |s| <= |r| && r[k..k + |s|] == s
  }

  lemma {:induction false} StartOfPrefix(parts: seq<string>, sep: string, n: nat, i: nat)
    requires i <= n <= |parts|
    ensures Start(parts[..n], sep, i) == Start(parts, sep, i)
  {
    if i > 0 {
      StartOfPrefix(parts, sep, n, i - 1);
      assert parts[..n][i - 1] == parts[i - 1];
    }
  }

  lemma {:induction false} StartGrows(parts: seq<string>, sep: string, i: nat, j: nat)
    requires i <= j <= |parts|
    ensures Start(parts, sep, i) <= Start(parts, sep, j)
  {
    if i < j {
      StartGrows(parts, sep, i, j - 1);
    }
  }

  /** Joining nothing gives the empty string; otherwise the result is every part plus
      one separator between each pair of neighbours. */
  lemma {:induction false} JoinLength(parts: seq<string>, sep: string)
    ensures |parts| == 0 ==> Join(parts, sep) == ""
    ensures |parts| > 0 ==> |Join(parts, sep)| + |sep| == Start(parts, sep, |parts|)
  {
    if |parts| > 1 {
      var n := |parts| - 1;
      JoinLength(parts[..n], sep);
      StartOfPrefix(parts, sep, n, n);
    }
  }

  /** An occurrence stays put when text is appended. */
  lemma OccursBeforeAppend(a: string, b: string, c: string, s: string, k: nat)
    requires OccursAt(a, s, k)
    ensures OccursAt(a + b + c, s, k)
  {
    assert (a + b + c)[k..k + |s|] == a[k..k + |s|];
  }

  /** The second of two concatenated strings occurs right after the first. */
  lemma OccursAfter(a: string, b: string)
    ensures OccursAt(a + b, b, |a|)
  {
    assert (a + b)[|a|..|a| + |b|] == b;
  }

  /** The joined string is the join of all but the last part, a separator and the last part. */
  lemma JoinUnfold(parts: seq<string>, sep: string)
    requires |parts| > 1
    ensures Join(parts, sep) == Join(parts[..|parts| - 1], sep) + sep + parts[|parts| - 1]
  {
  }

  /** The last part closes the joined string, at its start. */
  lemma JoinLast(parts: seq<string>, sep: string)
    requires |parts| > 1
    ensures OccursAt(Join(parts, sep), parts[|parts| - 1], Start(parts, sep, |parts| - 1))
  {
    var n := |parts| - 1;
    var left := Join(parts[..n], sep);
    JoinUnfold(parts, sep);
    JoinLength(parts[..n], sep);
    StartOfPrefix(parts, sep, n, n);
    OccursAfter(left + sep, parts[n]);
  }

  /** One induction step of `JoinPart`: a part that sits in place in the join of all but the
      last part sits in place in the whole join too. */
  lemma JoinPartStep(parts: seq<string>, sep: string, i: nat)
    requires i + 1 < |parts|
    requires OccursAt(Join(parts[..|parts| - 1], sep), parts[..|parts| - 1][i], Start(parts[..|parts| - 1], sep, i))
    ensures OccursAt(Join(parts, sep), parts[i], Start(parts, sep, i))
  {
    var n := |parts| - 1;
    var left := Join(parts[..n], sep);
    JoinUnfold(parts, sep);
    StartOfPrefix(parts, sep, n, i);
    assert parts[..n][i] == parts[i];
    OccursBeforeAppend(left, sep, parts[n], parts[i], Start(parts, sep, i));
  }

  /** Part `i` appears in the joined string, unchanged, at `Start(parts, sep, i)`. */
  lemma {:induction false} JoinPart(parts: seq<string>, sep: string, i: nat)
    requires i < |parts|
    ensures OccursAt(Join(parts, sep), parts[i], Start(parts, sep, i))
  {
    var n := |parts| - 1;
    if n > 0 {
      if i < n {
        JoinPart(parts[..n], sep, i);
        JoinPartStep(parts, sep, i);
      } else {
        JoinLast(parts, sep);
      }
    }
  }

  /** Between part `i` and part `i + 1` the joined string holds exactly one separator. */
  lemma {:induction false} JoinSeparator(parts: seq<string>, sep: string, i: nat)
    requires i + 1 < |parts|
    ensures OccursAt(Join(parts, sep), sep, Start(parts, sep, i) + |parts[i]|)
  {
    var n := |parts| - 1;
    var init := parts[..n];
    var left := Join(init, sep);
    JoinUnfold(parts, sep);
    if i + 1 == n {
      JoinLength(init, sep);
      StartOfPrefix(parts, sep, n, n);
      OccursAfter(left, sep);
      OccursBeforeAppend(left + sep, parts[n], "", sep, |left|);
      assert left + sep + parts[n] + "" == left + sep + parts[n];
    } else {
      JoinSeparator(init, sep, i);
      StartOfPrefix(parts, sep, n, i);
      assert init[i] == parts[i];
      OccursBeforeAppend(left, sep, parts[n], sep, Start(parts, sep, i) + |parts[i]|);
    }
  }

  /** Part `i` sits at its place in `r`. */
  predicate PartPlaced(parts: seq<string>, sep: string, r: string, i: nat)
    requires i < |parts|
  {
    OccursAt(r, parts[i], Start(parts, sep, i))
  }

  /** The separator after part `i` sits at its place in `r`. */
  predicate SeparatorPlaced(parts: seq<string>, sep: string, r: string, i: nat)
    requires i < |parts|
  {
    OccursAt(r, sep, Start(parts, sep, i) + |parts[i]|)
  }

  /** The layout `JoinDetermined` asks of `r`: every part and every separator in place. */
  predicate Laid(parts: seq<string>, sep: string, r: string)
  {
    && (forall i :: 0 <= i < |parts| ==> PartPlaced(parts, sep, r, i))
    && (forall i :: 0 <= i < |parts| - 1 ==> SeparatorPlaced(parts, sep, r, i))
  }

  /** An occurrence that ends by position `a` survives cutting the string at `a`. */
  lemma OccursInPrefix(r: string, s: string, k: nat, a: nat)
    requires OccursAt(r, s, k) && k + |s| <= a <= |r|
    ensures OccursAt(r[..a], s, k)
  {
    assert r[..a][k..k + |s|] == r[k..k + |s|];
  }

  /** A layout for all parts restricts to a layout for all but the last, in the text before
      the last separator. */
  lemma {:induction false} LaidPrefix(parts: seq<string>, sep: string, r: string)
    requires |parts| > 1
    requires Start(parts, sep, |parts| - 1) <= |r| + |sep|
    requires Laid(parts, sep, r)
    ensures Start(parts, sep, |parts| - 1) >= |sep|
    ensures Laid(parts[..|parts| - 1], sep, r[..Start(parts, sep, |parts| - 1) - |sep|])
  {
    var n := |parts| - 1;
    var init := parts[..n];
    var a := Start(parts, sep, n) - |sep|;
    forall i | 0 <= i < |init|
      ensures PartPlaced(init, sep, r[..a], i)
    {
      assert PartPlaced(parts, sep, r, i);
      StartOfPrefix(parts, sep, n, i);
      StartGrows(parts, sep, i + 1, n);
      OccursInPrefix(r, parts[i], Start(parts, sep, i), a);
    }
    forall i | 0 <= i < |init| - 1
      ensures SeparatorPlaced(init, sep, r[..a], i)
    {
      assert SeparatorPlaced(parts, sep, r, i);
      StartOfPrefix(parts, sep, n, i);
      StartGrows(parts, sep, i + 2, n);
      OccursInPrefix(r, sep, Start(parts, sep, i) + |parts[i]|, a);
    }
  }

  /** The converse of `JoinLength`, `JoinPart` and `JoinSeparator`: a string of the right
      length holding every part and every separator in place is the joined string. */
  lemma {:induction false} JoinDetermined(parts: seq<string>, sep: string, r: string)
    requires |parts| > 0
    requires |r| + |sep| == Start(parts, sep, |parts|)
    requires Laid(parts, sep, r)
    ensures r == Join(parts, sep)
  {
    var n := |parts| - 1;
    if n == 0 {
      assert PartPlaced(parts, sep, r, 0);
      assert r == r[0..|parts[0]|];
    } else {
      var b := Start(parts, sep, n);
      var a := b - |sep|;
      LaidPrefix(parts, sep, r);
      StartOfPrefix(parts, sep, n, n);
      JoinDetermined(parts[..n], sep, r[..a]);
      assert SeparatorPlaced(parts, sep, r, n - 1);
      assert PartPlaced(parts, sep, r, n);
      assert r == r[..a] + r[a..b] + r[b..];
    }
  }

  /** A non-empty list of parts joins to `r` exactly when `r` has the joined length and
      holds every part and every separator in place. */
  lemma JoinCharacterised(parts: seq<string>, sep: string, r: string)
    requires |parts| > 0
    ensures r == Join(parts, sep) <==> |r| + |sep| == Start(parts, sep, |parts|) && Laid(parts, sep, r)
  {
    if r == Join(parts, sep) {
      JoinLength(parts, sep);
      forall i | 0 <= i < |parts|
        ensures PartPlaced(parts, sep, r, i)
      {
        JoinPart(parts, sep, i);
      }
      forall i | 0 <= i < |parts| - 1
        ensures SeparatorPlaced(parts, sep, r, i)
      {
        JoinSeparator(parts, sep, i);
      }
    }
    if |r| + |sep| == Start(parts, sep, |parts|) && Laid(parts, sep, r) {
      JoinDetermined(parts, sep, r);
    }
  }
}
