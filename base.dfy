/** Byte strings and the small vocabulary shared by the two splitters of wordwrap.go:
    the byte type, concatenation of pieces, runs of consecutive whole pieces,
    the trailing-whitespace trim, the separator join and the `charPos` record. */
module Base {

  newtype byte = x: int | 0 <= x < 256

  datatype Option<T> = None | Some(value: T)

  /** The one error of the package, ErrGraphemeClusterTooLarge. */
  datatype Error = GraphemeClusterTooLarge

  datatype Result<T> = Ok(value: T) | Err(error: Error)

  /** `charPos`: an offset into the working line and the size of the piece that ends there. */
  datatype CharPos = CharPos(pos: int, size: int)

  /** The zero value `charPos{}`: "no position recorded". */
  const NoPos := CharPos(0, 0)

  /** Concatenation of a list of byte strings (clusters, runes or lines), in order. */
  function Concat(ss: seq<seq<byte>>): seq<byte>
  {
    if ss == [] then [] else Concat(ss[..|ss| - 1]) + ss[|ss| - 1]
  }

  predicate AllNonEmpty(ss: seq<seq<byte>>)
  {
    forall i :: 0 <= i < |ss| ==> |ss[i]| > 0
  }

  /** `clusters` is a segmentation of `s`: non-empty pieces that, in order, make up `s`. */
  predicate Segmentation(s: seq<byte>, clusters: seq<seq<byte>>)
  {
    AllNonEmpty(clusters) && Concat(clusters) == s
  }

  function Sum(sizes: seq<nat>): nat
  {
    if sizes == [] then 0 else Sum(sizes[..|sizes| - 1]) + sizes[|sizes| - 1]
  }

  /** The pieces `cs` glued into consecutive runs: the i-th line is the concatenation of the
      next `sizes[i]` pieces.  Lines of this form are only ever cut where a piece ends. */
  function Glue(cs: seq<seq<byte>>, sizes: seq<nat>): seq<seq<byte>>
    requires Sum(sizes) == |cs|
    decreases |sizes|
  {
    if sizes == [] then []
    else
      var k := sizes[|sizes| - 1];
      Glue(cs[..|cs| - k], sizes[..|sizes| - 1]) + [Concat(cs[|cs| - k..])]
  }

  /** `lines` are the pieces `cs` glued into consecutive runs of whole pieces. */
  ghost predicate Runs(lines: seq<seq<byte>>, cs: seq<seq<byte>>)
  {
    exists sizes :: Sum(sizes) == |cs| && lines == Glue(cs, sizes)
  }

  lemma ConcatSnoc(ss: seq<seq<byte>>, x: seq<byte>)
    ensures Concat(ss + [x]) == Concat(ss) + x
  {
    assert (ss + [x])[..|ss|] == ss;
  }

  /** Appending a piece leaves the concatenation of each earlier prefix alone. */
  lemma PrefixOfSnoc(ss: seq<seq<byte>>, x: seq<byte>, m: nat)
    requires m <= |ss|
    ensures Concat((ss + [x])[..m]) == Concat(ss[..m])
  {
    assert (ss + [x])[..m] == ss[..m];
  }

  lemma {:induction false} ConcatAppend(a: seq<seq<byte>>, b: seq<seq<byte>>)
    ensures Concat(a + b) == Concat(a) + Concat(b)
    decreases |b|
  {
    if b == [] {
      assert a + b == a;
    } else {
      var b' := b[..|b| - 1];
      assert a + b == (a + b') + [b[|b| - 1]];
      ConcatSnoc(a + b', b[|b| - 1]);
      ConcatAppend(a, b');
      ConcatSnoc(b', b[|b| - 1]);
      assert b' + [b[|b| - 1]] == b;
    }
  }

  /** Splitting the list of pieces at `k` splits their concatenation. */
  lemma ConcatSplitAt(ss: seq<seq<byte>>, k: nat)
    requires k <= |ss|
    ensures Concat(ss) == Concat(ss[..k]) + Concat(ss[k..])
  {
    assert ss == ss[..k] + ss[k..];
    ConcatAppend(ss[..k], ss[k..]);
  }

  /** A list of non-empty pieces concatenates to the empty string only if it is empty. */
  lemma {:induction false} ConcatNonEmpty(ss: seq<seq<byte>>)
    requires AllNonEmpty(ss)
    ensures |Concat(ss)| >= |ss|
    ensures ss != [] ==> Concat(ss) != []
    decreases |ss|
  {
    if ss != [] {
      ConcatNonEmpty(ss[..|ss| - 1]);
    }
  }

  lemma SumSnoc(sizes: seq<nat>, k: nat)
    ensures Sum(sizes + [k]) == Sum(sizes) + k
  {
    assert (sizes + [k])[..|sizes|] == sizes;
  }

  /** Gluing one more run onto the end of the pieces. */
  lemma GlueSnoc(cs: seq<seq<byte>>, sizes: seq<nat>, k: nat)
    requires Sum(sizes) + k == |cs|
    ensures Sum(sizes + [k]) == |cs|
    ensures Glue(cs, sizes + [k]) == Glue(cs[..|cs| - k], sizes) + [Concat(cs[|cs| - k..])]
  {
    var longer := sizes + [k];
    SumSnoc(sizes, k);
    assert longer[..|longer| - 1] == sizes;
  }

  /** Glued runs concatenate back to the pieces they were glued from. */
  lemma {:induction false} GlueConcat(cs: seq<seq<byte>>, sizes: seq<nat>)
    requires Sum(sizes) == |cs|
    ensures Concat(Glue(cs, sizes)) == Concat(cs)
    ensures |Glue(cs, sizes)| == |sizes|
    decreases |sizes|
  {
    if sizes != [] {
      var k := sizes[|sizes| - 1];
      var init := sizes[..|sizes| - 1];
      GlueConcat(cs[..|cs| - k], init);
      ConcatSnoc(Glue(cs[..|cs| - k], init), Concat(cs[|cs| - k..]));
      ConcatSplitAt(cs, |cs| - k);
    }
  }

  /** The cutset " \t\n\r" of the TrimRight calls in wordwrap.go.  All four are ASCII, so a
      trailing byte in the set is always a whole rune of the set. */
  predicate InCutset(b: byte)
  {
    b == 32 || b == 9 || b == 10 || b == 13
  }

  /** strings.TrimRight(line, " \t\n\r"): the longest prefix of `s` that does not end in a
      cutset byte, where everything removed is cutset bytes. */
  function TrimRight(s: seq<byte>): (r: seq<byte>)
    ensures r <= s
    ensures r == [] || !InCutset(r[|r| - 1])
    ensures forall i :: |r| <= i < |s| ==> InCutset(s[i])
  {
    if s != [] && InCutset(s[|s| - 1]) then TrimRight(s[..|s| - 1]) else s
  }

  /** The three properties TrimRight ensures pin its result down: if `s[..j]` does not end in a
      cutset byte and everything after it is cutset bytes, then it is the trimmed line. */
  lemma TrimRightIs(s: seq<byte>, j: nat)
    requires j <= |s|
    requires j == 0 || !InCutset(s[j - 1])
    requires forall i :: j <= i < |s| ==> InCutset(s[i])
    ensures TrimRight(s) == s[..j]
  {
  }

  /** The reference for `join`: the elements of `a` with `sep` between each two neighbours. */
  function Joined(a: seq<seq<byte>>, sep: seq<byte>): (r: seq<byte>)
    ensures |a| > 0 ==> a[0] <= r
    ensures |a| > 1 ==> a[0] + sep <= r
  {
    if |a| == 0 then []
    else if |a| == 1 then a[0]
    else Joined(a[..|a| - 1], sep) + sep + a[|a| - 1]
  }

  /** The length `join` precomputes: the sum of the element lengths plus one separator between
      each two neighbours. */
  lemma {:induction false} JoinedLength(a: seq<seq<byte>>, sep: seq<byte>)
    requires |a| > 0
    ensures |Joined(a, sep)| == |Concat(a)| + (|a| - 1) * |sep|
    decreases |a|
  {
    if |a| == 1 {
      assert a == [] + [a[0]];
      ConcatSnoc([], a[0]);
    } else {
      var init, n := a[..|a| - 1], |a| - 1;
      JoinedLength(init, sep);
      assert a == init + [a[n]];
      ConcatSnoc(init, a[n]);
      assert (n - 1) * |sep| + |sep| == n * |sep|;
    }
  }

  /** While `join` fills its buffer, the next separator and element always fit in the length it
      precomputed. */
  lemma JoinedFits(a: seq<seq<byte>>, sep: seq<byte>, i: nat)
    requires 1 <= i < |a|
    ensures Joined(a[..i + 1], sep) == Joined(a[..i], sep) + sep + a[i]
    ensures |Joined(a[..i], sep)| + |sep| + |a[i]| <= |Concat(a)| + (|a| - 1) * |sep|
  {
    var p := a[..i + 1];
    assert p[..i] == a[..i];
    assert |p| - 1 == i;
    JoinedLength(p, sep);
    ConcatSplitAt(a, i + 1);
    MulMono(i, |a| - 1, |sep|);
  }

  /** Multiplication by a natural number is monotonic.  Kept apart from JoinedFits so that the
      nonlinear step is proved without the sequence facts in scope. */
  lemma MulMono(x: nat, y: nat, z: nat)
    requires x <= y
    ensures x * z <= y * z
  {
  }
}
