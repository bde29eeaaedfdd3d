/** What SplitString promises, proved about the scan of StrictSpec: the cut rule in terms of
    clusters, the partition of the input at cluster boundaries, the length bound, the
    oversized-cluster error and the behaviour on empty and short input. */
module StrictProps {
  import opened Base
  import opened StrictSpec

  /** Index of the most recent whitespace-led cluster of `w`, if any. */
  function LastSpace(w: seq<seq<byte>>, isSpace: seq<byte> -> bool): (r: Option<nat>)
    ensures r.None? ==> forall j :: 0 <= j < |w| ==> !isSpace(w[j])
    ensures r.Some? ==> r.value < |w| && isSpace(w[r.value])
    ensures r.Some? ==> forall j :: r.value < j < |w| ==> !isSpace(w[j])
  {
    if w == [] then None
    else if isSpace(w[|w| - 1]) then Some(|w| - 1)
    else LastSpace(w[..|w| - 1], isSpace)
  }

  /** `spacePos` marks the end of the most recent whitespace-led cluster of the working line
      `w` (and its size), or is the zero record when `w` has none. */
  ghost predicate SpaceMarks(w: seq<seq<byte>>, spacePos: CharPos, isSpace: seq<byte> -> bool)
  {
    match LastSpace(w, isSpace)
    case None => spacePos == NoPos
    case Some(k) => spacePos == CharPos(|Concat(w[..k + 1])|, |w[k]|)
  }

  /** The cut rule stated on clusters.  `w` are the clusters of the working line and `c` the
      cluster just appended.  Ok(None): the line stays under the limit and is not cut.
      Ok(Some(k)): the finished line is the first k clusters of w + [c], namely those up to and
      including the most recent whitespace-led one if there is one; otherwise, over the limit,
      all of w; otherwise (exactly at the limit) all of w + [c].  Err: the line would have to
      be cut before its first cluster, or the finished line is over the limit. */
  function CutPoint(w: seq<seq<byte>>, c: seq<byte>, isSpace: seq<byte> -> bool, byteLimit: nat): Result<Option<nat>>
  {
    var v := w + [c];
    if |Concat(v)| < byteLimit then Ok(None)
    else
      var k := match LastSpace(v, isSpace)
               case Some(j) => j + 1
               case None => if |Concat(v)| > byteLimit then |w| else |v|;
      if k == 0 || |Concat(v[..k])| > byteLimit then Err(GraphemeClusterTooLarge)
      else Ok(Some(k))
  }

  /** Appending a cluster to the working line updates the space mark as the loop does. */
  lemma MarksAfterAppend(w: seq<seq<byte>>, spacePos: CharPos, c: seq<byte>, isSpace: seq<byte> -> bool)
    requires SpaceMarks(w, spacePos, isSpace)
    ensures LastSpace(w + [c], isSpace) == if isSpace(c) then Some(|w|) else LastSpace(w, isSpace)
    ensures SpaceMarks(w + [c], if isSpace(c) then CharPos(|Concat(w)| + |c|, |c|) else spacePos, isSpace)
  {
    LastSpaceSnoc(w, c, isSpace);
    if isSpace(c) {
      MarksAfterSpace(w, c, isSpace);
    } else {
      MarksAfterOther(w, spacePos, c, isSpace);
    }
  }

  lemma LastSpaceSnoc(w: seq<seq<byte>>, c: seq<byte>, isSpace: seq<byte> -> bool)
    ensures LastSpace(w + [c], isSpace) == if isSpace(c) then Some(|w|) else LastSpace(w, isSpace)
  {
    var v := w + [c];
    assert v[..|v| - 1] == w && v[|v| - 1] == c;
  }

  lemma MarksAfterSpace(w: seq<seq<byte>>, c: seq<byte>, isSpace: seq<byte> -> bool)
    requires isSpace(c) && LastSpace(w + [c], isSpace) == Some(|w|)
    ensures SpaceMarks(w + [c], CharPos(|Concat(w)| + |c|, |c|), isSpace)
  {
    var v := w + [c];
    assert v[..|w| + 1] == v;
    ConcatSnoc(w, c);
  }

  lemma MarksAfterOther(w: seq<seq<byte>>, spacePos: CharPos, c: seq<byte>, isSpace: seq<byte> -> bool)
    requires SpaceMarks(w, spacePos, isSpace) && LastSpace(w + [c], isSpace) == LastSpace(w, isSpace)
    ensures SpaceMarks(w + [c], spacePos, isSpace)
  {
    match LastSpace(w, isSpace)
    case None =>
    case Some(k) =>
      PrefixOfSnoc(w, c, k + 1);
      assert (w + [c])[k] == w[k];
  }

  /** The clusters after the most recent whitespace-led one hold no whitespace-led cluster. */
  lemma NoSpaceAfterLast(v: seq<seq<byte>>, j: nat, isSpace: seq<byte> -> bool)
    requires LastSpace(v, isSpace) == Some(j)
    ensures LastSpace(v[j + 1..], isSpace) == None
  {
    var rest := v[j + 1..];
    forall i | 0 <= i < |rest|
      ensures !isSpace(rest[i])
    {
      assert rest[i] == v[j + 1 + i];
    }
  }

  /** The cut at the most recent whitespace-led cluster (wordwrap.go:250-255). */
  lemma SpaceCut(st: State, w: seq<seq<byte>>, c: seq<byte>, isSpace: seq<byte> -> bool, byteLimit: nat, j: nat)
    requires Wf(st) && AllNonEmpty(w) && |c| > 0
    requires st.line == Concat(w) && SpaceMarks(w, st.spacePos, isSpace)
    requires |st.line| + |c| >= byteLimit && LastSpace(w + [c], isSpace) == Some(j)
    ensures var v := w + [c];
            Step(st, c, isSpace, byteLimit) == Emit(st.finished, Concat(v[..j + 1]), Concat(v[j + 1..]), c, byteLimit)
    ensures SpaceMarks((w + [c])[j + 1..], NoPos, isSpace)
  {
    var v := w + [c];
    var line := st.line + c;
    MarksAfterAppend(w, st.spacePos, c, isSpace);
    ConcatSnoc(w, c);
    ConcatSplitAt(v, j + 1);
    NoSpaceAfterLast(v, j, isSpace);
    var sp := if isSpace(c) then CharPos(|line|, |c|) else st.spacePos;
    assert sp == CharPos(|Concat(v[..j + 1])|, |v[j]|) && |v[j]| > 0;
    assert line[..sp.pos] == Concat(v[..j + 1]) && line[sp.pos..] == Concat(v[j + 1..]);
  }

  /** The cut just before the current cluster (wordwrap.go:257-267). */
  lemma LastCut(st: State, w: seq<seq<byte>>, c: seq<byte>, isSpace: seq<byte> -> bool, byteLimit: nat)
    requires Wf(st) && AllNonEmpty(w) && |c| > 0
    requires st.line == Concat(w) && SpaceMarks(w, st.spacePos, isSpace)
    requires |st.line| + |c| > byteLimit && LastSpace(w + [c], isSpace) == None
    ensures w == [] ==> Step(st, c, isSpace, byteLimit) == Err(GraphemeClusterTooLarge)
    ensures w != [] ==> Step(st, c, isSpace, byteLimit) == Emit(st.finished, Concat(w), Concat([c]), c, byteLimit)
    ensures SpaceMarks([c], NoPos, isSpace)
  {
    MarksAfterAppend(w, st.spacePos, c, isSpace);
    assert (w + [c])[|w|] == c;
    ConcatSnoc([], c);
    assert [] + [c] == [c];
    MarksAfterAppend([], NoPos, c, isSpace);
    if w != [] {
      ConcatNonEmpty(w);
      var line := st.line + c;
      assert !isSpace(c);
      assert LastSpace(w, isSpace) == None;
      assert st.spacePos == NoPos;
      assert st.lastPos.pos != 0;
      assert line[..st.lastPos.pos] == Concat(w) && line[st.lastPos.pos..] == c;
      assert Concat([c]) == c;
    }
  }

  /** The line exactly at the limit with no whitespace-led cluster is emitted whole
      (wordwrap.go:268-270). */
  lemma WholeCut(st: State, w: seq<seq<byte>>, c: seq<byte>, isSpace: seq<byte> -> bool, byteLimit: nat)
    requires Wf(st) && |c| > 0
    requires st.line == Concat(w) && SpaceMarks(w, st.spacePos, isSpace)
    requires |st.line| + |c| == byteLimit && LastSpace(w + [c], isSpace) == None
    ensures Step(st, c, isSpace, byteLimit) == Emit(st.finished, Concat(w + [c]), [], c, byteLimit)
  {
    MarksAfterAppend(w, st.spacePos, c, isSpace);
    ConcatSnoc(w, c);
  }

  /** CutPoint on a line at or over the limit, case by case. */
  lemma CutPointAt(w: seq<seq<byte>>, c: seq<byte>, isSpace: seq<byte> -> bool, byteLimit: nat)
    requires |Concat(w + [c])| >= byteLimit
    ensures var v := w + [c];
            match LastSpace(v, isSpace)
            case Some(j) =>
              CutPoint(w, c, isSpace, byteLimit)
              == if |Concat(v[..j + 1])| > byteLimit then Err(GraphemeClusterTooLarge) else Ok(Some(j + 1))
            case None =>
              if |Concat(v)| > byteLimit then
                CutPoint(w, c, isSpace, byteLimit)
                == if w == [] || |Concat(v[..|w|])| > byteLimit then Err(GraphemeClusterTooLarge) else Ok(Some(|w|))
              else CutPoint(w, c, isSpace, byteLimit) == Ok(Some(|v|))
  {
    var v := w + [c];
    assert v[..|v|] == v;
  }

  /** One iteration of SplitString's loop follows the cut rule: whatever the byte offsets in
      `spacePos` and `lastPos`, the line is cut exactly where CutPoint says, the remainder is
      the clusters after the cut, and `spacePos` again marks the last whitespace-led cluster. */
  lemma CutRule(st: State, w: seq<seq<byte>>, c: seq<byte>, isSpace: seq<byte> -> bool, byteLimit: nat)
    requires Wf(st) && AllNonEmpty(w) && |c| > 0
    requires st.line == Concat(w) && SpaceMarks(w, st.spacePos, isSpace)
    ensures var v := w + [c];
            var r := Step(st, c, isSpace, byteLimit);
            match CutPoint(w, c, isSpace, byteLimit)
            case Err(e) => r == Err(e)
            case Ok(None) =>
              && r.Ok? && r.value.finished == st.finished && r.value.line == Concat(v)
              && SpaceMarks(v, r.value.spacePos, isSpace)
            case Ok(Some(k)) =>
              && k <= |v| && r.Ok? && r.value.finished == st.finished + [Concat(v[..k])]
              && r.value.line == Concat(v[k..]) && SpaceMarks(v[k..], r.value.spacePos, isSpace)
  {
    var v := w + [c];
    ConcatSnoc(w, c);
    MarksAfterAppend(w, st.spacePos, c, isSpace);
    if |Concat(v)| >= byteLimit {
      match LastSpace(v, isSpace)
      case Some(j) =>
        SpaceCut(st, w, c, isSpace, byteLimit, j);
        CutPointAt(w, c, isSpace, byteLimit);
      case None =>
        if |Concat(v)| > byteLimit {
          LastCut(st, w, c, isSpace, byteLimit);
          CutPointAt(w, c, isSpace, byteLimit);
          assert v[..|w|] == w && v[|w|..] == [c];
        } else {
          WholeCut(st, w, c, isSpace, byteLimit);
          CutPointAt(w, c, isSpace, byteLimit);
          assert v[..|v|] == v && v[|v|..] == [];
        }
    }
  }

  /** The state reached after consuming `cs` keeps the last `n` clusters in its working line,
      with the space mark they call for, and has glued all the clusters before them, in runs
      of `sizes`, into its finished lines. */
  ghost predicate Pending(st: State, cs: seq<seq<byte>>, n: nat, sizes: seq<nat>, isSpace: seq<byte> -> bool)
  {
    && n <= |cs|
    && Sum(sizes) == |cs| - n
    && st.finished == Glue(cs[..|cs| - n], sizes)
    && st.line == Concat(cs[|cs| - n..])
    && SpaceMarks(cs[|cs| - n..], st.spacePos, isSpace)
  }

  /** Slicing a list with one more element at its end, `k` elements past `b`. */
  lemma SliceCut<T>(ps: seq<T>, c: T, b: nat, k: nat)
    requires b <= |ps| && k <= |ps| - b + 1
    ensures (ps + [c])[..b + k][..b] == ps[..b]
    ensures (ps + [c])[..b + k][b..] == (ps[b..] + [c])[..k]
    ensures (ps + [c])[b + k..] == (ps[b..] + [c])[k..]
  {
    var cs, v := ps + [c], ps[b..] + [c];
    assert cs == ps[..b] + v;
    assert cs[..b + k] == ps[..b] + v[..k];
  }

  /** The finished lines after a cut glue one more run, the first k pending clusters. */
  lemma CutGlue(ps: seq<seq<byte>>, c: seq<byte>, n: nat, sizes: seq<nat>, k: nat)
    requires n <= |ps| && k <= n + 1 && Sum(sizes) == |ps| - n
    ensures Sum(sizes + [k]) == |ps + [c]| - (n + 1 - k)
    ensures Glue(ps[..|ps| - n], sizes) + [Concat((ps[|ps| - n..] + [c])[..k])]
            == Glue((ps + [c])[..|ps + [c]| - (n + 1 - k)], sizes + [k])
  {
    var b := |ps| - n;
    var u := (ps + [c])[..b + k];
    assert |ps + [c]| - (n + 1 - k) == b + k;
    SliceCut(ps, c, b, k);
    GlueSnoc(u, sizes, k);
    assert |u| - k == b;
  }

  /** The working line after a cut is made of the clusters after the cut. */
  lemma CutLine(line: seq<byte>, spacePos: CharPos, ps: seq<seq<byte>>, c: seq<byte>, n: nat, k: nat, isSpace: seq<byte> -> bool)
    requires n <= |ps| && k <= n + 1
    requires line == Concat((ps[|ps| - n..] + [c])[k..])
    requires SpaceMarks((ps[|ps| - n..] + [c])[k..], spacePos, isSpace)
    ensures line == Concat((ps + [c])[|ps + [c]| - (n + 1 - k)..])
    ensures SpaceMarks((ps + [c])[|ps + [c]| - (n + 1 - k)..], spacePos, isSpace)
  {
    SliceCut(ps, c, |ps| - n, k);
    assert |ps + [c]| - (n + 1 - k) == |ps| - n + k;
  }

  /** A cut after the first k of the pending clusters plus the new one keeps Pending. */
  lemma CutKeepsPending(st: State, st': State, ps: seq<seq<byte>>, n: nat, sizes: seq<nat>, c: seq<byte>, k: nat, isSpace: seq<byte> -> bool)
    requires Pending(st, ps, n, sizes, isSpace)
    requires var v := ps[|ps| - n..] + [c];
             && k <= |v|
             && st'.finished == st.finished + [Concat(v[..k])]
             && st'.line == Concat(v[k..])
             && SpaceMarks(v[k..], st'.spacePos, isSpace)
    ensures Pending(st', ps + [c], n + 1 - k, sizes + [k], isSpace)
  {
    CutGlue(ps, c, n, sizes, k);
    CutLine(st'.line, st'.spacePos, ps, c, n, k, isSpace);
  }

  /** Slicing a list with one more element at its end. */
  lemma SliceSnoc<T>(ps: seq<T>, c: T, b: nat)
    requires b <= |ps|
    ensures (ps + [c])[..b] == ps[..b]
    ensures (ps + [c])[b..] == ps[b..] + [c]
    ensures |ps + [c]| - (|ps| - b + 1) == b
  {
  }

  /** Appending without a cut keeps Pending, with one more pending cluster. */
  lemma NoCutKeepsPending(st: State, st': State, ps: seq<seq<byte>>, n: nat, sizes: seq<nat>, c: seq<byte>, isSpace: seq<byte> -> bool)
    requires Pending(st, ps, n, sizes, isSpace)
    requires var v := ps[|ps| - n..] + [c];
             && st'.finished == st.finished && st'.line == Concat(v)
             && SpaceMarks(v, st'.spacePos, isSpace)
    ensures Pending(st', ps + [c], n + 1, sizes, isSpace)
  {
    SliceSnoc(ps, c, |ps| - n);
  }

  lemma StepKeepsPending(st: State, ps: seq<seq<byte>>, n: nat, sizes: seq<nat>, c: seq<byte>, isSpace: seq<byte> -> bool, byteLimit: nat)
    requires Wf(st) && AllNonEmpty(ps) && |c| > 0 && Pending(st, ps, n, sizes, isSpace)
    ensures Step(st, c, isSpace, byteLimit).Ok? ==>
              exists n', sizes' :: Pending(Step(st, c, isSpace, byteLimit).value, ps + [c], n', sizes', isSpace)
  {
    var w := ps[|ps| - n..];
    CutRule(st, w, c, isSpace, byteLimit);
    match CutPoint(w, c, isSpace, byteLimit)
    case Err(_) =>
    case Ok(None) =>
      NoCutKeepsPending(st, Step(st, c, isSpace, byteLimit).value, ps, n, sizes, c, isSpace);
    case Ok(Some(k)) =>
      CutKeepsPending(st, Step(st, c, isSpace, byteLimit).value, ps, n, sizes, c, k, isSpace);
  }

  lemma {:induction false} ScanPending(cs: seq<seq<byte>>, isSpace: seq<byte> -> bool, byteLimit: nat)
    requires AllNonEmpty(cs) && Scan(cs, isSpace, byteLimit).Ok?
    ensures exists n, sizes :: Pending(Scan(cs, isSpace, byteLimit).value, cs, n, sizes, isSpace)
    decreases |cs|
  {
    if cs == [] {
      assert Pending(Start, cs, 0, [], isSpace);
    } else {
      var ps, c := cs[..|cs| - 1], cs[|cs| - 1];
      assert cs == ps + [c];
      ScanPending(ps, isSpace, byteLimit);
      var n, sizes :| Pending(Scan(ps, isSpace, byteLimit).value, ps, n, sizes, isSpace);
      StepKeepsPending(Scan(ps, isSpace, byteLimit).value, ps, n, sizes, c, isSpace, byteLimit);
    }
  }

  /** Flushing the working line of a Pending state glues the pending clusters into one more
      run, unless there are none. */
  lemma FlushGlue(st: State, cs: seq<seq<byte>>, n: nat, sizes: seq<nat>, isSpace: seq<byte> -> bool)
    requires AllNonEmpty(cs) && Pending(st, cs, n, sizes, isSpace)
    ensures |st.line| > 0 ==> Sum(sizes + [n]) == |cs| && st.finished + [st.line] == Glue(cs, sizes + [n])
    ensures |st.line| == 0 ==> Sum(sizes) == |cs| && st.finished == Glue(cs, sizes)
  {
    if |st.line| > 0 {
      GlueSnoc(cs, sizes, n);
    } else {
      assert AllNonEmpty(cs[|cs| - n..]);
      ConcatNonEmpty(cs[|cs| - n..]);
      assert cs[..|cs|] == cs;
    }
  }

  /** Partition: on success the lines concatenate to exactly the input, and each line is a run
      of consecutive whole grapheme clusters, so no cut falls inside a cluster. */
  lemma SplitLinesPartition(s: seq<byte>, clusters: seq<seq<byte>>, isSpace: seq<byte> -> bool, byteLimit: nat)
    requires Segmentation(s, clusters)
    requires SplitLines(clusters, isSpace, byteLimit).Ok?
    ensures Concat(SplitLines(clusters, isSpace, byteLimit).value) == s
    ensures Runs(SplitLines(clusters, isSpace, byteLimit).value, clusters)
  {
    var st := Scan(clusters, isSpace, byteLimit).value;
    ScanPending(clusters, isSpace, byteLimit);
    var n, sizes :| Pending(st, clusters, n, sizes, isSpace);
    FlushGlue(st, clusters, n, sizes, isSpace);
    var runs := if |st.line| > 0 then sizes + [n] else sizes;
    GlueConcat(clusters, runs);
  }

  lemma {:induction false} ScanBound(cs: seq<seq<byte>>, isSpace: seq<byte> -> bool, byteLimit: nat)
    requires AllNonEmpty(cs) && Scan(cs, isSpace, byteLimit).Ok?
    ensures forall i :: 0 <= i < |Scan(cs, isSpace, byteLimit).value.finished| ==>
              0 < |Scan(cs, isSpace, byteLimit).value.finished[i]| <= byteLimit
    decreases |cs|
  {
    if cs != [] {
      ScanBound(cs[..|cs| - 1], isSpace, byteLimit);
    }
  }

  /** Length bound: on success every line is non-empty and at most byteLimit bytes long. */
  lemma SplitLinesBound(clusters: seq<seq<byte>>, isSpace: seq<byte> -> bool, byteLimit: nat)
    requires AllNonEmpty(clusters) && SplitLines(clusters, isSpace, byteLimit).Ok?
    ensures forall i :: 0 <= i < |SplitLines(clusters, isSpace, byteLimit).value| ==>
              0 < |SplitLines(clusters, isSpace, byteLimit).value[i]| <= byteLimit
  {
    ScanBound(clusters, isSpace, byteLimit);
  }

  /** One step keeps "a line at or over the limit has no space position", and a cluster over
      the limit, or a working line over it, leaves the new working line over the limit. */
  lemma StepOversized(st: State, c: seq<byte>, isSpace: seq<byte> -> bool, byteLimit: nat)
    requires Wf(st) && |c| > 0 && Step(st, c, isSpace, byteLimit).Ok?
    requires |st.line| >= byteLimit ==> st.spacePos.size == 0
    ensures var st' := Step(st, c, isSpace, byteLimit).value;
            |st'.line| >= byteLimit ==> st'.spacePos.size == 0
    ensures |c| > byteLimit || |st.line| > byteLimit ==> |Step(st, c, isSpace, byteLimit).value.line| > byteLimit
  {
    var line := st.line + c;
    var sp := if isSpace(c) then CharPos(|line|, |c|) else st.spacePos;
    if |line| >= byteLimit {
      if sp.size > 0 {
        assert Step(st, c, isSpace, byteLimit) == Emit(st.finished, line[..sp.pos], line[sp.pos..], c, byteLimit);
        if !isSpace(c) {
          assert |line[sp.pos..]| == |st.line| - sp.pos + |c|;
        }
      } else if |line| > byteLimit {
        assert Step(st, c, isSpace, byteLimit) == Emit(st.finished, line[..st.lastPos.pos], line[st.lastPos.pos..], c, byteLimit);
      } else {
        assert Step(st, c, isSpace, byteLimit) == Emit(st.finished, line, [], c, byteLimit);
      }
    }
  }

  /** Once a cluster longer than the limit has been consumed without error, it is still in the
      working line, which is therefore over the limit; and a working line at or over the limit
      never has a space position recorded. */
  lemma {:induction false} ScanOversized(cs: seq<seq<byte>>, isSpace: seq<byte> -> bool, byteLimit: nat)
    requires AllNonEmpty(cs) && Scan(cs, isSpace, byteLimit).Ok?
    ensures |Scan(cs, isSpace, byteLimit).value.line| >= byteLimit ==> Scan(cs, isSpace, byteLimit).value.spacePos.size == 0
    ensures (exists i :: 0 <= i < |cs| && |cs[i]| > byteLimit) ==> |Scan(cs, isSpace, byteLimit).value.line| > byteLimit
    decreases |cs|
  {
    if cs != [] {
      var n := |cs| - 1;
      var ps, c := cs[..n], cs[n];
      assert AllNonEmpty(ps);
      assert Scan(ps, isSpace, byteLimit).Ok?;
      ScanOversized(ps, isSpace, byteLimit);
      var st := Scan(ps, isSpace, byteLimit).value;
      assert Scan(cs, isSpace, byteLimit) == Step(st, c, isSpace, byteLimit);
      StepOversized(st, c, isSpace, byteLimit);
      if exists i :: 0 <= i < |cs| && |cs[i]| > byteLimit {
        var i :| 0 <= i < |cs| && |cs[i]| > byteLimit;
        if i < n {
          assert ps[i] == cs[i];
        }
      }
    }
  }

  /** A cluster longer than the limit always makes SplitString fail. */
  lemma OversizedClusterFails(s: seq<byte>, clusters: seq<seq<byte>>, isSpace: seq<byte> -> bool, byteLimit: nat)
    requires Segmentation(s, clusters)
    requires exists i :: 0 <= i < |clusters| && |clusters[i]| > byteLimit
    ensures SplitLines(clusters, isSpace, byteLimit).Err?
  {
    if Scan(clusters, isSpace, byteLimit).Ok? {
      ScanOversized(clusters, isSpace, byteLimit);
    }
  }

  /** With a limit of 0 every non-empty input fails. */
  lemma ZeroLimitFails(s: seq<byte>, clusters: seq<seq<byte>>, isSpace: seq<byte> -> bool)
    requires Segmentation(s, clusters) && s != []
    ensures SplitLines(clusters, isSpace, 0).Err?
  {
    assert clusters != [];
    assert |clusters[0]| > 0;
    OversizedClusterFails(s, clusters, isSpace, 0);
  }

  lemma {:induction false} ScanShort(cs: seq<seq<byte>>, isSpace: seq<byte> -> bool, byteLimit: nat)
    requires AllNonEmpty(cs) && |Concat(cs)| < byteLimit
    ensures Scan(cs, isSpace, byteLimit).Ok?
    ensures Scan(cs, isSpace, byteLimit).value.line == Concat(cs)
    ensures Scan(cs, isSpace, byteLimit).value.finished == []
    decreases |cs|
  {
    if cs != [] {
      ScanShort(cs[..|cs| - 1], isSpace, byteLimit);
    }
  }

  /** Input shorter than the limit comes back as one line, unchanged. */
  lemma ShortInput(s: seq<byte>, clusters: seq<seq<byte>>, isSpace: seq<byte> -> bool, byteLimit: nat)
    requires Segmentation(s, clusters) && 0 < |s| < byteLimit
    ensures SplitLines(clusters, isSpace, byteLimit) == Ok([s])
  {
    ScanShort(clusters, isSpace, byteLimit);
    assert [] + [s] == [s];
  }

  /** Empty input gives no lines and no error, whatever the limit. */
  lemma EmptyInput(s: seq<byte>, clusters: seq<seq<byte>>, isSpace: seq<byte> -> bool, byteLimit: nat)
    requires Segmentation(s, clusters) && s == []
    ensures SplitLines(clusters, isSpace, byteLimit) == Ok([])
  {
    ConcatNonEmpty(clusters);
  }

  /** The scan of one more cluster is one more step. */
  lemma ScanNext(cs: seq<seq<byte>>, i: nat, isSpace: seq<byte> -> bool, byteLimit: nat)
    requires AllNonEmpty(cs) && i < |cs| && Scan(cs[..i], isSpace, byteLimit).Ok?
    ensures Scan(cs[..i + 1], isSpace, byteLimit) == Step(Scan(cs[..i], isSpace, byteLimit).value, cs[i], isSpace, byteLimit)
  {
    assert cs[..i + 1][..i] == cs[..i];
  }

  /** Once the scan has failed on a prefix, it fails on the whole list. */
  lemma {:induction false} ScanErrPersists(cs: seq<seq<byte>>, n: nat, isSpace: seq<byte> -> bool, byteLimit: nat)
    requires AllNonEmpty(cs) && n <= |cs| && Scan(cs[..n], isSpace, byteLimit).Err?
    ensures Scan(cs, isSpace, byteLimit).Err?
    decreases |cs|
  {
    if n < |cs| {
      var ps := cs[..|cs| - 1];
      assert ps[..n] == cs[..n];
      ScanErrPersists(ps, n, isSpace, byteLimit);
    } else {
      assert cs[..n] == cs;
    }
  }

  /** Everything SplitString promises about its result, gathered for the method's exits. */
  lemma SplitLinesFacts(s: seq<byte>, clusters: seq<seq<byte>>, isSpace: seq<byte> -> bool, byteLimit: nat)
    requires Segmentation(s, clusters)
    ensures var r := SplitLines(clusters, isSpace, byteLimit);
      && (r.Ok? ==> Concat(r.value) == s && Runs(r.value, clusters))
      && (r.Ok? ==> forall i :: 0 <= i < |r.value| ==> 0 < |r.value[i]| <= byteLimit)
      && ((exists i :: 0 <= i < |clusters| && |clusters[i]| > byteLimit) ==> r.Err?)
      && (s == [] ==> r == Ok([]))
      && (0 < |s| < byteLimit ==> r == Ok([s]))
  {
    if SplitLines(clusters, isSpace, byteLimit).Ok? {
      SplitLinesPartition(s, clusters, isSpace, byteLimit);
      SplitLinesBound(clusters, isSpace, byteLimit);
    }
    if exists i :: 0 <= i < |clusters| && |clusters[i]| > byteLimit {
      OversizedClusterFails(s, clusters, isSpace, byteLimit);
    }
    if s == [] {
      EmptyInput(s, clusters, isSpace, byteLimit);
    }
    if 0 < |s| < byteLimit {
      ShortInput(s, clusters, isSpace, byteLimit);
    }
  }
}
