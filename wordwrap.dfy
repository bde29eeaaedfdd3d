/** The entry points of wordwrap.go as imperative code over a growing working line:
    SplitString, the SplitBuilder with NewSplitBuilder and Split, WrapString and join.
    Each is proved to compute the function that specifies it, and its contract restates the
    properties proved about that function. */
module WordWrap {
  import opened Base
  import StrictSpec
  import StrictProps
  import opened BuilderSpec
  import BuilderProps

  /** The cluster loop of SplitString (wordwrap.go:229-282): the working line, the two
      remembered positions and the finished lines, updated cluster by cluster, or the error that
      ends the loop early. */
  method ScanClusters(clusters: seq<seq<byte>>, isSpace: seq<byte> -> bool, byteLimit: nat)
    returns (r: Result<StrictSpec.State>)
    requires AllNonEmpty(clusters)
    ensures r == StrictSpec.Scan(clusters, isSpace, byteLimit)
  {
    var workingLine: seq<byte> := [];
    var finishedLines: seq<seq<byte>> := [];
    var spacePos := NoPos;
    var lastPos := NoPos;
    var i := 0;
    while i < |clusters|
      invariant 0 <= i <= |clusters|
      invariant StrictSpec.Scan(clusters[..i], isSpace, byteLimit)
                == Ok(StrictSpec.State(workingLine, spacePos, lastPos, finishedLines))
    {
      var cluster := clusters[i];
      ghost var before := StrictSpec.State(workingLine, spacePos, lastPos, finishedLines);
      StrictProps.ScanNext(clusters, i, isSpace, byteLimit);
      workingLine := workingLine + cluster;
      if isSpace(cluster) {
        spacePos := CharPos(|workingLine|, |cluster|);
      }
      if |workingLine| >= byteLimit {
        if spacePos.size > 0 {
          var line := workingLine;
          finishedLines := finishedLines + [line[..spacePos.pos]];
          workingLine := line[spacePos.pos..];
          assert StrictSpec.Step(before, cluster, isSpace, byteLimit)
                 == StrictSpec.Emit(before.finished, line[..spacePos.pos], workingLine, cluster, byteLimit);
        } else {
          if |workingLine| > byteLimit {
            if lastPos.pos == 0 {
              assert StrictSpec.Step(before, cluster, isSpace, byteLimit).Err?;
              StrictProps.ScanErrPersists(clusters, i + 1, isSpace, byteLimit);
              return Err(GraphemeClusterTooLarge);
            }
            var line := workingLine;
            finishedLines := finishedLines + [line[..lastPos.pos]];
            workingLine := line[lastPos.pos..];
            assert StrictSpec.Step(before, cluster, isSpace, byteLimit)
                   == StrictSpec.Emit(before.finished, line[..lastPos.pos], workingLine, cluster, byteLimit);
          } else {
            assert StrictSpec.Step(before, cluster, isSpace, byteLimit)
                   == StrictSpec.Emit(before.finished, workingLine, [], cluster, byteLimit);
            finishedLines := finishedLines + [workingLine];
            workingLine := [];
          }
        }
        if |finishedLines[|finishedLines| - 1]| > byteLimit {
          StrictProps.ScanErrPersists(clusters, i + 1, isSpace, byteLimit);
          return Err(GraphemeClusterTooLarge);
        }
        spacePos := NoPos;
      }
      lastPos := CharPos(|workingLine|, |cluster|);
      i := i + 1;
    }
    assert clusters[..i] == clusters;
    r := Ok(StrictSpec.State(workingLine, spacePos, lastPos, finishedLines));
  }

  /** SplitString(s, byteLimit), with the grapheme clusters of `s` and the whitespace test on a
      cluster's first rune given as inputs (wordwrap.go:228-292): the cluster loop, then the
      working line, if any, as the last line. */
  method SplitString(s: seq<byte>, clusters: seq<seq<byte>>, isSpace: seq<byte> -> bool, byteLimit: nat)
    returns (r: Result<seq<seq<byte>>>)
    requires Segmentation(s, clusters)
    ensures r == StrictSpec.SplitLines(clusters, isSpace, byteLimit)
    ensures r.Ok? ==> Concat(r.value) == s && Runs(r.value, clusters)
    ensures r.Ok? ==> forall i :: 0 <= i < |r.value| ==> 0 < |r.value[i]| <= byteLimit
    ensures (exists i :: 0 <= i < |clusters| && |clusters[i]| > byteLimit) ==> r.Err?
    ensures s == [] ==> r == Ok([])
    ensures 0 < |s| < byteLimit ==> r == Ok([s])
  {
    var scanned := ScanClusters(clusters, isSpace, byteLimit);
    StrictProps.SplitLinesFacts(s, clusters, isSpace, byteLimit);
    if scanned.Err? {
      return Err(scanned.error);
    }
    var workingLine, finishedLines := scanned.value.line, scanned.value.finished;
    if |workingLine| > 0 {
      if |workingLine| > byteLimit {
        return Err(GraphemeClusterTooLarge);
      }
      finishedLines := finishedLines + [workingLine];
    }
    r := Ok(finishedLines);
  }

  /** Go's copy(dst[at:], src): copies as many bytes as fit and says how many. */
  method CopyInto(dst: array<byte>, at: nat, src: seq<byte>) returns (k: nat)
    requires at <= dst.Length
    modifies dst
    ensures k == if |src| <= dst.Length - at then |src| else dst.Length - at
    ensures dst[..at + k] == old(dst[..at]) + src[..k]
    ensures dst[at + k..] == old(dst[at + k..])
  {
    k := if |src| <= dst.Length - at then |src| else dst.Length - at;
    for j := 0 to k
      invariant forall x :: 0 <= x < at ==> dst[x] == old(dst[x])
      invariant forall x :: 0 <= x < j ==> dst[at + x] == src[x]
      invariant forall x :: at + j <= x < dst.Length ==> dst[x] == old(dst[x])
    {
      dst[at + j] := src[j];
    }
  }

  /** join(a, sep) (wordwrap.go:313-332): the total length is computed first, then the
      elements and separators are copied into a buffer of exactly that size. */
  method Join(a: seq<seq<byte>>, sep: seq<byte>) returns (r: seq<byte>)
    ensures r == Joined(a, sep)
    ensures |a| > 0 ==> |r| == |Concat(a)| + (|a| - 1) * |sep|
  {
    if |a| == 0 {
      return [];
    }
    JoinedLength(a, sep);
    if |a| == 1 {
      return a[0];
    }
    var n := (|a| - 1) * |sep|;
    for i := 0 to |a|
      invariant n == (|a| - 1) * |sep| + |Concat(a[..i])|
    {
      assert |Concat(a[..i + 1])| == |Concat(a[..i])| + |a[i]| by {
        assert a[..i + 1] == a[..i] + [a[i]];
        ConcatSnoc(a[..i], a[i]);
      }
      n := n + |a[i]|;
    }
    assert a[..|a|] == a;
    r := FillJoined(a, sep, n);
  }

  /** The second half of join (wordwrap.go:324-331): a buffer of the precomputed length `n`,
      the first element copied in, then each further element after a separator. */
  method FillJoined(a: seq<seq<byte>>, sep: seq<byte>, n: nat) returns (r: seq<byte>)
    requires |a| >= 2 && n == |Concat(a)| + (|a| - 1) * |sep|
    ensures r == Joined(a, sep)
  {
    var b := new byte[n];
    assert |a[0]| <= n by {
      JoinedFits(a, sep, 1);
      assert a[..1] == [a[0]];
    }
    var bp: nat := CopyInto(b, 0, a[0]);
    assert b[..bp] == Joined(a[..1], sep) by {
      assert a[..1] == [a[0]];
      assert a[0][..bp] == a[0];
    }
    for i := 1 to |a|
      invariant n == b.Length && bp <= n
      invariant b[..bp] == Joined(a[..i], sep)
    {
      JoinedFits(a, sep, i);
      ghost var done := Joined(a[..i], sep);
      var k := CopyInto(b, bp, sep);
      assert sep[..k] == sep;
      bp := bp + k;
      assert b[..bp] == done + sep;
      k := CopyInto(b, bp, a[i]);
      assert a[i][..k] == a[i];
      bp := bp + k;
      assert b[..bp] == done + sep + a[i];
    }
    assert a[..|a|] == a;
    JoinedLength(a, sep);
    assert b[..] == b[..bp];
    r := b[..];
  }

  /** WrapString(s, byteLimit) (wordwrap.go:298-304): SplitString's lines joined with "\n". */
  method WrapString(s: seq<byte>, clusters: seq<seq<byte>>, isSpace: seq<byte> -> bool, byteLimit: nat)
    returns (r: Result<seq<byte>>)
    requires Segmentation(s, clusters)
    ensures r.Err? <==> StrictSpec.SplitLines(clusters, isSpace, byteLimit).Err?
    ensures r.Ok? ==> r.value == Joined(StrictSpec.SplitLines(clusters, isSpace, byteLimit).value, [10])
    ensures r.Ok? && s != [] ==> |r.value| == |s| + |StrictSpec.SplitLines(clusters, isSpace, byteLimit).value| - 1
    ensures s == [] ==> r == Ok([])
    ensures 0 < |s| < byteLimit ==> r == Ok(s)
  {
    var lines := SplitString(s, clusters, isSpace, byteLimit);
    if lines.Err? {
      return Err(lines.error);
    }
    if s != [] {
      assert lines.value != [];
    }
    var joined := Join(lines.value, [10]);
    r := Ok(joined);
  }

  /** A SplitBuilder: the byte limit and the three option flags. */
  class SplitBuilder {
    var byteLimit: nat
    var continueOnError: bool
    var breakGraphemeClusters: bool
    var trimTrailingWhiteSpace: bool

    function Settings(): Config
      reads this
    {
      Config(byteLimit, continueOnError, breakGraphemeClusters, trimTrailingWhiteSpace)
    }

    /** NewSplitBuilder(byteLimit, opts...) (wordwrap.go:42-55): every flag off, then each
        option applied in order. */
    constructor (byteLimit: nat, opts: seq<SplitBuilderOption>)
      ensures Settings() == Configure(byteLimit, opts)
    {
      this.byteLimit := byteLimit;
      continueOnError := false;
      breakGraphemeClusters := false;
      trimTrailingWhiteSpace := false;
      new;
      for i := 0 to |opts|
        invariant Settings() == Configure(byteLimit, opts[..i])
      {
        assert opts[..i + 1][..i] == opts[..i];
        match opts[i]
        case ContinueOnError(b) => continueOnError := b;
        case BreakGraphemeClusters(b) => breakGraphemeClusters := b;
        case TrimTrailingWhiteSpace(b) => trimTrailingWhiteSpace := b;
      }
      assert opts[..|opts|] == opts;
    }

    /** The rune loop of Split (wordwrap.go:101-124): an oversized cluster appended one rune at
        a time, the whole working line yielded each time it reaches the limit. */
    method BreakInto(st: BState, runes: seq<seq<byte>>) returns (next: BState)
      requires BuilderSpec.Wf(st)
      ensures next == BreakCluster(Settings(), st, runes)
    {
      var workingLine, spacePos, lastPos, lineIndex, pairs := st.line, st.spacePos, st.lastPos, st.lineIndex, st.yielded;
      for j := 0 to |runes|
        invariant BreakCluster(Settings(), st, runes[..j]) == BState(workingLine, spacePos, lastPos, lineIndex, pairs)
      {
        assert runes[..j + 1][..j] == runes[..j];
        var runeBytes := runes[j];
        workingLine := workingLine + runeBytes;
        if |workingLine| >= byteLimit {
          var line := workingLine;
          assert line[..|line|] == line && line[|line|..] == [];
          if trimTrailingWhiteSpace {
            line := TrimRight(line);
          }
          pairs := pairs + [(lineIndex, line)];
          lineIndex := lineIndex + 1;
          workingLine := [];
          spacePos := NoPos;
        }
        lastPos := CharPos(|workingLine|, |runeBytes|);
      }
      assert runes[..|runes|] == runes;
      next := BState(workingLine, spacePos, lastPos, lineIndex, pairs);
    }

    /** One cluster appended whole (wordwrap.go:126-203): the line is cut after the last space,
        else before the cluster, else whole; an oversized cluster that starts the working line
        and is not whitespace-led ends the iteration unless errors are to be skipped. */
    method AppendCluster(st: BState, cluster: seq<byte>, isSpace: seq<byte> -> bool) returns (p: Progress)
      requires BuilderSpec.Wf(st)
      ensures p == ClusterStep(Settings(), st, cluster, isSpace)
    {
      var workingLine, spacePos, lastPos, lineIndex, pairs := st.line, st.spacePos, st.lastPos, st.lineIndex, st.yielded;
      workingLine := workingLine + cluster;
      if isSpace(cluster) {
        spacePos := CharPos(|workingLine|, |cluster|);
      }
      if |workingLine| >= byteLimit {
        var line := workingLine;
        ghost var workingLine0 := workingLine;
        if spacePos.size > 0 {
          var linePart := line[..spacePos.pos];
          if trimTrailingWhiteSpace {
            linePart := TrimRight(linePart);
          }
          pairs := pairs + [(lineIndex, linePart)];
          lineIndex := lineIndex + 1;
          workingLine := line[spacePos.pos..];
          assert ClusterStep(Settings(), st, cluster, isSpace)
                 == Running(Cut(Settings(), st, line, spacePos.pos, |cluster|));
        } else if |workingLine| > byteLimit {
          if lastPos.pos == 0 {
            if !continueOnError {
              return Stopped(pairs);
            }
            assert line[..|line|] == line && line[|line|..] == [];
            if trimTrailingWhiteSpace {
              line := TrimRight(line);
            }
            pairs := pairs + [(lineIndex, line)];
            lineIndex := lineIndex + 1;
            workingLine := [];
            assert ClusterStep(Settings(), st, cluster, isSpace)
                   == Running(Cut(Settings(), st, workingLine0, |workingLine0|, |cluster|));
          } else {
            var linePart := line[..lastPos.pos];
            if trimTrailingWhiteSpace {
              linePart := TrimRight(linePart);
            }
            pairs := pairs + [(lineIndex, linePart)];
            lineIndex := lineIndex + 1;
            workingLine := line[lastPos.pos..];
            assert ClusterStep(Settings(), st, cluster, isSpace)
                   == Running(Cut(Settings(), st, line, lastPos.pos, |cluster|));
          }
        } else {
          assert line[..|line|] == line && line[|line|..] == [];
          if trimTrailingWhiteSpace {
            line := TrimRight(line);
          }
          pairs := pairs + [(lineIndex, line)];
          lineIndex := lineIndex + 1;
          workingLine := [];
          assert ClusterStep(Settings(), st, cluster, isSpace)
                 == Running(Cut(Settings(), st, workingLine0, |workingLine0|, |cluster|));
        }
        spacePos := NoPos;
      }
      lastPos := CharPos(|workingLine|, |cluster|);
      p := Running(BState(workingLine, spacePos, lastPos, lineIndex, pairs));
    }

    /** Split(s) (wordwrap.go:86-218): the (index, line) pairs the iterator yields to a consumer
        that never stops early.  `runes` gives the rune encodings of each cluster, used when an
        oversized cluster is broken up. */
    method Split(s: seq<byte>, clusters: seq<seq<byte>>, runes: seq<seq<seq<byte>>>, isSpace: seq<byte> -> bool)
      returns (pairs: seq<Pair>)
      requires |runes| == |clusters|
      ensures pairs == SplitPairs(Settings(), clusters, runes, isSpace)
      ensures BuilderProps.Numbered(pairs)
      ensures Segmentation(s, clusters) && RuneSplit(clusters, runes) && !trimTrailingWhiteSpace
              ==> Concat(Lines(pairs)) <= s
      ensures Segmentation(s, clusters) && RuneSplit(clusters, runes) && !trimTrailingWhiteSpace && continueOnError
              ==> Concat(Lines(pairs)) == s
    {
      var st := BuilderSpec.Start;
      var i := 0;
      while i < |clusters|
        invariant 0 <= i <= |clusters|
        invariant Scan(Settings(), clusters[..i], runes[..i], isSpace) == Running(st)
      {
        BuilderProps.ScanNext(Settings(), clusters, runes, i, isSpace);
        if breakGraphemeClusters && |clusters[i]| > byteLimit {
          st := BreakInto(st, runes[i]);
        } else {
          var p := AppendCluster(st, clusters[i], isSpace);
          if p.Stopped? {
            BuilderProps.ScanStopPersists(Settings(), clusters, runes, isSpace, i + 1);
            BuilderProps.SplitFacts(Settings(), s, clusters, runes, isSpace);
            return p.yielded;
          }
          st := p.st;
        }
        i := i + 1;
      }
      assert clusters[..i] == clusters && runes[..i] == runes;
      BuilderProps.SplitFacts(Settings(), s, clusters, runes, isSpace);

      pairs := st.yielded;
      if |st.line| > 0 {
        if |st.line| > byteLimit && !continueOnError {
          return;
        }
        var line := st.line;
        if trimTrailingWhiteSpace {
          line := TrimRight(line);
        }
        pairs := pairs + [(st.lineIndex, line)];
      }
    }
  }
}
