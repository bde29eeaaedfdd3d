/** What SplitBuilder promises, proved about the scan of BuilderSpec: how options combine, that
    the default builder yields SplitString's lines, that indices count up from 0, that the
    untrimmed lines are a prefix of the input (all of it when continuing on error), that trimming
    only changes the yielded copies, and that breaking clusters never stops the scan early. */
module BuilderProps {
  import opened Base
  import opened BuilderSpec
  import S = StrictSpec

  /** The three boolean flags of a builder. */
  datatype Flag = ContinueFlag | BreakFlag | TrimFlag

  function Get(cfg: Config, f: Flag): bool
  {
    match f
    case ContinueFlag => cfg.continueOnError
    case BreakFlag => cfg.breakGraphemeClusters
    case TrimFlag => cfg.trimTrailingWhiteSpace
  }

  /** The value an option gives flag `f`, or None when the option is about another flag. */
  function Sets(opt: SplitBuilderOption, f: Flag): Option<bool>
  {
    match (opt, f)
    case (ContinueOnError(b), ContinueFlag) => Some(b)
    case (BreakGraphemeClusters(b), BreakFlag) => Some(b)
    case (TrimTrailingWhiteSpace(b), TrimFlag) => Some(b)
    case _ => None
  }

  /** NewSplitBuilder keeps the limit, and a flag is on exactly when some option turns it on
      and no later option sets it again; with no option about it, a flag is off. */
  lemma {:induction false} ConfigureLastWins(byteLimit: nat, opts: seq<SplitBuilderOption>, f: Flag)
    ensures Configure(byteLimit, opts).byteLimit == byteLimit
    ensures Get(Configure(byteLimit, opts), f) <==>
              exists i :: 0 <= i < |opts| && Sets(opts[i], f) == Some(true) &&
                          forall j :: i < j < |opts| ==> Sets(opts[j], f) == None
    decreases |opts|
  {
    if opts != [] {
      var n := |opts| - 1;
      var init := opts[..n];
      ConfigureLastWins(byteLimit, init, f);
      assert forall i :: 0 <= i < n ==> init[i] == opts[i];
      if Sets(opts[n], f).None? {
        assert Get(Configure(byteLimit, opts), f) == Get(Configure(byteLimit, init), f);
        if Get(Configure(byteLimit, opts), f) {
          var i :| 0 <= i < n && Sets(init[i], f) == Some(true) && forall j :: i < j < n ==> Sets(init[j], f) == None;
          assert forall j :: i < j < |opts| ==> Sets(opts[j], f) == None;
        }
      } else if Sets(opts[n], f) == Some(false) {
        assert !Get(Configure(byteLimit, opts), f);
      } else {
        assert Get(Configure(byteLimit, opts), f);
      }
    }
  }

  /** The builder NewSplitBuilder(byteLimit) returns with no options. */
  function Default(byteLimit: nat): Config
  {
    Configure(byteLimit, [])
  }

  /** Lines paired with their positions 0, 1, 2, ... */
  function Indexed(lines: seq<seq<byte>>): (r: seq<Pair>)
    ensures |r| == |lines| && forall k :: 0 <= k < |r| ==> r[k] == (k, lines[k])
  {
    seq(|lines|, k requires 0 <= k < |lines| => (k, lines[k]))
  }

  /** The state of the default Split that corresponds to a state of SplitString. */
  function Mirror(st: S.State): BState
  {
    BState(st.line, st.spacePos, st.lastPos, |st.finished|, Indexed(st.finished))
  }

  lemma StepMatches(st: S.State, c: seq<byte>, runes: seq<seq<byte>>, isSpace: seq<byte> -> bool, byteLimit: nat)
    requires S.Wf(st) && |c| > 0
    requires S.Step(st, c, isSpace, byteLimit).Ok?
    ensures Step(Default(byteLimit), Mirror(st), c, runes, isSpace) == Running(Mirror(S.Step(st, c, isSpace, byteLimit).value))
  {
    var line := st.line + c;
    var sp := if isSpace(c) then CharPos(|line|, |c|) else st.spacePos;
    if |line| >= byteLimit {
      var at := if sp.size > 0 then sp.pos else if |line| > byteLimit then st.lastPos.pos else |line|;
      var done := line[..at];
      assert line[..|line|] == line && line[|line|..] == [];
      assert S.Step(st, c, isSpace, byteLimit) == S.Emit(st.finished, done, line[at..], c, byteLimit);
      assert Indexed(st.finished + [done]) == Indexed(st.finished) + [(|st.finished|, done)];
    }
  }

  lemma {:induction false} ScanMatches(cs: seq<seq<byte>>, runes: seq<seq<seq<byte>>>, isSpace: seq<byte> -> bool, byteLimit: nat)
    requires AllNonEmpty(cs) && |runes| == |cs|
    requires S.Scan(cs, isSpace, byteLimit).Ok?
    ensures Scan(Default(byteLimit), cs, runes, isSpace) == Running(Mirror(S.Scan(cs, isSpace, byteLimit).value))
    decreases |cs|
  {
    if cs != [] {
      var n := |cs| - 1;
      ScanMatches(cs[..n], runes[..n], isSpace, byteLimit);
      StepMatches(S.Scan(cs[..n], isSpace, byteLimit).value, cs[n], runes[n], isSpace, byteLimit);
    }
  }

  /** With default options, whenever SplitString succeeds, Split yields exactly its lines,
      numbered 0, 1, 2, ... in order. */
  lemma DefaultMatchesSplitString(s: seq<byte>, clusters: seq<seq<byte>>, runes: seq<seq<seq<byte>>>, isSpace: seq<byte> -> bool, byteLimit: nat)
    requires Segmentation(s, clusters) && |runes| == |clusters|
    requires S.SplitLines(clusters, isSpace, byteLimit).Ok?
    ensures SplitPairs(Default(byteLimit), clusters, runes, isSpace) == Indexed(S.SplitLines(clusters, isSpace, byteLimit).value)
  {
    ScanMatches(clusters, runes, isSpace, byteLimit);
    var st := S.Scan(clusters, isSpace, byteLimit).value;
    if |st.line| > 0 {
      assert Indexed(st.finished + [st.line]) == Indexed(st.finished) + [(|st.finished|, st.line)];
    }
  }

  /** Every yielded pair carries its own position as index. */
  predicate Numbered(ps: seq<Pair>)
  {
    forall k :: 0 <= k < |ps| ==> ps[k].0 == k
  }

  lemma {:induction false} BreakNumbered(cfg: Config, st: BState, runes: seq<seq<byte>>)
    requires Wf(st) && Numbered(st.yielded) && st.lineIndex == |st.yielded|
    ensures Numbered(BreakCluster(cfg, st, runes).yielded)
    ensures BreakCluster(cfg, st, runes).lineIndex == |BreakCluster(cfg, st, runes).yielded|
    decreases |runes|
  {
    if runes != [] {
      BreakNumbered(cfg, st, runes[..|runes| - 1]);
    }
  }

  lemma {:induction false} ScanNumbered(cfg: Config, cs: seq<seq<byte>>, runes: seq<seq<seq<byte>>>, isSpace: seq<byte> -> bool)
    requires |runes| == |cs|
    ensures match Scan(cfg, cs, runes, isSpace)
            case Running(st) => Numbered(st.yielded) && st.lineIndex == |st.yielded|
            case Stopped(y) => Numbered(y)
    decreases |cs|
  {
    if cs != [] {
      var n := |cs| - 1;
      ScanNumbered(cfg, cs[..n], runes[..n], isSpace);
      match Scan(cfg, cs[..n], runes[..n], isSpace)
      case Stopped(_) =>
      case Running(st) =>
        BreakNumbered(cfg, st, runes[n]);
    }
  }

  /** Whatever the options, the yielded indices are 0, 1, 2, ... in order. */
  lemma SplitNumbered(cfg: Config, clusters: seq<seq<byte>>, runes: seq<seq<seq<byte>>>, isSpace: seq<byte> -> bool)
    requires |runes| == |clusters|
    ensures Numbered(SplitPairs(cfg, clusters, runes, isSpace))
  {
    ScanNumbered(cfg, clusters, runes, isSpace);
  }

  lemma LinesSnoc(ps: seq<Pair>, p: Pair)
    ensures Lines(ps + [p]) == Lines(ps) + [p.1]
  {
    assert (ps + [p])[..|ps|] == ps;
  }

  /** The bytes a state accounts for: the yielded lines followed by the working line. */
  function Covered(st: BState): seq<byte>
  {
    Concat(Lines(st.yielded)) + st.line
  }

  /** Appending `c` to the working line and yielding an untrimmed cut of the result moves
      bytes from the working line to the yielded lines and loses none. */
  lemma CutCovers(cfg: Config, st: BState, c: seq<byte>, at: nat, size: int)
    requires !cfg.trimTrailingWhiteSpace && at <= |st.line + c|
    ensures Covered(Cut(cfg, st, st.line + c, at, size)) == Covered(st) + c
  {
    var line := st.line + c;
    LinesSnoc(st.yielded, (st.lineIndex, line[..at]));
    ConcatSnoc(Lines(st.yielded), line[..at]);
    assert line[..at] + line[at..] == line;
    assert Concat(Lines(st.yielded)) + (line[..at] + line[at..]) == Concat(Lines(st.yielded)) + line[..at] + line[at..];
    assert Concat(Lines(st.yielded)) + (st.line + c) == Concat(Lines(st.yielded)) + st.line + c;
  }

  lemma RuneCovers(cfg: Config, st: BState, rune: seq<byte>)
    requires Wf(st) && !cfg.trimTrailingWhiteSpace
    ensures Covered(RuneStep(cfg, st, rune)) == Covered(st) + rune
  {
    var line := st.line + rune;
    if |line| >= cfg.byteLimit {
      CutCovers(cfg, st, rune, |line|, |rune|);
    } else {
      assert Concat(Lines(st.yielded)) + (st.line + rune) == Concat(Lines(st.yielded)) + st.line + rune;
    }
  }

  lemma {:induction false} BreakCovers(cfg: Config, st: BState, runes: seq<seq<byte>>)
    requires Wf(st) && !cfg.trimTrailingWhiteSpace
    ensures Covered(BreakCluster(cfg, st, runes)) == Covered(st) + Concat(runes)
    decreases |runes|
  {
    if runes == [] {
      assert Covered(st) + Concat(runes) == Covered(st);
    } else {
      var n := |runes| - 1;
      BreakCovers(cfg, st, runes[..n]);
      RuneCovers(cfg, BreakCluster(cfg, st, runes[..n]), runes[n]);
      ConcatSnoc(runes[..n], runes[n]);
      assert runes[..n] + [runes[n]] == runes;
      assert Covered(st) + (Concat(runes[..n]) + runes[n]) == Covered(st) + Concat(runes[..n]) + runes[n];
    }
  }

  lemma ClusterCovers(cfg: Config, st: BState, c: seq<byte>, isSpace: seq<byte> -> bool)
    requires Wf(st) && !cfg.trimTrailingWhiteSpace
    ensures ClusterStep(cfg, st, c, isSpace).Running? ==> Covered(ClusterStep(cfg, st, c, isSpace).st) == Covered(st) + c
    ensures ClusterStep(cfg, st, c, isSpace).Stopped? ==> ClusterStep(cfg, st, c, isSpace).yielded == st.yielded
  {
    var line := st.line + c;
    var spacePos := if isSpace(c) then CharPos(|line|, |c|) else st.spacePos;
    if |line| < cfg.byteLimit {
      assert Concat(Lines(st.yielded)) + (st.line + c) == Concat(Lines(st.yielded)) + st.line + c;
    } else if spacePos.size > 0 {
      assert ClusterStep(cfg, st, c, isSpace) == Running(Cut(cfg, st, line, spacePos.pos, |c|));
      CutCovers(cfg, st, c, spacePos.pos, |c|);
    } else if |line| > cfg.byteLimit && st.lastPos.pos != 0 {
      assert ClusterStep(cfg, st, c, isSpace) == Running(Cut(cfg, st, line, st.lastPos.pos, |c|));
      CutCovers(cfg, st, c, st.lastPos.pos, |c|);
    } else if |line| > cfg.byteLimit && !cfg.continueOnError {
      assert ClusterStep(cfg, st, c, isSpace) == Stopped(st.yielded);
    } else {
      assert ClusterStep(cfg, st, c, isSpace) == Running(Cut(cfg, st, line, |line|, |c|));
      CutCovers(cfg, st, c, |line|, |c|);
    }
  }

  lemma {:induction false} ScanCovers(cfg: Config, cs: seq<seq<byte>>, runes: seq<seq<seq<byte>>>, isSpace: seq<byte> -> bool)
    requires RuneSplit(cs, runes) && !cfg.trimTrailingWhiteSpace
    ensures Scan(cfg, cs, runes, isSpace).Running? ==> Covered(Scan(cfg, cs, runes, isSpace).st) == Concat(cs)
    ensures Scan(cfg, cs, runes, isSpace).Stopped? ==> Concat(Lines(Scan(cfg, cs, runes, isSpace).yielded)) <= Concat(cs)
    ensures cfg.continueOnError ==> Scan(cfg, cs, runes, isSpace).Running?
    decreases |cs|
  {
    if cs != [] {
      var n := |cs| - 1;
      ScanCovers(cfg, cs[..n], runes[..n], isSpace);
      ConcatSnoc(cs[..n], cs[n]);
      assert cs[..n] + [cs[n]] == cs;
      match Scan(cfg, cs[..n], runes[..n], isSpace)
      case Stopped(_) =>
        assert Scan(cfg, cs, runes, isSpace) == Scan(cfg, cs[..n], runes[..n], isSpace);
      case Running(st) =>
        assert Scan(cfg, cs, runes, isSpace) == Step(cfg, st, cs[n], runes[n], isSpace);
        if cfg.breakGraphemeClusters && |cs[n]| > cfg.byteLimit {
          assert RuneSplit(cs, runes) && 0 <= n < |cs|;
          assert Segmentation(cs[n], runes[n]);
          BreakCovers(cfg, st, runes[n]);
        } else {
          ClusterCovers(cfg, st, cs[n], isSpace);
          if ClusterStep(cfg, st, cs[n], isSpace).Stopped? {
            assert Concat(Lines(st.yielded)) <= Covered(st) <= Concat(cs);
          }
        }
    }
  }

  /** Without trimming, the yielded lines concatenate to a prefix of the input; with
      continueOnError they concatenate to all of it. */
  lemma SplitCoversInput(cfg: Config, s: seq<byte>, clusters: seq<seq<byte>>, runes: seq<seq<seq<byte>>>, isSpace: seq<byte> -> bool)
    requires Segmentation(s, clusters) && RuneSplit(clusters, runes) && !cfg.trimTrailingWhiteSpace
    ensures Concat(Lines(SplitPairs(cfg, clusters, runes, isSpace))) <= s
    ensures cfg.continueOnError ==> Concat(Lines(SplitPairs(cfg, clusters, runes, isSpace))) == s
  {
    ScanCovers(cfg, clusters, runes, isSpace);
    match Scan(cfg, clusters, runes, isSpace)
    case Stopped(_) =>
    case Running(st) =>
      if |st.line| > 0 && !(|st.line| > cfg.byteLimit && !cfg.continueOnError) {
        LinesSnoc(st.yielded, (st.lineIndex, st.line));
        ConcatSnoc(Lines(st.yielded), st.line);
      }
  }

  /** Whatever the options, an empty input yields nothing. */
  lemma EmptySplit(cfg: Config, s: seq<byte>, clusters: seq<seq<byte>>, runes: seq<seq<seq<byte>>>, isSpace: seq<byte> -> bool)
    requires Segmentation(s, clusters) && |runes| == |clusters| && s == []
    ensures SplitPairs(cfg, clusters, runes, isSpace) == []
  {
    ConcatNonEmpty(clusters);
  }

  /** Breaking clusters never ends the scan early: the stop for an oversized cluster that
      starts the working line (wordwrap.go:149-155) cannot be reached once oversized clusters are broken up. */
  lemma {:induction false} BreakModeNeverStops(cfg: Config, cs: seq<seq<byte>>, runes: seq<seq<seq<byte>>>, isSpace: seq<byte> -> bool)
    requires |runes| == |cs| && cfg.breakGraphemeClusters
    ensures Scan(cfg, cs, runes, isSpace).Running?
    decreases |cs|
  {
    if cs != [] {
      var n := |cs| - 1;
      BreakModeNeverStops(cfg, cs[..n], runes[..n], isSpace);
    }
  }

  /** So, when breaking clusters without trimming, the only input Split can leave out is one
      final remainder longer than the limit, dropped when not continuing on error. */
  lemma BreakModeLosesOnlyOverlongTail(cfg: Config, s: seq<byte>, clusters: seq<seq<byte>>, runes: seq<seq<seq<byte>>>, isSpace: seq<byte> -> bool)
    requires Segmentation(s, clusters) && RuneSplit(clusters, runes)
    requires cfg.breakGraphemeClusters && !cfg.trimTrailingWhiteSpace
    ensures var out := Concat(Lines(SplitPairs(cfg, clusters, runes, isSpace)));
            out <= s && (out == s || (|s| - |out| > cfg.byteLimit && !cfg.continueOnError))
  {
    BreakModeNeverStops(cfg, clusters, runes, isSpace);
    ScanCovers(cfg, clusters, runes, isSpace);
    var st := Scan(cfg, clusters, runes, isSpace).st;
    if |st.line| > 0 && !(|st.line| > cfg.byteLimit && !cfg.continueOnError) {
      LinesSnoc(st.yielded, (st.lineIndex, st.line));
      ConcatSnoc(Lines(st.yielded), st.line);
    }
  }

  /** Yielded pairs with each line trimmed of trailing " \t\n\r". */
  function TrimAll(ps: seq<Pair>): (r: seq<Pair>)
    ensures |r| == |ps|
  {
    if ps == [] then [] else TrimAll(ps[..|ps| - 1]) + [(ps[|ps| - 1].0, TrimRight(ps[|ps| - 1].1))]
  }

  /** The k-th trimmed pair keeps the k-th index and trims the k-th line. */
  lemma {:induction false} TrimAllAt(ps: seq<Pair>, k: nat)
    requires k < |ps|
    ensures TrimAll(ps)[k] == (ps[k].0, TrimRight(ps[k].1))
    decreases |ps|
  {
    if k < |ps| - 1 {
      TrimAllAt(ps[..|ps| - 1], k);
    }
  }

  /** `p` is the trimming run of the scan whose untrimmed run is `q`: the same working state,
      and the yielded lines trimmed. */
  predicate TrimOf(p: Progress, q: Progress)
  {
    match (p, q)
    case (Running(a), Running(b)) => a == b.(yielded := TrimAll(b.yielded))
    case (Stopped(y), Stopped(z)) => y == TrimAll(z)
    case _ => false
  }

  lemma TrimAllSnoc(ps: seq<Pair>, i: int, line: seq<byte>)
    ensures TrimAll(ps + [(i, line)]) == TrimAll(ps) + [(i, TrimRight(line))]
  {
    assert (ps + [(i, line)])[..|ps|] == ps;
  }

  lemma {:induction false} BreakTrims(cfg: Config, a: BState, b: BState, runes: seq<seq<byte>>)
    requires cfg.trimTrailingWhiteSpace && Wf(b) && a == b.(yielded := TrimAll(b.yielded))
    ensures BreakCluster(cfg, a, runes)
            == BreakCluster(cfg.(trimTrailingWhiteSpace := false), b, runes).(yielded := TrimAll(BreakCluster(cfg.(trimTrailingWhiteSpace := false), b, runes).yielded))
    decreases |runes|
  {
    if runes != [] {
      var n := |runes| - 1;
      BreakTrims(cfg, a, b, runes[..n]);
      var mid := BreakCluster(cfg.(trimTrailingWhiteSpace := false), b, runes[..n]);
      var line := mid.line + runes[n];
      if |line| >= cfg.byteLimit {
        CutTrims(cfg, BreakCluster(cfg, a, runes[..n]), mid, runes[n], |line|, |runes[n]|);
      }
    }
  }

  /** A trimming cut of the same line as an untrimmed cut yields the trimmed copy. */
  lemma CutTrims(cfg: Config, a: BState, b: BState, c: seq<byte>, at: nat, size: int)
    requires cfg.trimTrailingWhiteSpace && a == b.(yielded := TrimAll(b.yielded)) && at <= |b.line + c|
    ensures TrimOf(Running(Cut(cfg, a, a.line + c, at, size)),
                   Running(Cut(cfg.(trimTrailingWhiteSpace := false), b, b.line + c, at, size)))
  {
    TrimAllSnoc(b.yielded, b.lineIndex, (b.line + c)[..at]);
  }

  lemma ClusterTrims(cfg: Config, a: BState, b: BState, c: seq<byte>, isSpace: seq<byte> -> bool)
    requires cfg.trimTrailingWhiteSpace && Wf(b) && a == b.(yielded := TrimAll(b.yielded))
    ensures TrimOf(ClusterStep(cfg, a, c, isSpace), ClusterStep(cfg.(trimTrailingWhiteSpace := false), b, c, isSpace))
  {
    var raw := cfg.(trimTrailingWhiteSpace := false);
    var line := b.line + c;
    var spacePos := if isSpace(c) then CharPos(|line|, |c|) else b.spacePos;
    var at: nat;
    if |line| < cfg.byteLimit {
      return;
    } else if spacePos.size > 0 {
      at := spacePos.pos;
    } else if |line| > cfg.byteLimit && b.lastPos.pos != 0 {
      at := b.lastPos.pos;
    } else if |line| > cfg.byteLimit && !cfg.continueOnError {
      return;
    } else {
      at := |line|;
    }
    assert ClusterStep(cfg, a, c, isSpace) == Running(Cut(cfg, a, line, at, |c|));
    assert ClusterStep(raw, b, c, isSpace) == Running(Cut(raw, b, line, at, |c|));
    CutTrims(cfg, a, b, c, at, |c|);
  }

  lemma {:induction false} ScanTrims(cfg: Config, cs: seq<seq<byte>>, runes: seq<seq<seq<byte>>>, isSpace: seq<byte> -> bool)
    requires |runes| == |cs| && cfg.trimTrailingWhiteSpace
    ensures TrimOf(Scan(cfg, cs, runes, isSpace), Scan(cfg.(trimTrailingWhiteSpace := false), cs, runes, isSpace))
    decreases |cs|
  {
    var raw := cfg.(trimTrailingWhiteSpace := false);
    if cs == [] {
      assert TrimAll([]) == [];
    } else {
      var n := |cs| - 1;
      ScanTrims(cfg, cs[..n], runes[..n], isSpace);
      match Scan(raw, cs[..n], runes[..n], isSpace)
      case Stopped(_) =>
      case Running(b) =>
        var a := Scan(cfg, cs[..n], runes[..n], isSpace).st;
        if cfg.breakGraphemeClusters && |cs[n]| > cfg.byteLimit {
          BreakTrims(cfg, a, b, runes[n]);
        } else {
          ClusterTrims(cfg, a, b, cs[n], isSpace);
        }
    }
  }

  /** Trimming changes only the yielded copies: with trimTrailingWhiteSpace, Split yields the
      same indices as without it, each line being the untrimmed line with its trailing
      " \t\n\r" removed; where lines are cut does not change. */
  lemma SplitTrims(cfg: Config, clusters: seq<seq<byte>>, runes: seq<seq<seq<byte>>>, isSpace: seq<byte> -> bool)
    requires |runes| == |clusters| && cfg.trimTrailingWhiteSpace
    ensures SplitPairs(cfg, clusters, runes, isSpace)
            == TrimAll(SplitPairs(cfg.(trimTrailingWhiteSpace := false), clusters, runes, isSpace))
  {
    ScanTrims(cfg, clusters, runes, isSpace);
    match Scan(cfg.(trimTrailingWhiteSpace := false), clusters, runes, isSpace)
    case Stopped(_) =>
    case Running(b) =>
      TrimAllSnoc(b.yielded, b.lineIndex, b.line);
  }

  /** The scan of one more cluster is one more step. */
  lemma ScanNext(cfg: Config, cs: seq<seq<byte>>, runes: seq<seq<seq<byte>>>, i: nat, isSpace: seq<byte> -> bool)
    requires |runes| == |cs| && i < |cs| && Scan(cfg, cs[..i], runes[..i], isSpace).Running?
    ensures Scan(cfg, cs[..i + 1], runes[..i + 1], isSpace)
            == Step(cfg, Scan(cfg, cs[..i], runes[..i], isSpace).st, cs[i], runes[i], isSpace)
  {
    assert cs[..i + 1][..i] == cs[..i] && runes[..i + 1][..i] == runes[..i];
  }

  /** Once Split has returned early, later clusters change nothing. */
  lemma {:induction false} ScanStopPersists(cfg: Config, cs: seq<seq<byte>>, runes: seq<seq<seq<byte>>>, isSpace: seq<byte> -> bool, n: nat)
    requires |runes| == |cs| && n <= |cs| && Scan(cfg, cs[..n], runes[..n], isSpace).Stopped?
    ensures Scan(cfg, cs, runes, isSpace) == Scan(cfg, cs[..n], runes[..n], isSpace)
    decreases |cs|
  {
    if n < |cs| {
      var m := |cs| - 1;
      assert cs[..m][..n] == cs[..n] && runes[..m][..n] == runes[..n];
      ScanStopPersists(cfg, cs[..m], runes[..m], isSpace, n);
    } else {
      assert cs[..n] == cs && runes[..n] == runes;
    }
  }

  /** Everything Split promises about what it yields, gathered for the method's exits. */
  lemma SplitFacts(cfg: Config, s: seq<byte>, clusters: seq<seq<byte>>, runes: seq<seq<seq<byte>>>, isSpace: seq<byte> -> bool)
    requires |runes| == |clusters|
    ensures var ps := SplitPairs(cfg, clusters, runes, isSpace);
      && Numbered(ps)
      && (Segmentation(s, clusters) && RuneSplit(clusters, runes) && !cfg.trimTrailingWhiteSpace ==> Concat(Lines(ps)) <= s)
      && (Segmentation(s, clusters) && RuneSplit(clusters, runes) && !cfg.trimTrailingWhiteSpace && cfg.continueOnError
          ==> Concat(Lines(ps)) == s)
  {
    SplitNumbered(cfg, clusters, runes, isSpace);
    if Segmentation(s, clusters) && RuneSplit(clusters, runes) && !cfg.trimTrailingWhiteSpace {
      SplitCoversInput(cfg, s, clusters, runes, isSpace);
    }
  }
}
