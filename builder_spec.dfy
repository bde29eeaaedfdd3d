/** The configurable splitter of wordwrap.go: the options applied by NewSplitBuilder
    (wordwrap.go:42-82) and the scan run by SplitBuilder.Split (wordwrap.go:86-218), written as
    functions.  The iterator is modelled by the whole list of (index, line) pairs it yields.
    Besides the clusters, Split needs, for each cluster, its runes as re-encoded bytes (used
    only when an oversized cluster is broken up). */
module BuilderSpec {
  import opened Base

  datatype Config = Config(byteLimit: nat, continueOnError: bool, breakGraphemeClusters: bool, trimTrailingWhiteSpace: bool)

  /** The three functional options, each carrying the value it sets. */
  datatype SplitBuilderOption =
    | ContinueOnError(continueOnError: bool)
    | BreakGraphemeClusters(breakGraphemeClusters: bool)
    | TrimTrailingWhiteSpace(trimTrailingWhiteSpace: bool)

  /** What one option does to the builder. */
  function Apply(cfg: Config, opt: SplitBuilderOption): (r: Config)
    ensures r.byteLimit == cfg.byteLimit
    ensures r.continueOnError == if opt.ContinueOnError? then opt.continueOnError else cfg.continueOnError
    ensures r.breakGraphemeClusters == if opt.BreakGraphemeClusters? then opt.breakGraphemeClusters else cfg.breakGraphemeClusters
    ensures r.trimTrailingWhiteSpace == if opt.TrimTrailingWhiteSpace? then opt.trimTrailingWhiteSpace else cfg.trimTrailingWhiteSpace
  {
    match opt
    case ContinueOnError(b) => cfg.(continueOnError := b)
    case BreakGraphemeClusters(b) => cfg.(breakGraphemeClusters := b)
    case TrimTrailingWhiteSpace(b) => cfg.(trimTrailingWhiteSpace := b)
  }

  /** NewSplitBuilder: every flag off, then the options applied in order. */
  function Configure(byteLimit: nat, opts: seq<SplitBuilderOption>): (r: Config)
    ensures r.byteLimit == byteLimit
    ensures opts == [] ==> !r.continueOnError && !r.breakGraphemeClusters && !r.trimTrailingWhiteSpace
  {
    if opts == [] then Config(byteLimit, false, false, false)
    else Apply(Configure(byteLimit, opts[..|opts| - 1]), opts[|opts| - 1])
  }

  type Pair = (int, seq<byte>)

  /** Split's local state between two clusters. */
  datatype BState = BState(line: seq<byte>, spacePos: CharPos, lastPos: CharPos, lineIndex: int, yielded: seq<Pair>)

  /** The scan either goes on or has returned early with what it yielded. */
  datatype Progress = Running(st: BState) | Stopped(yielded: seq<Pair>)

  predicate Wf(st: BState)
  {
    && 0 <= st.spacePos.pos <= |st.line|
    && st.lastPos.pos == |st.line|
  }

  const Start := BState([], NoPos, NoPos, 0, [])

  /** The copy of a line handed to the consumer. */
  function Shown(cfg: Config, line: seq<byte>): (r: seq<byte>)
    ensures r <= line
    ensures !cfg.trimTrailingWhiteSpace ==> r == line
    ensures cfg.trimTrailingWhiteSpace && r != [] ==> !InCutset(r[|r| - 1])
  {
    if cfg.trimTrailingWhiteSpace then TrimRight(line) else line
  }

  /** Yields line[..at] with the next index and reseeds the working line with line[at..]; the
      space position is cleared and `lastPos` records the reseeded line and `size`. */
  function Cut(cfg: Config, st: BState, line: seq<byte>, at: nat, size: int): (r: BState)
    requires at <= |line|
    ensures Wf(r) && r.lineIndex == st.lineIndex + 1
    ensures |r.yielded| == |st.yielded| + 1 && r.yielded[|st.yielded|].0 == st.lineIndex
  {
    BState(line[at..], NoPos, CharPos(|line| - at, size), st.lineIndex + 1,
           st.yielded + [(st.lineIndex, Shown(cfg, line[..at]))])
  }

  /** One rune of a cluster that is broken up (wordwrap.go:103-121). */
  function RuneStep(cfg: Config, st: BState, rune: seq<byte>): (r: BState)
    requires Wf(st)
    ensures Wf(r)
  {
    var line := st.line + rune;
    if |line| >= cfg.byteLimit then Cut(cfg, st, line, |line|, |rune|)
    else BState(line, st.spacePos, CharPos(|line|, |rune|), st.lineIndex, st.yielded)
  }

  /** The rune loop over one oversized cluster (wordwrap.go:101-124). */
  function BreakCluster(cfg: Config, st: BState, runes: seq<seq<byte>>): (r: BState)
    requires Wf(st)
    ensures Wf(r)
    decreases |runes|
  {
    if runes == [] then st
    else RuneStep(cfg, BreakCluster(cfg, st, runes[..|runes| - 1]), runes[|runes| - 1])
  }

  /** One cluster appended whole (wordwrap.go:126-203). */
  function ClusterStep(cfg: Config, st: BState, cluster: seq<byte>, isSpace: seq<byte> -> bool): (r: Progress)
    requires Wf(st)
    ensures r.Running? ==> Wf(r.st)
  {
    var line := st.line + cluster;
    var spacePos := if isSpace(cluster) then CharPos(|line|, |cluster|) else st.spacePos;
    if |line| >= cfg.byteLimit then
      if spacePos.size > 0 then
        Running(Cut(cfg, st, line, spacePos.pos, |cluster|))
      else if |line| > cfg.byteLimit then
        if st.lastPos.pos == 0 then
          if !cfg.continueOnError then Stopped(st.yielded)
          else Running(Cut(cfg, st, line, |line|, |cluster|))
        else Running(Cut(cfg, st, line, st.lastPos.pos, |cluster|))
      else Running(Cut(cfg, st, line, |line|, |cluster|))
    else Running(BState(line, spacePos, CharPos(|line|, |cluster|), st.lineIndex, st.yielded))
  }

  /** One iteration of the cluster loop: a cluster over the limit is broken into its runes when
      that is allowed, otherwise appended whole. */
  function Step(cfg: Config, st: BState, cluster: seq<byte>, runes: seq<seq<byte>>, isSpace: seq<byte> -> bool): (r: Progress)
    requires Wf(st)
    ensures r.Running? ==> Wf(r.st)
  {
    if cfg.breakGraphemeClusters && |cluster| > cfg.byteLimit then Running(BreakCluster(cfg, st, runes))
    else ClusterStep(cfg, st, cluster, isSpace)
  }

  /** Each cluster comes with the rune encodings it is made of. */
  predicate RuneSplit(clusters: seq<seq<byte>>, runes: seq<seq<seq<byte>>>)
  {
    |runes| == |clusters| && forall i :: 0 <= i < |clusters| ==> Segmentation(clusters[i], runes[i])
  }

  /** The scan after the cluster loop has consumed `clusters`. */
  function Scan(cfg: Config, clusters: seq<seq<byte>>, runes: seq<seq<seq<byte>>>, isSpace: seq<byte> -> bool): (r: Progress)
    requires |runes| == |clusters|
    ensures r.Running? ==> Wf(r.st)
    decreases |clusters|
  {
    if clusters == [] then Running(Start)
    else
      var n := |clusters| - 1;
      match Scan(cfg, clusters[..n], runes[..n], isSpace)
      case Stopped(y) => Stopped(y)
      case Running(st) => Step(cfg, st, clusters[n], runes[n], isSpace)
  }

  /** The tail of Split after the loop (wordwrap.go:206-216). */
  function Finish(cfg: Config, p: Progress): (r: seq<Pair>)
    ensures p.Stopped? ==> r == p.yielded
    ensures p.Running? ==> p.st.yielded <= r && |r| <= |p.st.yielded| + 1
    ensures p.Running? && |p.st.line| > 0 ==>
              (|r| == |p.st.yielded| <==> |p.st.line| > cfg.byteLimit && !cfg.continueOnError)
  {
    match p
    case Stopped(y) => y
    case Running(st) =>
      if |st.line| > 0 then
        if |st.line| > cfg.byteLimit && !cfg.continueOnError then st.yielded
        else st.yielded + [(st.lineIndex, Shown(cfg, st.line))]
      else st.yielded
  }

  /** Everything Split(s) yields, in order, for a consumer that never stops early. */
  function SplitPairs(cfg: Config, clusters: seq<seq<byte>>, runes: seq<seq<seq<byte>>>, isSpace: seq<byte> -> bool): (r: seq<Pair>)
    requires |runes| == |clusters|
    ensures clusters == [] ==> r == []
  {
    Finish(cfg, Scan(cfg, clusters, runes, isSpace))
  }

  /** The line contents of a list of yielded pairs. */
  function Lines(ps: seq<Pair>): (r: seq<seq<byte>>)
    ensures |r| == |ps|
  {
    if ps == [] then [] else Lines(ps[..|ps| - 1]) + [ps[|ps| - 1].1]
  }
}
