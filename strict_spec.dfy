/** The scan performed by SplitString (wordwrap.go:228-292), one grapheme cluster at a time,
    written as functions.  The grapheme segmenter is replaced by its output: the list of
    clusters, each non-empty.  `isSpace` stands for "the first rune of the cluster satisfies
    unicode.IsSpace". */
module StrictSpec {
  import opened Base

  /** The local state of SplitString between two clusters: the working line, the two
      remembered positions and the lines finished so far. */
  datatype State = State(line: seq<byte>, spacePos: CharPos, lastPos: CharPos, finished: seq<seq<byte>>)

  /** What the scan keeps true between clusters: both remembered positions lie inside the
      working line, a recorded space position is past at least one byte, and `lastPos.pos` is
      the working line's length (so it is the pre-append length when the next cluster comes). */
  predicate Wf(st: State)
  {
    && 0 <= st.spacePos.pos <= |st.line|
    && (st.spacePos.size > 0 ==> st.spacePos.pos > 0)
    && st.lastPos.pos == |st.line|
  }

  const Start := State([], NoPos, NoPos, [])

  /** Appends the cut-off `done` to the finished lines and reseeds the working line with
      `rest`; fails when the line just finished is over the limit (wordwrap.go:274-281). */
  function Emit(finished: seq<seq<byte>>, done: seq<byte>, rest: seq<byte>, cluster: seq<byte>, byteLimit: nat): (r: Result<State>)
    ensures r.Err? <==> |done| > byteLimit
    ensures r.Ok? ==> Wf(r.value) && r.value.finished == finished + [done] && r.value.line == rest
  {
    if |done| > byteLimit then Err(GraphemeClusterTooLarge)
    else Ok(State(rest, NoPos, CharPos(|rest|, |cluster|), finished + [done]))
  }

  /** One iteration of the cluster loop (wordwrap.go:238-281). */
  function Step(st: State, cluster: seq<byte>, isSpace: seq<byte> -> bool, byteLimit: nat): (r: Result<State>)
    requires Wf(st) && |cluster| > 0
    ensures r.Ok? ==> Wf(r.value)
  {
    var line := st.line + cluster;
    var spacePos := if isSpace(cluster) then CharPos(|line|, |cluster|) else st.spacePos;
    if |line| >= byteLimit then
      if spacePos.size > 0 then
        Emit(st.finished, line[..spacePos.pos], line[spacePos.pos..], cluster, byteLimit)
      else if |line| > byteLimit then
        if st.lastPos.pos == 0 then Err(GraphemeClusterTooLarge)
        else Emit(st.finished, line[..st.lastPos.pos], line[st.lastPos.pos..], cluster, byteLimit)
      else
        Emit(st.finished, line, [], cluster, byteLimit)
    else
      Ok(State(line, spacePos, CharPos(|line|, |cluster|), st.finished))
  }

  /** The state after the loop has consumed `clusters`, or the error that ended it early. */
  function Scan(clusters: seq<seq<byte>>, isSpace: seq<byte> -> bool, byteLimit: nat): (r: Result<State>)
    requires AllNonEmpty(clusters)
    ensures r.Ok? ==> Wf(r.value)
    decreases |clusters|
  {
    if clusters == [] then Ok(Start)
    else
      match Scan(clusters[..|clusters| - 1], isSpace, byteLimit)
      case Err(e) => Err(e)
      case Ok(st) => Step(st, clusters[|clusters| - 1], isSpace, byteLimit)
  }

  /** The tail of SplitString after the loop (wordwrap.go:284-291). */
  function Finish(st: State, byteLimit: nat): (r: Result<seq<seq<byte>>>)
    ensures r.Err? <==> |st.line| > byteLimit
    ensures r.Ok? ==> st.finished <= r.value && |r.value| == |st.finished| + (if |st.line| > 0 then 1 else 0)
    ensures r.Ok? && |st.line| > 0 ==> r.value[|st.finished|] == st.line
  {
    if |st.line| > 0 then
      if |st.line| > byteLimit then Err(GraphemeClusterTooLarge)
      else Ok(st.finished + [st.line])
    else Ok(st.finished)
  }

  /** What SplitString returns for the cluster list of its input. */
  function SplitLines(clusters: seq<seq<byte>>, isSpace: seq<byte> -> bool, byteLimit: nat): (r: Result<seq<seq<byte>>>)
    requires AllNonEmpty(clusters)
    ensures clusters == [] ==> r == Ok([])
  {
    match Scan(clusters, isSpace, byteLimit)
    case Err(e) => Err(e)
    case Ok(st) => Finish(st, byteLimit)
  }
}
