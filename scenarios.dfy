/** Worked examples on concrete inputs: the splits that wordwrap_test.go expects, an input on
    which SplitString fails although no grapheme cluster is longer than the limit, and inputs on
    which a SplitBuilder yields lines over the limit without signalling an error. */
module Scenarios {
  import opened Base
  import StrictSpec
  import StrictProps
  import opened BuilderSpec

  /** unicode.IsSpace applied to the first rune of a cluster, on its UTF-8 encoding: the ASCII
      spaces U+0009-U+000D and U+0020, and U+0085, U+00A0, U+1680, U+2000-U+200A, U+2028,
      U+2029, U+202F, U+205F and U+3000. */
  predicate UnicodeSpace(c: seq<byte>)
  {
    || (|c| >= 1 && (c[0] == 0x20 || 0x09 <= c[0] <= 0x0D))
    || (|c| >= 2 && c[0] == 0xC2 && (c[1] == 0x85 || c[1] == 0xA0))
    || (|c| >= 3 && c[0] == 0xE1 && c[1] == 0x9A && c[2] == 0x80)
    || (|c| >= 3 && c[0] == 0xE2 && c[1] == 0x80 && (c[2] <= 0x8A || c[2] == 0xA8 || c[2] == 0xA9 || c[2] == 0xAF))
    || (|c| >= 3 && c[0] == 0xE2 && c[1] == 0x81 && c[2] == 0x9F)
    || (|c| >= 3 && c[0] == 0xE3 && c[1] == 0x80 && c[2] == 0x80)
  }

  /** Split's cluster loop read from the front: the state after feeding `cs` to the loop from
      state `st`, or the early stop. */
  function Run(cfg: Config, st: BState, cs: seq<seq<byte>>, runes: seq<seq<seq<byte>>>, isSpace: seq<byte> -> bool): (r: Progress)
    requires Wf(st) && |runes| == |cs|
    ensures r.Running? ==> Wf(r.st)
    decreases |cs|
  {
    if cs == [] then Running(st)
    else match Step(cfg, st, cs[0], runes[0], isSpace)
      case Stopped(y) => Stopped(y)
      case Running(next) => Run(cfg, next, cs[1..], runes[1..], isSpace)
  }

  /** Feeding `a + b` is feeding `a`, then `b` from where `a` left off. */
  lemma {:induction false} RunAppend(cfg: Config, st: BState, a: seq<seq<byte>>, ra: seq<seq<seq<byte>>>,
                                     b: seq<seq<byte>>, rb: seq<seq<seq<byte>>>, isSpace: seq<byte> -> bool)
    requires Wf(st) && |ra| == |a| && |rb| == |b|
    ensures Run(cfg, st, a + b, ra + rb, isSpace)
            == match Run(cfg, st, a, ra, isSpace)
               case Stopped(y) => Stopped(y)
               case Running(mid) => Run(cfg, mid, b, rb, isSpace)
    decreases |a|
  {
    if a == [] {
      assert a + b == b && ra + rb == rb;
    } else {
      assert (a + b)[0] == a[0] && (a + b)[1..] == a[1..] + b;
      assert (ra + rb)[0] == ra[0] && (ra + rb)[1..] == ra[1..] + rb;
      match Step(cfg, st, a[0], ra[0], isSpace)
      case Stopped(_) =>
      case Running(next) => RunAppend(cfg, next, a[1..], ra[1..], b, rb, isSpace);
    }
  }

  /** The loop read from the back (Scan) and from the front (Run) agree. */
  lemma {:induction false} ScanIsRun(cfg: Config, cs: seq<seq<byte>>, runes: seq<seq<seq<byte>>>, isSpace: seq<byte> -> bool)
    requires |runes| == |cs|
    ensures Scan(cfg, cs, runes, isSpace) == Run(cfg, Start, cs, runes, isSpace)
    decreases |cs|
  {
    if cs != [] {
      var n := |cs| - 1;
      ScanIsRun(cfg, cs[..n], runes[..n], isSpace);
      assert cs == cs[..n] + [cs[n]] && runes == runes[..n] + [runes[n]];
      RunAppend(cfg, Start, cs[..n], runes[..n], [cs[n]], [runes[n]], isSpace);
      match Run(cfg, Start, cs[..n], runes[..n], isSpace)
      case Stopped(_) =>
      case Running(mid) =>
        assert [cs[n]][1..] == [] && [runes[n]][1..] == [];
    }
  }

  /** SplitString's cluster loop read from the front: the state after feeding `cs` to the loop
      from state `st`, or the error that ends it.  An empty cluster, which the segmenter never
      produces, ends the run too, so that the function needs no precondition on `cs`. */
  function StrictRun(st: StrictSpec.State, cs: seq<seq<byte>>, isSpace: seq<byte> -> bool, byteLimit: nat): (r: Result<StrictSpec.State>)
    requires StrictSpec.Wf(st)
    ensures r.Ok? ==> StrictSpec.Wf(r.value)
    decreases |cs|
  {
    if cs == [] then Ok(st)
    else if |cs[0]| == 0 then Err(GraphemeClusterTooLarge)
    else match StrictSpec.Step(st, cs[0], isSpace, byteLimit)
      case Err(e) => Err(e)
      case Ok(next) => StrictRun(next, cs[1..], isSpace, byteLimit)
  }

  /** Feeding `a + b` is feeding `a`, then `b` from where `a` left off. */
  lemma {:induction false} StrictRunAppend(st: StrictSpec.State, a: seq<seq<byte>>, b: seq<seq<byte>>, isSpace: seq<byte> -> bool, byteLimit: nat)
    requires StrictSpec.Wf(st)
    ensures StrictRun(st, a + b, isSpace, byteLimit)
            == match StrictRun(st, a, isSpace, byteLimit)
               case Err(e) => Err(e)
               case Ok(mid) => StrictRun(mid, b, isSpace, byteLimit)
    decreases |a|
  {
    if a == [] {
      assert a + b == b;
    } else {
      assert (a + b)[0] == a[0] && (a + b)[1..] == a[1..] + b;
      if |a[0]| > 0 {
        match StrictSpec.Step(st, a[0], isSpace, byteLimit)
        case Err(_) =>
        case Ok(next) => StrictRunAppend(next, a[1..], b, isSpace, byteLimit);
      }
    }
  }

  /** On non-empty clusters the loop read from the back (StrictSpec.Scan) and from the front
      (StrictRun) agree. */
  lemma {:induction false} StrictScanIsRun(cs: seq<seq<byte>>, isSpace: seq<byte> -> bool, byteLimit: nat)
    requires AllNonEmpty(cs)
    ensures StrictSpec.Scan(cs, isSpace, byteLimit) == StrictRun(StrictSpec.Start, cs, isSpace, byteLimit)
    decreases |cs|
  {
    if cs != [] {
      var n := |cs| - 1;
      StrictScanIsRun(cs[..n], isSpace, byteLimit);
      assert cs == cs[..n] + [cs[n]];
      StrictRunAppend(StrictSpec.Start, cs[..n], [cs[n]], isSpace, byteLimit);
      match StrictRun(StrictSpec.Start, cs[..n], isSpace, byteLimit)
      case Err(_) =>
      case Ok(mid) =>
        assert [cs[n]][1..] == [];
    }
  }

  /** Joining two lists of non-empty clusters keeps them non-empty. */
  lemma ConcatNonEmptyPieces(a: seq<seq<byte>>, b: seq<seq<byte>>)
    requires AllNonEmpty(a) && AllNonEmpty(b)
    ensures AllNonEmpty(a + b)
  {
    forall i | 0 <= i < |a + b|
      ensures |(a + b)[i]| > 0
    {
      if i >= |a| { assert (a + b)[i] == b[i - |a|]; }
    }
  }

  /** "abc" followed by U+3000 IDEOGRAPHIC SPACE (three bytes), one cluster per character. */
  const Ideographic: seq<seq<byte>> := [[97], [98], [99]] + [[0xE3, 0x80, 0x80]]

  const IdeographicRunes: seq<seq<seq<byte>>> := [[[97]], [[98]], [[99]]] + [[[0xE3, 0x80, 0x80]]]

  /** SplitString's cluster loop over "abc" at limit 4. */
  lemma IdeographicStrictPrefix()
    ensures StrictRun(StrictSpec.Start, [[97], [98], [99]], UnicodeSpace, 4) == Ok(StrictSpec.State([97, 98, 99], NoPos, CharPos(3, 1), []))
  {
    var s0 := StrictSpec.Start;
    var s1 := StrictSpec.State([97], NoPos, CharPos(1, 1), []);
    var s2 := StrictSpec.State([97, 98], NoPos, CharPos(2, 1), []);
    var s3 := StrictSpec.State([97, 98, 99], NoPos, CharPos(3, 1), []);
    assert StrictRun(s0, [[97], [98], [99]], UnicodeSpace, 4) == StrictRun(s1, [[98], [99]], UnicodeSpace, 4) by {
      assert [] + [97] == [97 as byte];
      assert StrictSpec.Step(s0, [97], UnicodeSpace, 4) == Ok(s1);
    }
    assert StrictRun(s1, [[98], [99]], UnicodeSpace, 4) == StrictRun(s2, [[99]], UnicodeSpace, 4) by {
      assert [97] + [98] == [97 as byte, 98];
      assert StrictSpec.Step(s1, [98], UnicodeSpace, 4) == Ok(s2);
    }
    assert StrictRun(s2, [[99]], UnicodeSpace, 4) == Ok(s3) by {
      assert [97, 98] + [99] == [97 as byte, 98, 99];
      assert StrictSpec.Step(s2, [99], UnicodeSpace, 4) == Ok(s3);
    }
  }

  /** At limit 4 no cluster is too large, yet SplitString fails: the space is the last cluster,
      so the cut after it leaves the whole 6-byte line, and the over-limit check rejects it. */
  lemma IdeographicSpaceFails()
    ensures forall i :: 0 <= i < |Ideographic| ==> |Ideographic[i]| <= 4
    ensures StrictSpec.SplitLines(Ideographic, UnicodeSpace, 4).Err?
  {
    var s3 := StrictSpec.State([97, 98, 99], NoPos, CharPos(3, 1), []);
    assert StrictRun(s3, [[0xE3, 0x80, 0x80]], UnicodeSpace, 4).Err? by {
      assert [97, 98, 99] + [0xE3, 0x80, 0x80] == [97 as byte, 98, 99, 0xE3, 0x80, 0x80];
      assert StrictSpec.Step(s3, [0xE3, 0x80, 0x80], UnicodeSpace, 4).Err?;
    }
    IdeographicStrictPrefix();
    StrictRunAppend(StrictSpec.Start, [[97], [98], [99]], [[0xE3, 0x80, 0x80]], UnicodeSpace, 4);
    StrictScanIsRun(Ideographic, UnicodeSpace, 4);
  }

  /** Split's cluster loop over "abc" with default options at limit 4. */
  lemma IdeographicPrefix()
    ensures Run(Config(4, false, false, false), Start, [[97], [98], [99]], [[[97]], [[98]], [[99]]], UnicodeSpace)
            == Running(BState([97, 98, 99], NoPos, CharPos(3, 1), 0, []))
  {
    var cfg := Config(4, false, false, false);
    var s0 := Start;
    var s1 := BState([97], NoPos, CharPos(1, 1), 0, []);
    var s2 := BState([97, 98], NoPos, CharPos(2, 1), 0, []);
    var s3 := BState([97, 98, 99], NoPos, CharPos(3, 1), 0, []);
    assert Run(cfg, s0, [[97], [98], [99]], [[[97]], [[98]], [[99]]], UnicodeSpace)
           == Run(cfg, s1, [[98], [99]], [[[98]], [[99]]], UnicodeSpace) by {
      assert [] + [97] == [97 as byte];
      assert Step(cfg, s0, [97], [[97]], UnicodeSpace) == Running(s1);
    }
    assert Run(cfg, s1, [[98], [99]], [[[98]], [[99]]], UnicodeSpace) == Run(cfg, s2, [[99]], [[[99]]], UnicodeSpace) by {
      assert [97] + [98] == [97 as byte, 98];
      assert Step(cfg, s1, [98], [[98]], UnicodeSpace) == Running(s2);
    }
    assert Run(cfg, s2, [[99]], [[[99]]], UnicodeSpace) == Running(s3) by {
      assert [97, 98] + [99] == [97 as byte, 98, 99];
      assert Step(cfg, s2, [99], [[99]], UnicodeSpace) == Running(s3);
    }
  }

  /** Split's cluster loop over the whole input: the space makes the line reach the limit, and
      the cut after it takes all six bytes. */
  lemma IdeographicScan()
    ensures Scan(Config(4, false, false, false), Ideographic, IdeographicRunes, UnicodeSpace)
            == Running(BState([], NoPos, CharPos(0, 3), 1, [(0, [97, 98, 99, 0xE3, 0x80, 0x80])]))
  {
    var cfg := Config(4, false, false, false);
    var s3 := BState([97, 98, 99], NoPos, CharPos(3, 1), 0, []);
    var s4 := BState([], NoPos, CharPos(0, 3), 1, [(0, [97, 98, 99, 0xE3, 0x80, 0x80])]);
    assert Run(cfg, s3, [[0xE3, 0x80, 0x80]], [[[0xE3, 0x80, 0x80]]], UnicodeSpace) == Running(s4) by {
      var line: seq<byte> := [97, 98, 99, 0xE3, 0x80, 0x80];
      assert [97, 98, 99] + [0xE3, 0x80, 0x80] == line;
      assert line[..6] == line && line[6..] == [];
      assert Step(cfg, s3, [0xE3, 0x80, 0x80], [[0xE3, 0x80, 0x80]], UnicodeSpace) == Running(s4);
    }
    IdeographicPrefix();
    RunAppend(cfg, Start, [[97], [98], [99]], [[[97]], [[98]], [[99]]], [[0xE3, 0x80, 0x80]], [[[0xE3, 0x80, 0x80]]], UnicodeSpace);
    ScanIsRun(cfg, Ideographic, IdeographicRunes, UnicodeSpace);
  }

  /** The same input through a SplitBuilder with default options: the 6-byte line is yielded,
      over the limit, and no error is signalled. */
  lemma IdeographicSpaceSplit()
    ensures var line := [97, 98, 99, 0xE3, 0x80, 0x80];
      && SplitPairs(Configure(4, []), Ideographic, IdeographicRunes, UnicodeSpace) == [(0, line)]
      && |line| > 4
  {
    assert Configure(4, []) == Config(4, false, false, false);
    IdeographicScan();
  }

  /** "asdasd asd asdasd", one cluster (and one rune) per byte. */
  const Asd: seq<seq<byte>> :=
    [[97], [115]]
    + ([[100]]
    + ([[97]]
    + ([[115], [100]]
    + ([[32]]
    + ([[97]]
    + ([[115], [100]]
    + ([[32]]
    + ([[97], [115]]
    + ([[100]]
    + ([[97]]
    + ([[115], [100]])))))))))))
  const AsdRunes: seq<seq<seq<byte>>> :=
    [[[97]], [[115]]]
    + ([[[100]]]
    + ([[[97]]]
    + ([[[115]], [[100]]]
    + ([[[32]]]
    + ([[[97]]]
    + ([[[115]], [[100]]]
    + ([[[32]]]
    + ([[[97]], [[115]]]
    + ([[[100]]]
    + ([[[97]]]
    + ([[[115]], [[100]]])))))))))))

  lemma AsdPart1()
    ensures Run(Config(4, false, false, false), BState([], CharPos(0, 0), CharPos(0, 0), 0, []),
                [[97], [115]], [[[97]], [[115]]], UnicodeSpace)
            == Running(BState([97, 115], CharPos(0, 0), CharPos(2, 1), 0, []))
  {
    var cfg := Config(4, false, false, false);
    var s0 := BState([], CharPos(0, 0), CharPos(0, 0), 0, []);
    var s1 := BState([97], CharPos(0, 0), CharPos(1, 1), 0, []);
    assert Run(cfg, s0, [[97], [115]], [[[97]], [[115]]], UnicodeSpace) == Run(cfg, s1, [[115]], [[[115]]], UnicodeSpace) by {
      assert [] + [97] == [97];
      assert Step(cfg, s0, [97], [[97]], UnicodeSpace) == Running(s1);
    }
    var s2 := BState([97, 115], CharPos(0, 0), CharPos(2, 1), 0, []);
    assert Run(cfg, s1, [[115]], [[[115]]], UnicodeSpace) == Run(cfg, s2, [], [], UnicodeSpace) by {
      assert [97] + [115] == [97, 115];
      assert Step(cfg, s1, [115], [[115]], UnicodeSpace) == Running(s2);
    }
  }

  lemma AsdPart2()
    ensures Run(Config(4, false, false, false), BState([97, 115], CharPos(0, 0), CharPos(2, 1), 0, []),
                [[100]], [[[100]]], UnicodeSpace)
            == Running(BState([97, 115, 100], CharPos(0, 0), CharPos(3, 1), 0, []))
  {
    var cfg := Config(4, false, false, false);
    var s0 := BState([97, 115], CharPos(0, 0), CharPos(2, 1), 0, []);
    var s1 := BState([97, 115, 100], CharPos(0, 0), CharPos(3, 1), 0, []);
    assert Run(cfg, s0, [[100]], [[[100]]], UnicodeSpace) == Run(cfg, s1, [], [], UnicodeSpace) by {
      assert [97, 115] + [100] == [97, 115, 100];
      assert Step(cfg, s0, [100], [[100]], UnicodeSpace) == Running(s1);
    }
  }

  lemma AsdPart3()
    ensures Run(Config(4, false, false, false), BState([97, 115, 100], CharPos(0, 0), CharPos(3, 1), 0, []),
                [[97]], [[[97]]], UnicodeSpace)
            == Running(BState([], CharPos(0, 0), CharPos(0, 1), 1, [(0, [97, 115, 100, 97])]))
  {
    var cfg := Config(4, false, false, false);
    var s0 := BState([97, 115, 100], CharPos(0, 0), CharPos(3, 1), 0, []);
    var s1 := BState([], CharPos(0, 0), CharPos(0, 1), 1, [(0, [97, 115, 100, 97])]);
    assert Run(cfg, s0, [[97]], [[[97]]], UnicodeSpace) == Run(cfg, s1, [], [], UnicodeSpace) by {
      assert [97, 115, 100] + [97] == [97, 115, 100, 97];
      assert [97, 115, 100, 97][..4] == [97, 115, 100, 97];
      assert [97, 115, 100, 97][4..] == [];
      assert Step(cfg, s0, [97], [[97]], UnicodeSpace) == Running(s1);
    }
  }

  lemma AsdPart4()
    ensures Run(Config(4, false, false, false), BState([], CharPos(0, 0), CharPos(0, 1), 1, [(0, [97, 115, 100, 97])]),
                [[115], [100]], [[[115]], [[100]]], UnicodeSpace)
            == Running(BState([115, 100], CharPos(0, 0), CharPos(2, 1), 1, [(0, [97, 115, 100, 97])]))
  {
    var cfg := Config(4, false, false, false);
    var s0 := BState([], CharPos(0, 0), CharPos(0, 1), 1, [(0, [97, 115, 100, 97])]);
    var s1 := BState([115], CharPos(0, 0), CharPos(1, 1), 1, [(0, [97, 115, 100, 97])]);
    assert Run(cfg, s0, [[115], [100]], [[[115]], [[100]]], UnicodeSpace) == Run(cfg, s1, [[100]], [[[100]]], UnicodeSpace) by {
      assert [] + [115] == [115];
      assert Step(cfg, s0, [115], [[115]], UnicodeSpace) == Running(s1);
    }
    var s2 := BState([115, 100], CharPos(0, 0), CharPos(2, 1), 1, [(0, [97, 115, 100, 97])]);
    assert Run(cfg, s1, [[100]], [[[100]]], UnicodeSpace) == Run(cfg, s2, [], [], UnicodeSpace) by {
      assert [115] + [100] == [115, 100];
      assert Step(cfg, s1, [100], [[100]], UnicodeSpace) == Running(s2);
    }
  }

  lemma AsdPart5()
    ensures Run(Config(4, false, false, false), BState([115, 100], CharPos(0, 0), CharPos(2, 1), 1, [(0, [97, 115, 100, 97])]),
                [[32]], [[[32]]], UnicodeSpace)
            == Running(BState([115, 100, 32], CharPos(3, 1), CharPos(3, 1), 1, [(0, [97, 115, 100, 97])]))
  {
    var cfg := Config(4, false, false, false);
    var s0 := BState([115, 100], CharPos(0, 0), CharPos(2, 1), 1, [(0, [97, 115, 100, 97])]);
    var s1 := BState([115, 100, 32], CharPos(3, 1), CharPos(3, 1), 1, [(0, [97, 115, 100, 97])]);
    assert Run(cfg, s0, [[32]], [[[32]]], UnicodeSpace) == Run(cfg, s1, [], [], UnicodeSpace) by {
      assert [115, 100] + [32] == [115, 100, 32];
      assert Step(cfg, s0, [32], [[32]], UnicodeSpace) == Running(s1);
    }
  }

  lemma AsdPart6()
    ensures Run(Config(4, false, false, false), BState([115, 100, 32], CharPos(3, 1), CharPos(3, 1), 1, [(0, [97, 115, 100, 97])]),
                [[97]], [[[97]]], UnicodeSpace)
            == Running(BState([97], CharPos(0, 0), CharPos(1, 1), 2, [(0, [97, 115, 100, 97]), (1, [115, 100, 32])]))
  {
    var cfg := Config(4, false, false, false);
    var s0 := BState([115, 100, 32], CharPos(3, 1), CharPos(3, 1), 1, [(0, [97, 115, 100, 97])]);
    var s1 := BState([97], CharPos(0, 0), CharPos(1, 1), 2, [(0, [97, 115, 100, 97]), (1, [115, 100, 32])]);
    assert Run(cfg, s0, [[97]], [[[97]]], UnicodeSpace) == Run(cfg, s1, [], [], UnicodeSpace) by {
      assert [115, 100, 32] + [97] == [115, 100, 32, 97];
      assert [115, 100, 32, 97][..3] == [115, 100, 32];
      assert [115, 100, 32, 97][3..] == [97];
      assert Step(cfg, s0, [97], [[97]], UnicodeSpace) == Running(s1);
    }
  }

  lemma AsdPart7()
    ensures Run(Config(4, false, false, false), BState([97], CharPos(0, 0), CharPos(1, 1), 2, [(0, [97, 115, 100, 97]), (1, [115, 100, 32])]),
                [[115], [100]], [[[115]], [[100]]], UnicodeSpace)
            == Running(BState([97, 115, 100], CharPos(0, 0), CharPos(3, 1), 2, [(0, [97, 115, 100, 97]), (1, [115, 100, 32])]))
  {
    var cfg := Config(4, false, false, false);
    var s0 := BState([97], CharPos(0, 0), CharPos(1, 1), 2, [(0, [97, 115, 100, 97]), (1, [115, 100, 32])]);
    var s1 := BState([97, 115], CharPos(0, 0), CharPos(2, 1), 2, [(0, [97, 115, 100, 97]), (1, [115, 100, 32])]);
    assert Run(cfg, s0, [[115], [100]], [[[115]], [[100]]], UnicodeSpace) == Run(cfg, s1, [[100]], [[[100]]], UnicodeSpace) by {
      assert [97] + [115] == [97, 115];
      assert Step(cfg, s0, [115], [[115]], UnicodeSpace) == Running(s1);
    }
    var s2 := BState([97, 115, 100], CharPos(0, 0), CharPos(3, 1), 2, [(0, [97, 115, 100, 97]), (1, [115, 100, 32])]);
    assert Run(cfg, s1, [[100]], [[[100]]], UnicodeSpace) == Run(cfg, s2, [], [], UnicodeSpace) by {
      assert [97, 115] + [100] == [97, 115, 100];
      assert Step(cfg, s1, [100], [[100]], UnicodeSpace) == Running(s2);
    }
  }

  lemma AsdPart8()
    ensures Run(Config(4, false, false, false), BState([97, 115, 100], CharPos(0, 0), CharPos(3, 1), 2, [(0, [97, 115, 100, 97]), (1, [115, 100, 32])]),
                [[32]], [[[32]]], UnicodeSpace)
            == Running(BState([], CharPos(0, 0), CharPos(0, 1), 3, [(0, [97, 115, 100, 97]), (1, [115, 100, 32]), (2, [97, 115, 100, 32])]))
  {
    var cfg := Config(4, false, false, false);
    var s0 := BState([97, 115, 100], CharPos(0, 0), CharPos(3, 1), 2, [(0, [97, 115, 100, 97]), (1, [115, 100, 32])]);
    var s1 := BState([], CharPos(0, 0), CharPos(0, 1), 3, [(0, [97, 115, 100, 97]), (1, [115, 100, 32]), (2, [97, 115, 100, 32])]);
    assert Run(cfg, s0, [[32]], [[[32]]], UnicodeSpace) == Run(cfg, s1, [], [], UnicodeSpace) by {
      assert [97, 115, 100] + [32] == [97, 115, 100, 32];
      assert [97, 115, 100, 32][..4] == [97, 115, 100, 32];
      assert [97, 115, 100, 32][4..] == [];
      assert Step(cfg, s0, [32], [[32]], UnicodeSpace) == Running(s1);
    }
  }

  lemma AsdPart9()
    ensures Run(Config(4, false, false, false), BState([], CharPos(0, 0), CharPos(0, 1), 3, [(0, [97, 115, 100, 97]), (1, [115, 100, 32]), (2, [97, 115, 100, 32])]),
                [[97], [115]], [[[97]], [[115]]], UnicodeSpace)
            == Running(BState([97, 115], CharPos(0, 0), CharPos(2, 1), 3, [(0, [97, 115, 100, 97]), (1, [115, 100, 32]), (2, [97, 115, 100, 32])]))
  {
    var cfg := Config(4, false, false, false);
    var s0 := BState([], CharPos(0, 0), CharPos(0, 1), 3, [(0, [97, 115, 100, 97]), (1, [115, 100, 32]), (2, [97, 115, 100, 32])]);
    var s1 := BState([97], CharPos(0, 0), CharPos(1, 1), 3, [(0, [97, 115, 100, 97]), (1, [115, 100, 32]), (2, [97, 115, 100, 32])]);
    assert Run(cfg, s0, [[97], [115]], [[[97]], [[115]]], UnicodeSpace) == Run(cfg, s1, [[115]], [[[115]]], UnicodeSpace) by {
      assert [] + [97] == [97];
      assert Step(cfg, s0, [97], [[97]], UnicodeSpace) == Running(s1);
    }
    var s2 := BState([97, 115], CharPos(0, 0), CharPos(2, 1), 3, [(0, [97, 115, 100, 97]), (1, [115, 100, 32]), (2, [97, 115, 100, 32])]);
    assert Run(cfg, s1, [[115]], [[[115]]], UnicodeSpace) == Run(cfg, s2, [], [], UnicodeSpace) by {
      assert [97] + [115] == [97, 115];
      assert Step(cfg, s1, [115], [[115]], UnicodeSpace) == Running(s2);
    }
  }

  lemma AsdPart10()
    ensures Run(Config(4, false, false, false), BState([97, 115], CharPos(0, 0), CharPos(2, 1), 3, [(0, [97, 115, 100, 97]), (1, [115, 100, 32]), (2, [97, 115, 100, 32])]),
                [[100]], [[[100]]], UnicodeSpace)
            == Running(BState([97, 115, 100], CharPos(0, 0), CharPos(3, 1), 3, [(0, [97, 115, 100, 97]), (1, [115, 100, 32]), (2, [97, 115, 100, 32])]))
  {
    var cfg := Config(4, false, false, false);
    var s0 := BState([97, 115], CharPos(0, 0), CharPos(2, 1), 3, [(0, [97, 115, 100, 97]), (1, [115, 100, 32]), (2, [97, 115, 100, 32])]);
    var s1 := BState([97, 115, 100], CharPos(0, 0), CharPos(3, 1), 3, [(0, [97, 115, 100, 97]), (1, [115, 100, 32]), (2, [97, 115, 100, 32])]);
    assert Run(cfg, s0, [[100]], [[[100]]], UnicodeSpace) == Run(cfg, s1, [], [], UnicodeSpace) by {
      assert [97, 115] + [100] == [97, 115, 100];
      assert Step(cfg, s0, [100], [[100]], UnicodeSpace) == Running(s1);
    }
  }

  lemma AsdPart11()
    ensures Run(Config(4, false, false, false), BState([97, 115, 100], CharPos(0, 0), CharPos(3, 1), 3, [(0, [97, 115, 100, 97]), (1, [115, 100, 32]), (2, [97, 115, 100, 32])]),
                [[97]], [[[97]]], UnicodeSpace)
            == Running(BState([], CharPos(0, 0), CharPos(0, 1), 4, [(0, [97, 115, 100, 97]), (1, [115, 100, 32]), (2, [97, 115, 100, 32]), (3, [97, 115, 100, 97])]))
  {
    var cfg := Config(4, false, false, false);
    var s0 := BState([97, 115, 100], CharPos(0, 0), CharPos(3, 1), 3, [(0, [97, 115, 100, 97]), (1, [115, 100, 32]), (2, [97, 115, 100, 32])]);
    var s1 := BState([], CharPos(0, 0), CharPos(0, 1), 4, [(0, [97, 115, 100, 97]), (1, [115, 100, 32]), (2, [97, 115, 100, 32]), (3, [97, 115, 100, 97])]);
    assert Run(cfg, s0, [[97]], [[[97]]], UnicodeSpace) == Run(cfg, s1, [], [], UnicodeSpace) by {
      assert [97, 115, 100] + [97] == [97, 115, 100, 97];
      assert [97, 115, 100, 97][..4] == [97, 115, 100, 97];
      assert [97, 115, 100, 97][4..] == [];
      assert Step(cfg, s0, [97], [[97]], UnicodeSpace) == Running(s1);
    }
  }

  lemma AsdPart12()
    ensures Run(Config(4, false, false, false), BState([], CharPos(0, 0), CharPos(0, 1), 4, [(0, [97, 115, 100, 97]), (1, [115, 100, 32]), (2, [97, 115, 100, 32]), (3, [97, 115, 100, 97])]),
                [[115], [100]], [[[115]], [[100]]], UnicodeSpace)
            == Running(BState([115, 100], CharPos(0, 0), CharPos(2, 1), 4, [(0, [97, 115, 100, 97]), (1, [115, 100, 32]), (2, [97, 115, 100, 32]), (3, [97, 115, 100, 97])]))
  {
    var cfg := Config(4, false, false, false);
    var s0 := BState([], CharPos(0, 0), CharPos(0, 1), 4, [(0, [97, 115, 100, 97]), (1, [115, 100, 32]), (2, [97, 115, 100, 32]), (3, [97, 115, 100, 97])]);
    var s1 := BState([115], CharPos(0, 0), CharPos(1, 1), 4, [(0, [97, 115, 100, 97]), (1, [115, 100, 32]), (2, [97, 115, 100, 32]), (3, [97, 115, 100, 97])]);
    assert Run(cfg, s0, [[115], [100]], [[[115]], [[100]]], UnicodeSpace) == Run(cfg, s1, [[100]], [[[100]]], UnicodeSpace) by {
      assert [] + [115] == [115];
      assert Step(cfg, s0, [115], [[115]], UnicodeSpace) == Running(s1);
    }
    var s2 := BState([115, 100], CharPos(0, 0), CharPos(2, 1), 4, [(0, [97, 115, 100, 97]), (1, [115, 100, 32]), (2, [97, 115, 100, 32]), (3, [97, 115, 100, 97])]);
    assert Run(cfg, s1, [[100]], [[[100]]], UnicodeSpace) == Run(cfg, s2, [], [], UnicodeSpace) by {
      assert [115] + [100] == [115, 100];
      assert Step(cfg, s1, [100], [[100]], UnicodeSpace) == Running(s2);
    }
  }

  /** Split's cluster loop over Asd with Config(4, false, false, false). */
  lemma AsdScan()
    ensures Scan(Config(4, false, false, false), Asd, AsdRunes, UnicodeSpace)
            == Running(BState([115, 100], CharPos(0, 0), CharPos(2, 1), 4, [(0, [97, 115, 100, 97]), (1, [115, 100, 32]), (2, [97, 115, 100, 32]), (3, [97, 115, 100, 97])]))
  {
    var cfg := Config(4, false, false, false);
    ScanIsRun(cfg, Asd, AsdRunes, UnicodeSpace);
    AsdPart1();
    RunAppend(cfg, BState([], CharPos(0, 0), CharPos(0, 0), 0, []), [[97], [115]], [[[97]], [[115]]],
              [[100]] + ([[97]] + ([[115], [100]] + ([[32]] + ([[97]] + ([[115], [100]] + ([[32]] + ([[97], [115]] + ([[100]] + ([[97]] + ([[115], [100]])))))))))),
              [[[100]]] + ([[[97]]] + ([[[115]], [[100]]] + ([[[32]]] + ([[[97]]] + ([[[115]], [[100]]] + ([[[32]]] + ([[[97]], [[115]]] + ([[[100]]] + ([[[97]]] + ([[[115]], [[100]]])))))))))), UnicodeSpace);
    AsdPart2();
    RunAppend(cfg, BState([97, 115], CharPos(0, 0), CharPos(2, 1), 0, []), [[100]], [[[100]]],
              [[97]] + ([[115], [100]] + ([[32]] + ([[97]] + ([[115], [100]] + ([[32]] + ([[97], [115]] + ([[100]] + ([[97]] + ([[115], [100]]))))))))),
              [[[97]]] + ([[[115]], [[100]]] + ([[[32]]] + ([[[97]]] + ([[[115]], [[100]]] + ([[[32]]] + ([[[97]], [[115]]] + ([[[100]]] + ([[[97]]] + ([[[115]], [[100]]]))))))))), UnicodeSpace);
    AsdPart3();
    RunAppend(cfg, BState([97, 115, 100], CharPos(0, 0), CharPos(3, 1), 0, []), [[97]], [[[97]]],
              [[115], [100]] + ([[32]] + ([[97]] + ([[115], [100]] + ([[32]] + ([[97], [115]] + ([[100]] + ([[97]] + ([[115], [100]])))))))),
              [[[115]], [[100]]] + ([[[32]]] + ([[[97]]] + ([[[115]], [[100]]] + ([[[32]]] + ([[[97]], [[115]]] + ([[[100]]] + ([[[97]]] + ([[[115]], [[100]]])))))))), UnicodeSpace);
    AsdPart4();
    RunAppend(cfg, BState([], CharPos(0, 0), CharPos(0, 1), 1, [(0, [97, 115, 100, 97])]), [[115], [100]], [[[115]], [[100]]],
              [[32]] + ([[97]] + ([[115], [100]] + ([[32]] + ([[97], [115]] + ([[100]] + ([[97]] + ([[115], [100]]))))))),
              [[[32]]] + ([[[97]]] + ([[[115]], [[100]]] + ([[[32]]] + ([[[97]], [[115]]] + ([[[100]]] + ([[[97]]] + ([[[115]], [[100]]]))))))), UnicodeSpace);
    AsdPart5();
    RunAppend(cfg, BState([115, 100], CharPos(0, 0), CharPos(2, 1), 1, [(0, [97, 115, 100, 97])]), [[32]], [[[32]]],
              [[97]] + ([[115], [100]] + ([[32]] + ([[97], [115]] + ([[100]] + ([[97]] + ([[115], [100]])))))),
              [[[97]]] + ([[[115]], [[100]]] + ([[[32]]] + ([[[97]], [[115]]] + ([[[100]]] + ([[[97]]] + ([[[115]], [[100]]])))))), UnicodeSpace);
    AsdPart6();
    RunAppend(cfg, BState([115, 100, 32], CharPos(3, 1), CharPos(3, 1), 1, [(0, [97, 115, 100, 97])]), [[97]], [[[97]]],
              [[115], [100]] + ([[32]] + ([[97], [115]] + ([[100]] + ([[97]] + ([[115], [100]]))))),
              [[[115]], [[100]]] + ([[[32]]] + ([[[97]], [[115]]] + ([[[100]]] + ([[[97]]] + ([[[115]], [[100]]]))))), UnicodeSpace);
    AsdPart7();
    RunAppend(cfg, BState([97], CharPos(0, 0), CharPos(1, 1), 2, [(0, [97, 115, 100, 97]), (1, [115, 100, 32])]), [[115], [100]], [[[115]], [[100]]],
              [[32]] + ([[97], [115]] + ([[100]] + ([[97]] + ([[115], [100]])))),
              [[[32]]] + ([[[97]], [[115]]] + ([[[100]]] + ([[[97]]] + ([[[115]], [[100]]])))), UnicodeSpace);
    AsdPart8();
    RunAppend(cfg, BState([97, 115, 100], CharPos(0, 0), CharPos(3, 1), 2, [(0, [97, 115, 100, 97]), (1, [115, 100, 32])]), [[32]], [[[32]]],
              [[97], [115]] + ([[100]] + ([[97]] + ([[115], [100]]))),
              [[[97]], [[115]]] + ([[[100]]] + ([[[97]]] + ([[[115]], [[100]]]))), UnicodeSpace);
    AsdPart9();
    RunAppend(cfg, BState([], CharPos(0, 0), CharPos(0, 1), 3, [(0, [97, 115, 100, 97]), (1, [115, 100, 32]), (2, [97, 115, 100, 32])]), [[97], [115]], [[[97]], [[115]]],
              [[100]] + ([[97]] + ([[115], [100]])),
              [[[100]]] + ([[[97]]] + ([[[115]], [[100]]])), UnicodeSpace);
    AsdPart10();
    RunAppend(cfg, BState([97, 115], CharPos(0, 0), CharPos(2, 1), 3, [(0, [97, 115, 100, 97]), (1, [115, 100, 32]), (2, [97, 115, 100, 32])]), [[100]], [[[100]]],
              [[97]] + ([[115], [100]]),
              [[[97]]] + ([[[115]], [[100]]]), UnicodeSpace);
    AsdPart11();
    RunAppend(cfg, BState([97, 115, 100], CharPos(0, 0), CharPos(3, 1), 3, [(0, [97, 115, 100, 97]), (1, [115, 100, 32]), (2, [97, 115, 100, 32])]), [[97]], [[[97]]],
              [[115], [100]],
              [[[115]], [[100]]], UnicodeSpace);
    AsdPart12();
  }

  /** TestSplitBuilder_DefaultBehavior: at limit 4 the default builder yields "asda", "sd ", "asd ", "asda", "sd". */
  lemma DefaultBehavior()
    ensures SplitPairs(Configure(4, []), Asd, AsdRunes, UnicodeSpace)
            == [(0, [97, 115, 100, 97]), (1, [115, 100, 32]), (2, [97, 115, 100, 32]), (3, [97, 115, 100, 97]), (4, [115, 100])]
  {
    assert Configure(4, []) == Config(4, false, false, false);
    AsdScan();
    assert [(0, [97, 115, 100, 97]), (1, [115, 100, 32]), (2, [97, 115, 100, 32]), (3, [97, 115, 100, 97])] + [(4, [115, 100])] == [(0, [97, 115, 100, 97]), (1, [115, 100, 32]), (2, [97, 115, 100, 32]), (3, [97, 115, 100, 97]), (4, [115, 100])];
  }

  /** "Hello world this is a test", one cluster (and one rune) per byte. */
  const Hello: seq<seq<byte>> :=
    [[72], [101]]
    + ([[108], [108]]
    + ([[111], [32]]
    + ([[119], [111]]
    + ([[114]]
    + ([[108]]
    + ([[100], [32]]
    + ([[116], [104]]
    + ([[105]]
    + ([[115]]
    + ([[32], [105]]
    + ([[115], [32]]
    + ([[97]]
    + ([[32]]
    + ([[116], [101]]
    + ([[115], [116]])))))))))))))))
  const HelloRunes: seq<seq<seq<byte>>> :=
    [[[72]], [[101]]]
    + ([[[108]], [[108]]]
    + ([[[111]], [[32]]]
    + ([[[119]], [[111]]]
    + ([[[114]]]
    + ([[[108]]]
    + ([[[100]], [[32]]]
    + ([[[116]], [[104]]]
    + ([[[105]]]
    + ([[[115]]]
    + ([[[32]], [[105]]]
    + ([[[115]], [[32]]]
    + ([[[97]]]
    + ([[[32]]]
    + ([[[116]], [[101]]]
    + ([[[115]], [[116]]])))))))))))))))

  lemma HelloPart1()
    ensures Run(Config(10, false, false, false), BState([], CharPos(0, 0), CharPos(0, 0), 0, []),
                [[72], [101]], [[[72]], [[101]]], UnicodeSpace)
            == Running(BState([72, 101], CharPos(0, 0), CharPos(2, 1), 0, []))
  {
    var cfg := Config(10, false, false, false);
    var s0 := BState([], CharPos(0, 0), CharPos(0, 0), 0, []);
    var s1 := BState([72], CharPos(0, 0), CharPos(1, 1), 0, []);
    assert Run(cfg, s0, [[72], [101]], [[[72]], [[101]]], UnicodeSpace) == Run(cfg, s1, [[101]], [[[101]]], UnicodeSpace) by {
      assert [] + [72] == [72];
      assert Step(cfg, s0, [72], [[72]], UnicodeSpace) == Running(s1);
    }
    var s2 := BState([72, 101], CharPos(0, 0), CharPos(2, 1), 0, []);
    assert Run(cfg, s1, [[101]], [[[101]]], UnicodeSpace) == Run(cfg, s2, [], [], UnicodeSpace) by {
      assert [72] + [101] == [72, 101];
      assert Step(cfg, s1, [101], [[101]], UnicodeSpace) == Running(s2);
    }
  }

  lemma HelloPart2()
    ensures Run(Config(10, false, false, false), BState([72, 101], CharPos(0, 0), CharPos(2, 1), 0, []),
                [[108], [108]], [[[108]], [[108]]], UnicodeSpace)
            == Running(BState([72, 101, 108, 108], CharPos(0, 0), CharPos(4, 1), 0, []))
  {
    var cfg := Config(10, false, false, false);
    var s0 := BState([72, 101], CharPos(0, 0), CharPos(2, 1), 0, []);
    var s1 := BState([72, 101, 108], CharPos(0, 0), CharPos(3, 1), 0, []);
    assert Run(cfg, s0, [[108], [108]], [[[108]], [[108]]], UnicodeSpace) == Run(cfg, s1, [[108]], [[[108]]], UnicodeSpace) by {
      assert [72, 101] + [108] == [72, 101, 108];
      assert Step(cfg, s0, [108], [[108]], UnicodeSpace) == Running(s1);
    }
    var s2 := BState([72, 101, 108, 108], CharPos(0, 0), CharPos(4, 1), 0, []);
    assert Run(cfg, s1, [[108]], [[[108]]], UnicodeSpace) == Run(cfg, s2, [], [], UnicodeSpace) by {
      assert [72, 101, 108] + [108] == [72, 101, 108, 108];
      assert Step(cfg, s1, [108], [[108]], UnicodeSpace) == Running(s2);
    }
  }

  lemma HelloPart3()
    ensures Run(Config(10, false, false, false), BState([72, 101, 108, 108], CharPos(0, 0), CharPos(4, 1), 0, []),
                [[111], [32]], [[[111]], [[32]]], UnicodeSpace)
            == Running(BState([72, 101, 108, 108, 111, 32], CharPos(6, 1), CharPos(6, 1), 0, []))
  {
    var cfg := Config(10, false, false, false);
    var s0 := BState([72, 101, 108, 108], CharPos(0, 0), CharPos(4, 1), 0, []);
    var s1 := BState([72, 101, 108, 108, 111], CharPos(0, 0), CharPos(5, 1), 0, []);
    assert Run(cfg, s0, [[111], [32]], [[[111]], [[32]]], UnicodeSpace) == Run(cfg, s1, [[32]], [[[32]]], UnicodeSpace) by {
      assert [72, 101, 108, 108] + [111] == [72, 101, 108, 108, 111];
      assert Step(cfg, s0, [111], [[111]], UnicodeSpace) == Running(s1);
    }
    var s2 := BState([72, 101, 108, 108, 111, 32], CharPos(6, 1), CharPos(6, 1), 0, []);
    assert Run(cfg, s1, [[32]], [[[32]]], UnicodeSpace) == Run(cfg, s2, [], [], UnicodeSpace) by {
      assert [72, 101, 108, 108, 111] + [32] == [72, 101, 108, 108, 111, 32];
      assert Step(cfg, s1, [32], [[32]], UnicodeSpace) == Running(s2);
    }
  }

  lemma HelloPart4()
    ensures Run(Config(10, false, false, false), BState([72, 101, 108, 108, 111, 32], CharPos(6, 1), CharPos(6, 1), 0, []),
                [[119], [111]], [[[119]], [[111]]], UnicodeSpace)
            == Running(BState([72, 101, 108, 108, 111, 32, 119, 111], CharPos(6, 1), CharPos(8, 1), 0, []))
  {
    var cfg := Config(10, false, false, false);
    var s0 := BState([72, 101, 108, 108, 111, 32], CharPos(6, 1), CharPos(6, 1), 0, []);
    var s1 := BState([72, 101, 108, 108, 111, 32, 119], CharPos(6, 1), CharPos(7, 1), 0, []);
    assert Run(cfg, s0, [[119], [111]], [[[119]], [[111]]], UnicodeSpace) == Run(cfg, s1, [[111]], [[[111]]], UnicodeSpace) by {
      assert [72, 101, 108, 108, 111, 32] + [119] == [72, 101, 108, 108, 111, 32, 119];
      assert Step(cfg, s0, [119], [[119]], UnicodeSpace) == Running(s1);
    }
    var s2 := BState([72, 101, 108, 108, 111, 32, 119, 111], CharPos(6, 1), CharPos(8, 1), 0, []);
    assert Run(cfg, s1, [[111]], [[[111]]], UnicodeSpace) == Run(cfg, s2, [], [], UnicodeSpace) by {
      assert [72, 101, 108, 108, 111, 32, 119] + [111] == [72, 101, 108, 108, 111, 32, 119, 111];
      assert Step(cfg, s1, [111], [[111]], UnicodeSpace) == Running(s2);
    }
  }

  lemma HelloPart5()
    ensures Run(Config(10, false, false, false), BState([72, 101, 108, 108, 111, 32, 119, 111], CharPos(6, 1), CharPos(8, 1), 0, []),
                [[114]], [[[114]]], UnicodeSpace)
            == Running(BState([72, 101, 108, 108, 111, 32, 119, 111, 114], CharPos(6, 1), CharPos(9, 1), 0, []))
  {
    var cfg := Config(10, false, false, false);
    var s0 := BState([72, 101, 108, 108, 111, 32, 119, 111], CharPos(6, 1), CharPos(8, 1), 0, []);
    var s1 := BState([72, 101, 108, 108, 111, 32, 119, 111, 114], CharPos(6, 1), CharPos(9, 1), 0, []);
    assert Run(cfg, s0, [[114]], [[[114]]], UnicodeSpace) == Run(cfg, s1, [], [], UnicodeSpace) by {
      assert [72, 101, 108, 108, 111, 32, 119, 111] + [114] == [72, 101, 108, 108, 111, 32, 119, 111, 114];
      assert Step(cfg, s0, [114], [[114]], UnicodeSpace) == Running(s1);
    }
  }

  lemma HelloPart6()
    ensures Run(Config(10, false, false, false), BState([72, 101, 108, 108, 111, 32, 119, 111, 114], CharPos(6, 1), CharPos(9, 1), 0, []),
                [[108]], [[[108]]], UnicodeSpace)
            == Running(BState([119, 111, 114, 108], CharPos(0, 0), CharPos(4, 1), 1, [(0, [72, 101, 108, 108, 111, 32])]))
  {
    var cfg := Config(10, false, false, false);
    var s0 := BState([72, 101, 108, 108, 111, 32, 119, 111, 114], CharPos(6, 1), CharPos(9, 1), 0, []);
    var s1 := BState([119, 111, 114, 108], CharPos(0, 0), CharPos(4, 1), 1, [(0, [72, 101, 108, 108, 111, 32])]);
    assert Run(cfg, s0, [[108]], [[[108]]], UnicodeSpace) == Run(cfg, s1, [], [], UnicodeSpace) by {
      assert [72, 101, 108, 108, 111, 32, 119, 111, 114] + [108] == [72, 101, 108, 108, 111, 32, 119, 111, 114, 108];
      assert [72, 101, 108, 108, 111, 32, 119, 111, 114, 108][..6] == [72, 101, 108, 108, 111, 32];
      assert [72, 101, 108, 108, 111, 32, 119, 111, 114, 108][6..] == [119, 111, 114, 108];
      assert Step(cfg, s0, [108], [[108]], UnicodeSpace) == Running(s1);
    }
  }

  lemma HelloPart7()
    ensures Run(Config(10, false, false, false), BState([119, 111, 114, 108], CharPos(0, 0), CharPos(4, 1), 1, [(0, [72, 101, 108, 108, 111, 32])]),
                [[100], [32]], [[[100]], [[32]]], UnicodeSpace)
            == Running(BState([119, 111, 114, 108, 100, 32], CharPos(6, 1), CharPos(6, 1), 1, [(0, [72, 101, 108, 108, 111, 32])]))
  {
    var cfg := Config(10, false, false, false);
    var s0 := BState([119, 111, 114, 108], CharPos(0, 0), CharPos(4, 1), 1, [(0, [72, 101, 108, 108, 111, 32])]);
    var s1 := BState([119, 111, 114, 108, 100], CharPos(0, 0), CharPos(5, 1), 1, [(0, [72, 101, 108, 108, 111, 32])]);
    assert Run(cfg, s0, [[100], [32]], [[[100]], [[32]]], UnicodeSpace) == Run(cfg, s1, [[32]], [[[32]]], UnicodeSpace) by {
      assert [119, 111, 114, 108] + [100] == [119, 111, 114, 108, 100];
      assert Step(cfg, s0, [100], [[100]], UnicodeSpace) == Running(s1);
    }
    var s2 := BState([119, 111, 114, 108, 100, 32], CharPos(6, 1), CharPos(6, 1), 1, [(0, [72, 101, 108, 108, 111, 32])]);
    assert Run(cfg, s1, [[32]], [[[32]]], UnicodeSpace) == Run(cfg, s2, [], [], UnicodeSpace) by {
      assert [119, 111, 114, 108, 100] + [32] == [119, 111, 114, 108, 100, 32];
      assert Step(cfg, s1, [32], [[32]], UnicodeSpace) == Running(s2);
    }
  }

  lemma HelloPart8()
    ensures Run(Config(10, false, false, false), BState([119, 111, 114, 108, 100, 32], CharPos(6, 1), CharPos(6, 1), 1, [(0, [72, 101, 108, 108, 111, 32])]),
                [[116], [104]], [[[116]], [[104]]], UnicodeSpace)
            == Running(BState([119, 111, 114, 108, 100, 32, 116, 104], CharPos(6, 1), CharPos(8, 1), 1, [(0, [72, 101, 108, 108, 111, 32])]))
  {
    var cfg := Config(10, false, false, false);
    var s0 := BState([119, 111, 114, 108, 100, 32], CharPos(6, 1), CharPos(6, 1), 1, [(0, [72, 101, 108, 108, 111, 32])]);
    var s1 := BState([119, 111, 114, 108, 100, 32, 116], CharPos(6, 1), CharPos(7, 1), 1, [(0, [72, 101, 108, 108, 111, 32])]);
    assert Run(cfg, s0, [[116], [104]], [[[116]], [[104]]], UnicodeSpace) == Run(cfg, s1, [[104]], [[[104]]], UnicodeSpace) by {
      assert [119, 111, 114, 108, 100, 32] + [116] == [119, 111, 114, 108, 100, 32, 116];
      assert Step(cfg, s0, [116], [[116]], UnicodeSpace) == Running(s1);
    }
    var s2 := BState([119, 111, 114, 108, 100, 32, 116, 104], CharPos(6, 1), CharPos(8, 1), 1, [(0, [72, 101, 108, 108, 111, 32])]);
    assert Run(cfg, s1, [[104]], [[[104]]], UnicodeSpace) == Run(cfg, s2, [], [], UnicodeSpace) by {
      assert [119, 111, 114, 108, 100, 32, 116] + [104] == [119, 111, 114, 108, 100, 32, 116, 104];
      assert Step(cfg, s1, [104], [[104]], UnicodeSpace) == Running(s2);
    }
  }

  lemma HelloPart9()
    ensures Run(Config(10, false, false, false), BState([119, 111, 114, 108, 100, 32, 116, 104], CharPos(6, 1), CharPos(8, 1), 1, [(0, [72, 101, 108, 108, 111, 32])]),
                [[105]], [[[105]]], UnicodeSpace)
            == Running(BState([119, 111, 114, 108, 100, 32, 116, 104, 105], CharPos(6, 1), CharPos(9, 1), 1, [(0, [72, 101, 108, 108, 111, 32])]))
  {
    var cfg := Config(10, false, false, false);
    var s0 := BState([119, 111, 114, 108, 100, 32, 116, 104], CharPos(6, 1), CharPos(8, 1), 1, [(0, [72, 101, 108, 108, 111, 32])]);
    var s1 := BState([119, 111, 114, 108, 100, 32, 116, 104, 105], CharPos(6, 1), CharPos(9, 1), 1, [(0, [72, 101, 108, 108, 111, 32])]);
    assert Run(cfg, s0, [[105]], [[[105]]], UnicodeSpace) == Run(cfg, s1, [], [], UnicodeSpace) by {
      assert [119, 111, 114, 108, 100, 32, 116, 104] + [105] == [119, 111, 114, 108, 100, 32, 116, 104, 105];
      assert Step(cfg, s0, [105], [[105]], UnicodeSpace) == Running(s1);
    }
  }

  lemma HelloPart10()
    ensures Run(Config(10, false, false, false), BState([119, 111, 114, 108, 100, 32, 116, 104, 105], CharPos(6, 1), CharPos(9, 1), 1, [(0, [72, 101, 108, 108, 111, 32])]),
                [[115]], [[[115]]], UnicodeSpace)
            == Running(BState([116, 104, 105, 115], CharPos(0, 0), CharPos(4, 1), 2, [(0, [72, 101, 108, 108, 111, 32]), (1, [119, 111, 114, 108, 100, 32])]))
  {
    var cfg := Config(10, false, false, false);
    var s0 := BState([119, 111, 114, 108, 100, 32, 116, 104, 105], CharPos(6, 1), CharPos(9, 1), 1, [(0, [72, 101, 108, 108, 111, 32])]);
    var s1 := BState([116, 104, 105, 115], CharPos(0, 0), CharPos(4, 1), 2, [(0, [72, 101, 108, 108, 111, 32]), (1, [119, 111, 114, 108, 100, 32])]);
    assert Run(cfg, s0, [[115]], [[[115]]], UnicodeSpace) == Run(cfg, s1, [], [], UnicodeSpace) by {
      assert [119, 111, 114, 108, 100, 32, 116, 104, 105] + [115] == [119, 111, 114, 108, 100, 32, 116, 104, 105, 115];
      assert [119, 111, 114, 108, 100, 32, 116, 104, 105, 115][..6] == [119, 111, 114, 108, 100, 32];
      assert [119, 111, 114, 108, 100, 32, 116, 104, 105, 115][6..] == [116, 104, 105, 115];
      assert Step(cfg, s0, [115], [[115]], UnicodeSpace) == Running(s1);
    }
  }

  lemma HelloPart11()
    ensures Run(Config(10, false, false, false), BState([116, 104, 105, 115], CharPos(0, 0), CharPos(4, 1), 2, [(0, [72, 101, 108, 108, 111, 32]), (1, [119, 111, 114, 108, 100, 32])]),
                [[32], [105]], [[[32]], [[105]]], UnicodeSpace)
            == Running(BState([116, 104, 105, 115, 32, 105], CharPos(5, 1), CharPos(6, 1), 2, [(0, [72, 101, 108, 108, 111, 32]), (1, [119, 111, 114, 108, 100, 32])]))
  {
    var cfg := Config(10, false, false, false);
    var s0 := BState([116, 104, 105, 115], CharPos(0, 0), CharPos(4, 1), 2, [(0, [72, 101, 108, 108, 111, 32]), (1, [119, 111, 114, 108, 100, 32])]);
    var s1 := BState([116, 104, 105, 115, 32], CharPos(5, 1), CharPos(5, 1), 2, [(0, [72, 101, 108, 108, 111, 32]), (1, [119, 111, 114, 108, 100, 32])]);
    assert Run(cfg, s0, [[32], [105]], [[[32]], [[105]]], UnicodeSpace) == Run(cfg, s1, [[105]], [[[105]]], UnicodeSpace) by {
      assert [116, 104, 105, 115] + [32] == [116, 104, 105, 115, 32];
      assert Step(cfg, s0, [32], [[32]], UnicodeSpace) == Running(s1);
    }
    var s2 := BState([116, 104, 105, 115, 32, 105], CharPos(5, 1), CharPos(6, 1), 2, [(0, [72, 101, 108, 108, 111, 32]), (1, [119, 111, 114, 108, 100, 32])]);
    assert Run(cfg, s1, [[105]], [[[105]]], UnicodeSpace) == Run(cfg, s2, [], [], UnicodeSpace) by {
      assert [116, 104, 105, 115, 32] + [105] == [116, 104, 105, 115, 32, 105];
      assert Step(cfg, s1, [105], [[105]], UnicodeSpace) == Running(s2);
    }
  }

  lemma HelloPart12()
    ensures Run(Config(10, false, false, false), BState([116, 104, 105, 115, 32, 105], CharPos(5, 1), CharPos(6, 1), 2, [(0, [72, 101, 108, 108, 111, 32]), (1, [119, 111, 114, 108, 100, 32])]),
                [[115], [32]], [[[115]], [[32]]], UnicodeSpace)
            == Running(BState([116, 104, 105, 115, 32, 105, 115, 32], CharPos(8, 1), CharPos(8, 1), 2, [(0, [72, 101, 108, 108, 111, 32]), (1, [119, 111, 114, 108, 100, 32])]))
  {
    var cfg := Config(10, false, false, false);
    var s0 := BState([116, 104, 105, 115, 32, 105], CharPos(5, 1), CharPos(6, 1), 2, [(0, [72, 101, 108, 108, 111, 32]), (1, [119, 111, 114, 108, 100, 32])]);
    var s1 := BState([116, 104, 105, 115, 32, 105, 115], CharPos(5, 1), CharPos(7, 1), 2, [(0, [72, 101, 108, 108, 111, 32]), (1, [119, 111, 114, 108, 100, 32])]);
    assert Run(cfg, s0, [[115], [32]], [[[115]], [[32]]], UnicodeSpace) == Run(cfg, s1, [[32]], [[[32]]], UnicodeSpace) by {
      assert [116, 104, 105, 115, 32, 105] + [115] == [116, 104, 105, 115, 32, 105, 115];
      assert Step(cfg, s0, [115], [[115]], UnicodeSpace) == Running(s1);
    }
    var s2 := BState([116, 104, 105, 115, 32, 105, 115, 32], CharPos(8, 1), CharPos(8, 1), 2, [(0, [72, 101, 108, 108, 111, 32]), (1, [119, 111, 114, 108, 100, 32])]);
    assert Run(cfg, s1, [[32]], [[[32]]], UnicodeSpace) == Run(cfg, s2, [], [], UnicodeSpace) by {
      assert [116, 104, 105, 115, 32, 105, 115] + [32] == [116, 104, 105, 115, 32, 105, 115, 32];
      assert Step(cfg, s1, [32], [[32]], UnicodeSpace) == Running(s2);
    }
  }

  lemma HelloPart13()
    ensures Run(Config(10, false, false, false), BState([116, 104, 105, 115, 32, 105, 115, 32], CharPos(8, 1), CharPos(8, 1), 2, [(0, [72, 101, 108, 108, 111, 32]), (1, [119, 111, 114, 108, 100, 32])]),
                [[97]], [[[97]]], UnicodeSpace)
            == Running(BState([116, 104, 105, 115, 32, 105, 115, 32, 97], CharPos(8, 1), CharPos(9, 1), 2, [(0, [72, 101, 108, 108, 111, 32]), (1, [119, 111, 114, 108, 100, 32])]))
  {
    var cfg := Config(10, false, false, false);
    var s0 := BState([116, 104, 105, 115, 32, 105, 115, 32], CharPos(8, 1), CharPos(8, 1), 2, [(0, [72, 101, 108, 108, 111, 32]), (1, [119, 111, 114, 108, 100, 32])]);
    var s1 := BState([116, 104, 105, 115, 32, 105, 115, 32, 97], CharPos(8, 1), CharPos(9, 1), 2, [(0, [72, 101, 108, 108, 111, 32]), (1, [119, 111, 114, 108, 100, 32])]);
    assert Run(cfg, s0, [[97]], [[[97]]], UnicodeSpace) == Run(cfg, s1, [], [], UnicodeSpace) by {
      assert [116, 104, 105, 115, 32, 105, 115, 32] + [97] == [116, 104, 105, 115, 32, 105, 115, 32, 97];
      assert Step(cfg, s0, [97], [[97]], UnicodeSpace) == Running(s1);
    }
  }

  lemma HelloPart14()
    ensures Run(Config(10, false, false, false), BState([116, 104, 105, 115, 32, 105, 115, 32, 97], CharPos(8, 1), CharPos(9, 1), 2, [(0, [72, 101, 108, 108, 111, 32]), (1, [119, 111, 114, 108, 100, 32])]),
                [[32]], [[[32]]], UnicodeSpace)
            == Running(BState([], CharPos(0, 0), CharPos(0, 1), 3, [(0, [72, 101, 108, 108, 111, 32]), (1, [119, 111, 114, 108, 100, 32]), (2, [116, 104, 105, 115, 32, 105, 115, 32, 97, 32])]))
  {
    var cfg := Config(10, false, false, false);
    var s0 := BState([116, 104, 105, 115, 32, 105, 115, 32, 97], CharPos(8, 1), CharPos(9, 1), 2, [(0, [72, 101, 108, 108, 111, 32]), (1, [119, 111, 114, 108, 100, 32])]);
    var s1 := BState([], CharPos(0, 0), CharPos(0, 1), 3, [(0, [72, 101, 108, 108, 111, 32]), (1, [119, 111, 114, 108, 100, 32]), (2, [116, 104, 105, 115, 32, 105, 115, 32, 97, 32])]);
    assert Run(cfg, s0, [[32]], [[[32]]], UnicodeSpace) == Run(cfg, s1, [], [], UnicodeSpace) by {
      assert [116, 104, 105, 115, 32, 105, 115, 32, 97] + [32] == [116, 104, 105, 115, 32, 105, 115, 32, 97, 32];
      assert [116, 104, 105, 115, 32, 105, 115, 32, 97, 32][..10] == [116, 104, 105, 115, 32, 105, 115, 32, 97, 32];
      assert [116, 104, 105, 115, 32, 105, 115, 32, 97, 32][10..] == [];
      assert Step(cfg, s0, [32], [[32]], UnicodeSpace) == Running(s1);
    }
  }

  lemma HelloPart15()
    ensures Run(Config(10, false, false, false), BState([], CharPos(0, 0), CharPos(0, 1), 3, [(0, [72, 101, 108, 108, 111, 32]), (1, [119, 111, 114, 108, 100, 32]), (2, [116, 104, 105, 115, 32, 105, 115, 32, 97, 32])]),
                [[116], [101]], [[[116]], [[101]]], UnicodeSpace)
            == Running(BState([116, 101], CharPos(0, 0), CharPos(2, 1), 3, [(0, [72, 101, 108, 108, 111, 32]), (1, [119, 111, 114, 108, 100, 32]), (2, [116, 104, 105, 115, 32, 105, 115, 32, 97, 32])]))
  {
    var cfg := Config(10, false, false, false);
    var s0 := BState([], CharPos(0, 0), CharPos(0, 1), 3, [(0, [72, 101, 108, 108, 111, 32]), (1, [119, 111, 114, 108, 100, 32]), (2, [116, 104, 105, 115, 32, 105, 115, 32, 97, 32])]);
    var s1 := BState([116], CharPos(0, 0), CharPos(1, 1), 3, [(0, [72, 101, 108, 108, 111, 32]), (1, [119, 111, 114, 108, 100, 32]), (2, [116, 104, 105, 115, 32, 105, 115, 32, 97, 32])]);
    assert Run(cfg, s0, [[116], [101]], [[[116]], [[101]]], UnicodeSpace) == Run(cfg, s1, [[101]], [[[101]]], UnicodeSpace) by {
      assert [] + [116] == [116];
      assert Step(cfg, s0, [116], [[116]], UnicodeSpace) == Running(s1);
    }
    var s2 := BState([116, 101], CharPos(0, 0), CharPos(2, 1), 3, [(0, [72, 101, 108, 108, 111, 32]), (1, [119, 111, 114, 108, 100, 32]), (2, [116, 104, 105, 115, 32, 105, 115, 32, 97, 32])]);
    assert Run(cfg, s1, [[101]], [[[101]]], UnicodeSpace) == Run(cfg, s2, [], [], UnicodeSpace) by {
      assert [116] + [101] == [116, 101];
      assert Step(cfg, s1, [101], [[101]], UnicodeSpace) == Running(s2);
    }
  }

  lemma HelloPart16()
    ensures Run(Config(10, false, false, false), BState([116, 101], CharPos(0, 0), CharPos(2, 1), 3, [(0, [72, 101, 108, 108, 111, 32]), (1, [119, 111, 114, 108, 100, 32]), (2, [116, 104, 105, 115, 32, 105, 115, 32, 97, 32])]),
                [[115], [116]], [[[115]], [[116]]], UnicodeSpace)
            == Running(BState([116, 101, 115, 116], CharPos(0, 0), CharPos(4, 1), 3, [(0, [72, 101, 108, 108, 111, 32]), (1, [119, 111, 114, 108, 100, 32]), (2, [116, 104, 105, 115, 32, 105, 115, 32, 97, 32])]))
  {
    var cfg := Config(10, false, false, false);
    var s0 := BState([116, 101], CharPos(0, 0), CharPos(2, 1), 3, [(0, [72, 101, 108, 108, 111, 32]), (1, [119, 111, 114, 108, 100, 32]), (2, [116, 104, 105, 115, 32, 105, 115, 32, 97, 32])]);
    var s1 := BState([116, 101, 115], CharPos(0, 0), CharPos(3, 1), 3, [(0, [72, 101, 108, 108, 111, 32]), (1, [119, 111, 114, 108, 100, 32]), (2, [116, 104, 105, 115, 32, 105, 115, 32, 97, 32])]);
    assert Run(cfg, s0, [[115], [116]], [[[115]], [[116]]], UnicodeSpace) == Run(cfg, s1, [[116]], [[[116]]], UnicodeSpace) by {
      assert [116, 101] + [115] == [116, 101, 115];
      assert Step(cfg, s0, [115], [[115]], UnicodeSpace) == Running(s1);
    }
    var s2 := BState([116, 101, 115, 116], CharPos(0, 0), CharPos(4, 1), 3, [(0, [72, 101, 108, 108, 111, 32]), (1, [119, 111, 114, 108, 100, 32]), (2, [116, 104, 105, 115, 32, 105, 115, 32, 97, 32])]);
    assert Run(cfg, s1, [[116]], [[[116]]], UnicodeSpace) == Run(cfg, s2, [], [], UnicodeSpace) by {
      assert [116, 101, 115] + [116] == [116, 101, 115, 116];
      assert Step(cfg, s1, [116], [[116]], UnicodeSpace) == Running(s2);
    }
  }

  /** Split's cluster loop over Hello with Config(10, false, false, false). */
  lemma HelloScan()
    ensures Scan(Config(10, false, false, false), Hello, HelloRunes, UnicodeSpace)
            == Running(BState([116, 101, 115, 116], CharPos(0, 0), CharPos(4, 1), 3, [(0, [72, 101, 108, 108, 111, 32]), (1, [119, 111, 114, 108, 100, 32]), (2, [116, 104, 105, 115, 32, 105, 115, 32, 97, 32])]))
  {
    var cfg := Config(10, false, false, false);
    ScanIsRun(cfg, Hello, HelloRunes, UnicodeSpace);
    HelloPart1();
    RunAppend(cfg, BState([], CharPos(0, 0), CharPos(0, 0), 0, []), [[72], [101]], [[[72]], [[101]]],
              [[108], [108]] + ([[111], [32]] + ([[119], [111]] + ([[114]] + ([[108]] + ([[100], [32]] + ([[116], [104]] + ([[105]] + ([[115]] + ([[32], [105]] + ([[115], [32]] + ([[97]] + ([[32]] + ([[116], [101]] + ([[115], [116]])))))))))))))),
              [[[108]], [[108]]] + ([[[111]], [[32]]] + ([[[119]], [[111]]] + ([[[114]]] + ([[[108]]] + ([[[100]], [[32]]] + ([[[116]], [[104]]] + ([[[105]]] + ([[[115]]] + ([[[32]], [[105]]] + ([[[115]], [[32]]] + ([[[97]]] + ([[[32]]] + ([[[116]], [[101]]] + ([[[115]], [[116]]])))))))))))))), UnicodeSpace);
    HelloPart2();
    RunAppend(cfg, BState([72, 101], CharPos(0, 0), CharPos(2, 1), 0, []), [[108], [108]], [[[108]], [[108]]],
              [[111], [32]] + ([[119], [111]] + ([[114]] + ([[108]] + ([[100], [32]] + ([[116], [104]] + ([[105]] + ([[115]] + ([[32], [105]] + ([[115], [32]] + ([[97]] + ([[32]] + ([[116], [101]] + ([[115], [116]]))))))))))))),
              [[[111]], [[32]]] + ([[[119]], [[111]]] + ([[[114]]] + ([[[108]]] + ([[[100]], [[32]]] + ([[[116]], [[104]]] + ([[[105]]] + ([[[115]]] + ([[[32]], [[105]]] + ([[[115]], [[32]]] + ([[[97]]] + ([[[32]]] + ([[[116]], [[101]]] + ([[[115]], [[116]]]))))))))))))), UnicodeSpace);
    HelloPart3();
    RunAppend(cfg, BState([72, 101, 108, 108], CharPos(0, 0), CharPos(4, 1), 0, []), [[111], [32]], [[[111]], [[32]]],
              [[119], [111]] + ([[114]] + ([[108]] + ([[100], [32]] + ([[116], [104]] + ([[105]] + ([[115]] + ([[32], [105]] + ([[115], [32]] + ([[97]] + ([[32]] + ([[116], [101]] + ([[115], [116]])))))))))))),
              [[[119]], [[111]]] + ([[[114]]] + ([[[108]]] + ([[[100]], [[32]]] + ([[[116]], [[104]]] + ([[[105]]] + ([[[115]]] + ([[[32]], [[105]]] + ([[[115]], [[32]]] + ([[[97]]] + ([[[32]]] + ([[[116]], [[101]]] + ([[[115]], [[116]]])))))))))))), UnicodeSpace);
    HelloPart4();
    RunAppend(cfg, BState([72, 101, 108, 108, 111, 32], CharPos(6, 1), CharPos(6, 1), 0, []), [[119], [111]], [[[119]], [[111]]],
              [[114]] + ([[108]] + ([[100], [32]] + ([[116], [104]] + ([[105]] + ([[115]] + ([[32], [105]] + ([[115], [32]] + ([[97]] + ([[32]] + ([[116], [101]] + ([[115], [116]]))))))))))),
              [[[114]]] + ([[[108]]] + ([[[100]], [[32]]] + ([[[116]], [[104]]] + ([[[105]]] + ([[[115]]] + ([[[32]], [[105]]] + ([[[115]], [[32]]] + ([[[97]]] + ([[[32]]] + ([[[116]], [[101]]] + ([[[115]], [[116]]]))))))))))), UnicodeSpace);
    HelloPart5();
    RunAppend(cfg, BState([72, 101, 108, 108, 111, 32, 119, 111], CharPos(6, 1), CharPos(8, 1), 0, []), [[114]], [[[114]]],
              [[108]] + ([[100], [32]] + ([[116], [104]] + ([[105]] + ([[115]] + ([[32], [105]] + ([[115], [32]] + ([[97]] + ([[32]] + ([[116], [101]] + ([[115], [116]])))))))))),
              [[[108]]] + ([[[100]], [[32]]] + ([[[116]], [[104]]] + ([[[105]]] + ([[[115]]] + ([[[32]], [[105]]] + ([[[115]], [[32]]] + ([[[97]]] + ([[[32]]] + ([[[116]], [[101]]] + ([[[115]], [[116]]])))))))))), UnicodeSpace);
    HelloPart6();
    RunAppend(cfg, BState([72, 101, 108, 108, 111, 32, 119, 111, 114], CharPos(6, 1), CharPos(9, 1), 0, []), [[108]], [[[108]]],
              [[100], [32]] + ([[116], [104]] + ([[105]] + ([[115]] + ([[32], [105]] + ([[115], [32]] + ([[97]] + ([[32]] + ([[116], [101]] + ([[115], [116]]))))))))),
              [[[100]], [[32]]] + ([[[116]], [[104]]] + ([[[105]]] + ([[[115]]] + ([[[32]], [[105]]] + ([[[115]], [[32]]] + ([[[97]]] + ([[[32]]] + ([[[116]], [[101]]] + ([[[115]], [[116]]]))))))))), UnicodeSpace);
    HelloPart7();
    RunAppend(cfg, BState([119, 111, 114, 108], CharPos(0, 0), CharPos(4, 1), 1, [(0, [72, 101, 108, 108, 111, 32])]), [[100], [32]], [[[100]], [[32]]],
              [[116], [104]] + ([[105]] + ([[115]] + ([[32], [105]] + ([[115], [32]] + ([[97]] + ([[32]] + ([[116], [101]] + ([[115], [116]])))))))),
              [[[116]], [[104]]] + ([[[105]]] + ([[[115]]] + ([[[32]], [[105]]] + ([[[115]], [[32]]] + ([[[97]]] + ([[[32]]] + ([[[116]], [[101]]] + ([[[115]], [[116]]])))))))), UnicodeSpace);
    HelloPart8();
    RunAppend(cfg, BState([119, 111, 114, 108, 100, 32], CharPos(6, 1), CharPos(6, 1), 1, [(0, [72, 101, 108, 108, 111, 32])]), [[116], [104]], [[[116]], [[104]]],
              [[105]] + ([[115]] + ([[32], [105]] + ([[115], [32]] + ([[97]] + ([[32]] + ([[116], [101]] + ([[115], [116]]))))))),
              [[[105]]] + ([[[115]]] + ([[[32]], [[105]]] + ([[[115]], [[32]]] + ([[[97]]] + ([[[32]]] + ([[[116]], [[101]]] + ([[[115]], [[116]]]))))))), UnicodeSpace);
    HelloPart9();
    RunAppend(cfg, BState([119, 111, 114, 108, 100, 32, 116, 104], CharPos(6, 1), CharPos(8, 1), 1, [(0, [72, 101, 108, 108, 111, 32])]), [[105]], [[[105]]],
              [[115]] + ([[32], [105]] + ([[115], [32]] + ([[97]] + ([[32]] + ([[116], [101]] + ([[115], [116]])))))),
              [[[115]]] + ([[[32]], [[105]]] + ([[[115]], [[32]]] + ([[[97]]] + ([[[32]]] + ([[[116]], [[101]]] + ([[[115]], [[116]]])))))), UnicodeSpace);
    HelloPart10();
    RunAppend(cfg, BState([119, 111, 114, 108, 100, 32, 116, 104, 105], CharPos(6, 1), CharPos(9, 1), 1, [(0, [72, 101, 108, 108, 111, 32])]), [[115]], [[[115]]],
              [[32], [105]] + ([[115], [32]] + ([[97]] + ([[32]] + ([[116], [101]] + ([[115], [116]]))))),
              [[[32]], [[105]]] + ([[[115]], [[32]]] + ([[[97]]] + ([[[32]]] + ([[[116]], [[101]]] + ([[[115]], [[116]]]))))), UnicodeSpace);
    HelloPart11();
    RunAppend(cfg, BState([116, 104, 105, 115], CharPos(0, 0), CharPos(4, 1), 2, [(0, [72, 101, 108, 108, 111, 32]), (1, [119, 111, 114, 108, 100, 32])]), [[32], [105]], [[[32]], [[105]]],
              [[115], [32]] + ([[97]] + ([[32]] + ([[116], [101]] + ([[115], [116]])))),
              [[[115]], [[32]]] + ([[[97]]] + ([[[32]]] + ([[[116]], [[101]]] + ([[[115]], [[116]]])))), UnicodeSpace);
    HelloPart12();
    RunAppend(cfg, BState([116, 104, 105, 115, 32, 105], CharPos(5, 1), CharPos(6, 1), 2, [(0, [72, 101, 108, 108, 111, 32]), (1, [119, 111, 114, 108, 100, 32])]), [[115], [32]], [[[115]], [[32]]],
              [[97]] + ([[32]] + ([[116], [101]] + ([[115], [116]]))),
              [[[97]]] + ([[[32]]] + ([[[116]], [[101]]] + ([[[115]], [[116]]]))), UnicodeSpace);
    HelloPart13();
    RunAppend(cfg, BState([116, 104, 105, 115, 32, 105, 115, 32], CharPos(8, 1), CharPos(8, 1), 2, [(0, [72, 101, 108, 108, 111, 32]), (1, [119, 111, 114, 108, 100, 32])]), [[97]], [[[97]]],
              [[32]] + ([[116], [101]] + ([[115], [116]])),
              [[[32]]] + ([[[116]], [[101]]] + ([[[115]], [[116]]])), UnicodeSpace);
    HelloPart14();
    RunAppend(cfg, BState([116, 104, 105, 115, 32, 105, 115, 32, 97], CharPos(8, 1), CharPos(9, 1), 2, [(0, [72, 101, 108, 108, 111, 32]), (1, [119, 111, 114, 108, 100, 32])]), [[32]], [[[32]]],
              [[116], [101]] + ([[115], [116]]),
              [[[116]], [[101]]] + ([[[115]], [[116]]]), UnicodeSpace);
    HelloPart15();
    RunAppend(cfg, BState([], CharPos(0, 0), CharPos(0, 1), 3, [(0, [72, 101, 108, 108, 111, 32]), (1, [119, 111, 114, 108, 100, 32]), (2, [116, 104, 105, 115, 32, 105, 115, 32, 97, 32])]), [[116], [101]], [[[116]], [[101]]],
              [[115], [116]],
              [[[115]], [[116]]], UnicodeSpace);
    HelloPart16();
  }

  /** TestSplitBuilder_WithIndex: at limit 10 the default builder yields "Hello ", "world ", "this is a ", "test" with indices 0 to 3. */
  lemma WithIndex()
    ensures SplitPairs(Configure(10, []), Hello, HelloRunes, UnicodeSpace)
            == [(0, [72, 101, 108, 108, 111, 32]), (1, [119, 111, 114, 108, 100, 32]), (2, [116, 104, 105, 115, 32, 105, 115, 32, 97, 32]), (3, [116, 101, 115, 116])]
  {
    assert Configure(10, []) == Config(10, false, false, false);
    HelloScan();
    assert [(0, [72, 101, 108, 108, 111, 32]), (1, [119, 111, 114, 108, 100, 32]), (2, [116, 104, 105, 115, 32, 105, 115, 32, 97, 32])] + [(3, [116, 101, 115, 116])] == [(0, [72, 101, 108, 108, 111, 32]), (1, [119, 111, 114, 108, 100, 32]), (2, [116, 104, 105, 115, 32, 105, 115, 32, 97, 32]), (3, [116, 101, 115, 116])];
  }

  lemma HelloTrimPart1()
    ensures Run(Config(10, false, false, true), BState([], CharPos(0, 0), CharPos(0, 0), 0, []),
                [[72], [101]], [[[72]], [[101]]], UnicodeSpace)
            == Running(BState([72, 101], CharPos(0, 0), CharPos(2, 1), 0, []))
  {
    var cfg := Config(10, false, false, true);
    var s0 := BState([], CharPos(0, 0), CharPos(0, 0), 0, []);
    var s1 := BState([72], CharPos(0, 0), CharPos(1, 1), 0, []);
    assert Run(cfg, s0, [[72], [101]], [[[72]], [[101]]], UnicodeSpace) == Run(cfg, s1, [[101]], [[[101]]], UnicodeSpace) by {
      assert [] + [72] == [72];
      assert Step(cfg, s0, [72], [[72]], UnicodeSpace) == Running(s1);
    }
    var s2 := BState([72, 101], CharPos(0, 0), CharPos(2, 1), 0, []);
    assert Run(cfg, s1, [[101]], [[[101]]], UnicodeSpace) == Run(cfg, s2, [], [], UnicodeSpace) by {
      assert [72] + [101] == [72, 101];
      assert Step(cfg, s1, [101], [[101]], UnicodeSpace) == Running(s2);
    }
  }

  lemma HelloTrimPart2()
    ensures Run(Config(10, false, false, true), BState([72, 101], CharPos(0, 0), CharPos(2, 1), 0, []),
                [[108], [108]], [[[108]], [[108]]], UnicodeSpace)
            == Running(BState([72, 101, 108, 108], CharPos(0, 0), CharPos(4, 1), 0, []))
  {
    var cfg := Config(10, false, false, true);
    var s0 := BState([72, 101], CharPos(0, 0), CharPos(2, 1), 0, []);
    var s1 := BState([72, 101, 108], CharPos(0, 0), CharPos(3, 1), 0, []);
    assert Run(cfg, s0, [[108], [108]], [[[108]], [[108]]], UnicodeSpace) == Run(cfg, s1, [[108]], [[[108]]], UnicodeSpace) by {
      assert [72, 101] + [108] == [72, 101, 108];
      assert Step(cfg, s0, [108], [[108]], UnicodeSpace) == Running(s1);
    }
    var s2 := BState([72, 101, 108, 108], CharPos(0, 0), CharPos(4, 1), 0, []);
    assert Run(cfg, s1, [[108]], [[[108]]], UnicodeSpace) == Run(cfg, s2, [], [], UnicodeSpace) by {
      assert [72, 101, 108] + [108] == [72, 101, 108, 108];
      assert Step(cfg, s1, [108], [[108]], UnicodeSpace) == Running(s2);
    }
  }

  lemma HelloTrimPart3()
    ensures Run(Config(10, false, false, true), BState([72, 101, 108, 108], CharPos(0, 0), CharPos(4, 1), 0, []),
                [[111], [32]], [[[111]], [[32]]], UnicodeSpace)
            == Running(BState([72, 101, 108, 108, 111, 32], CharPos(6, 1), CharPos(6, 1), 0, []))
  {
    var cfg := Config(10, false, false, true);
    var s0 := BState([72, 101, 108, 108], CharPos(0, 0), CharPos(4, 1), 0, []);
    var s1 := BState([72, 101, 108, 108, 111], CharPos(0, 0), CharPos(5, 1), 0, []);
    assert Run(cfg, s0, [[111], [32]], [[[111]], [[32]]], UnicodeSpace) == Run(cfg, s1, [[32]], [[[32]]], UnicodeSpace) by {
      assert [72, 101, 108, 108] + [111] == [72, 101, 108, 108, 111];
      assert Step(cfg, s0, [111], [[111]], UnicodeSpace) == Running(s1);
    }
    var s2 := BState([72, 101, 108, 108, 111, 32], CharPos(6, 1), CharPos(6, 1), 0, []);
    assert Run(cfg, s1, [[32]], [[[32]]], UnicodeSpace) == Run(cfg, s2, [], [], UnicodeSpace) by {
      assert [72, 101, 108, 108, 111] + [32] == [72, 101, 108, 108, 111, 32];
      assert Step(cfg, s1, [32], [[32]], UnicodeSpace) == Running(s2);
    }
  }

  lemma HelloTrimPart4()
    ensures Run(Config(10, false, false, true), BState([72, 101, 108, 108, 111, 32], CharPos(6, 1), CharPos(6, 1), 0, []),
                [[119], [111]], [[[119]], [[111]]], UnicodeSpace)
            == Running(BState([72, 101, 108, 108, 111, 32, 119, 111], CharPos(6, 1), CharPos(8, 1), 0, []))
  {
    var cfg := Config(10, false, false, true);
    var s0 := BState([72, 101, 108, 108, 111, 32], CharPos(6, 1), CharPos(6, 1), 0, []);
    var s1 := BState([72, 101, 108, 108, 111, 32, 119], CharPos(6, 1), CharPos(7, 1), 0, []);
    assert Run(cfg, s0, [[119], [111]], [[[119]], [[111]]], UnicodeSpace) == Run(cfg, s1, [[111]], [[[111]]], UnicodeSpace) by {
      assert [72, 101, 108, 108, 111, 32] + [119] == [72, 101, 108, 108, 111, 32, 119];
      assert Step(cfg, s0, [119], [[119]], UnicodeSpace) == Running(s1);
    }
    var s2 := BState([72, 101, 108, 108, 111, 32, 119, 111], CharPos(6, 1), CharPos(8, 1), 0, []);
    assert Run(cfg, s1, [[111]], [[[111]]], UnicodeSpace) == Run(cfg, s2, [], [], UnicodeSpace) by {
      assert [72, 101, 108, 108, 111, 32, 119] + [111] == [72, 101, 108, 108, 111, 32, 119, 111];
      assert Step(cfg, s1, [111], [[111]], UnicodeSpace) == Running(s2);
    }
  }

  lemma HelloTrimPart5()
    ensures Run(Config(10, false, false, true), BState([72, 101, 108, 108, 111, 32, 119, 111], CharPos(6, 1), CharPos(8, 1), 0, []),
                [[114]], [[[114]]], UnicodeSpace)
            == Running(BState([72, 101, 108, 108, 111, 32, 119, 111, 114], CharPos(6, 1), CharPos(9, 1), 0, []))
  {
    var cfg := Config(10, false, false, true);
    var s0 := BState([72, 101, 108, 108, 111, 32, 119, 111], CharPos(6, 1), CharPos(8, 1), 0, []);
    var s1 := BState([72, 101, 108, 108, 111, 32, 119, 111, 114], CharPos(6, 1), CharPos(9, 1), 0, []);
    assert Run(cfg, s0, [[114]], [[[114]]], UnicodeSpace) == Run(cfg, s1, [], [], UnicodeSpace) by {
      assert [72, 101, 108, 108, 111, 32, 119, 111] + [114] == [72, 101, 108, 108, 111, 32, 119, 111, 114];
      assert Step(cfg, s0, [114], [[114]], UnicodeSpace) == Running(s1);
    }
  }

  lemma HelloTrimPart6()
    ensures Run(Config(10, false, false, true), BState([72, 101, 108, 108, 111, 32, 119, 111, 114], CharPos(6, 1), CharPos(9, 1), 0, []),
                [[108]], [[[108]]], UnicodeSpace)
            == Running(BState([119, 111, 114, 108], CharPos(0, 0), CharPos(4, 1), 1, [(0, [72, 101, 108, 108, 111])]))
  {
    var cfg := Config(10, false, false, true);
    var s0 := BState([72, 101, 108, 108, 111, 32, 119, 111, 114], CharPos(6, 1), CharPos(9, 1), 0, []);
    var s1 := BState([119, 111, 114, 108], CharPos(0, 0), CharPos(4, 1), 1, [(0, [72, 101, 108, 108, 111])]);
    assert Run(cfg, s0, [[108]], [[[108]]], UnicodeSpace) == Run(cfg, s1, [], [], UnicodeSpace) by {
      assert [72, 101, 108, 108, 111, 32, 119, 111, 114] + [108] == [72, 101, 108, 108, 111, 32, 119, 111, 114, 108];
      assert [72, 101, 108, 108, 111, 32, 119, 111, 114, 108][..6] == [72, 101, 108, 108, 111, 32];
      assert [72, 101, 108, 108, 111, 32, 119, 111, 114, 108][6..] == [119, 111, 114, 108];
      assert TrimRight([72, 101, 108, 108, 111, 32]) == [72, 101, 108, 108, 111] by {
        TrimRightIs([72, 101, 108, 108, 111, 32], 5);
        assert [72, 101, 108, 108, 111, 32][..5] == [72, 101, 108, 108, 111];
      }
      assert Step(cfg, s0, [108], [[108]], UnicodeSpace) == Running(s1);
    }
  }

  lemma HelloTrimPart7()
    ensures Run(Config(10, false, false, true), BState([119, 111, 114, 108], CharPos(0, 0), CharPos(4, 1), 1, [(0, [72, 101, 108, 108, 111])]),
                [[100], [32]], [[[100]], [[32]]], UnicodeSpace)
            == Running(BState([119, 111, 114, 108, 100, 32], CharPos(6, 1), CharPos(6, 1), 1, [(0, [72, 101, 108, 108, 111])]))
  {
    var cfg := Config(10, false, false, true);
    var s0 := BState([119, 111, 114, 108], CharPos(0, 0), CharPos(4, 1), 1, [(0, [72, 101, 108, 108, 111])]);
    var s1 := BState([119, 111, 114, 108, 100], CharPos(0, 0), CharPos(5, 1), 1, [(0, [72, 101, 108, 108, 111])]);
    assert Run(cfg, s0, [[100], [32]], [[[100]], [[32]]], UnicodeSpace) == Run(cfg, s1, [[32]], [[[32]]], UnicodeSpace) by {
      assert [119, 111, 114, 108] + [100] == [119, 111, 114, 108, 100];
      assert Step(cfg, s0, [100], [[100]], UnicodeSpace) == Running(s1);
    }
    var s2 := BState([119, 111, 114, 108, 100, 32], CharPos(6, 1), CharPos(6, 1), 1, [(0, [72, 101, 108, 108, 111])]);
    assert Run(cfg, s1, [[32]], [[[32]]], UnicodeSpace) == Run(cfg, s2, [], [], UnicodeSpace) by {
      assert [119, 111, 114, 108, 100] + [32] == [119, 111, 114, 108, 100, 32];
      assert Step(cfg, s1, [32], [[32]], UnicodeSpace) == Running(s2);
    }
  }

  lemma HelloTrimPart8()
    ensures Run(Config(10, false, false, true), BState([119, 111, 114, 108, 100, 32], CharPos(6, 1), CharPos(6, 1), 1, [(0, [72, 101, 108, 108, 111])]),
                [[116], [104]], [[[116]], [[104]]], UnicodeSpace)
            == Running(BState([119, 111, 114, 108, 100, 32, 116, 104], CharPos(6, 1), CharPos(8, 1), 1, [(0, [72, 101, 108, 108, 111])]))
  {
    var cfg := Config(10, false, false, true);
    var s0 := BState([119, 111, 114, 108, 100, 32], CharPos(6, 1), CharPos(6, 1), 1, [(0, [72, 101, 108, 108, 111])]);
    var s1 := BState([119, 111, 114, 108, 100, 32, 116], CharPos(6, 1), CharPos(7, 1), 1, [(0, [72, 101, 108, 108, 111])]);
    assert Run(cfg, s0, [[116], [104]], [[[116]], [[104]]], UnicodeSpace) == Run(cfg, s1, [[104]], [[[104]]], UnicodeSpace) by {
      assert [119, 111, 114, 108, 100, 32] + [116] == [119, 111, 114, 108, 100, 32, 116];
      assert Step(cfg, s0, [116], [[116]], UnicodeSpace) == Running(s1);
    }
    var s2 := BState([119, 111, 114, 108, 100, 32, 116, 104], CharPos(6, 1), CharPos(8, 1), 1, [(0, [72, 101, 108, 108, 111])]);
    assert Run(cfg, s1, [[104]], [[[104]]], UnicodeSpace) == Run(cfg, s2, [], [], UnicodeSpace) by {
      assert [119, 111, 114, 108, 100, 32, 116] + [104] == [119, 111, 114, 108, 100, 32, 116, 104];
      assert Step(cfg, s1, [104], [[104]], UnicodeSpace) == Running(s2);
    }
  }

  lemma HelloTrimPart9()
    ensures Run(Config(10, false, false, true), BState([119, 111, 114, 108, 100, 32, 116, 104], CharPos(6, 1), CharPos(8, 1), 1, [(0, [72, 101, 108, 108, 111])]),
                [[105]], [[[105]]], UnicodeSpace)
            == Running(BState([119, 111, 114, 108, 100, 32, 116, 104, 105], CharPos(6, 1), CharPos(9, 1), 1, [(0, [72, 101, 108, 108, 111])]))
  {
    var cfg := Config(10, false, false, true);
    var s0 := BState([119, 111, 114, 108, 100, 32, 116, 104], CharPos(6, 1), CharPos(8, 1), 1, [(0, [72, 101, 108, 108, 111])]);
    var s1 := BState([119, 111, 114, 108, 100, 32, 116, 104, 105], CharPos(6, 1), CharPos(9, 1), 1, [(0, [72, 101, 108, 108, 111])]);
    assert Run(cfg, s0, [[105]], [[[105]]], UnicodeSpace) == Run(cfg, s1, [], [], UnicodeSpace) by {
      assert [119, 111, 114, 108, 100, 32, 116, 104] + [105] == [119, 111, 114, 108, 100, 32, 116, 104, 105];
      assert Step(cfg, s0, [105], [[105]], UnicodeSpace) == Running(s1);
    }
  }

  lemma HelloTrimPart10()
    ensures Run(Config(10, false, false, true), BState([119, 111, 114, 108, 100, 32, 116, 104, 105], CharPos(6, 1), CharPos(9, 1), 1, [(0, [72, 101, 108, 108, 111])]),
                [[115]], [[[115]]], UnicodeSpace)
            == Running(BState([116, 104, 105, 115], CharPos(0, 0), CharPos(4, 1), 2, [(0, [72, 101, 108, 108, 111]), (1, [119, 111, 114, 108, 100])]))
  {
    var cfg := Config(10, false, false, true);
    var s0 := BState([119, 111, 114, 108, 100, 32, 116, 104, 105], CharPos(6, 1), CharPos(9, 1), 1, [(0, [72, 101, 108, 108, 111])]);
    var s1 := BState([116, 104, 105, 115], CharPos(0, 0), CharPos(4, 1), 2, [(0, [72, 101, 108, 108, 111]), (1, [119, 111, 114, 108, 100])]);
    assert Run(cfg, s0, [[115]], [[[115]]], UnicodeSpace) == Run(cfg, s1, [], [], UnicodeSpace) by {
      assert [119, 111, 114, 108, 100, 32, 116, 104, 105] + [115] == [119, 111, 114, 108, 100, 32, 116, 104, 105, 115];
      assert [119, 111, 114, 108, 100, 32, 116, 104, 105, 115][..6] == [119, 111, 114, 108, 100, 32];
      assert [119, 111, 114, 108, 100, 32, 116, 104, 105, 115][6..] == [116, 104, 105, 115];
      assert TrimRight([119, 111, 114, 108, 100, 32]) == [119, 111, 114, 108, 100] by {
        TrimRightIs([119, 111, 114, 108, 100, 32], 5);
        assert [119, 111, 114, 108, 100, 32][..5] == [119, 111, 114, 108, 100];
      }
      assert Step(cfg, s0, [115], [[115]], UnicodeSpace) == Running(s1);
    }
  }

  lemma HelloTrimPart11()
    ensures Run(Config(10, false, false, true), BState([116, 104, 105, 115], CharPos(0, 0), CharPos(4, 1), 2, [(0, [72, 101, 108, 108, 111]), (1, [119, 111, 114, 108, 100])]),
                [[32], [105]], [[[32]], [[105]]], UnicodeSpace)
            == Running(BState([116, 104, 105, 115, 32, 105], CharPos(5, 1), CharPos(6, 1), 2, [(0, [72, 101, 108, 108, 111]), (1, [119, 111, 114, 108, 100])]))
  {
    var cfg := Config(10, false, false, true);
    var s0 := BState([116, 104, 105, 115], CharPos(0, 0), CharPos(4, 1), 2, [(0, [72, 101, 108, 108, 111]), (1, [119, 111, 114, 108, 100])]);
    var s1 := BState([116, 104, 105, 115, 32], CharPos(5, 1), CharPos(5, 1), 2, [(0, [72, 101, 108, 108, 111]), (1, [119, 111, 114, 108, 100])]);
    assert Run(cfg, s0, [[32], [105]], [[[32]], [[105]]], UnicodeSpace) == Run(cfg, s1, [[105]], [[[105]]], UnicodeSpace) by {
      assert [116, 104, 105, 115] + [32] == [116, 104, 105, 115, 32];
      assert Step(cfg, s0, [32], [[32]], UnicodeSpace) == Running(s1);
    }
    var s2 := BState([116, 104, 105, 115, 32, 105], CharPos(5, 1), CharPos(6, 1), 2, [(0, [72, 101, 108, 108, 111]), (1, [119, 111, 114, 108, 100])]);
    assert Run(cfg, s1, [[105]], [[[105]]], UnicodeSpace) == Run(cfg, s2, [], [], UnicodeSpace) by {
      assert [116, 104, 105, 115, 32] + [105] == [116, 104, 105, 115, 32, 105];
      assert Step(cfg, s1, [105], [[105]], UnicodeSpace) == Running(s2);
    }
  }

  lemma HelloTrimPart12()
    ensures Run(Config(10, false, false, true), BState([116, 104, 105, 115, 32, 105], CharPos(5, 1), CharPos(6, 1), 2, [(0, [72, 101, 108, 108, 111]), (1, [119, 111, 114, 108, 100])]),
                [[115], [32]], [[[115]], [[32]]], UnicodeSpace)
            == Running(BState([116, 104, 105, 115, 32, 105, 115, 32], CharPos(8, 1), CharPos(8, 1), 2, [(0, [72, 101, 108, 108, 111]), (1, [119, 111, 114, 108, 100])]))
  {
    var cfg := Config(10, false, false, true);
    var s0 := BState([116, 104, 105, 115, 32, 105], CharPos(5, 1), CharPos(6, 1), 2, [(0, [72, 101, 108, 108, 111]), (1, [119, 111, 114, 108, 100])]);
    var s1 := BState([116, 104, 105, 115, 32, 105, 115], CharPos(5, 1), CharPos(7, 1), 2, [(0, [72, 101, 108, 108, 111]), (1, [119, 111, 114, 108, 100])]);
    assert Run(cfg, s0, [[115], [32]], [[[115]], [[32]]], UnicodeSpace) == Run(cfg, s1, [[32]], [[[32]]], UnicodeSpace) by {
      assert [116, 104, 105, 115, 32, 105] + [115] == [116, 104, 105, 115, 32, 105, 115];
      assert Step(cfg, s0, [115], [[115]], UnicodeSpace) == Running(s1);
    }
    var s2 := BState([116, 104, 105, 115, 32, 105, 115, 32], CharPos(8, 1), CharPos(8, 1), 2, [(0, [72, 101, 108, 108, 111]), (1, [119, 111, 114, 108, 100])]);
    assert Run(cfg, s1, [[32]], [[[32]]], UnicodeSpace) == Run(cfg, s2, [], [], UnicodeSpace) by {
      assert [116, 104, 105, 115, 32, 105, 115] + [32] == [116, 104, 105, 115, 32, 105, 115, 32];
      assert Step(cfg, s1, [32], [[32]], UnicodeSpace) == Running(s2);
    }
  }

  lemma HelloTrimPart13()
    ensures Run(Config(10, false, false, true), BState([116, 104, 105, 115, 32, 105, 115, 32], CharPos(8, 1), CharPos(8, 1), 2, [(0, [72, 101, 108, 108, 111]), (1, [119, 111, 114, 108, 100])]),
                [[97]], [[[97]]], UnicodeSpace)
            == Running(BState([116, 104, 105, 115, 32, 105, 115, 32, 97], CharPos(8, 1), CharPos(9, 1), 2, [(0, [72, 101, 108, 108, 111]), (1, [119, 111, 114, 108, 100])]))
  {
    var cfg := Config(10, false, false, true);
    var s0 := BState([116, 104, 105, 115, 32, 105, 115, 32], CharPos(8, 1), CharPos(8, 1), 2, [(0, [72, 101, 108, 108, 111]), (1, [119, 111, 114, 108, 100])]);
    var s1 := BState([116, 104, 105, 115, 32, 105, 115, 32, 97], CharPos(8, 1), CharPos(9, 1), 2, [(0, [72, 101, 108, 108, 111]), (1, [119, 111, 114, 108, 100])]);
    assert Run(cfg, s0, [[97]], [[[97]]], UnicodeSpace) == Run(cfg, s1, [], [], UnicodeSpace) by {
      assert [116, 104, 105, 115, 32, 105, 115, 32] + [97] == [116, 104, 105, 115, 32, 105, 115, 32, 97];
      assert Step(cfg, s0, [97], [[97]], UnicodeSpace) == Running(s1);
    }
  }

  lemma HelloTrimPart14()
    ensures Run(Config(10, false, false, true), BState([116, 104, 105, 115, 32, 105, 115, 32, 97], CharPos(8, 1), CharPos(9, 1), 2, [(0, [72, 101, 108, 108, 111]), (1, [119, 111, 114, 108, 100])]),
                [[32]], [[[32]]], UnicodeSpace)
            == Running(BState([], CharPos(0, 0), CharPos(0, 1), 3, [(0, [72, 101, 108, 108, 111]), (1, [119, 111, 114, 108, 100]), (2, [116, 104, 105, 115, 32, 105, 115, 32, 97])]))
  {
    var cfg := Config(10, false, false, true);
    var s0 := BState([116, 104, 105, 115, 32, 105, 115, 32, 97], CharPos(8, 1), CharPos(9, 1), 2, [(0, [72, 101, 108, 108, 111]), (1, [119, 111, 114, 108, 100])]);
    var s1 := BState([], CharPos(0, 0), CharPos(0, 1), 3, [(0, [72, 101, 108, 108, 111]), (1, [119, 111, 114, 108, 100]), (2, [116, 104, 105, 115, 32, 105, 115, 32, 97])]);
    assert Run(cfg, s0, [[32]], [[[32]]], UnicodeSpace) == Run(cfg, s1, [], [], UnicodeSpace) by {
      assert [116, 104, 105, 115, 32, 105, 115, 32, 97] + [32] == [116, 104, 105, 115, 32, 105, 115, 32, 97, 32];
      assert [116, 104, 105, 115, 32, 105, 115, 32, 97, 32][..10] == [116, 104, 105, 115, 32, 105, 115, 32, 97, 32];
      assert [116, 104, 105, 115, 32, 105, 115, 32, 97, 32][10..] == [];
      assert TrimRight([116, 104, 105, 115, 32, 105, 115, 32, 97, 32]) == [116, 104, 105, 115, 32, 105, 115, 32, 97] by {
        TrimRightIs([116, 104, 105, 115, 32, 105, 115, 32, 97, 32], 9);
        assert [116, 104, 105, 115, 32, 105, 115, 32, 97, 32][..9] == [116, 104, 105, 115, 32, 105, 115, 32, 97];
      }
      assert Step(cfg, s0, [32], [[32]], UnicodeSpace) == Running(s1);
    }
  }

  lemma HelloTrimPart15()
    ensures Run(Config(10, false, false, true), BState([], CharPos(0, 0), CharPos(0, 1), 3, [(0, [72, 101, 108, 108, 111]), (1, [119, 111, 114, 108, 100]), (2, [116, 104, 105, 115, 32, 105, 115, 32, 97])]),
                [[116], [101]], [[[116]], [[101]]], UnicodeSpace)
            == Running(BState([116, 101], CharPos(0, 0), CharPos(2, 1), 3, [(0, [72, 101, 108, 108, 111]), (1, [119, 111, 114, 108, 100]), (2, [116, 104, 105, 115, 32, 105, 115, 32, 97])]))
  {
    var cfg := Config(10, false, false, true);
    var s0 := BState([], CharPos(0, 0), CharPos(0, 1), 3, [(0, [72, 101, 108, 108, 111]), (1, [119, 111, 114, 108, 100]), (2, [116, 104, 105, 115, 32, 105, 115, 32, 97])]);
    var s1 := BState([116], CharPos(0, 0), CharPos(1, 1), 3, [(0, [72, 101, 108, 108, 111]), (1, [119, 111, 114, 108, 100]), (2, [116, 104, 105, 115, 32, 105, 115, 32, 97])]);
    assert Run(cfg, s0, [[116], [101]], [[[116]], [[101]]], UnicodeSpace) == Run(cfg, s1, [[101]], [[[101]]], UnicodeSpace) by {
      assert [] + [116] == [116];
      assert Step(cfg, s0, [116], [[116]], UnicodeSpace) == Running(s1);
    }
    var s2 := BState([116, 101], CharPos(0, 0), CharPos(2, 1), 3, [(0, [72, 101, 108, 108, 111]), (1, [119, 111, 114, 108, 100]), (2, [116, 104, 105, 115, 32, 105, 115, 32, 97])]);
    assert Run(cfg, s1, [[101]], [[[101]]], UnicodeSpace) == Run(cfg, s2, [], [], UnicodeSpace) by {
      assert [116] + [101] == [116, 101];
      assert Step(cfg, s1, [101], [[101]], UnicodeSpace) == Running(s2);
    }
  }

  lemma HelloTrimPart16()
    ensures Run(Config(10, false, false, true), BState([116, 101], CharPos(0, 0), CharPos(2, 1), 3, [(0, [72, 101, 108, 108, 111]), (1, [119, 111, 114, 108, 100]), (2, [116, 104, 105, 115, 32, 105, 115, 32, 97])]),
                [[115], [116]], [[[115]], [[116]]], UnicodeSpace)
            == Running(BState([116, 101, 115, 116], CharPos(0, 0), CharPos(4, 1), 3, [(0, [72, 101, 108, 108, 111]), (1, [119, 111, 114, 108, 100]), (2, [116, 104, 105, 115, 32, 105, 115, 32, 97])]))
  {
    var cfg := Config(10, false, false, true);
    var s0 := BState([116, 101], CharPos(0, 0), CharPos(2, 1), 3, [(0, [72, 101, 108, 108, 111]), (1, [119, 111, 114, 108, 100]), (2, [116, 104, 105, 115, 32, 105, 115, 32, 97])]);
    var s1 := BState([116, 101, 115], CharPos(0, 0), CharPos(3, 1), 3, [(0, [72, 101, 108, 108, 111]), (1, [119, 111, 114, 108, 100]), (2, [116, 104, 105, 115, 32, 105, 115, 32, 97])]);
    assert Run(cfg, s0, [[115], [116]], [[[115]], [[116]]], UnicodeSpace) == Run(cfg, s1, [[116]], [[[116]]], UnicodeSpace) by {
      assert [116, 101] + [115] == [116, 101, 115];
      assert Step(cfg, s0, [115], [[115]], UnicodeSpace) == Running(s1);
    }
    var s2 := BState([116, 101, 115, 116], CharPos(0, 0), CharPos(4, 1), 3, [(0, [72, 101, 108, 108, 111]), (1, [119, 111, 114, 108, 100]), (2, [116, 104, 105, 115, 32, 105, 115, 32, 97])]);
    assert Run(cfg, s1, [[116]], [[[116]]], UnicodeSpace) == Run(cfg, s2, [], [], UnicodeSpace) by {
      assert [116, 101, 115] + [116] == [116, 101, 115, 116];
      assert Step(cfg, s1, [116], [[116]], UnicodeSpace) == Running(s2);
    }
  }

  /** Split's cluster loop over Hello with Config(10, false, false, true). */
  lemma HelloTrimScan()
    ensures Scan(Config(10, false, false, true), Hello, HelloRunes, UnicodeSpace)
            == Running(BState([116, 101, 115, 116], CharPos(0, 0), CharPos(4, 1), 3, [(0, [72, 101, 108, 108, 111]), (1, [119, 111, 114, 108, 100]), (2, [116, 104, 105, 115, 32, 105, 115, 32, 97])]))
  {
    var cfg := Config(10, false, false, true);
    ScanIsRun(cfg, Hello, HelloRunes, UnicodeSpace);
    HelloTrimPart1();
    RunAppend(cfg, BState([], CharPos(0, 0), CharPos(0, 0), 0, []), [[72], [101]], [[[72]], [[101]]],
              [[108], [108]] + ([[111], [32]] + ([[119], [111]] + ([[114]] + ([[108]] + ([[100], [32]] + ([[116], [104]] + ([[105]] + ([[115]] + ([[32], [105]] + ([[115], [32]] + ([[97]] + ([[32]] + ([[116], [101]] + ([[115], [116]])))))))))))))),
              [[[108]], [[108]]] + ([[[111]], [[32]]] + ([[[119]], [[111]]] + ([[[114]]] + ([[[108]]] + ([[[100]], [[32]]] + ([[[116]], [[104]]] + ([[[105]]] + ([[[115]]] + ([[[32]], [[105]]] + ([[[115]], [[32]]] + ([[[97]]] + ([[[32]]] + ([[[116]], [[101]]] + ([[[115]], [[116]]])))))))))))))), UnicodeSpace);
    HelloTrimPart2();
    RunAppend(cfg, BState([72, 101], CharPos(0, 0), CharPos(2, 1), 0, []), [[108], [108]], [[[108]], [[108]]],
              [[111], [32]] + ([[119], [111]] + ([[114]] + ([[108]] + ([[100], [32]] + ([[116], [104]] + ([[105]] + ([[115]] + ([[32], [105]] + ([[115], [32]] + ([[97]] + ([[32]] + ([[116], [101]] + ([[115], [116]]))))))))))))),
              [[[111]], [[32]]] + ([[[119]], [[111]]] + ([[[114]]] + ([[[108]]] + ([[[100]], [[32]]] + ([[[116]], [[104]]] + ([[[105]]] + ([[[115]]] + ([[[32]], [[105]]] + ([[[115]], [[32]]] + ([[[97]]] + ([[[32]]] + ([[[116]], [[101]]] + ([[[115]], [[116]]]))))))))))))), UnicodeSpace);
    HelloTrimPart3();
    RunAppend(cfg, BState([72, 101, 108, 108], CharPos(0, 0), CharPos(4, 1), 0, []), [[111], [32]], [[[111]], [[32]]],
              [[119], [111]] + ([[114]] + ([[108]] + ([[100], [32]] + ([[116], [104]] + ([[105]] + ([[115]] + ([[32], [105]] + ([[115], [32]] + ([[97]] + ([[32]] + ([[116], [101]] + ([[115], [116]])))))))))))),
              [[[119]], [[111]]] + ([[[114]]] + ([[[108]]] + ([[[100]], [[32]]] + ([[[116]], [[104]]] + ([[[105]]] + ([[[115]]] + ([[[32]], [[105]]] + ([[[115]], [[32]]] + ([[[97]]] + ([[[32]]] + ([[[116]], [[101]]] + ([[[115]], [[116]]])))))))))))), UnicodeSpace);
    HelloTrimPart4();
    RunAppend(cfg, BState([72, 101, 108, 108, 111, 32], CharPos(6, 1), CharPos(6, 1), 0, []), [[119], [111]], [[[119]], [[111]]],
              [[114]] + ([[108]] + ([[100], [32]] + ([[116], [104]] + ([[105]] + ([[115]] + ([[32], [105]] + ([[115], [32]] + ([[97]] + ([[32]] + ([[116], [101]] + ([[115], [116]]))))))))))),
              [[[114]]] + ([[[108]]] + ([[[100]], [[32]]] + ([[[116]], [[104]]] + ([[[105]]] + ([[[115]]] + ([[[32]], [[105]]] + ([[[115]], [[32]]] + ([[[97]]] + ([[[32]]] + ([[[116]], [[101]]] + ([[[115]], [[116]]]))))))))))), UnicodeSpace);
    HelloTrimPart5();
    RunAppend(cfg, BState([72, 101, 108, 108, 111, 32, 119, 111], CharPos(6, 1), CharPos(8, 1), 0, []), [[114]], [[[114]]],
              [[108]] + ([[100], [32]] + ([[116], [104]] + ([[105]] + ([[115]] + ([[32], [105]] + ([[115], [32]] + ([[97]] + ([[32]] + ([[116], [101]] + ([[115], [116]])))))))))),
              [[[108]]] + ([[[100]], [[32]]] + ([[[116]], [[104]]] + ([[[105]]] + ([[[115]]] + ([[[32]], [[105]]] + ([[[115]], [[32]]] + ([[[97]]] + ([[[32]]] + ([[[116]], [[101]]] + ([[[115]], [[116]]])))))))))), UnicodeSpace);
    HelloTrimPart6();
    RunAppend(cfg, BState([72, 101, 108, 108, 111, 32, 119, 111, 114], CharPos(6, 1), CharPos(9, 1), 0, []), [[108]], [[[108]]],
              [[100], [32]] + ([[116], [104]] + ([[105]] + ([[115]] + ([[32], [105]] + ([[115], [32]] + ([[97]] + ([[32]] + ([[116], [101]] + ([[115], [116]]))))))))),
              [[[100]], [[32]]] + ([[[116]], [[104]]] + ([[[105]]] + ([[[115]]] + ([[[32]], [[105]]] + ([[[115]], [[32]]] + ([[[97]]] + ([[[32]]] + ([[[116]], [[101]]] + ([[[115]], [[116]]]))))))))), UnicodeSpace);
    HelloTrimPart7();
    RunAppend(cfg, BState([119, 111, 114, 108], CharPos(0, 0), CharPos(4, 1), 1, [(0, [72, 101, 108, 108, 111])]), [[100], [32]], [[[100]], [[32]]],
              [[116], [104]] + ([[105]] + ([[115]] + ([[32], [105]] + ([[115], [32]] + ([[97]] + ([[32]] + ([[116], [101]] + ([[115], [116]])))))))),
              [[[116]], [[104]]] + ([[[105]]] + ([[[115]]] + ([[[32]], [[105]]] + ([[[115]], [[32]]] + ([[[97]]] + ([[[32]]] + ([[[116]], [[101]]] + ([[[115]], [[116]]])))))))), UnicodeSpace);
    HelloTrimPart8();
    RunAppend(cfg, BState([119, 111, 114, 108, 100, 32], CharPos(6, 1), CharPos(6, 1), 1, [(0, [72, 101, 108, 108, 111])]), [[116], [104]], [[[116]], [[104]]],
              [[105]] + ([[115]] + ([[32], [105]] + ([[115], [32]] + ([[97]] + ([[32]] + ([[116], [101]] + ([[115], [116]]))))))),
              [[[105]]] + ([[[115]]] + ([[[32]], [[105]]] + ([[[115]], [[32]]] + ([[[97]]] + ([[[32]]] + ([[[116]], [[101]]] + ([[[115]], [[116]]]))))))), UnicodeSpace);
    HelloTrimPart9();
    RunAppend(cfg, BState([119, 111, 114, 108, 100, 32, 116, 104], CharPos(6, 1), CharPos(8, 1), 1, [(0, [72, 101, 108, 108, 111])]), [[105]], [[[105]]],
              [[115]] + ([[32], [105]] + ([[115], [32]] + ([[97]] + ([[32]] + ([[116], [101]] + ([[115], [116]])))))),
              [[[115]]] + ([[[32]], [[105]]] + ([[[115]], [[32]]] + ([[[97]]] + ([[[32]]] + ([[[116]], [[101]]] + ([[[115]], [[116]]])))))), UnicodeSpace);
    HelloTrimPart10();
    RunAppend(cfg, BState([119, 111, 114, 108, 100, 32, 116, 104, 105], CharPos(6, 1), CharPos(9, 1), 1, [(0, [72, 101, 108, 108, 111])]), [[115]], [[[115]]],
              [[32], [105]] + ([[115], [32]] + ([[97]] + ([[32]] + ([[116], [101]] + ([[115], [116]]))))),
              [[[32]], [[105]]] + ([[[115]], [[32]]] + ([[[97]]] + ([[[32]]] + ([[[116]], [[101]]] + ([[[115]], [[116]]]))))), UnicodeSpace);
    HelloTrimPart11();
    RunAppend(cfg, BState([116, 104, 105, 115], CharPos(0, 0), CharPos(4, 1), 2, [(0, [72, 101, 108, 108, 111]), (1, [119, 111, 114, 108, 100])]), [[32], [105]], [[[32]], [[105]]],
              [[115], [32]] + ([[97]] + ([[32]] + ([[116], [101]] + ([[115], [116]])))),
              [[[115]], [[32]]] + ([[[97]]] + ([[[32]]] + ([[[116]], [[101]]] + ([[[115]], [[116]]])))), UnicodeSpace);
    HelloTrimPart12();
    RunAppend(cfg, BState([116, 104, 105, 115, 32, 105], CharPos(5, 1), CharPos(6, 1), 2, [(0, [72, 101, 108, 108, 111]), (1, [119, 111, 114, 108, 100])]), [[115], [32]], [[[115]], [[32]]],
              [[97]] + ([[32]] + ([[116], [101]] + ([[115], [116]]))),
              [[[97]]] + ([[[32]]] + ([[[116]], [[101]]] + ([[[115]], [[116]]]))), UnicodeSpace);
    HelloTrimPart13();
    RunAppend(cfg, BState([116, 104, 105, 115, 32, 105, 115, 32], CharPos(8, 1), CharPos(8, 1), 2, [(0, [72, 101, 108, 108, 111]), (1, [119, 111, 114, 108, 100])]), [[97]], [[[97]]],
              [[32]] + ([[116], [101]] + ([[115], [116]])),
              [[[32]]] + ([[[116]], [[101]]] + ([[[115]], [[116]]])), UnicodeSpace);
    HelloTrimPart14();
    RunAppend(cfg, BState([116, 104, 105, 115, 32, 105, 115, 32, 97], CharPos(8, 1), CharPos(9, 1), 2, [(0, [72, 101, 108, 108, 111]), (1, [119, 111, 114, 108, 100])]), [[32]], [[[32]]],
              [[116], [101]] + ([[115], [116]]),
              [[[116]], [[101]]] + ([[[115]], [[116]]]), UnicodeSpace);
    HelloTrimPart15();
    RunAppend(cfg, BState([], CharPos(0, 0), CharPos(0, 1), 3, [(0, [72, 101, 108, 108, 111]), (1, [119, 111, 114, 108, 100]), (2, [116, 104, 105, 115, 32, 105, 115, 32, 97])]), [[116], [101]], [[[116]], [[101]]],
              [[115], [116]],
              [[[115]], [[116]]], UnicodeSpace);
    HelloTrimPart16();
  }

  /** TestSplitBuilder_TrimTrailingWhiteSpace: the same lines with their trailing spaces trimmed. */
  lemma TrimmedLines()
    ensures SplitPairs(Configure(10, [TrimTrailingWhiteSpace(true)]), Hello, HelloRunes, UnicodeSpace)
            == [(0, [72, 101, 108, 108, 111]), (1, [119, 111, 114, 108, 100]), (2, [116, 104, 105, 115, 32, 105, 115, 32, 97]), (3, [116, 101, 115, 116])]
  {
    assert Configure(10, [TrimTrailingWhiteSpace(true)]) == Config(10, false, false, true);
    HelloTrimScan();
    assert TrimRight([116, 101, 115, 116]) == [116, 101, 115, 116] by {
      TrimRightIs([116, 101, 115, 116], 4);
      assert [116, 101, 115, 116][..4] == [116, 101, 115, 116];
    }
    assert [(0, [72, 101, 108, 108, 111]), (1, [119, 111, 114, 108, 100]), (2, [116, 104, 105, 115, 32, 105, 115, 32, 97])] + [(3, [116, 101, 115, 116])] == [(0, [72, 101, 108, 108, 111]), (1, [119, 111, 114, 108, 100]), (2, [116, 104, 105, 115, 32, 105, 115, 32, 97]), (3, [116, 101, 115, 116])];
  }

  /** "test   more   data", one cluster (and one rune) per byte. */
  const Spaced: seq<seq<byte>> :=
    [[116], [101]]
    + ([[115], [116]]
    + ([[32], [32]]
    + ([[32], [109]]
    + ([[111]]
    + ([[114]]
    + ([[101], [32]]
    + ([[32], [32]]
    + ([[100], [97]]
    + ([[116]]
    + ([[97]]))))))))))
  const SpacedRunes: seq<seq<seq<byte>>> :=
    [[[116]], [[101]]]
    + ([[[115]], [[116]]]
    + ([[[32]], [[32]]]
    + ([[[32]], [[109]]]
    + ([[[111]]]
    + ([[[114]]]
    + ([[[101]], [[32]]]
    + ([[[32]], [[32]]]
    + ([[[100]], [[97]]]
    + ([[[116]]]
    + ([[[97]]]))))))))))

  lemma SpacedPart1()
    ensures Run(Config(10, false, false, true), BState([], CharPos(0, 0), CharPos(0, 0), 0, []),
                [[116], [101]], [[[116]], [[101]]], UnicodeSpace)
            == Running(BState([116, 101], CharPos(0, 0), CharPos(2, 1), 0, []))
  {
    var cfg := Config(10, false, false, true);
    var s0 := BState([], CharPos(0, 0), CharPos(0, 0), 0, []);
    var s1 := BState([116], CharPos(0, 0), CharPos(1, 1), 0, []);
    assert Run(cfg, s0, [[116], [101]], [[[116]], [[101]]], UnicodeSpace) == Run(cfg, s1, [[101]], [[[101]]], UnicodeSpace) by {
      assert [] + [116] == [116];
      assert Step(cfg, s0, [116], [[116]], UnicodeSpace) == Running(s1);
    }
    var s2 := BState([116, 101], CharPos(0, 0), CharPos(2, 1), 0, []);
    assert Run(cfg, s1, [[101]], [[[101]]], UnicodeSpace) == Run(cfg, s2, [], [], UnicodeSpace) by {
      assert [116] + [101] == [116, 101];
      assert Step(cfg, s1, [101], [[101]], UnicodeSpace) == Running(s2);
    }
  }

  lemma SpacedPart2()
    ensures Run(Config(10, false, false, true), BState([116, 101], CharPos(0, 0), CharPos(2, 1), 0, []),
                [[115], [116]], [[[115]], [[116]]], UnicodeSpace)
            == Running(BState([116, 101, 115, 116], CharPos(0, 0), CharPos(4, 1), 0, []))
  {
    var cfg := Config(10, false, false, true);
    var s0 := BState([116, 101], CharPos(0, 0), CharPos(2, 1), 0, []);
    var s1 := BState([116, 101, 115], CharPos(0, 0), CharPos(3, 1), 0, []);
    assert Run(cfg, s0, [[115], [116]], [[[115]], [[116]]], UnicodeSpace) == Run(cfg, s1, [[116]], [[[116]]], UnicodeSpace) by {
      assert [116, 101] + [115] == [116, 101, 115];
      assert Step(cfg, s0, [115], [[115]], UnicodeSpace) == Running(s1);
    }
    var s2 := BState([116, 101, 115, 116], CharPos(0, 0), CharPos(4, 1), 0, []);
    assert Run(cfg, s1, [[116]], [[[116]]], UnicodeSpace) == Run(cfg, s2, [], [], UnicodeSpace) by {
      assert [116, 101, 115] + [116] == [116, 101, 115, 116];
      assert Step(cfg, s1, [116], [[116]], UnicodeSpace) == Running(s2);
    }
  }

  lemma SpacedPart3()
    ensures Run(Config(10, false, false, true), BState([116, 101, 115, 116], CharPos(0, 0), CharPos(4, 1), 0, []),
                [[32], [32]], [[[32]], [[32]]], UnicodeSpace)
            == Running(BState([116, 101, 115, 116, 32, 32], CharPos(6, 1), CharPos(6, 1), 0, []))
  {
    var cfg := Config(10, false, false, true);
    var s0 := BState([116, 101, 115, 116], CharPos(0, 0), CharPos(4, 1), 0, []);
    var s1 := BState([116, 101, 115, 116, 32], CharPos(5, 1), CharPos(5, 1), 0, []);
    assert Run(cfg, s0, [[32], [32]], [[[32]], [[32]]], UnicodeSpace) == Run(cfg, s1, [[32]], [[[32]]], UnicodeSpace) by {
      assert [116, 101, 115, 116] + [32] == [116, 101, 115, 116, 32];
      assert Step(cfg, s0, [32], [[32]], UnicodeSpace) == Running(s1);
    }
    var s2 := BState([116, 101, 115, 116, 32, 32], CharPos(6, 1), CharPos(6, 1), 0, []);
    assert Run(cfg, s1, [[32]], [[[32]]], UnicodeSpace) == Run(cfg, s2, [], [], UnicodeSpace) by {
      assert [116, 101, 115, 116, 32] + [32] == [116, 101, 115, 116, 32, 32];
      assert Step(cfg, s1, [32], [[32]], UnicodeSpace) == Running(s2);
    }
  }

  lemma SpacedPart4()
    ensures Run(Config(10, false, false, true), BState([116, 101, 115, 116, 32, 32], CharPos(6, 1), CharPos(6, 1), 0, []),
                [[32], [109]], [[[32]], [[109]]], UnicodeSpace)
            == Running(BState([116, 101, 115, 116, 32, 32, 32, 109], CharPos(7, 1), CharPos(8, 1), 0, []))
  {
    var cfg := Config(10, false, false, true);
    var s0 := BState([116, 101, 115, 116, 32, 32], CharPos(6, 1), CharPos(6, 1), 0, []);
    var s1 := BState([116, 101, 115, 116, 32, 32, 32], CharPos(7, 1), CharPos(7, 1), 0, []);
    assert Run(cfg, s0, [[32], [109]], [[[32]], [[109]]], UnicodeSpace) == Run(cfg, s1, [[109]], [[[109]]], UnicodeSpace) by {
      assert [116, 101, 115, 116, 32, 32] + [32] == [116, 101, 115, 116, 32, 32, 32];
      assert Step(cfg, s0, [32], [[32]], UnicodeSpace) == Running(s1);
    }
    var s2 := BState([116, 101, 115, 116, 32, 32, 32, 109], CharPos(7, 1), CharPos(8, 1), 0, []);
    assert Run(cfg, s1, [[109]], [[[109]]], UnicodeSpace) == Run(cfg, s2, [], [], UnicodeSpace) by {
      assert [116, 101, 115, 116, 32, 32, 32] + [109] == [116, 101, 115, 116, 32, 32, 32, 109];
      assert Step(cfg, s1, [109], [[109]], UnicodeSpace) == Running(s2);
    }
  }

  lemma SpacedPart5()
    ensures Run(Config(10, false, false, true), BState([116, 101, 115, 116, 32, 32, 32, 109], CharPos(7, 1), CharPos(8, 1), 0, []),
                [[111]], [[[111]]], UnicodeSpace)
            == Running(BState([116, 101, 115, 116, 32, 32, 32, 109, 111], CharPos(7, 1), CharPos(9, 1), 0, []))
  {
    var cfg := Config(10, false, false, true);
    var s0 := BState([116, 101, 115, 116, 32, 32, 32, 109], CharPos(7, 1), CharPos(8, 1), 0, []);
    var s1 := BState([116, 101, 115, 116, 32, 32, 32, 109, 111], CharPos(7, 1), CharPos(9, 1), 0, []);
    assert Run(cfg, s0, [[111]], [[[111]]], UnicodeSpace) == Run(cfg, s1, [], [], UnicodeSpace) by {
      assert [116, 101, 115, 116, 32, 32, 32, 109] + [111] == [116, 101, 115, 116, 32, 32, 32, 109, 111];
      assert Step(cfg, s0, [111], [[111]], UnicodeSpace) == Running(s1);
    }
  }

  lemma SpacedPart6()
    ensures Run(Config(10, false, false, true), BState([116, 101, 115, 116, 32, 32, 32, 109, 111], CharPos(7, 1), CharPos(9, 1), 0, []),
                [[114]], [[[114]]], UnicodeSpace)
            == Running(BState([109, 111, 114], CharPos(0, 0), CharPos(3, 1), 1, [(0, [116, 101, 115, 116])]))
  {
    var cfg := Config(10, false, false, true);
    var s0 := BState([116, 101, 115, 116, 32, 32, 32, 109, 111], CharPos(7, 1), CharPos(9, 1), 0, []);
    var s1 := BState([109, 111, 114], CharPos(0, 0), CharPos(3, 1), 1, [(0, [116, 101, 115, 116])]);
    assert Run(cfg, s0, [[114]], [[[114]]], UnicodeSpace) == Run(cfg, s1, [], [], UnicodeSpace) by {
      assert [116, 101, 115, 116, 32, 32, 32, 109, 111] + [114] == [116, 101, 115, 116, 32, 32, 32, 109, 111, 114];
      assert [116, 101, 115, 116, 32, 32, 32, 109, 111, 114][..7] == [116, 101, 115, 116, 32, 32, 32];
      assert [116, 101, 115, 116, 32, 32, 32, 109, 111, 114][7..] == [109, 111, 114];
      assert TrimRight([116, 101, 115, 116, 32, 32, 32]) == [116, 101, 115, 116] by {
        TrimRightIs([116, 101, 115, 116, 32, 32, 32], 4);
        assert [116, 101, 115, 116, 32, 32, 32][..4] == [116, 101, 115, 116];
      }
      assert Step(cfg, s0, [114], [[114]], UnicodeSpace) == Running(s1);
    }
  }

  lemma SpacedPart7()
    ensures Run(Config(10, false, false, true), BState([109, 111, 114], CharPos(0, 0), CharPos(3, 1), 1, [(0, [116, 101, 115, 116])]),
                [[101], [32]], [[[101]], [[32]]], UnicodeSpace)
            == Running(BState([109, 111, 114, 101, 32], CharPos(5, 1), CharPos(5, 1), 1, [(0, [116, 101, 115, 116])]))
  {
    var cfg := Config(10, false, false, true);
    var s0 := BState([109, 111, 114], CharPos(0, 0), CharPos(3, 1), 1, [(0, [116, 101, 115, 116])]);
    var s1 := BState([109, 111, 114, 101], CharPos(0, 0), CharPos(4, 1), 1, [(0, [116, 101, 115, 116])]);
    assert Run(cfg, s0, [[101], [32]], [[[101]], [[32]]], UnicodeSpace) == Run(cfg, s1, [[32]], [[[32]]], UnicodeSpace) by {
      assert [109, 111, 114] + [101] == [109, 111, 114, 101];
      assert Step(cfg, s0, [101], [[101]], UnicodeSpace) == Running(s1);
    }
    var s2 := BState([109, 111, 114, 101, 32], CharPos(5, 1), CharPos(5, 1), 1, [(0, [116, 101, 115, 116])]);
    assert Run(cfg, s1, [[32]], [[[32]]], UnicodeSpace) == Run(cfg, s2, [], [], UnicodeSpace) by {
      assert [109, 111, 114, 101] + [32] == [109, 111, 114, 101, 32];
      assert Step(cfg, s1, [32], [[32]], UnicodeSpace) == Running(s2);
    }
  }

  lemma SpacedPart8()
    ensures Run(Config(10, false, false, true), BState([109, 111, 114, 101, 32], CharPos(5, 1), CharPos(5, 1), 1, [(0, [116, 101, 115, 116])]),
                [[32], [32]], [[[32]], [[32]]], UnicodeSpace)
            == Running(BState([109, 111, 114, 101, 32, 32, 32], CharPos(7, 1), CharPos(7, 1), 1, [(0, [116, 101, 115, 116])]))
  {
    var cfg := Config(10, false, false, true);
    var s0 := BState([109, 111, 114, 101, 32], CharPos(5, 1), CharPos(5, 1), 1, [(0, [116, 101, 115, 116])]);
    var s1 := BState([109, 111, 114, 101, 32, 32], CharPos(6, 1), CharPos(6, 1), 1, [(0, [116, 101, 115, 116])]);
    assert Run(cfg, s0, [[32], [32]], [[[32]], [[32]]], UnicodeSpace) == Run(cfg, s1, [[32]], [[[32]]], UnicodeSpace) by {
      assert [109, 111, 114, 101, 32] + [32] == [109, 111, 114, 101, 32, 32];
      assert Step(cfg, s0, [32], [[32]], UnicodeSpace) == Running(s1);
    }
    var s2 := BState([109, 111, 114, 101, 32, 32, 32], CharPos(7, 1), CharPos(7, 1), 1, [(0, [116, 101, 115, 116])]);
    assert Run(cfg, s1, [[32]], [[[32]]], UnicodeSpace) == Run(cfg, s2, [], [], UnicodeSpace) by {
      assert [109, 111, 114, 101, 32, 32] + [32] == [109, 111, 114, 101, 32, 32, 32];
      assert Step(cfg, s1, [32], [[32]], UnicodeSpace) == Running(s2);
    }
  }

  lemma SpacedPart9()
    ensures Run(Config(10, false, false, true), BState([109, 111, 114, 101, 32, 32, 32], CharPos(7, 1), CharPos(7, 1), 1, [(0, [116, 101, 115, 116])]),
                [[100], [97]], [[[100]], [[97]]], UnicodeSpace)
            == Running(BState([109, 111, 114, 101, 32, 32, 32, 100, 97], CharPos(7, 1), CharPos(9, 1), 1, [(0, [116, 101, 115, 116])]))
  {
    var cfg := Config(10, false, false, true);
    var s0 := BState([109, 111, 114, 101, 32, 32, 32], CharPos(7, 1), CharPos(7, 1), 1, [(0, [116, 101, 115, 116])]);
    var s1 := BState([109, 111, 114, 101, 32, 32, 32, 100], CharPos(7, 1), CharPos(8, 1), 1, [(0, [116, 101, 115, 116])]);
    assert Run(cfg, s0, [[100], [97]], [[[100]], [[97]]], UnicodeSpace) == Run(cfg, s1, [[97]], [[[97]]], UnicodeSpace) by {
      assert [109, 111, 114, 101, 32, 32, 32] + [100] == [109, 111, 114, 101, 32, 32, 32, 100];
      assert Step(cfg, s0, [100], [[100]], UnicodeSpace) == Running(s1);
    }
    var s2 := BState([109, 111, 114, 101, 32, 32, 32, 100, 97], CharPos(7, 1), CharPos(9, 1), 1, [(0, [116, 101, 115, 116])]);
    assert Run(cfg, s1, [[97]], [[[97]]], UnicodeSpace) == Run(cfg, s2, [], [], UnicodeSpace) by {
      assert [109, 111, 114, 101, 32, 32, 32, 100] + [97] == [109, 111, 114, 101, 32, 32, 32, 100, 97];
      assert Step(cfg, s1, [97], [[97]], UnicodeSpace) == Running(s2);
    }
  }

  lemma SpacedPart10()
    ensures Run(Config(10, false, false, true), BState([109, 111, 114, 101, 32, 32, 32, 100, 97], CharPos(7, 1), CharPos(9, 1), 1, [(0, [116, 101, 115, 116])]),
                [[116]], [[[116]]], UnicodeSpace)
            == Running(BState([100, 97, 116], CharPos(0, 0), CharPos(3, 1), 2, [(0, [116, 101, 115, 116]), (1, [109, 111, 114, 101])]))
  {
    var cfg := Config(10, false, false, true);
    var s0 := BState([109, 111, 114, 101, 32, 32, 32, 100, 97], CharPos(7, 1), CharPos(9, 1), 1, [(0, [116, 101, 115, 116])]);
    var s1 := BState([100, 97, 116], CharPos(0, 0), CharPos(3, 1), 2, [(0, [116, 101, 115, 116]), (1, [109, 111, 114, 101])]);
    assert Run(cfg, s0, [[116]], [[[116]]], UnicodeSpace) == Run(cfg, s1, [], [], UnicodeSpace) by {
      assert [109, 111, 114, 101, 32, 32, 32, 100, 97] + [116] == [109, 111, 114, 101, 32, 32, 32, 100, 97, 116];
      assert [109, 111, 114, 101, 32, 32, 32, 100, 97, 116][..7] == [109, 111, 114, 101, 32, 32, 32];
      assert [109, 111, 114, 101, 32, 32, 32, 100, 97, 116][7..] == [100, 97, 116];
      assert TrimRight([109, 111, 114, 101, 32, 32, 32]) == [109, 111, 114, 101] by {
        TrimRightIs([109, 111, 114, 101, 32, 32, 32], 4);
        assert [109, 111, 114, 101, 32, 32, 32][..4] == [109, 111, 114, 101];
      }
      assert Step(cfg, s0, [116], [[116]], UnicodeSpace) == Running(s1);
    }
  }

  lemma SpacedPart11()
    ensures Run(Config(10, false, false, true), BState([100, 97, 116], CharPos(0, 0), CharPos(3, 1), 2, [(0, [116, 101, 115, 116]), (1, [109, 111, 114, 101])]),
                [[97]], [[[97]]], UnicodeSpace)
            == Running(BState([100, 97, 116, 97], CharPos(0, 0), CharPos(4, 1), 2, [(0, [116, 101, 115, 116]), (1, [109, 111, 114, 101])]))
  {
    var cfg := Config(10, false, false, true);
    var s0 := BState([100, 97, 116], CharPos(0, 0), CharPos(3, 1), 2, [(0, [116, 101, 115, 116]), (1, [109, 111, 114, 101])]);
    var s1 := BState([100, 97, 116, 97], CharPos(0, 0), CharPos(4, 1), 2, [(0, [116, 101, 115, 116]), (1, [109, 111, 114, 101])]);
    assert Run(cfg, s0, [[97]], [[[97]]], UnicodeSpace) == Run(cfg, s1, [], [], UnicodeSpace) by {
      assert [100, 97, 116] + [97] == [100, 97, 116, 97];
      assert Step(cfg, s0, [97], [[97]], UnicodeSpace) == Running(s1);
    }
  }

  /** Split's cluster loop over Spaced with Config(10, false, false, true). */
  lemma SpacedScan()
    ensures Scan(Config(10, false, false, true), Spaced, SpacedRunes, UnicodeSpace)
            == Running(BState([100, 97, 116, 97], CharPos(0, 0), CharPos(4, 1), 2, [(0, [116, 101, 115, 116]), (1, [109, 111, 114, 101])]))
  {
    var cfg := Config(10, false, false, true);
    ScanIsRun(cfg, Spaced, SpacedRunes, UnicodeSpace);
    SpacedPart1();
    RunAppend(cfg, BState([], CharPos(0, 0), CharPos(0, 0), 0, []), [[116], [101]], [[[116]], [[101]]],
              [[115], [116]] + ([[32], [32]] + ([[32], [109]] + ([[111]] + ([[114]] + ([[101], [32]] + ([[32], [32]] + ([[100], [97]] + ([[116]] + ([[97]]))))))))),
              [[[115]], [[116]]] + ([[[32]], [[32]]] + ([[[32]], [[109]]] + ([[[111]]] + ([[[114]]] + ([[[101]], [[32]]] + ([[[32]], [[32]]] + ([[[100]], [[97]]] + ([[[116]]] + ([[[97]]]))))))))), UnicodeSpace);
    SpacedPart2();
    RunAppend(cfg, BState([116, 101], CharPos(0, 0), CharPos(2, 1), 0, []), [[115], [116]], [[[115]], [[116]]],
              [[32], [32]] + ([[32], [109]] + ([[111]] + ([[114]] + ([[101], [32]] + ([[32], [32]] + ([[100], [97]] + ([[116]] + ([[97]])))))))),
              [[[32]], [[32]]] + ([[[32]], [[109]]] + ([[[111]]] + ([[[114]]] + ([[[101]], [[32]]] + ([[[32]], [[32]]] + ([[[100]], [[97]]] + ([[[116]]] + ([[[97]]])))))))), UnicodeSpace);
    SpacedPart3();
    RunAppend(cfg, BState([116, 101, 115, 116], CharPos(0, 0), CharPos(4, 1), 0, []), [[32], [32]], [[[32]], [[32]]],
              [[32], [109]] + ([[111]] + ([[114]] + ([[101], [32]] + ([[32], [32]] + ([[100], [97]] + ([[116]] + ([[97]]))))))),
              [[[32]], [[109]]] + ([[[111]]] + ([[[114]]] + ([[[101]], [[32]]] + ([[[32]], [[32]]] + ([[[100]], [[97]]] + ([[[116]]] + ([[[97]]]))))))), UnicodeSpace);
    SpacedPart4();
    RunAppend(cfg, BState([116, 101, 115, 116, 32, 32], CharPos(6, 1), CharPos(6, 1), 0, []), [[32], [109]], [[[32]], [[109]]],
              [[111]] + ([[114]] + ([[101], [32]] + ([[32], [32]] + ([[100], [97]] + ([[116]] + ([[97]])))))),
              [[[111]]] + ([[[114]]] + ([[[101]], [[32]]] + ([[[32]], [[32]]] + ([[[100]], [[97]]] + ([[[116]]] + ([[[97]]])))))), UnicodeSpace);
    SpacedPart5();
    RunAppend(cfg, BState([116, 101, 115, 116, 32, 32, 32, 109], CharPos(7, 1), CharPos(8, 1), 0, []), [[111]], [[[111]]],
              [[114]] + ([[101], [32]] + ([[32], [32]] + ([[100], [97]] + ([[116]] + ([[97]]))))),
              [[[114]]] + ([[[101]], [[32]]] + ([[[32]], [[32]]] + ([[[100]], [[97]]] + ([[[116]]] + ([[[97]]]))))), UnicodeSpace);
    SpacedPart6();
    RunAppend(cfg, BState([116, 101, 115, 116, 32, 32, 32, 109, 111], CharPos(7, 1), CharPos(9, 1), 0, []), [[114]], [[[114]]],
              [[101], [32]] + ([[32], [32]] + ([[100], [97]] + ([[116]] + ([[97]])))),
              [[[101]], [[32]]] + ([[[32]], [[32]]] + ([[[100]], [[97]]] + ([[[116]]] + ([[[97]]])))), UnicodeSpace);
    SpacedPart7();
    RunAppend(cfg, BState([109, 111, 114], CharPos(0, 0), CharPos(3, 1), 1, [(0, [116, 101, 115, 116])]), [[101], [32]], [[[101]], [[32]]],
              [[32], [32]] + ([[100], [97]] + ([[116]] + ([[97]]))),
              [[[32]], [[32]]] + ([[[100]], [[97]]] + ([[[116]]] + ([[[97]]]))), UnicodeSpace);
    SpacedPart8();
    RunAppend(cfg, BState([109, 111, 114, 101, 32], CharPos(5, 1), CharPos(5, 1), 1, [(0, [116, 101, 115, 116])]), [[32], [32]], [[[32]], [[32]]],
              [[100], [97]] + ([[116]] + ([[97]])),
              [[[100]], [[97]]] + ([[[116]]] + ([[[97]]])), UnicodeSpace);
    SpacedPart9();
    RunAppend(cfg, BState([109, 111, 114, 101, 32, 32, 32], CharPos(7, 1), CharPos(7, 1), 1, [(0, [116, 101, 115, 116])]), [[100], [97]], [[[100]], [[97]]],
              [[116]] + ([[97]]),
              [[[116]]] + ([[[97]]]), UnicodeSpace);
    SpacedPart10();
    RunAppend(cfg, BState([109, 111, 114, 101, 32, 32, 32, 100, 97], CharPos(7, 1), CharPos(9, 1), 1, [(0, [116, 101, 115, 116])]), [[116]], [[[116]]],
              [[97]],
              [[[97]]], UnicodeSpace);
    SpacedPart11();
  }

  /** TestSplitBuilder_TrimTrailingWhiteSpace_MultipleSpaces: runs of spaces are trimmed from the ends of "test", "more" and "data". */
  lemma TrimMultipleSpaces()
    ensures SplitPairs(Configure(10, [TrimTrailingWhiteSpace(true)]), Spaced, SpacedRunes, UnicodeSpace)
            == [(0, [116, 101, 115, 116]), (1, [109, 111, 114, 101]), (2, [100, 97, 116, 97])]
  {
    assert Configure(10, [TrimTrailingWhiteSpace(true)]) == Config(10, false, false, true);
    SpacedScan();
    assert TrimRight([100, 97, 116, 97]) == [100, 97, 116, 97] by {
      TrimRightIs([100, 97, 116, 97], 4);
      assert [100, 97, 116, 97][..4] == [100, 97, 116, 97];
    }
    assert [(0, [116, 101, 115, 116]), (1, [109, 111, 114, 101])] + [(2, [100, 97, 116, 97])] == [(0, [116, 101, 115, 116]), (1, [109, 111, 114, 101]), (2, [100, 97, 116, 97])];
  }

  /** "Hello world  test", one cluster (and one rune) per byte. */
  const Combined: seq<seq<byte>> :=
    [[72], [101]]
    + ([[108], [108]]
    + ([[111], [32]]
    + ([[119], [111]]
    + ([[114]]
    + ([[108]]
    + ([[100], [32]]
    + ([[32], [116]]
    + ([[101]]
    + ([[115]]
    + ([[116]]))))))))))
  const CombinedRunes: seq<seq<seq<byte>>> :=
    [[[72]], [[101]]]
    + ([[[108]], [[108]]]
    + ([[[111]], [[32]]]
    + ([[[119]], [[111]]]
    + ([[[114]]]
    + ([[[108]]]
    + ([[[100]], [[32]]]
    + ([[[32]], [[116]]]
    + ([[[101]]]
    + ([[[115]]]
    + ([[[116]]]))))))))))

  lemma CombinedPart1()
    ensures Run(Config(10, true, false, true), BState([], CharPos(0, 0), CharPos(0, 0), 0, []),
                [[72], [101]], [[[72]], [[101]]], UnicodeSpace)
            == Running(BState([72, 101], CharPos(0, 0), CharPos(2, 1), 0, []))
  {
    var cfg := Config(10, true, false, true);
    var s0 := BState([], CharPos(0, 0), CharPos(0, 0), 0, []);
    var s1 := BState([72], CharPos(0, 0), CharPos(1, 1), 0, []);
    assert Run(cfg, s0, [[72], [101]], [[[72]], [[101]]], UnicodeSpace) == Run(cfg, s1, [[101]], [[[101]]], UnicodeSpace) by {
      assert [] + [72] == [72];
      assert Step(cfg, s0, [72], [[72]], UnicodeSpace) == Running(s1);
    }
    var s2 := BState([72, 101], CharPos(0, 0), CharPos(2, 1), 0, []);
    assert Run(cfg, s1, [[101]], [[[101]]], UnicodeSpace) == Run(cfg, s2, [], [], UnicodeSpace) by {
      assert [72] + [101] == [72, 101];
      assert Step(cfg, s1, [101], [[101]], UnicodeSpace) == Running(s2);
    }
  }

  lemma CombinedPart2()
    ensures Run(Config(10, true, false, true), BState([72, 101], CharPos(0, 0), CharPos(2, 1), 0, []),
                [[108], [108]], [[[108]], [[108]]], UnicodeSpace)
            == Running(BState([72, 101, 108, 108], CharPos(0, 0), CharPos(4, 1), 0, []))
  {
    var cfg := Config(10, true, false, true);
    var s0 := BState([72, 101], CharPos(0, 0), CharPos(2, 1), 0, []);
    var s1 := BState([72, 101, 108], CharPos(0, 0), CharPos(3, 1), 0, []);
    assert Run(cfg, s0, [[108], [108]], [[[108]], [[108]]], UnicodeSpace) == Run(cfg, s1, [[108]], [[[108]]], UnicodeSpace) by {
      assert [72, 101] + [108] == [72, 101, 108];
      assert Step(cfg, s0, [108], [[108]], UnicodeSpace) == Running(s1);
    }
    var s2 := BState([72, 101, 108, 108], CharPos(0, 0), CharPos(4, 1), 0, []);
    assert Run(cfg, s1, [[108]], [[[108]]], UnicodeSpace) == Run(cfg, s2, [], [], UnicodeSpace) by {
      assert [72, 101, 108] + [108] == [72, 101, 108, 108];
      assert Step(cfg, s1, [108], [[108]], UnicodeSpace) == Running(s2);
    }
  }

  lemma CombinedPart3()
    ensures Run(Config(10, true, false, true), BState([72, 101, 108, 108], CharPos(0, 0), CharPos(4, 1), 0, []),
                [[111], [32]], [[[111]], [[32]]], UnicodeSpace)
            == Running(BState([72, 101, 108, 108, 111, 32], CharPos(6, 1), CharPos(6, 1), 0, []))
  {
    var cfg := Config(10, true, false, true);
    var s0 := BState([72, 101, 108, 108], CharPos(0, 0), CharPos(4, 1), 0, []);
    var s1 := BState([72, 101, 108, 108, 111], CharPos(0, 0), CharPos(5, 1), 0, []);
    assert Run(cfg, s0, [[111], [32]], [[[111]], [[32]]], UnicodeSpace) == Run(cfg, s1, [[32]], [[[32]]], UnicodeSpace) by {
      assert [72, 101, 108, 108] + [111] == [72, 101, 108, 108, 111];
      assert Step(cfg, s0, [111], [[111]], UnicodeSpace) == Running(s1);
    }
    var s2 := BState([72, 101, 108, 108, 111, 32], CharPos(6, 1), CharPos(6, 1), 0, []);
    assert Run(cfg, s1, [[32]], [[[32]]], UnicodeSpace) == Run(cfg, s2, [], [], UnicodeSpace) by {
      assert [72, 101, 108, 108, 111] + [32] == [72, 101, 108, 108, 111, 32];
      assert Step(cfg, s1, [32], [[32]], UnicodeSpace) == Running(s2);
    }
  }

  lemma CombinedPart4()
    ensures Run(Config(10, true, false, true), BState([72, 101, 108, 108, 111, 32], CharPos(6, 1), CharPos(6, 1), 0, []),
                [[119], [111]], [[[119]], [[111]]], UnicodeSpace)
            == Running(BState([72, 101, 108, 108, 111, 32, 119, 111], CharPos(6, 1), CharPos(8, 1), 0, []))
  {
    var cfg := Config(10, true, false, true);
    var s0 := BState([72, 101, 108, 108, 111, 32], CharPos(6, 1), CharPos(6, 1), 0, []);
    var s1 := BState([72, 101, 108, 108, 111, 32, 119], CharPos(6, 1), CharPos(7, 1), 0, []);
    assert Run(cfg, s0, [[119], [111]], [[[119]], [[111]]], UnicodeSpace) == Run(cfg, s1, [[111]], [[[111]]], UnicodeSpace) by {
      assert [72, 101, 108, 108, 111, 32] + [119] == [72, 101, 108, 108, 111, 32, 119];
      assert Step(cfg, s0, [119], [[119]], UnicodeSpace) == Running(s1);
    }
    var s2 := BState([72, 101, 108, 108, 111, 32, 119, 111], CharPos(6, 1), CharPos(8, 1), 0, []);
    assert Run(cfg, s1, [[111]], [[[111]]], UnicodeSpace) == Run(cfg, s2, [], [], UnicodeSpace) by {
      assert [72, 101, 108, 108, 111, 32, 119] + [111] == [72, 101, 108, 108, 111, 32, 119, 111];
      assert Step(cfg, s1, [111], [[111]], UnicodeSpace) == Running(s2);
    }
  }

  lemma CombinedPart5()
    ensures Run(Config(10, true, false, true), BState([72, 101, 108, 108, 111, 32, 119, 111], CharPos(6, 1), CharPos(8, 1), 0, []),
                [[114]], [[[114]]], UnicodeSpace)
            == Running(BState([72, 101, 108, 108, 111, 32, 119, 111, 114], CharPos(6, 1), CharPos(9, 1), 0, []))
  {
    var cfg := Config(10, true, false, true);
    var s0 := BState([72, 101, 108, 108, 111, 32, 119, 111], CharPos(6, 1), CharPos(8, 1), 0, []);
    var s1 := BState([72, 101, 108, 108, 111, 32, 119, 111, 114], CharPos(6, 1), CharPos(9, 1), 0, []);
    assert Run(cfg, s0, [[114]], [[[114]]], UnicodeSpace) == Run(cfg, s1, [], [], UnicodeSpace) by {
      assert [72, 101, 108, 108, 111, 32, 119, 111] + [114] == [72, 101, 108, 108, 111, 32, 119, 111, 114];
      assert Step(cfg, s0, [114], [[114]], UnicodeSpace) == Running(s1);
    }
  }

  lemma CombinedPart6()
    ensures Run(Config(10, true, false, true), BState([72, 101, 108, 108, 111, 32, 119, 111, 114], CharPos(6, 1), CharPos(9, 1), 0, []),
                [[108]], [[[108]]], UnicodeSpace)
            == Running(BState([119, 111, 114, 108], CharPos(0, 0), CharPos(4, 1), 1, [(0, [72, 101, 108, 108, 111])]))
  {
    var cfg := Config(10, true, false, true);
    var s0 := BState([72, 101, 108, 108, 111, 32, 119, 111, 114], CharPos(6, 1), CharPos(9, 1), 0, []);
    var s1 := BState([119, 111, 114, 108], CharPos(0, 0), CharPos(4, 1), 1, [(0, [72, 101, 108, 108, 111])]);
    assert Run(cfg, s0, [[108]], [[[108]]], UnicodeSpace) == Run(cfg, s1, [], [], UnicodeSpace) by {
      assert [72, 101, 108, 108, 111, 32, 119, 111, 114] + [108] == [72, 101, 108, 108, 111, 32, 119, 111, 114, 108];
      assert [72, 101, 108, 108, 111, 32, 119, 111, 114, 108][..6] == [72, 101, 108, 108, 111, 32];
      assert [72, 101, 108, 108, 111, 32, 119, 111, 114, 108][6..] == [119, 111, 114, 108];
      assert TrimRight([72, 101, 108, 108, 111, 32]) == [72, 101, 108, 108, 111] by {
        TrimRightIs([72, 101, 108, 108, 111, 32], 5);
        assert [72, 101, 108, 108, 111, 32][..5] == [72, 101, 108, 108, 111];
      }
      assert Step(cfg, s0, [108], [[108]], UnicodeSpace) == Running(s1);
    }
  }

  lemma CombinedPart7()
    ensures Run(Config(10, true, false, true), BState([119, 111, 114, 108], CharPos(0, 0), CharPos(4, 1), 1, [(0, [72, 101, 108, 108, 111])]),
                [[100], [32]], [[[100]], [[32]]], UnicodeSpace)
            == Running(BState([119, 111, 114, 108, 100, 32], CharPos(6, 1), CharPos(6, 1), 1, [(0, [72, 101, 108, 108, 111])]))
  {
    var cfg := Config(10, true, false, true);
    var s0 := BState([119, 111, 114, 108], CharPos(0, 0), CharPos(4, 1), 1, [(0, [72, 101, 108, 108, 111])]);
    var s1 := BState([119, 111, 114, 108, 100], CharPos(0, 0), CharPos(5, 1), 1, [(0, [72, 101, 108, 108, 111])]);
    assert Run(cfg, s0, [[100], [32]], [[[100]], [[32]]], UnicodeSpace) == Run(cfg, s1, [[32]], [[[32]]], UnicodeSpace) by {
      assert [119, 111, 114, 108] + [100] == [119, 111, 114, 108, 100];
      assert Step(cfg, s0, [100], [[100]], UnicodeSpace) == Running(s1);
    }
    var s2 := BState([119, 111, 114, 108, 100, 32], CharPos(6, 1), CharPos(6, 1), 1, [(0, [72, 101, 108, 108, 111])]);
    assert Run(cfg, s1, [[32]], [[[32]]], UnicodeSpace) == Run(cfg, s2, [], [], UnicodeSpace) by {
      assert [119, 111, 114, 108, 100] + [32] == [119, 111, 114, 108, 100, 32];
      assert Step(cfg, s1, [32], [[32]], UnicodeSpace) == Running(s2);
    }
  }

  lemma CombinedPart8()
    ensures Run(Config(10, true, false, true), BState([119, 111, 114, 108, 100, 32], CharPos(6, 1), CharPos(6, 1), 1, [(0, [72, 101, 108, 108, 111])]),
                [[32], [116]], [[[32]], [[116]]], UnicodeSpace)
            == Running(BState([119, 111, 114, 108, 100, 32, 32, 116], CharPos(7, 1), CharPos(8, 1), 1, [(0, [72, 101, 108, 108, 111])]))
  {
    var cfg := Config(10, true, false, true);
    var s0 := BState([119, 111, 114, 108, 100, 32], CharPos(6, 1), CharPos(6, 1), 1, [(0, [72, 101, 108, 108, 111])]);
    var s1 := BState([119, 111, 114, 108, 100, 32, 32], CharPos(7, 1), CharPos(7, 1), 1, [(0, [72, 101, 108, 108, 111])]);
    assert Run(cfg, s0, [[32], [116]], [[[32]], [[116]]], UnicodeSpace) == Run(cfg, s1, [[116]], [[[116]]], UnicodeSpace) by {
      assert [119, 111, 114, 108, 100, 32] + [32] == [119, 111, 114, 108, 100, 32, 32];
      assert Step(cfg, s0, [32], [[32]], UnicodeSpace) == Running(s1);
    }
    var s2 := BState([119, 111, 114, 108, 100, 32, 32, 116], CharPos(7, 1), CharPos(8, 1), 1, [(0, [72, 101, 108, 108, 111])]);
    assert Run(cfg, s1, [[116]], [[[116]]], UnicodeSpace) == Run(cfg, s2, [], [], UnicodeSpace) by {
      assert [119, 111, 114, 108, 100, 32, 32] + [116] == [119, 111, 114, 108, 100, 32, 32, 116];
      assert Step(cfg, s1, [116], [[116]], UnicodeSpace) == Running(s2);
    }
  }

  lemma CombinedPart9()
    ensures Run(Config(10, true, false, true), BState([119, 111, 114, 108, 100, 32, 32, 116], CharPos(7, 1), CharPos(8, 1), 1, [(0, [72, 101, 108, 108, 111])]),
                [[101]], [[[101]]], UnicodeSpace)
            == Running(BState([119, 111, 114, 108, 100, 32, 32, 116, 101], CharPos(7, 1), CharPos(9, 1), 1, [(0, [72, 101, 108, 108, 111])]))
  {
    var cfg := Config(10, true, false, true);
    var s0 := BState([119, 111, 114, 108, 100, 32, 32, 116], CharPos(7, 1), CharPos(8, 1), 1, [(0, [72, 101, 108, 108, 111])]);
    var s1 := BState([119, 111, 114, 108, 100, 32, 32, 116, 101], CharPos(7, 1), CharPos(9, 1), 1, [(0, [72, 101, 108, 108, 111])]);
    assert Run(cfg, s0, [[101]], [[[101]]], UnicodeSpace) == Run(cfg, s1, [], [], UnicodeSpace) by {
      assert [119, 111, 114, 108, 100, 32, 32, 116] + [101] == [119, 111, 114, 108, 100, 32, 32, 116, 101];
      assert Step(cfg, s0, [101], [[101]], UnicodeSpace) == Running(s1);
    }
  }

  lemma CombinedPart10()
    ensures Run(Config(10, true, false, true), BState([119, 111, 114, 108, 100, 32, 32, 116, 101], CharPos(7, 1), CharPos(9, 1), 1, [(0, [72, 101, 108, 108, 111])]),
                [[115]], [[[115]]], UnicodeSpace)
            == Running(BState([116, 101, 115], CharPos(0, 0), CharPos(3, 1), 2, [(0, [72, 101, 108, 108, 111]), (1, [119, 111, 114, 108, 100])]))
  {
    var cfg := Config(10, true, false, true);
    var s0 := BState([119, 111, 114, 108, 100, 32, 32, 116, 101], CharPos(7, 1), CharPos(9, 1), 1, [(0, [72, 101, 108, 108, 111])]);
    var s1 := BState([116, 101, 115], CharPos(0, 0), CharPos(3, 1), 2, [(0, [72, 101, 108, 108, 111]), (1, [119, 111, 114, 108, 100])]);
    assert Run(cfg, s0, [[115]], [[[115]]], UnicodeSpace) == Run(cfg, s1, [], [], UnicodeSpace) by {
      assert [119, 111, 114, 108, 100, 32, 32, 116, 101] + [115] == [119, 111, 114, 108, 100, 32, 32, 116, 101, 115];
      assert [119, 111, 114, 108, 100, 32, 32, 116, 101, 115][..7] == [119, 111, 114, 108, 100, 32, 32];
      assert [119, 111, 114, 108, 100, 32, 32, 116, 101, 115][7..] == [116, 101, 115];
      assert TrimRight([119, 111, 114, 108, 100, 32, 32]) == [119, 111, 114, 108, 100] by {
        TrimRightIs([119, 111, 114, 108, 100, 32, 32], 5);
        assert [119, 111, 114, 108, 100, 32, 32][..5] == [119, 111, 114, 108, 100];
      }
      assert Step(cfg, s0, [115], [[115]], UnicodeSpace) == Running(s1);
    }
  }

  lemma CombinedPart11()
    ensures Run(Config(10, true, false, true), BState([116, 101, 115], CharPos(0, 0), CharPos(3, 1), 2, [(0, [72, 101, 108, 108, 111]), (1, [119, 111, 114, 108, 100])]),
                [[116]], [[[116]]], UnicodeSpace)
            == Running(BState([116, 101, 115, 116], CharPos(0, 0), CharPos(4, 1), 2, [(0, [72, 101, 108, 108, 111]), (1, [119, 111, 114, 108, 100])]))
  {
    var cfg := Config(10, true, false, true);
    var s0 := BState([116, 101, 115], CharPos(0, 0), CharPos(3, 1), 2, [(0, [72, 101, 108, 108, 111]), (1, [119, 111, 114, 108, 100])]);
    var s1 := BState([116, 101, 115, 116], CharPos(0, 0), CharPos(4, 1), 2, [(0, [72, 101, 108, 108, 111]), (1, [119, 111, 114, 108, 100])]);
    assert Run(cfg, s0, [[116]], [[[116]]], UnicodeSpace) == Run(cfg, s1, [], [], UnicodeSpace) by {
      assert [116, 101, 115] + [116] == [116, 101, 115, 116];
      assert Step(cfg, s0, [116], [[116]], UnicodeSpace) == Running(s1);
    }
  }

  /** Split's cluster loop over Combined with Config(10, true, false, true). */
  lemma CombinedScan()
    ensures Scan(Config(10, true, false, true), Combined, CombinedRunes, UnicodeSpace)
            == Running(BState([116, 101, 115, 116], CharPos(0, 0), CharPos(4, 1), 2, [(0, [72, 101, 108, 108, 111]), (1, [119, 111, 114, 108, 100])]))
  {
    var cfg := Config(10, true, false, true);
    ScanIsRun(cfg, Combined, CombinedRunes, UnicodeSpace);
    CombinedPart1();
    RunAppend(cfg, BState([], CharPos(0, 0), CharPos(0, 0), 0, []), [[72], [101]], [[[72]], [[101]]],
              [[108], [108]] + ([[111], [32]] + ([[119], [111]] + ([[114]] + ([[108]] + ([[100], [32]] + ([[32], [116]] + ([[101]] + ([[115]] + ([[116]]))))))))),
              [[[108]], [[108]]] + ([[[111]], [[32]]] + ([[[119]], [[111]]] + ([[[114]]] + ([[[108]]] + ([[[100]], [[32]]] + ([[[32]], [[116]]] + ([[[101]]] + ([[[115]]] + ([[[116]]]))))))))), UnicodeSpace);
    CombinedPart2();
    RunAppend(cfg, BState([72, 101], CharPos(0, 0), CharPos(2, 1), 0, []), [[108], [108]], [[[108]], [[108]]],
              [[111], [32]] + ([[119], [111]] + ([[114]] + ([[108]] + ([[100], [32]] + ([[32], [116]] + ([[101]] + ([[115]] + ([[116]])))))))),
              [[[111]], [[32]]] + ([[[119]], [[111]]] + ([[[114]]] + ([[[108]]] + ([[[100]], [[32]]] + ([[[32]], [[116]]] + ([[[101]]] + ([[[115]]] + ([[[116]]])))))))), UnicodeSpace);
    CombinedPart3();
    RunAppend(cfg, BState([72, 101, 108, 108], CharPos(0, 0), CharPos(4, 1), 0, []), [[111], [32]], [[[111]], [[32]]],
              [[119], [111]] + ([[114]] + ([[108]] + ([[100], [32]] + ([[32], [116]] + ([[101]] + ([[115]] + ([[116]]))))))),
              [[[119]], [[111]]] + ([[[114]]] + ([[[108]]] + ([[[100]], [[32]]] + ([[[32]], [[116]]] + ([[[101]]] + ([[[115]]] + ([[[116]]]))))))), UnicodeSpace);
    CombinedPart4();
    RunAppend(cfg, BState([72, 101, 108, 108, 111, 32], CharPos(6, 1), CharPos(6, 1), 0, []), [[119], [111]], [[[119]], [[111]]],
              [[114]] + ([[108]] + ([[100], [32]] + ([[32], [116]] + ([[101]] + ([[115]] + ([[116]])))))),
              [[[114]]] + ([[[108]]] + ([[[100]], [[32]]] + ([[[32]], [[116]]] + ([[[101]]] + ([[[115]]] + ([[[116]]])))))), UnicodeSpace);
    CombinedPart5();
    RunAppend(cfg, BState([72, 101, 108, 108, 111, 32, 119, 111], CharPos(6, 1), CharPos(8, 1), 0, []), [[114]], [[[114]]],
              [[108]] + ([[100], [32]] + ([[32], [116]] + ([[101]] + ([[115]] + ([[116]]))))),
              [[[108]]] + ([[[100]], [[32]]] + ([[[32]], [[116]]] + ([[[101]]] + ([[[115]]] + ([[[116]]]))))), UnicodeSpace);
    CombinedPart6();
    RunAppend(cfg, BState([72, 101, 108, 108, 111, 32, 119, 111, 114], CharPos(6, 1), CharPos(9, 1), 0, []), [[108]], [[[108]]],
              [[100], [32]] + ([[32], [116]] + ([[101]] + ([[115]] + ([[116]])))),
              [[[100]], [[32]]] + ([[[32]], [[116]]] + ([[[101]]] + ([[[115]]] + ([[[116]]])))), UnicodeSpace);
    CombinedPart7();
    RunAppend(cfg, BState([119, 111, 114, 108], CharPos(0, 0), CharPos(4, 1), 1, [(0, [72, 101, 108, 108, 111])]), [[100], [32]], [[[100]], [[32]]],
              [[32], [116]] + ([[101]] + ([[115]] + ([[116]]))),
              [[[32]], [[116]]] + ([[[101]]] + ([[[115]]] + ([[[116]]]))), UnicodeSpace);
    CombinedPart8();
    RunAppend(cfg, BState([119, 111, 114, 108, 100, 32], CharPos(6, 1), CharPos(6, 1), 1, [(0, [72, 101, 108, 108, 111])]), [[32], [116]], [[[32]], [[116]]],
              [[101]] + ([[115]] + ([[116]])),
              [[[101]]] + ([[[115]]] + ([[[116]]])), UnicodeSpace);
    CombinedPart9();
    RunAppend(cfg, BState([119, 111, 114, 108, 100, 32, 32, 116], CharPos(7, 1), CharPos(8, 1), 1, [(0, [72, 101, 108, 108, 111])]), [[101]], [[[101]]],
              [[115]] + ([[116]]),
              [[[115]]] + ([[[116]]]), UnicodeSpace);
    CombinedPart10();
    RunAppend(cfg, BState([119, 111, 114, 108, 100, 32, 32, 116, 101], CharPos(7, 1), CharPos(9, 1), 1, [(0, [72, 101, 108, 108, 111])]), [[115]], [[[115]]],
              [[116]],
              [[[116]]], UnicodeSpace);
    CombinedPart11();
  }

  /** TestSplitBuilder_CombinedOptions: trimming together with ContinueOnError yields "Hello", "world", "test". */
  lemma CombinedOptions()
    ensures SplitPairs(Configure(10, [TrimTrailingWhiteSpace(true), ContinueOnError(true)]), Combined, CombinedRunes, UnicodeSpace)
            == [(0, [72, 101, 108, 108, 111]), (1, [119, 111, 114, 108, 100]), (2, [116, 101, 115, 116])]
  {
    assert Configure(10, [TrimTrailingWhiteSpace(true), ContinueOnError(true)]) == Config(10, true, false, true);
    CombinedScan();
    assert TrimRight([116, 101, 115, 116]) == [116, 101, 115, 116] by {
      TrimRightIs([116, 101, 115, 116], 4);
      assert [116, 101, 115, 116][..4] == [116, 101, 115, 116];
    }
    assert [(0, [72, 101, 108, 108, 111]), (1, [119, 111, 114, 108, 100])] + [(2, [116, 101, 115, 116])] == [(0, [72, 101, 108, 108, 111]), (1, [119, 111, 114, 108, 100]), (2, [116, 101, 115, 116])];
  }


  lemma HelloStrictPart1()
    ensures StrictRun(StrictSpec.State([], CharPos(0, 0), CharPos(0, 0), []), [[72], [101]], UnicodeSpace, 10)
            == Ok(StrictSpec.State([72, 101], CharPos(0, 0), CharPos(2, 1), []))
  {
    assert StrictRun(StrictSpec.State([], CharPos(0, 0), CharPos(0, 0), []), [[72], [101]], UnicodeSpace, 10) == StrictRun(StrictSpec.State([72], CharPos(0, 0), CharPos(1, 1), []), [[101]], UnicodeSpace, 10) by {
      assert [] + [72] == [72];
      assert StrictSpec.Step(StrictSpec.State([], CharPos(0, 0), CharPos(0, 0), []), [72], UnicodeSpace, 10) == Ok(StrictSpec.State([72], CharPos(0, 0), CharPos(1, 1), []));
    }
    assert StrictRun(StrictSpec.State([72], CharPos(0, 0), CharPos(1, 1), []), [[101]], UnicodeSpace, 10) == StrictRun(StrictSpec.State([72, 101], CharPos(0, 0), CharPos(2, 1), []), [], UnicodeSpace, 10) by {
      assert [72] + [101] == [72, 101];
      assert StrictSpec.Step(StrictSpec.State([72], CharPos(0, 0), CharPos(1, 1), []), [101], UnicodeSpace, 10) == Ok(StrictSpec.State([72, 101], CharPos(0, 0), CharPos(2, 1), []));
    }
  }

  lemma HelloStrictPart2()
    ensures StrictRun(StrictSpec.State([72, 101], CharPos(0, 0), CharPos(2, 1), []), [[108], [108]], UnicodeSpace, 10)
            == Ok(StrictSpec.State([72, 101, 108, 108], CharPos(0, 0), CharPos(4, 1), []))
  {
    assert StrictRun(StrictSpec.State([72, 101], CharPos(0, 0), CharPos(2, 1), []), [[108], [108]], UnicodeSpace, 10) == StrictRun(StrictSpec.State([72, 101, 108], CharPos(0, 0), CharPos(3, 1), []), [[108]], UnicodeSpace, 10) by {
      assert [72, 101] + [108] == [72, 101, 108];
      assert StrictSpec.Step(StrictSpec.State([72, 101], CharPos(0, 0), CharPos(2, 1), []), [108], UnicodeSpace, 10) == Ok(StrictSpec.State([72, 101, 108], CharPos(0, 0), CharPos(3, 1), []));
    }
    assert StrictRun(StrictSpec.State([72, 101, 108], CharPos(0, 0), CharPos(3, 1), []), [[108]], UnicodeSpace, 10) == StrictRun(StrictSpec.State([72, 101, 108, 108], CharPos(0, 0), CharPos(4, 1), []), [], UnicodeSpace, 10) by {
      assert [72, 101, 108] + [108] == [72, 101, 108, 108];
      assert StrictSpec.Step(StrictSpec.State([72, 101, 108], CharPos(0, 0), CharPos(3, 1), []), [108], UnicodeSpace, 10) == Ok(StrictSpec.State([72, 101, 108, 108], CharPos(0, 0), CharPos(4, 1), []));
    }
  }

  lemma HelloStrictPart3()
    ensures StrictRun(StrictSpec.State([72, 101, 108, 108], CharPos(0, 0), CharPos(4, 1), []), [[111], [32]], UnicodeSpace, 10)
            == Ok(StrictSpec.State([72, 101, 108, 108, 111, 32], CharPos(6, 1), CharPos(6, 1), []))
  {
    assert StrictRun(StrictSpec.State([72, 101, 108, 108], CharPos(0, 0), CharPos(4, 1), []), [[111], [32]], UnicodeSpace, 10) == StrictRun(StrictSpec.State([72, 101, 108, 108, 111], CharPos(0, 0), CharPos(5, 1), []), [[32]], UnicodeSpace, 10) by {
      assert [72, 101, 108, 108] + [111] == [72, 101, 108, 108, 111];
      assert StrictSpec.Step(StrictSpec.State([72, 101, 108, 108], CharPos(0, 0), CharPos(4, 1), []), [111], UnicodeSpace, 10) == Ok(StrictSpec.State([72, 101, 108, 108, 111], CharPos(0, 0), CharPos(5, 1), []));
    }
    assert StrictRun(StrictSpec.State([72, 101, 108, 108, 111], CharPos(0, 0), CharPos(5, 1), []), [[32]], UnicodeSpace, 10) == StrictRun(StrictSpec.State([72, 101, 108, 108, 111, 32], CharPos(6, 1), CharPos(6, 1), []), [], UnicodeSpace, 10) by {
      assert [72, 101, 108, 108, 111] + [32] == [72, 101, 108, 108, 111, 32];
      assert StrictSpec.Step(StrictSpec.State([72, 101, 108, 108, 111], CharPos(0, 0), CharPos(5, 1), []), [32], UnicodeSpace, 10) == Ok(StrictSpec.State([72, 101, 108, 108, 111, 32], CharPos(6, 1), CharPos(6, 1), []));
    }
  }

  lemma HelloStrictPart4()
    ensures StrictRun(StrictSpec.State([72, 101, 108, 108, 111, 32], CharPos(6, 1), CharPos(6, 1), []), [[119], [111]], UnicodeSpace, 10)
            == Ok(StrictSpec.State([72, 101, 108, 108, 111, 32, 119, 111], CharPos(6, 1), CharPos(8, 1), []))
  {
    assert StrictRun(StrictSpec.State([72, 101, 108, 108, 111, 32], CharPos(6, 1), CharPos(6, 1), []), [[119], [111]], UnicodeSpace, 10) == StrictRun(StrictSpec.State([72, 101, 108, 108, 111, 32, 119], CharPos(6, 1), CharPos(7, 1), []), [[111]], UnicodeSpace, 10) by {
      assert [72, 101, 108, 108, 111, 32] + [119] == [72, 101, 108, 108, 111, 32, 119];
      assert StrictSpec.Step(StrictSpec.State([72, 101, 108, 108, 111, 32], CharPos(6, 1), CharPos(6, 1), []), [119], UnicodeSpace, 10) == Ok(StrictSpec.State([72, 101, 108, 108, 111, 32, 119], CharPos(6, 1), CharPos(7, 1), []));
    }
    assert StrictRun(StrictSpec.State([72, 101, 108, 108, 111, 32, 119], CharPos(6, 1), CharPos(7, 1), []), [[111]], UnicodeSpace, 10) == StrictRun(StrictSpec.State([72, 101, 108, 108, 111, 32, 119, 111], CharPos(6, 1), CharPos(8, 1), []), [], UnicodeSpace, 10) by {
      assert [72, 101, 108, 108, 111, 32, 119] + [111] == [72, 101, 108, 108, 111, 32, 119, 111];
      assert StrictSpec.Step(StrictSpec.State([72, 101, 108, 108, 111, 32, 119], CharPos(6, 1), CharPos(7, 1), []), [111], UnicodeSpace, 10) == Ok(StrictSpec.State([72, 101, 108, 108, 111, 32, 119, 111], CharPos(6, 1), CharPos(8, 1), []));
    }
  }

  lemma HelloStrictPart5()
    ensures StrictRun(StrictSpec.State([72, 101, 108, 108, 111, 32, 119, 111], CharPos(6, 1), CharPos(8, 1), []), [[114]], UnicodeSpace, 10)
            == Ok(StrictSpec.State([72, 101, 108, 108, 111, 32, 119, 111, 114], CharPos(6, 1), CharPos(9, 1), []))
  {
    assert StrictRun(StrictSpec.State([72, 101, 108, 108, 111, 32, 119, 111], CharPos(6, 1), CharPos(8, 1), []), [[114]], UnicodeSpace, 10) == StrictRun(StrictSpec.State([72, 101, 108, 108, 111, 32, 119, 111, 114], CharPos(6, 1), CharPos(9, 1), []), [], UnicodeSpace, 10) by {
      assert [72, 101, 108, 108, 111, 32, 119, 111] + [114] == [72, 101, 108, 108, 111, 32, 119, 111, 114];
      assert StrictSpec.Step(StrictSpec.State([72, 101, 108, 108, 111, 32, 119, 111], CharPos(6, 1), CharPos(8, 1), []), [114], UnicodeSpace, 10) == Ok(StrictSpec.State([72, 101, 108, 108, 111, 32, 119, 111, 114], CharPos(6, 1), CharPos(9, 1), []));
    }
  }

  lemma HelloStrictPart6()
    ensures StrictRun(StrictSpec.State([72, 101, 108, 108, 111, 32, 119, 111, 114], CharPos(6, 1), CharPos(9, 1), []), [[108]], UnicodeSpace, 10)
            == Ok(StrictSpec.State([119, 111, 114, 108], CharPos(0, 0), CharPos(4, 1), [[72, 101, 108, 108, 111, 32]]))
  {
    assert StrictRun(StrictSpec.State([72, 101, 108, 108, 111, 32, 119, 111, 114], CharPos(6, 1), CharPos(9, 1), []), [[108]], UnicodeSpace, 10) == StrictRun(StrictSpec.State([119, 111, 114, 108], CharPos(0, 0), CharPos(4, 1), [[72, 101, 108, 108, 111, 32]]), [], UnicodeSpace, 10) by {
      assert [72, 101, 108, 108, 111, 32, 119, 111, 114] + [108] == [72, 101, 108, 108, 111, 32, 119, 111, 114, 108];
      assert [72, 101, 108, 108, 111, 32, 119, 111, 114, 108][..6] == [72, 101, 108, 108, 111, 32];
      assert [72, 101, 108, 108, 111, 32, 119, 111, 114, 108][6..] == [119, 111, 114, 108];
      assert [] + [[72, 101, 108, 108, 111, 32]] == [[72, 101, 108, 108, 111, 32]];
      assert StrictSpec.Emit([], [72, 101, 108, 108, 111, 32], [119, 111, 114, 108], [108], 10) == Ok(StrictSpec.State([119, 111, 114, 108], CharPos(0, 0), CharPos(4, 1), [[72, 101, 108, 108, 111, 32]]));
      assert StrictSpec.Step(StrictSpec.State([72, 101, 108, 108, 111, 32, 119, 111, 114], CharPos(6, 1), CharPos(9, 1), []), [108], UnicodeSpace, 10) == Ok(StrictSpec.State([119, 111, 114, 108], CharPos(0, 0), CharPos(4, 1), [[72, 101, 108, 108, 111, 32]]));
    }
  }

  lemma HelloStrictPart7()
    ensures StrictRun(StrictSpec.State([119, 111, 114, 108], CharPos(0, 0), CharPos(4, 1), [[72, 101, 108, 108, 111, 32]]), [[100], [32]], UnicodeSpace, 10)
            == Ok(StrictSpec.State([119, 111, 114, 108, 100, 32], CharPos(6, 1), CharPos(6, 1), [[72, 101, 108, 108, 111, 32]]))
  {
    assert StrictRun(StrictSpec.State([119, 111, 114, 108], CharPos(0, 0), CharPos(4, 1), [[72, 101, 108, 108, 111, 32]]), [[100], [32]], UnicodeSpace, 10) == StrictRun(StrictSpec.State([119, 111, 114, 108, 100], CharPos(0, 0), CharPos(5, 1), [[72, 101, 108, 108, 111, 32]]), [[32]], UnicodeSpace, 10) by {
      assert [119, 111, 114, 108] + [100] == [119, 111, 114, 108, 100];
      assert StrictSpec.Step(StrictSpec.State([119, 111, 114, 108], CharPos(0, 0), CharPos(4, 1), [[72, 101, 108, 108, 111, 32]]), [100], UnicodeSpace, 10) == Ok(StrictSpec.State([119, 111, 114, 108, 100], CharPos(0, 0), CharPos(5, 1), [[72, 101, 108, 108, 111, 32]]));
    }
    assert StrictRun(StrictSpec.State([119, 111, 114, 108, 100], CharPos(0, 0), CharPos(5, 1), [[72, 101, 108, 108, 111, 32]]), [[32]], UnicodeSpace, 10) == StrictRun(StrictSpec.State([119, 111, 114, 108, 100, 32], CharPos(6, 1), CharPos(6, 1), [[72, 101, 108, 108, 111, 32]]), [], UnicodeSpace, 10) by {
      assert [119, 111, 114, 108, 100] + [32] == [119, 111, 114, 108, 100, 32];
      assert StrictSpec.Step(StrictSpec.State([119, 111, 114, 108, 100], CharPos(0, 0), CharPos(5, 1), [[72, 101, 108, 108, 111, 32]]), [32], UnicodeSpace, 10) == Ok(StrictSpec.State([119, 111, 114, 108, 100, 32], CharPos(6, 1), CharPos(6, 1), [[72, 101, 108, 108, 111, 32]]));
    }
  }

  lemma HelloStrictPart8()
    ensures StrictRun(StrictSpec.State([119, 111, 114, 108, 100, 32], CharPos(6, 1), CharPos(6, 1), [[72, 101, 108, 108, 111, 32]]), [[116], [104]], UnicodeSpace, 10)
            == Ok(StrictSpec.State([119, 111, 114, 108, 100, 32, 116, 104], CharPos(6, 1), CharPos(8, 1), [[72, 101, 108, 108, 111, 32]]))
  {
    assert StrictRun(StrictSpec.State([119, 111, 114, 108, 100, 32], CharPos(6, 1), CharPos(6, 1), [[72, 101, 108, 108, 111, 32]]), [[116], [104]], UnicodeSpace, 10) == StrictRun(StrictSpec.State([119, 111, 114, 108, 100, 32, 116], CharPos(6, 1), CharPos(7, 1), [[72, 101, 108, 108, 111, 32]]), [[104]], UnicodeSpace, 10) by {
      assert [119, 111, 114, 108, 100, 32] + [116] == [119, 111, 114, 108, 100, 32, 116];
      assert StrictSpec.Step(StrictSpec.State([119, 111, 114, 108, 100, 32], CharPos(6, 1), CharPos(6, 1), [[72, 101, 108, 108, 111, 32]]), [116], UnicodeSpace, 10) == Ok(StrictSpec.State([119, 111, 114, 108, 100, 32, 116], CharPos(6, 1), CharPos(7, 1), [[72, 101, 108, 108, 111, 32]]));
    }
    assert StrictRun(StrictSpec.State([119, 111, 114, 108, 100, 32, 116], CharPos(6, 1), CharPos(7, 1), [[72, 101, 108, 108, 111, 32]]), [[104]], UnicodeSpace, 10) == StrictRun(StrictSpec.State([119, 111, 114, 108, 100, 32, 116, 104], CharPos(6, 1), CharPos(8, 1), [[72, 101, 108, 108, 111, 32]]), [], UnicodeSpace, 10) by {
      assert [119, 111, 114, 108, 100, 32, 116] + [104] == [119, 111, 114, 108, 100, 32, 116, 104];
      assert StrictSpec.Step(StrictSpec.State([119, 111, 114, 108, 100, 32, 116], CharPos(6, 1), CharPos(7, 1), [[72, 101, 108, 108, 111, 32]]), [104], UnicodeSpace, 10) == Ok(StrictSpec.State([119, 111, 114, 108, 100, 32, 116, 104], CharPos(6, 1), CharPos(8, 1), [[72, 101, 108, 108, 111, 32]]));
    }
  }

  lemma HelloStrictPart9()
    ensures StrictRun(StrictSpec.State([119, 111, 114, 108, 100, 32, 116, 104], CharPos(6, 1), CharPos(8, 1), [[72, 101, 108, 108, 111, 32]]), [[105]], UnicodeSpace, 10)
            == Ok(StrictSpec.State([119, 111, 114, 108, 100, 32, 116, 104, 105], CharPos(6, 1), CharPos(9, 1), [[72, 101, 108, 108, 111, 32]]))
  {
    assert StrictRun(StrictSpec.State([119, 111, 114, 108, 100, 32, 116, 104], CharPos(6, 1), CharPos(8, 1), [[72, 101, 108, 108, 111, 32]]), [[105]], UnicodeSpace, 10) == StrictRun(StrictSpec.State([119, 111, 114, 108, 100, 32, 116, 104, 105], CharPos(6, 1), CharPos(9, 1), [[72, 101, 108, 108, 111, 32]]), [], UnicodeSpace, 10) by {
      assert [119, 111, 114, 108, 100, 32, 116, 104] + [105] == [119, 111, 114, 108, 100, 32, 116, 104, 105];
      assert StrictSpec.Step(StrictSpec.State([119, 111, 114, 108, 100, 32, 116, 104], CharPos(6, 1), CharPos(8, 1), [[72, 101, 108, 108, 111, 32]]), [105], UnicodeSpace, 10) == Ok(StrictSpec.State([119, 111, 114, 108, 100, 32, 116, 104, 105], CharPos(6, 1), CharPos(9, 1), [[72, 101, 108, 108, 111, 32]]));
    }
  }

  lemma HelloStrictPart10()
    ensures StrictRun(StrictSpec.State([119, 111, 114, 108, 100, 32, 116, 104, 105], CharPos(6, 1), CharPos(9, 1), [[72, 101, 108, 108, 111, 32]]), [[115]], UnicodeSpace, 10)
            == Ok(StrictSpec.State([116, 104, 105, 115], CharPos(0, 0), CharPos(4, 1), [[72, 101, 108, 108, 111, 32], [119, 111, 114, 108, 100, 32]]))
  {
    assert StrictRun(StrictSpec.State([119, 111, 114, 108, 100, 32, 116, 104, 105], CharPos(6, 1), CharPos(9, 1), [[72, 101, 108, 108, 111, 32]]), [[115]], UnicodeSpace, 10) == StrictRun(StrictSpec.State([116, 104, 105, 115], CharPos(0, 0), CharPos(4, 1), [[72, 101, 108, 108, 111, 32], [119, 111, 114, 108, 100, 32]]), [], UnicodeSpace, 10) by {
      assert [119, 111, 114, 108, 100, 32, 116, 104, 105] + [115] == [119, 111, 114, 108, 100, 32, 116, 104, 105, 115];
      assert [119, 111, 114, 108, 100, 32, 116, 104, 105, 115][..6] == [119, 111, 114, 108, 100, 32];
      assert [119, 111, 114, 108, 100, 32, 116, 104, 105, 115][6..] == [116, 104, 105, 115];
      assert [[72, 101, 108, 108, 111, 32]] + [[119, 111, 114, 108, 100, 32]] == [[72, 101, 108, 108, 111, 32], [119, 111, 114, 108, 100, 32]];
      assert StrictSpec.Emit([[72, 101, 108, 108, 111, 32]], [119, 111, 114, 108, 100, 32], [116, 104, 105, 115], [115], 10) == Ok(StrictSpec.State([116, 104, 105, 115], CharPos(0, 0), CharPos(4, 1), [[72, 101, 108, 108, 111, 32], [119, 111, 114, 108, 100, 32]]));
      assert StrictSpec.Step(StrictSpec.State([119, 111, 114, 108, 100, 32, 116, 104, 105], CharPos(6, 1), CharPos(9, 1), [[72, 101, 108, 108, 111, 32]]), [115], UnicodeSpace, 10) == Ok(StrictSpec.State([116, 104, 105, 115], CharPos(0, 0), CharPos(4, 1), [[72, 101, 108, 108, 111, 32], [119, 111, 114, 108, 100, 32]]));
    }
  }

  lemma HelloStrictPart11()
    ensures StrictRun(StrictSpec.State([116, 104, 105, 115], CharPos(0, 0), CharPos(4, 1), [[72, 101, 108, 108, 111, 32], [119, 111, 114, 108, 100, 32]]), [[32], [105]], UnicodeSpace, 10)
            == Ok(StrictSpec.State([116, 104, 105, 115, 32, 105], CharPos(5, 1), CharPos(6, 1), [[72, 101, 108, 108, 111, 32], [119, 111, 114, 108, 100, 32]]))
  {
    assert StrictRun(StrictSpec.State([116, 104, 105, 115], CharPos(0, 0), CharPos(4, 1), [[72, 101, 108, 108, 111, 32], [119, 111, 114, 108, 100, 32]]), [[32], [105]], UnicodeSpace, 10) == StrictRun(StrictSpec.State([116, 104, 105, 115, 32], CharPos(5, 1), CharPos(5, 1), [[72, 101, 108, 108, 111, 32], [119, 111, 114, 108, 100, 32]]), [[105]], UnicodeSpace, 10) by {
      assert [116, 104, 105, 115] + [32] == [116, 104, 105, 115, 32];
      assert StrictSpec.Step(StrictSpec.State([116, 104, 105, 115], CharPos(0, 0), CharPos(4, 1), [[72, 101, 108, 108, 111, 32], [119, 111, 114, 108, 100, 32]]), [32], UnicodeSpace, 10) == Ok(StrictSpec.State([116, 104, 105, 115, 32], CharPos(5, 1), CharPos(5, 1), [[72, 101, 108, 108, 111, 32], [119, 111, 114, 108, 100, 32]]));
    }
    assert StrictRun(StrictSpec.State([116, 104, 105, 115, 32], CharPos(5, 1), CharPos(5, 1), [[72, 101, 108, 108, 111, 32], [119, 111, 114, 108, 100, 32]]), [[105]], UnicodeSpace, 10) == StrictRun(StrictSpec.State([116, 104, 105, 115, 32, 105], CharPos(5, 1), CharPos(6, 1), [[72, 101, 108, 108, 111, 32], [119, 111, 114, 108, 100, 32]]), [], UnicodeSpace, 10) by {
      assert [116, 104, 105, 115, 32] + [105] == [116, 104, 105, 115, 32, 105];
      assert StrictSpec.Step(StrictSpec.State([116, 104, 105, 115, 32], CharPos(5, 1), CharPos(5, 1), [[72, 101, 108, 108, 111, 32], [119, 111, 114, 108, 100, 32]]), [105], UnicodeSpace, 10) == Ok(StrictSpec.State([116, 104, 105, 115, 32, 105], CharPos(5, 1), CharPos(6, 1), [[72, 101, 108, 108, 111, 32], [119, 111, 114, 108, 100, 32]]));
    }
  }

  lemma HelloStrictPart12()
    ensures StrictRun(StrictSpec.State([116, 104, 105, 115, 32, 105], CharPos(5, 1), CharPos(6, 1), [[72, 101, 108, 108, 111, 32], [119, 111, 114, 108, 100, 32]]), [[115], [32]], UnicodeSpace, 10)
            == Ok(StrictSpec.State([116, 104, 105, 115, 32, 105, 115, 32], CharPos(8, 1), CharPos(8, 1), [[72, 101, 108, 108, 111, 32], [119, 111, 114, 108, 100, 32]]))
  {
    assert StrictRun(StrictSpec.State([116, 104, 105, 115, 32, 105], CharPos(5, 1), CharPos(6, 1), [[72, 101, 108, 108, 111, 32], [119, 111, 114, 108, 100, 32]]), [[115], [32]], UnicodeSpace, 10) == StrictRun(StrictSpec.State([116, 104, 105, 115, 32, 105, 115], CharPos(5, 1), CharPos(7, 1), [[72, 101, 108, 108, 111, 32], [119, 111, 114, 108, 100, 32]]), [[32]], UnicodeSpace, 10) by {
      assert [116, 104, 105, 115, 32, 105] + [115] == [116, 104, 105, 115, 32, 105, 115];
      assert StrictSpec.Step(StrictSpec.State([116, 104, 105, 115, 32, 105], CharPos(5, 1), CharPos(6, 1), [[72, 101, 108, 108, 111, 32], [119, 111, 114, 108, 100, 32]]), [115], UnicodeSpace, 10) == Ok(StrictSpec.State([116, 104, 105, 115, 32, 105, 115], CharPos(5, 1), CharPos(7, 1), [[72, 101, 108, 108, 111, 32], [119, 111, 114, 108, 100, 32]]));
    }
    assert StrictRun(StrictSpec.State([116, 104, 105, 115, 32, 105, 115], CharPos(5, 1), CharPos(7, 1), [[72, 101, 108, 108, 111, 32], [119, 111, 114, 108, 100, 32]]), [[32]], UnicodeSpace, 10) == StrictRun(StrictSpec.State([116, 104, 105, 115, 32, 105, 115, 32], CharPos(8, 1), CharPos(8, 1), [[72, 101, 108, 108, 111, 32], [119, 111, 114, 108, 100, 32]]), [], UnicodeSpace, 10) by {
      assert [116, 104, 105, 115, 32, 105, 115] + [32] == [116, 104, 105, 115, 32, 105, 115, 32];
      assert StrictSpec.Step(StrictSpec.State([116, 104, 105, 115, 32, 105, 115], CharPos(5, 1), CharPos(7, 1), [[72, 101, 108, 108, 111, 32], [119, 111, 114, 108, 100, 32]]), [32], UnicodeSpace, 10) == Ok(StrictSpec.State([116, 104, 105, 115, 32, 105, 115, 32], CharPos(8, 1), CharPos(8, 1), [[72, 101, 108, 108, 111, 32], [119, 111, 114, 108, 100, 32]]));
    }
  }

  lemma HelloStrictPart13()
    ensures StrictRun(StrictSpec.State([116, 104, 105, 115, 32, 105, 115, 32], CharPos(8, 1), CharPos(8, 1), [[72, 101, 108, 108, 111, 32], [119, 111, 114, 108, 100, 32]]), [[97]], UnicodeSpace, 10)
            == Ok(StrictSpec.State([116, 104, 105, 115, 32, 105, 115, 32, 97], CharPos(8, 1), CharPos(9, 1), [[72, 101, 108, 108, 111, 32], [119, 111, 114, 108, 100, 32]]))
  {
    assert StrictRun(StrictSpec.State([116, 104, 105, 115, 32, 105, 115, 32], CharPos(8, 1), CharPos(8, 1), [[72, 101, 108, 108, 111, 32], [119, 111, 114, 108, 100, 32]]), [[97]], UnicodeSpace, 10) == StrictRun(StrictSpec.State([116, 104, 105, 115, 32, 105, 115, 32, 97], CharPos(8, 1), CharPos(9, 1), [[72, 101, 108, 108, 111, 32], [119, 111, 114, 108, 100, 32]]), [], UnicodeSpace, 10) by {
      assert [116, 104, 105, 115, 32, 105, 115, 32] + [97] == [116, 104, 105, 115, 32, 105, 115, 32, 97];
      assert StrictSpec.Step(StrictSpec.State([116, 104, 105, 115, 32, 105, 115, 32], CharPos(8, 1), CharPos(8, 1), [[72, 101, 108, 108, 111, 32], [119, 111, 114, 108, 100, 32]]), [97], UnicodeSpace, 10) == Ok(StrictSpec.State([116, 104, 105, 115, 32, 105, 115, 32, 97], CharPos(8, 1), CharPos(9, 1), [[72, 101, 108, 108, 111, 32], [119, 111, 114, 108, 100, 32]]));
    }
  }

  lemma HelloStrictPart14()
    ensures StrictRun(StrictSpec.State([116, 104, 105, 115, 32, 105, 115, 32, 97], CharPos(8, 1), CharPos(9, 1), [[72, 101, 108, 108, 111, 32], [119, 111, 114, 108, 100, 32]]), [[32]], UnicodeSpace, 10)
            == Ok(StrictSpec.State([], CharPos(0, 0), CharPos(0, 1), [[72, 101, 108, 108, 111, 32], [119, 111, 114, 108, 100, 32], [116, 104, 105, 115, 32, 105, 115, 32, 97, 32]]))
  {
    assert StrictRun(StrictSpec.State([116, 104, 105, 115, 32, 105, 115, 32, 97], CharPos(8, 1), CharPos(9, 1), [[72, 101, 108, 108, 111, 32], [119, 111, 114, 108, 100, 32]]), [[32]], UnicodeSpace, 10) == StrictRun(StrictSpec.State([], CharPos(0, 0), CharPos(0, 1), [[72, 101, 108, 108, 111, 32], [119, 111, 114, 108, 100, 32], [116, 104, 105, 115, 32, 105, 115, 32, 97, 32]]), [], UnicodeSpace, 10) by {
      assert [116, 104, 105, 115, 32, 105, 115, 32, 97] + [32] == [116, 104, 105, 115, 32, 105, 115, 32, 97, 32];
      assert [116, 104, 105, 115, 32, 105, 115, 32, 97, 32][..10] == [116, 104, 105, 115, 32, 105, 115, 32, 97, 32];
      assert [116, 104, 105, 115, 32, 105, 115, 32, 97, 32][10..] == [];
      assert [[72, 101, 108, 108, 111, 32], [119, 111, 114, 108, 100, 32]] + [[116, 104, 105, 115, 32, 105, 115, 32, 97, 32]] == [[72, 101, 108, 108, 111, 32], [119, 111, 114, 108, 100, 32], [116, 104, 105, 115, 32, 105, 115, 32, 97, 32]];
      assert StrictSpec.Emit([[72, 101, 108, 108, 111, 32], [119, 111, 114, 108, 100, 32]], [116, 104, 105, 115, 32, 105, 115, 32, 97, 32], [], [32], 10) == Ok(StrictSpec.State([], CharPos(0, 0), CharPos(0, 1), [[72, 101, 108, 108, 111, 32], [119, 111, 114, 108, 100, 32], [116, 104, 105, 115, 32, 105, 115, 32, 97, 32]]));
      assert StrictSpec.Step(StrictSpec.State([116, 104, 105, 115, 32, 105, 115, 32, 97], CharPos(8, 1), CharPos(9, 1), [[72, 101, 108, 108, 111, 32], [119, 111, 114, 108, 100, 32]]), [32], UnicodeSpace, 10) == Ok(StrictSpec.State([], CharPos(0, 0), CharPos(0, 1), [[72, 101, 108, 108, 111, 32], [119, 111, 114, 108, 100, 32], [116, 104, 105, 115, 32, 105, 115, 32, 97, 32]]));
    }
  }

  lemma HelloStrictPart15()
    ensures StrictRun(StrictSpec.State([], CharPos(0, 0), CharPos(0, 1), [[72, 101, 108, 108, 111, 32], [119, 111, 114, 108, 100, 32], [116, 104, 105, 115, 32, 105, 115, 32, 97, 32]]), [[116], [101]], UnicodeSpace, 10)
            == Ok(StrictSpec.State([116, 101], CharPos(0, 0), CharPos(2, 1), [[72, 101, 108, 108, 111, 32], [119, 111, 114, 108, 100, 32], [116, 104, 105, 115, 32, 105, 115, 32, 97, 32]]))
  {
    assert StrictRun(StrictSpec.State([], CharPos(0, 0), CharPos(0, 1), [[72, 101, 108, 108, 111, 32], [119, 111, 114, 108, 100, 32], [116, 104, 105, 115, 32, 105, 115, 32, 97, 32]]), [[116], [101]], UnicodeSpace, 10) == StrictRun(StrictSpec.State([116], CharPos(0, 0), CharPos(1, 1), [[72, 101, 108, 108, 111, 32], [119, 111, 114, 108, 100, 32], [116, 104, 105, 115, 32, 105, 115, 32, 97, 32]]), [[101]], UnicodeSpace, 10) by {
      assert [] + [116] == [116];
      assert StrictSpec.Step(StrictSpec.State([], CharPos(0, 0), CharPos(0, 1), [[72, 101, 108, 108, 111, 32], [119, 111, 114, 108, 100, 32], [116, 104, 105, 115, 32, 105, 115, 32, 97, 32]]), [116], UnicodeSpace, 10) == Ok(StrictSpec.State([116], CharPos(0, 0), CharPos(1, 1), [[72, 101, 108, 108, 111, 32], [119, 111, 114, 108, 100, 32], [116, 104, 105, 115, 32, 105, 115, 32, 97, 32]]));
    }
    assert StrictRun(StrictSpec.State([116], CharPos(0, 0), CharPos(1, 1), [[72, 101, 108, 108, 111, 32], [119, 111, 114, 108, 100, 32], [116, 104, 105, 115, 32, 105, 115, 32, 97, 32]]), [[101]], UnicodeSpace, 10) == StrictRun(StrictSpec.State([116, 101], CharPos(0, 0), CharPos(2, 1), [[72, 101, 108, 108, 111, 32], [119, 111, 114, 108, 100, 32], [116, 104, 105, 115, 32, 105, 115, 32, 97, 32]]), [], UnicodeSpace, 10) by {
      assert [116] + [101] == [116, 101];
      assert StrictSpec.Step(StrictSpec.State([116], CharPos(0, 0), CharPos(1, 1), [[72, 101, 108, 108, 111, 32], [119, 111, 114, 108, 100, 32], [116, 104, 105, 115, 32, 105, 115, 32, 97, 32]]), [101], UnicodeSpace, 10) == Ok(StrictSpec.State([116, 101], CharPos(0, 0), CharPos(2, 1), [[72, 101, 108, 108, 111, 32], [119, 111, 114, 108, 100, 32], [116, 104, 105, 115, 32, 105, 115, 32, 97, 32]]));
    }
  }

  lemma HelloStrictPart16()
    ensures StrictRun(StrictSpec.State([116, 101], CharPos(0, 0), CharPos(2, 1), [[72, 101, 108, 108, 111, 32], [119, 111, 114, 108, 100, 32], [116, 104, 105, 115, 32, 105, 115, 32, 97, 32]]), [[115], [116]], UnicodeSpace, 10)
            == Ok(StrictSpec.State([116, 101, 115, 116], CharPos(0, 0), CharPos(4, 1), [[72, 101, 108, 108, 111, 32], [119, 111, 114, 108, 100, 32], [116, 104, 105, 115, 32, 105, 115, 32, 97, 32]]))
  {
    assert StrictRun(StrictSpec.State([116, 101], CharPos(0, 0), CharPos(2, 1), [[72, 101, 108, 108, 111, 32], [119, 111, 114, 108, 100, 32], [116, 104, 105, 115, 32, 105, 115, 32, 97, 32]]), [[115], [116]], UnicodeSpace, 10) == StrictRun(StrictSpec.State([116, 101, 115], CharPos(0, 0), CharPos(3, 1), [[72, 101, 108, 108, 111, 32], [119, 111, 114, 108, 100, 32], [116, 104, 105, 115, 32, 105, 115, 32, 97, 32]]), [[116]], UnicodeSpace, 10) by {
      assert [116, 101] + [115] == [116, 101, 115];
      assert StrictSpec.Step(StrictSpec.State([116, 101], CharPos(0, 0), CharPos(2, 1), [[72, 101, 108, 108, 111, 32], [119, 111, 114, 108, 100, 32], [116, 104, 105, 115, 32, 105, 115, 32, 97, 32]]), [115], UnicodeSpace, 10) == Ok(StrictSpec.State([116, 101, 115], CharPos(0, 0), CharPos(3, 1), [[72, 101, 108, 108, 111, 32], [119, 111, 114, 108, 100, 32], [116, 104, 105, 115, 32, 105, 115, 32, 97, 32]]));
    }
    assert StrictRun(StrictSpec.State([116, 101, 115], CharPos(0, 0), CharPos(3, 1), [[72, 101, 108, 108, 111, 32], [119, 111, 114, 108, 100, 32], [116, 104, 105, 115, 32, 105, 115, 32, 97, 32]]), [[116]], UnicodeSpace, 10) == StrictRun(StrictSpec.State([116, 101, 115, 116], CharPos(0, 0), CharPos(4, 1), [[72, 101, 108, 108, 111, 32], [119, 111, 114, 108, 100, 32], [116, 104, 105, 115, 32, 105, 115, 32, 97, 32]]), [], UnicodeSpace, 10) by {
      assert [116, 101, 115] + [116] == [116, 101, 115, 116];
      assert StrictSpec.Step(StrictSpec.State([116, 101, 115], CharPos(0, 0), CharPos(3, 1), [[72, 101, 108, 108, 111, 32], [119, 111, 114, 108, 100, 32], [116, 104, 105, 115, 32, 105, 115, 32, 97, 32]]), [116], UnicodeSpace, 10) == Ok(StrictSpec.State([116, 101, 115, 116], CharPos(0, 0), CharPos(4, 1), [[72, 101, 108, 108, 111, 32], [119, 111, 114, 108, 100, 32], [116, 104, 105, 115, 32, 105, 115, 32, 97, 32]]));
    }
  }

  /** Every cluster of Hello is non-empty. */
  lemma HelloNonEmpty()
    ensures AllNonEmpty(Hello)
  {
    ConcatNonEmptyPieces([[116], [101]], [[115], [116]]);
    ConcatNonEmptyPieces([[32]], [[116], [101]] + ([[115], [116]]));
    ConcatNonEmptyPieces([[97]], [[32]] + ([[116], [101]] + ([[115], [116]])));
    ConcatNonEmptyPieces([[115], [32]], [[97]] + ([[32]] + ([[116], [101]] + ([[115], [116]]))));
    ConcatNonEmptyPieces([[32], [105]], [[115], [32]] + ([[97]] + ([[32]] + ([[116], [101]] + ([[115], [116]])))));
    ConcatNonEmptyPieces([[115]], [[32], [105]] + ([[115], [32]] + ([[97]] + ([[32]] + ([[116], [101]] + ([[115], [116]]))))));
    ConcatNonEmptyPieces([[105]], [[115]] + ([[32], [105]] + ([[115], [32]] + ([[97]] + ([[32]] + ([[116], [101]] + ([[115], [116]])))))));
    ConcatNonEmptyPieces([[116], [104]], [[105]] + ([[115]] + ([[32], [105]] + ([[115], [32]] + ([[97]] + ([[32]] + ([[116], [101]] + ([[115], [116]]))))))));
    ConcatNonEmptyPieces([[100], [32]], [[116], [104]] + ([[105]] + ([[115]] + ([[32], [105]] + ([[115], [32]] + ([[97]] + ([[32]] + ([[116], [101]] + ([[115], [116]])))))))));
    ConcatNonEmptyPieces([[108]], [[100], [32]] + ([[116], [104]] + ([[105]] + ([[115]] + ([[32], [105]] + ([[115], [32]] + ([[97]] + ([[32]] + ([[116], [101]] + ([[115], [116]]))))))))));
    ConcatNonEmptyPieces([[114]], [[108]] + ([[100], [32]] + ([[116], [104]] + ([[105]] + ([[115]] + ([[32], [105]] + ([[115], [32]] + ([[97]] + ([[32]] + ([[116], [101]] + ([[115], [116]])))))))))));
    ConcatNonEmptyPieces([[119], [111]], [[114]] + ([[108]] + ([[100], [32]] + ([[116], [104]] + ([[105]] + ([[115]] + ([[32], [105]] + ([[115], [32]] + ([[97]] + ([[32]] + ([[116], [101]] + ([[115], [116]]))))))))))));
    ConcatNonEmptyPieces([[111], [32]], [[119], [111]] + ([[114]] + ([[108]] + ([[100], [32]] + ([[116], [104]] + ([[105]] + ([[115]] + ([[32], [105]] + ([[115], [32]] + ([[97]] + ([[32]] + ([[116], [101]] + ([[115], [116]])))))))))))));
    ConcatNonEmptyPieces([[108], [108]], [[111], [32]] + ([[119], [111]] + ([[114]] + ([[108]] + ([[100], [32]] + ([[116], [104]] + ([[105]] + ([[115]] + ([[32], [105]] + ([[115], [32]] + ([[97]] + ([[32]] + ([[116], [101]] + ([[115], [116]]))))))))))))));
    ConcatNonEmptyPieces([[72], [101]], [[108], [108]] + ([[111], [32]] + ([[119], [111]] + ([[114]] + ([[108]] + ([[100], [32]] + ([[116], [104]] + ([[105]] + ([[115]] + ([[32], [105]] + ([[115], [32]] + ([[97]] + ([[32]] + ([[116], [101]] + ([[115], [116]])))))))))))))));
  }

  /** SplitString's cluster loop over Hello at limit 10. */
  lemma HelloStrictScan()
    ensures AllNonEmpty(Hello)
    ensures StrictSpec.Scan(Hello, UnicodeSpace, 10) == Ok(StrictSpec.State([116, 101, 115, 116], CharPos(0, 0), CharPos(4, 1), [[72, 101, 108, 108, 111, 32], [119, 111, 114, 108, 100, 32], [116, 104, 105, 115, 32, 105, 115, 32, 97, 32]]))
  {
    HelloStrictPart1();
    StrictRunAppend(StrictSpec.State([], CharPos(0, 0), CharPos(0, 0), []), [[72], [101]],
                    [[108], [108]] + ([[111], [32]] + ([[119], [111]] + ([[114]] + ([[108]] + ([[100], [32]] + ([[116], [104]] + ([[105]] + ([[115]] + ([[32], [105]] + ([[115], [32]] + ([[97]] + ([[32]] + ([[116], [101]] + ([[115], [116]])))))))))))))), UnicodeSpace, 10);
    HelloStrictPart2();
    StrictRunAppend(StrictSpec.State([72, 101], CharPos(0, 0), CharPos(2, 1), []), [[108], [108]],
                    [[111], [32]] + ([[119], [111]] + ([[114]] + ([[108]] + ([[100], [32]] + ([[116], [104]] + ([[105]] + ([[115]] + ([[32], [105]] + ([[115], [32]] + ([[97]] + ([[32]] + ([[116], [101]] + ([[115], [116]]))))))))))))), UnicodeSpace, 10);
    HelloStrictPart3();
    StrictRunAppend(StrictSpec.State([72, 101, 108, 108], CharPos(0, 0), CharPos(4, 1), []), [[111], [32]],
                    [[119], [111]] + ([[114]] + ([[108]] + ([[100], [32]] + ([[116], [104]] + ([[105]] + ([[115]] + ([[32], [105]] + ([[115], [32]] + ([[97]] + ([[32]] + ([[116], [101]] + ([[115], [116]])))))))))))), UnicodeSpace, 10);
    HelloStrictPart4();
    StrictRunAppend(StrictSpec.State([72, 101, 108, 108, 111, 32], CharPos(6, 1), CharPos(6, 1), []), [[119], [111]],
                    [[114]] + ([[108]] + ([[100], [32]] + ([[116], [104]] + ([[105]] + ([[115]] + ([[32], [105]] + ([[115], [32]] + ([[97]] + ([[32]] + ([[116], [101]] + ([[115], [116]]))))))))))), UnicodeSpace, 10);
    HelloStrictPart5();
    StrictRunAppend(StrictSpec.State([72, 101, 108, 108, 111, 32, 119, 111], CharPos(6, 1), CharPos(8, 1), []), [[114]],
                    [[108]] + ([[100], [32]] + ([[116], [104]] + ([[105]] + ([[115]] + ([[32], [105]] + ([[115], [32]] + ([[97]] + ([[32]] + ([[116], [101]] + ([[115], [116]])))))))))), UnicodeSpace, 10);
    HelloStrictPart6();
    StrictRunAppend(StrictSpec.State([72, 101, 108, 108, 111, 32, 119, 111, 114], CharPos(6, 1), CharPos(9, 1), []), [[108]],
                    [[100], [32]] + ([[116], [104]] + ([[105]] + ([[115]] + ([[32], [105]] + ([[115], [32]] + ([[97]] + ([[32]] + ([[116], [101]] + ([[115], [116]]))))))))), UnicodeSpace, 10);
    HelloStrictPart7();
    StrictRunAppend(StrictSpec.State([119, 111, 114, 108], CharPos(0, 0), CharPos(4, 1), [[72, 101, 108, 108, 111, 32]]), [[100], [32]],
                    [[116], [104]] + ([[105]] + ([[115]] + ([[32], [105]] + ([[115], [32]] + ([[97]] + ([[32]] + ([[116], [101]] + ([[115], [116]])))))))), UnicodeSpace, 10);
    HelloStrictPart8();
    StrictRunAppend(StrictSpec.State([119, 111, 114, 108, 100, 32], CharPos(6, 1), CharPos(6, 1), [[72, 101, 108, 108, 111, 32]]), [[116], [104]],
                    [[105]] + ([[115]] + ([[32], [105]] + ([[115], [32]] + ([[97]] + ([[32]] + ([[116], [101]] + ([[115], [116]]))))))), UnicodeSpace, 10);
    HelloStrictPart9();
    StrictRunAppend(StrictSpec.State([119, 111, 114, 108, 100, 32, 116, 104], CharPos(6, 1), CharPos(8, 1), [[72, 101, 108, 108, 111, 32]]), [[105]],
                    [[115]] + ([[32], [105]] + ([[115], [32]] + ([[97]] + ([[32]] + ([[116], [101]] + ([[115], [116]])))))), UnicodeSpace, 10);
    HelloStrictPart10();
    StrictRunAppend(StrictSpec.State([119, 111, 114, 108, 100, 32, 116, 104, 105], CharPos(6, 1), CharPos(9, 1), [[72, 101, 108, 108, 111, 32]]), [[115]],
                    [[32], [105]] + ([[115], [32]] + ([[97]] + ([[32]] + ([[116], [101]] + ([[115], [116]]))))), UnicodeSpace, 10);
    HelloStrictPart11();
    StrictRunAppend(StrictSpec.State([116, 104, 105, 115], CharPos(0, 0), CharPos(4, 1), [[72, 101, 108, 108, 111, 32], [119, 111, 114, 108, 100, 32]]), [[32], [105]],
                    [[115], [32]] + ([[97]] + ([[32]] + ([[116], [101]] + ([[115], [116]])))), UnicodeSpace, 10);
    HelloStrictPart12();
    StrictRunAppend(StrictSpec.State([116, 104, 105, 115, 32, 105], CharPos(5, 1), CharPos(6, 1), [[72, 101, 108, 108, 111, 32], [119, 111, 114, 108, 100, 32]]), [[115], [32]],
                    [[97]] + ([[32]] + ([[116], [101]] + ([[115], [116]]))), UnicodeSpace, 10);
    HelloStrictPart13();
    StrictRunAppend(StrictSpec.State([116, 104, 105, 115, 32, 105, 115, 32], CharPos(8, 1), CharPos(8, 1), [[72, 101, 108, 108, 111, 32], [119, 111, 114, 108, 100, 32]]), [[97]],
                    [[32]] + ([[116], [101]] + ([[115], [116]])), UnicodeSpace, 10);
    HelloStrictPart14();
    StrictRunAppend(StrictSpec.State([116, 104, 105, 115, 32, 105, 115, 32, 97], CharPos(8, 1), CharPos(9, 1), [[72, 101, 108, 108, 111, 32], [119, 111, 114, 108, 100, 32]]), [[32]],
                    [[116], [101]] + ([[115], [116]]), UnicodeSpace, 10);
    HelloStrictPart15();
    StrictRunAppend(StrictSpec.State([], CharPos(0, 0), CharPos(0, 1), [[72, 101, 108, 108, 111, 32], [119, 111, 114, 108, 100, 32], [116, 104, 105, 115, 32, 105, 115, 32, 97, 32]]), [[116], [101]],
                    [[115], [116]], UnicodeSpace, 10);
    HelloStrictPart16();
    HelloNonEmpty();
    StrictScanIsRun(Hello, UnicodeSpace, 10);
  }

  /** The lines of Hello joined with newlines. */
  lemma HelloStrictJoined()
    ensures Joined([[72, 101, 108, 108, 111, 32], [119, 111, 114, 108, 100, 32], [116, 104, 105, 115, 32, 105, 115, 32, 97, 32], [116, 101, 115, 116]], [10]) == [72, 101, 108, 108, 111, 32, 10, 119, 111, 114, 108, 100, 32, 10, 116, 104, 105, 115, 32, 105, 115, 32, 97, 32, 10, 116, 101, 115, 116]
  {
    assert [[72, 101, 108, 108, 111, 32], [119, 111, 114, 108, 100, 32], [116, 104, 105, 115, 32, 105, 115, 32, 97, 32], [116, 101, 115, 116]][..3] == [[72, 101, 108, 108, 111, 32], [119, 111, 114, 108, 100, 32], [116, 104, 105, 115, 32, 105, 115, 32, 97, 32]];
    assert [[72, 101, 108, 108, 111, 32], [119, 111, 114, 108, 100, 32], [116, 104, 105, 115, 32, 105, 115, 32, 97, 32]][..2] == [[72, 101, 108, 108, 111, 32], [119, 111, 114, 108, 100, 32]];
    assert [[72, 101, 108, 108, 111, 32], [119, 111, 114, 108, 100, 32]][..1] == [[72, 101, 108, 108, 111, 32]];
    assert [72, 101, 108, 108, 111, 32] + [10] + [119, 111, 114, 108, 100, 32] == [72, 101, 108, 108, 111, 32, 10, 119, 111, 114, 108, 100, 32];
    assert [72, 101, 108, 108, 111, 32, 10, 119, 111, 114, 108, 100, 32] + [10] + [116, 104, 105, 115, 32, 105, 115, 32, 97, 32] == [72, 101, 108, 108, 111, 32, 10, 119, 111, 114, 108, 100, 32, 10, 116, 104, 105, 115, 32, 105, 115, 32, 97, 32];
    assert [72, 101, 108, 108, 111, 32, 10, 119, 111, 114, 108, 100, 32, 10, 116, 104, 105, 115, 32, 105, 115, 32, 97, 32] + [10] + [116, 101, 115, 116] == [72, 101, 108, 108, 111, 32, 10, 119, 111, 114, 108, 100, 32, 10, 116, 104, 105, 115, 32, 105, 115, 32, 97, 32, 10, 116, 101, 115, 116];
  }

  /** TestWrapString, first case: at limit 10 SplitString cuts after each last space that fits, and WrapString joins the lines with newlines, giving "Hello \nworld \nthis is a \ntest". */
  lemma WrapHello()
    ensures StrictSpec.SplitLines(Hello, UnicodeSpace, 10) == Ok([[72, 101, 108, 108, 111, 32], [119, 111, 114, 108, 100, 32], [116, 104, 105, 115, 32, 105, 115, 32, 97, 32], [116, 101, 115, 116]])
    ensures Joined([[72, 101, 108, 108, 111, 32], [119, 111, 114, 108, 100, 32], [116, 104, 105, 115, 32, 105, 115, 32, 97, 32], [116, 101, 115, 116]], [10]) == [72, 101, 108, 108, 111, 32, 10, 119, 111, 114, 108, 100, 32, 10, 116, 104, 105, 115, 32, 105, 115, 32, 97, 32, 10, 116, 101, 115, 116]
  {
    HelloStrictScan();
    HelloStrictJoined();
    assert [[72, 101, 108, 108, 111, 32], [119, 111, 114, 108, 100, 32], [116, 104, 105, 115, 32, 105, 115, 32, 97, 32]] + [[116, 101, 115, 116]] == [[72, 101, 108, 108, 111, 32], [119, 111, 114, 108, 100, 32], [116, 104, 105, 115, 32, 105, 115, 32, 97, 32], [116, 101, 115, 116]];
  }

  lemma AsdStrictPart1()
    ensures StrictRun(StrictSpec.State([], CharPos(0, 0), CharPos(0, 0), []), [[97], [115]], UnicodeSpace, 4)
            == Ok(StrictSpec.State([97, 115], CharPos(0, 0), CharPos(2, 1), []))
  {
    assert StrictRun(StrictSpec.State([], CharPos(0, 0), CharPos(0, 0), []), [[97], [115]], UnicodeSpace, 4) == StrictRun(StrictSpec.State([97], CharPos(0, 0), CharPos(1, 1), []), [[115]], UnicodeSpace, 4) by {
      assert [] + [97] == [97];
      assert StrictSpec.Step(StrictSpec.State([], CharPos(0, 0), CharPos(0, 0), []), [97], UnicodeSpace, 4) == Ok(StrictSpec.State([97], CharPos(0, 0), CharPos(1, 1), []));
    }
    assert StrictRun(StrictSpec.State([97], CharPos(0, 0), CharPos(1, 1), []), [[115]], UnicodeSpace, 4) == StrictRun(StrictSpec.State([97, 115], CharPos(0, 0), CharPos(2, 1), []), [], UnicodeSpace, 4) by {
      assert [97] + [115] == [97, 115];
      assert StrictSpec.Step(StrictSpec.State([97], CharPos(0, 0), CharPos(1, 1), []), [115], UnicodeSpace, 4) == Ok(StrictSpec.State([97, 115], CharPos(0, 0), CharPos(2, 1), []));
    }
  }

  lemma AsdStrictPart2()
    ensures StrictRun(StrictSpec.State([97, 115], CharPos(0, 0), CharPos(2, 1), []), [[100]], UnicodeSpace, 4)
            == Ok(StrictSpec.State([97, 115, 100], CharPos(0, 0), CharPos(3, 1), []))
  {
    assert StrictRun(StrictSpec.State([97, 115], CharPos(0, 0), CharPos(2, 1), []), [[100]], UnicodeSpace, 4) == StrictRun(StrictSpec.State([97, 115, 100], CharPos(0, 0), CharPos(3, 1), []), [], UnicodeSpace, 4) by {
      assert [97, 115] + [100] == [97, 115, 100];
      assert StrictSpec.Step(StrictSpec.State([97, 115], CharPos(0, 0), CharPos(2, 1), []), [100], UnicodeSpace, 4) == Ok(StrictSpec.State([97, 115, 100], CharPos(0, 0), CharPos(3, 1), []));
    }
  }

  lemma AsdStrictPart3()
    ensures StrictRun(StrictSpec.State([97, 115, 100], CharPos(0, 0), CharPos(3, 1), []), [[97]], UnicodeSpace, 4)
            == Ok(StrictSpec.State([], CharPos(0, 0), CharPos(0, 1), [[97, 115, 100, 97]]))
  {
    assert StrictRun(StrictSpec.State([97, 115, 100], CharPos(0, 0), CharPos(3, 1), []), [[97]], UnicodeSpace, 4) == StrictRun(StrictSpec.State([], CharPos(0, 0), CharPos(0, 1), [[97, 115, 100, 97]]), [], UnicodeSpace, 4) by {
      assert [97, 115, 100] + [97] == [97, 115, 100, 97];
      assert [97, 115, 100, 97][..4] == [97, 115, 100, 97];
      assert [97, 115, 100, 97][4..] == [];
      assert [] + [[97, 115, 100, 97]] == [[97, 115, 100, 97]];
      assert StrictSpec.Emit([], [97, 115, 100, 97], [], [97], 4) == Ok(StrictSpec.State([], CharPos(0, 0), CharPos(0, 1), [[97, 115, 100, 97]]));
      assert StrictSpec.Step(StrictSpec.State([97, 115, 100], CharPos(0, 0), CharPos(3, 1), []), [97], UnicodeSpace, 4) == Ok(StrictSpec.State([], CharPos(0, 0), CharPos(0, 1), [[97, 115, 100, 97]]));
    }
  }

  lemma AsdStrictPart4()
    ensures StrictRun(StrictSpec.State([], CharPos(0, 0), CharPos(0, 1), [[97, 115, 100, 97]]), [[115], [100]], UnicodeSpace, 4)
            == Ok(StrictSpec.State([115, 100], CharPos(0, 0), CharPos(2, 1), [[97, 115, 100, 97]]))
  {
    assert StrictRun(StrictSpec.State([], CharPos(0, 0), CharPos(0, 1), [[97, 115, 100, 97]]), [[115], [100]], UnicodeSpace, 4) == StrictRun(StrictSpec.State([115], CharPos(0, 0), CharPos(1, 1), [[97, 115, 100, 97]]), [[100]], UnicodeSpace, 4) by {
      assert [] + [115] == [115];
      assert StrictSpec.Step(StrictSpec.State([], CharPos(0, 0), CharPos(0, 1), [[97, 115, 100, 97]]), [115], UnicodeSpace, 4) == Ok(StrictSpec.State([115], CharPos(0, 0), CharPos(1, 1), [[97, 115, 100, 97]]));
    }
    assert StrictRun(StrictSpec.State([115], CharPos(0, 0), CharPos(1, 1), [[97, 115, 100, 97]]), [[100]], UnicodeSpace, 4) == StrictRun(StrictSpec.State([115, 100], CharPos(0, 0), CharPos(2, 1), [[97, 115, 100, 97]]), [], UnicodeSpace, 4) by {
      assert [115] + [100] == [115, 100];
      assert StrictSpec.Step(StrictSpec.State([115], CharPos(0, 0), CharPos(1, 1), [[97, 115, 100, 97]]), [100], UnicodeSpace, 4) == Ok(StrictSpec.State([115, 100], CharPos(0, 0), CharPos(2, 1), [[97, 115, 100, 97]]));
    }
  }

  lemma AsdStrictPart5()
    ensures StrictRun(StrictSpec.State([115, 100], CharPos(0, 0), CharPos(2, 1), [[97, 115, 100, 97]]), [[32]], UnicodeSpace, 4)
            == Ok(StrictSpec.State([115, 100, 32], CharPos(3, 1), CharPos(3, 1), [[97, 115, 100, 97]]))
  {
    assert StrictRun(StrictSpec.State([115, 100], CharPos(0, 0), CharPos(2, 1), [[97, 115, 100, 97]]), [[32]], UnicodeSpace, 4) == StrictRun(StrictSpec.State([115, 100, 32], CharPos(3, 1), CharPos(3, 1), [[97, 115, 100, 97]]), [], UnicodeSpace, 4) by {
      assert [115, 100] + [32] == [115, 100, 32];
      assert StrictSpec.Step(StrictSpec.State([115, 100], CharPos(0, 0), CharPos(2, 1), [[97, 115, 100, 97]]), [32], UnicodeSpace, 4) == Ok(StrictSpec.State([115, 100, 32], CharPos(3, 1), CharPos(3, 1), [[97, 115, 100, 97]]));
    }
  }

  lemma AsdStrictPart6()
    ensures StrictRun(StrictSpec.State([115, 100, 32], CharPos(3, 1), CharPos(3, 1), [[97, 115, 100, 97]]), [[97]], UnicodeSpace, 4)
            == Ok(StrictSpec.State([97], CharPos(0, 0), CharPos(1, 1), [[97, 115, 100, 97], [115, 100, 32]]))
  {
    assert StrictRun(StrictSpec.State([115, 100, 32], CharPos(3, 1), CharPos(3, 1), [[97, 115, 100, 97]]), [[97]], UnicodeSpace, 4) == StrictRun(StrictSpec.State([97], CharPos(0, 0), CharPos(1, 1), [[97, 115, 100, 97], [115, 100, 32]]), [], UnicodeSpace, 4) by {
      assert [115, 100, 32] + [97] == [115, 100, 32, 97];
      assert [115, 100, 32, 97][..3] == [115, 100, 32];
      assert [115, 100, 32, 97][3..] == [97];
      assert [[97, 115, 100, 97]] + [[115, 100, 32]] == [[97, 115, 100, 97], [115, 100, 32]];
      assert StrictSpec.Emit([[97, 115, 100, 97]], [115, 100, 32], [97], [97], 4) == Ok(StrictSpec.State([97], CharPos(0, 0), CharPos(1, 1), [[97, 115, 100, 97], [115, 100, 32]]));
      assert StrictSpec.Step(StrictSpec.State([115, 100, 32], CharPos(3, 1), CharPos(3, 1), [[97, 115, 100, 97]]), [97], UnicodeSpace, 4) == Ok(StrictSpec.State([97], CharPos(0, 0), CharPos(1, 1), [[97, 115, 100, 97], [115, 100, 32]]));
    }
  }

  lemma AsdStrictPart7()
    ensures StrictRun(StrictSpec.State([97], CharPos(0, 0), CharPos(1, 1), [[97, 115, 100, 97], [115, 100, 32]]), [[115], [100]], UnicodeSpace, 4)
            == Ok(StrictSpec.State([97, 115, 100], CharPos(0, 0), CharPos(3, 1), [[97, 115, 100, 97], [115, 100, 32]]))
  {
    assert StrictRun(StrictSpec.State([97], CharPos(0, 0), CharPos(1, 1), [[97, 115, 100, 97], [115, 100, 32]]), [[115], [100]], UnicodeSpace, 4) == StrictRun(StrictSpec.State([97, 115], CharPos(0, 0), CharPos(2, 1), [[97, 115, 100, 97], [115, 100, 32]]), [[100]], UnicodeSpace, 4) by {
      assert [97] + [115] == [97, 115];
      assert StrictSpec.Step(StrictSpec.State([97], CharPos(0, 0), CharPos(1, 1), [[97, 115, 100, 97], [115, 100, 32]]), [115], UnicodeSpace, 4) == Ok(StrictSpec.State([97, 115], CharPos(0, 0), CharPos(2, 1), [[97, 115, 100, 97], [115, 100, 32]]));
    }
    assert StrictRun(StrictSpec.State([97, 115], CharPos(0, 0), CharPos(2, 1), [[97, 115, 100, 97], [115, 100, 32]]), [[100]], UnicodeSpace, 4) == StrictRun(StrictSpec.State([97, 115, 100], CharPos(0, 0), CharPos(3, 1), [[97, 115, 100, 97], [115, 100, 32]]), [], UnicodeSpace, 4) by {
      assert [97, 115] + [100] == [97, 115, 100];
      assert StrictSpec.Step(StrictSpec.State([97, 115], CharPos(0, 0), CharPos(2, 1), [[97, 115, 100, 97], [115, 100, 32]]), [100], UnicodeSpace, 4) == Ok(StrictSpec.State([97, 115, 100], CharPos(0, 0), CharPos(3, 1), [[97, 115, 100, 97], [115, 100, 32]]));
    }
  }

  lemma AsdStrictPart8()
    ensures StrictRun(StrictSpec.State([97, 115, 100], CharPos(0, 0), CharPos(3, 1), [[97, 115, 100, 97], [115, 100, 32]]), [[32]], UnicodeSpace, 4)
            == Ok(StrictSpec.State([], CharPos(0, 0), CharPos(0, 1), [[97, 115, 100, 97], [115, 100, 32], [97, 115, 100, 32]]))
  {
    assert StrictRun(StrictSpec.State([97, 115, 100], CharPos(0, 0), CharPos(3, 1), [[97, 115, 100, 97], [115, 100, 32]]), [[32]], UnicodeSpace, 4) == StrictRun(StrictSpec.State([], CharPos(0, 0), CharPos(0, 1), [[97, 115, 100, 97], [115, 100, 32], [97, 115, 100, 32]]), [], UnicodeSpace, 4) by {
      assert [97, 115, 100] + [32] == [97, 115, 100, 32];
      assert [97, 115, 100, 32][..4] == [97, 115, 100, 32];
      assert [97, 115, 100, 32][4..] == [];
      assert [[97, 115, 100, 97], [115, 100, 32]] + [[97, 115, 100, 32]] == [[97, 115, 100, 97], [115, 100, 32], [97, 115, 100, 32]];
      assert StrictSpec.Emit([[97, 115, 100, 97], [115, 100, 32]], [97, 115, 100, 32], [], [32], 4) == Ok(StrictSpec.State([], CharPos(0, 0), CharPos(0, 1), [[97, 115, 100, 97], [115, 100, 32], [97, 115, 100, 32]]));
      assert StrictSpec.Step(StrictSpec.State([97, 115, 100], CharPos(0, 0), CharPos(3, 1), [[97, 115, 100, 97], [115, 100, 32]]), [32], UnicodeSpace, 4) == Ok(StrictSpec.State([], CharPos(0, 0), CharPos(0, 1), [[97, 115, 100, 97], [115, 100, 32], [97, 115, 100, 32]]));
    }
  }

  lemma AsdStrictPart9()
    ensures StrictRun(StrictSpec.State([], CharPos(0, 0), CharPos(0, 1), [[97, 115, 100, 97], [115, 100, 32], [97, 115, 100, 32]]), [[97], [115]], UnicodeSpace, 4)
            == Ok(StrictSpec.State([97, 115], CharPos(0, 0), CharPos(2, 1), [[97, 115, 100, 97], [115, 100, 32], [97, 115, 100, 32]]))
  {
    assert StrictRun(StrictSpec.State([], CharPos(0, 0), CharPos(0, 1), [[97, 115, 100, 97], [115, 100, 32], [97, 115, 100, 32]]), [[97], [115]], UnicodeSpace, 4) == StrictRun(StrictSpec.State([97], CharPos(0, 0), CharPos(1, 1), [[97, 115, 100, 97], [115, 100, 32], [97, 115, 100, 32]]), [[115]], UnicodeSpace, 4) by {
      assert [] + [97] == [97];
      assert StrictSpec.Step(StrictSpec.State([], CharPos(0, 0), CharPos(0, 1), [[97, 115, 100, 97], [115, 100, 32], [97, 115, 100, 32]]), [97], UnicodeSpace, 4) == Ok(StrictSpec.State([97], CharPos(0, 0), CharPos(1, 1), [[97, 115, 100, 97], [115, 100, 32], [97, 115, 100, 32]]));
    }
    assert StrictRun(StrictSpec.State([97], CharPos(0, 0), CharPos(1, 1), [[97, 115, 100, 97], [115, 100, 32], [97, 115, 100, 32]]), [[115]], UnicodeSpace, 4) == StrictRun(StrictSpec.State([97, 115], CharPos(0, 0), CharPos(2, 1), [[97, 115, 100, 97], [115, 100, 32], [97, 115, 100, 32]]), [], UnicodeSpace, 4) by {
      assert [97] + [115] == [97, 115];
      assert StrictSpec.Step(StrictSpec.State([97], CharPos(0, 0), CharPos(1, 1), [[97, 115, 100, 97], [115, 100, 32], [97, 115, 100, 32]]), [115], UnicodeSpace, 4) == Ok(StrictSpec.State([97, 115], CharPos(0, 0), CharPos(2, 1), [[97, 115, 100, 97], [115, 100, 32], [97, 115, 100, 32]]));
    }
  }

  lemma AsdStrictPart10()
    ensures StrictRun(StrictSpec.State([97, 115], CharPos(0, 0), CharPos(2, 1), [[97, 115, 100, 97], [115, 100, 32], [97, 115, 100, 32]]), [[100]], UnicodeSpace, 4)
            == Ok(StrictSpec.State([97, 115, 100], CharPos(0, 0), CharPos(3, 1), [[97, 115, 100, 97], [115, 100, 32], [97, 115, 100, 32]]))
  {
    assert StrictRun(StrictSpec.State([97, 115], CharPos(0, 0), CharPos(2, 1), [[97, 115, 100, 97], [115, 100, 32], [97, 115, 100, 32]]), [[100]], UnicodeSpace, 4) == StrictRun(StrictSpec.State([97, 115, 100], CharPos(0, 0), CharPos(3, 1), [[97, 115, 100, 97], [115, 100, 32], [97, 115, 100, 32]]), [], UnicodeSpace, 4) by {
      assert [97, 115] + [100] == [97, 115, 100];
      assert StrictSpec.Step(StrictSpec.State([97, 115], CharPos(0, 0), CharPos(2, 1), [[97, 115, 100, 97], [115, 100, 32], [97, 115, 100, 32]]), [100], UnicodeSpace, 4) == Ok(StrictSpec.State([97, 115, 100], CharPos(0, 0), CharPos(3, 1), [[97, 115, 100, 97], [115, 100, 32], [97, 115, 100, 32]]));
    }
  }

  lemma AsdStrictPart11()
    ensures StrictRun(StrictSpec.State([97, 115, 100], CharPos(0, 0), CharPos(3, 1), [[97, 115, 100, 97], [115, 100, 32], [97, 115, 100, 32]]), [[97]], UnicodeSpace, 4)
            == Ok(StrictSpec.State([], CharPos(0, 0), CharPos(0, 1), [[97, 115, 100, 97], [115, 100, 32], [97, 115, 100, 32], [97, 115, 100, 97]]))
  {
    assert StrictRun(StrictSpec.State([97, 115, 100], CharPos(0, 0), CharPos(3, 1), [[97, 115, 100, 97], [115, 100, 32], [97, 115, 100, 32]]), [[97]], UnicodeSpace, 4) == StrictRun(StrictSpec.State([], CharPos(0, 0), CharPos(0, 1), [[97, 115, 100, 97], [115, 100, 32], [97, 115, 100, 32], [97, 115, 100, 97]]), [], UnicodeSpace, 4) by {
      assert [97, 115, 100] + [97] == [97, 115, 100, 97];
      assert [97, 115, 100, 97][..4] == [97, 115, 100, 97];
      assert [97, 115, 100, 97][4..] == [];
      assert [[97, 115, 100, 97], [115, 100, 32], [97, 115, 100, 32]] + [[97, 115, 100, 97]] == [[97, 115, 100, 97], [115, 100, 32], [97, 115, 100, 32], [97, 115, 100, 97]];
      assert StrictSpec.Emit([[97, 115, 100, 97], [115, 100, 32], [97, 115, 100, 32]], [97, 115, 100, 97], [], [97], 4) == Ok(StrictSpec.State([], CharPos(0, 0), CharPos(0, 1), [[97, 115, 100, 97], [115, 100, 32], [97, 115, 100, 32], [97, 115, 100, 97]]));
      assert StrictSpec.Step(StrictSpec.State([97, 115, 100], CharPos(0, 0), CharPos(3, 1), [[97, 115, 100, 97], [115, 100, 32], [97, 115, 100, 32]]), [97], UnicodeSpace, 4) == Ok(StrictSpec.State([], CharPos(0, 0), CharPos(0, 1), [[97, 115, 100, 97], [115, 100, 32], [97, 115, 100, 32], [97, 115, 100, 97]]));
    }
  }

  lemma AsdStrictPart12()
    ensures StrictRun(StrictSpec.State([], CharPos(0, 0), CharPos(0, 1), [[97, 115, 100, 97], [115, 100, 32], [97, 115, 100, 32], [97, 115, 100, 97]]), [[115], [100]], UnicodeSpace, 4)
            == Ok(StrictSpec.State([115, 100], CharPos(0, 0), CharPos(2, 1), [[97, 115, 100, 97], [115, 100, 32], [97, 115, 100, 32], [97, 115, 100, 97]]))
  {
    assert StrictRun(StrictSpec.State([], CharPos(0, 0), CharPos(0, 1), [[97, 115, 100, 97], [115, 100, 32], [97, 115, 100, 32], [97, 115, 100, 97]]), [[115], [100]], UnicodeSpace, 4) == StrictRun(StrictSpec.State([115], CharPos(0, 0), CharPos(1, 1), [[97, 115, 100, 97], [115, 100, 32], [97, 115, 100, 32], [97, 115, 100, 97]]), [[100]], UnicodeSpace, 4) by {
      assert [] + [115] == [115];
      assert StrictSpec.Step(StrictSpec.State([], CharPos(0, 0), CharPos(0, 1), [[97, 115, 100, 97], [115, 100, 32], [97, 115, 100, 32], [97, 115, 100, 97]]), [115], UnicodeSpace, 4) == Ok(StrictSpec.State([115], CharPos(0, 0), CharPos(1, 1), [[97, 115, 100, 97], [115, 100, 32], [97, 115, 100, 32], [97, 115, 100, 97]]));
    }
    assert StrictRun(StrictSpec.State([115], CharPos(0, 0), CharPos(1, 1), [[97, 115, 100, 97], [115, 100, 32], [97, 115, 100, 32], [97, 115, 100, 97]]), [[100]], UnicodeSpace, 4) == StrictRun(StrictSpec.State([115, 100], CharPos(0, 0), CharPos(2, 1), [[97, 115, 100, 97], [115, 100, 32], [97, 115, 100, 32], [97, 115, 100, 97]]), [], UnicodeSpace, 4) by {
      assert [115] + [100] == [115, 100];
      assert StrictSpec.Step(StrictSpec.State([115], CharPos(0, 0), CharPos(1, 1), [[97, 115, 100, 97], [115, 100, 32], [97, 115, 100, 32], [97, 115, 100, 97]]), [100], UnicodeSpace, 4) == Ok(StrictSpec.State([115, 100], CharPos(0, 0), CharPos(2, 1), [[97, 115, 100, 97], [115, 100, 32], [97, 115, 100, 32], [97, 115, 100, 97]]));
    }
  }

  /** Every cluster of Asd is non-empty. */
  lemma AsdNonEmpty()
    ensures AllNonEmpty(Asd)
  {
    ConcatNonEmptyPieces([[97]], [[115], [100]]);
    ConcatNonEmptyPieces([[100]], [[97]] + ([[115], [100]]));
    ConcatNonEmptyPieces([[97], [115]], [[100]] + ([[97]] + ([[115], [100]])));
    ConcatNonEmptyPieces([[32]], [[97], [115]] + ([[100]] + ([[97]] + ([[115], [100]]))));
    ConcatNonEmptyPieces([[115], [100]], [[32]] + ([[97], [115]] + ([[100]] + ([[97]] + ([[115], [100]])))));
    ConcatNonEmptyPieces([[97]], [[115], [100]] + ([[32]] + ([[97], [115]] + ([[100]] + ([[97]] + ([[115], [100]]))))));
    ConcatNonEmptyPieces([[32]], [[97]] + ([[115], [100]] + ([[32]] + ([[97], [115]] + ([[100]] + ([[97]] + ([[115], [100]])))))));
    ConcatNonEmptyPieces([[115], [100]], [[32]] + ([[97]] + ([[115], [100]] + ([[32]] + ([[97], [115]] + ([[100]] + ([[97]] + ([[115], [100]]))))))));
    ConcatNonEmptyPieces([[97]], [[115], [100]] + ([[32]] + ([[97]] + ([[115], [100]] + ([[32]] + ([[97], [115]] + ([[100]] + ([[97]] + ([[115], [100]])))))))));
    ConcatNonEmptyPieces([[100]], [[97]] + ([[115], [100]] + ([[32]] + ([[97]] + ([[115], [100]] + ([[32]] + ([[97], [115]] + ([[100]] + ([[97]] + ([[115], [100]]))))))))));
    ConcatNonEmptyPieces([[97], [115]], [[100]] + ([[97]] + ([[115], [100]] + ([[32]] + ([[97]] + ([[115], [100]] + ([[32]] + ([[97], [115]] + ([[100]] + ([[97]] + ([[115], [100]])))))))))));
  }

  /** SplitString's cluster loop over Asd at limit 4. */
  lemma AsdStrictScan()
    ensures AllNonEmpty(Asd)
    ensures StrictSpec.Scan(Asd, UnicodeSpace, 4) == Ok(StrictSpec.State([115, 100], CharPos(0, 0), CharPos(2, 1), [[97, 115, 100, 97], [115, 100, 32], [97, 115, 100, 32], [97, 115, 100, 97]]))
  {
    AsdStrictPart1();
    StrictRunAppend(StrictSpec.State([], CharPos(0, 0), CharPos(0, 0), []), [[97], [115]],
                    [[100]] + ([[97]] + ([[115], [100]] + ([[32]] + ([[97]] + ([[115], [100]] + ([[32]] + ([[97], [115]] + ([[100]] + ([[97]] + ([[115], [100]])))))))))), UnicodeSpace, 4);
    AsdStrictPart2();
    StrictRunAppend(StrictSpec.State([97, 115], CharPos(0, 0), CharPos(2, 1), []), [[100]],
                    [[97]] + ([[115], [100]] + ([[32]] + ([[97]] + ([[115], [100]] + ([[32]] + ([[97], [115]] + ([[100]] + ([[97]] + ([[115], [100]]))))))))), UnicodeSpace, 4);
    AsdStrictPart3();
    StrictRunAppend(StrictSpec.State([97, 115, 100], CharPos(0, 0), CharPos(3, 1), []), [[97]],
                    [[115], [100]] + ([[32]] + ([[97]] + ([[115], [100]] + ([[32]] + ([[97], [115]] + ([[100]] + ([[97]] + ([[115], [100]])))))))), UnicodeSpace, 4);
    AsdStrictPart4();
    StrictRunAppend(StrictSpec.State([], CharPos(0, 0), CharPos(0, 1), [[97, 115, 100, 97]]), [[115], [100]],
                    [[32]] + ([[97]] + ([[115], [100]] + ([[32]] + ([[97], [115]] + ([[100]] + ([[97]] + ([[115], [100]]))))))), UnicodeSpace, 4);
    AsdStrictPart5();
    StrictRunAppend(StrictSpec.State([115, 100], CharPos(0, 0), CharPos(2, 1), [[97, 115, 100, 97]]), [[32]],
                    [[97]] + ([[115], [100]] + ([[32]] + ([[97], [115]] + ([[100]] + ([[97]] + ([[115], [100]])))))), UnicodeSpace, 4);
    AsdStrictPart6();
    StrictRunAppend(StrictSpec.State([115, 100, 32], CharPos(3, 1), CharPos(3, 1), [[97, 115, 100, 97]]), [[97]],
                    [[115], [100]] + ([[32]] + ([[97], [115]] + ([[100]] + ([[97]] + ([[115], [100]]))))), UnicodeSpace, 4);
    AsdStrictPart7();
    StrictRunAppend(StrictSpec.State([97], CharPos(0, 0), CharPos(1, 1), [[97, 115, 100, 97], [115, 100, 32]]), [[115], [100]],
                    [[32]] + ([[97], [115]] + ([[100]] + ([[97]] + ([[115], [100]])))), UnicodeSpace, 4);
    AsdStrictPart8();
    StrictRunAppend(StrictSpec.State([97, 115, 100], CharPos(0, 0), CharPos(3, 1), [[97, 115, 100, 97], [115, 100, 32]]), [[32]],
                    [[97], [115]] + ([[100]] + ([[97]] + ([[115], [100]]))), UnicodeSpace, 4);
    AsdStrictPart9();
    StrictRunAppend(StrictSpec.State([], CharPos(0, 0), CharPos(0, 1), [[97, 115, 100, 97], [115, 100, 32], [97, 115, 100, 32]]), [[97], [115]],
                    [[100]] + ([[97]] + ([[115], [100]])), UnicodeSpace, 4);
    AsdStrictPart10();
    StrictRunAppend(StrictSpec.State([97, 115], CharPos(0, 0), CharPos(2, 1), [[97, 115, 100, 97], [115, 100, 32], [97, 115, 100, 32]]), [[100]],
                    [[97]] + ([[115], [100]]), UnicodeSpace, 4);
    AsdStrictPart11();
    StrictRunAppend(StrictSpec.State([97, 115, 100], CharPos(0, 0), CharPos(3, 1), [[97, 115, 100, 97], [115, 100, 32], [97, 115, 100, 32]]), [[97]],
                    [[115], [100]], UnicodeSpace, 4);
    AsdStrictPart12();
    AsdNonEmpty();
    StrictScanIsRun(Asd, UnicodeSpace, 4);
  }

  /** The lines of Asd joined with newlines. */
  lemma AsdStrictJoined()
    ensures Joined([[97, 115, 100, 97], [115, 100, 32], [97, 115, 100, 32], [97, 115, 100, 97], [115, 100]], [10]) == [97, 115, 100, 97, 10, 115, 100, 32, 10, 97, 115, 100, 32, 10, 97, 115, 100, 97, 10, 115, 100]
  {
    assert [[97, 115, 100, 97], [115, 100, 32], [97, 115, 100, 32], [97, 115, 100, 97], [115, 100]][..4] == [[97, 115, 100, 97], [115, 100, 32], [97, 115, 100, 32], [97, 115, 100, 97]];
    assert [[97, 115, 100, 97], [115, 100, 32], [97, 115, 100, 32], [97, 115, 100, 97]][..3] == [[97, 115, 100, 97], [115, 100, 32], [97, 115, 100, 32]];
    assert [[97, 115, 100, 97], [115, 100, 32], [97, 115, 100, 32]][..2] == [[97, 115, 100, 97], [115, 100, 32]];
    assert [[97, 115, 100, 97], [115, 100, 32]][..1] == [[97, 115, 100, 97]];
    assert [97, 115, 100, 97] + [10] + [115, 100, 32] == [97, 115, 100, 97, 10, 115, 100, 32];
    assert [97, 115, 100, 97, 10, 115, 100, 32] + [10] + [97, 115, 100, 32] == [97, 115, 100, 97, 10, 115, 100, 32, 10, 97, 115, 100, 32];
    assert [97, 115, 100, 97, 10, 115, 100, 32, 10, 97, 115, 100, 32] + [10] + [97, 115, 100, 97] == [97, 115, 100, 97, 10, 115, 100, 32, 10, 97, 115, 100, 32, 10, 97, 115, 100, 97];
    assert [97, 115, 100, 97, 10, 115, 100, 32, 10, 97, 115, 100, 32, 10, 97, 115, 100, 97] + [10] + [115, 100] == [97, 115, 100, 97, 10, 115, 100, 32, 10, 97, 115, 100, 32, 10, 97, 115, 100, 97, 10, 115, 100];
  }

  /** TestSplitString, first case: at limit 4 SplitString cuts "asdasd asd asdasd" into "asda",
      "sd ", "asd ", "asda", "sd", and WrapString therefore returns them joined with newlines.
      Both "asda" lines are the whole working line cut when it is exactly at the limit with no
      space in it (wordwrap.go:268-271); "sd " and "asd " are cut after their space
      (wordwrap.go:250-255); "sd" is the tail. */
  lemma SplitAsd()
    ensures StrictSpec.SplitLines(Asd, UnicodeSpace, 4) == Ok([[97, 115, 100, 97], [115, 100, 32], [97, 115, 100, 32], [97, 115, 100, 97], [115, 100]])
    ensures Joined([[97, 115, 100, 97], [115, 100, 32], [97, 115, 100, 32], [97, 115, 100, 97], [115, 100]], [10]) == [97, 115, 100, 97, 10, 115, 100, 32, 10, 97, 115, 100, 32, 10, 97, 115, 100, 97, 10, 115, 100]
  {
    AsdStrictScan();
    AsdStrictJoined();
    assert [[97, 115, 100, 97], [115, 100, 32], [97, 115, 100, 32], [97, 115, 100, 97]] + [[115, 100]] == [[97, 115, 100, 97], [115, 100, 32], [97, 115, 100, 32], [97, 115, 100, 97], [115, 100]];
  }

  /** "test", a space, the family emoji and " end": the input of TestSplitBuilder_ContinueOnError
      and TestSplitBuilder_BreakGraphemeClusters. Each ASCII byte is a cluster of its own; the
      emoji (U+1F469 U+200D U+1F469 U+200D U+1F467 U+200D U+1F467) is one 25-byte cluster of
      seven runes. */
  const FamilyEmoji: seq<byte> := [240, 159, 145, 169, 226, 128, 141, 240, 159, 145, 169, 226, 128, 141, 240, 159, 145, 167, 226, 128, 141, 240, 159, 145, 167]

  const FamilyEmojiRunes: seq<seq<byte>> := [[240, 159, 145, 169], [226, 128, 141], [240, 159, 145, 169], [226, 128, 141], [240, 159, 145, 167], [226, 128, 141], [240, 159, 145, 167]]

  const Family: seq<seq<byte>> :=
    [[116], [101], [115]] + ([[116], [32]] + ([FamilyEmoji] + ([[32]] + ([[101]] + ([[110], [100]])))))

  const FamilyRunes: seq<seq<seq<byte>>> :=
    [[[116]], [[101]], [[115]]] + ([[[116]], [[32]]] + ([FamilyEmojiRunes] + ([[[32]]] + ([[[101]]] + ([[[110]], [[100]]])))))

  /** Unfolds the rune loop by one rune. */
  lemma BreakSnoc(cfg: Config, st: BState, rs: seq<seq<byte>>, k: nat)
    requires Wf(st) && k < |rs|
    ensures BreakCluster(cfg, st, rs[..k + 1]) == RuneStep(cfg, BreakCluster(cfg, st, rs[..k]), rs[k])
  {
    assert rs[..k + 1][..k] == rs[..k];
  }

  /** Split's cluster loop over "tes", for any ContinueOnError and BreakGraphemeClusters. */
  lemma FamilyPart1(coe: bool, brk: bool)
    ensures Run(Config(10, coe, brk, false), BState([], CharPos(0, 0), CharPos(0, 0), 0, []),
                [[116], [101], [115]], [[[116]], [[101]], [[115]]], UnicodeSpace)
            == Running(BState([116, 101, 115], CharPos(0, 0), CharPos(3, 1), 0, []))
  {
    var cfg := Config(10, coe, brk, false);
    var s0 := BState([], CharPos(0, 0), CharPos(0, 0), 0, []);
    var s1 := BState([116], CharPos(0, 0), CharPos(1, 1), 0, []);
    assert Run(cfg, s0, [[116], [101], [115]], [[[116]], [[101]], [[115]]], UnicodeSpace) == Run(cfg, s1, [[101], [115]], [[[101]], [[115]]], UnicodeSpace) by {
      assert [] + [116 as byte] == [116 as byte];
      assert Step(cfg, s0, [116], [[116]], UnicodeSpace) == Running(s1);
    }
    var s2 := BState([116, 101], CharPos(0, 0), CharPos(2, 1), 0, []);
    assert Run(cfg, s1, [[101], [115]], [[[101]], [[115]]], UnicodeSpace) == Run(cfg, s2, [[115]], [[[115]]], UnicodeSpace) by {
      assert [116 as byte] + [101 as byte] == [116 as byte, 101];
      assert Step(cfg, s1, [101], [[101]], UnicodeSpace) == Running(s2);
    }
    var s3 := BState([116, 101, 115], CharPos(0, 0), CharPos(3, 1), 0, []);
    assert Run(cfg, s2, [[115]], [[[115]]], UnicodeSpace) == Run(cfg, s3, [], [], UnicodeSpace) by {
      assert [116 as byte, 101] + [115 as byte] == [116 as byte, 101, 115];
      assert Step(cfg, s2, [115], [[115]], UnicodeSpace) == Running(s3);
    }
  }

  lemma FamilyPart2(coe: bool, brk: bool)
    ensures Run(Config(10, coe, brk, false), BState([116, 101, 115], CharPos(0, 0), CharPos(3, 1), 0, []),
                [[116], [32]], [[[116]], [[32]]], UnicodeSpace)
            == Running(BState([116, 101, 115, 116, 32], CharPos(5, 1), CharPos(5, 1), 0, []))
  {
    var cfg := Config(10, coe, brk, false);
    var s0 := BState([116, 101, 115], CharPos(0, 0), CharPos(3, 1), 0, []);
    var s1 := BState([116, 101, 115, 116], CharPos(0, 0), CharPos(4, 1), 0, []);
    assert Run(cfg, s0, [[116], [32]], [[[116]], [[32]]], UnicodeSpace) == Run(cfg, s1, [[32]], [[[32]]], UnicodeSpace) by {
      assert [116 as byte, 101, 115] + [116 as byte] == [116 as byte, 101, 115, 116];
      assert Step(cfg, s0, [116], [[116]], UnicodeSpace) == Running(s1);
    }
    var s2 := BState([116, 101, 115, 116, 32], CharPos(5, 1), CharPos(5, 1), 0, []);
    assert Run(cfg, s1, [[32]], [[[32]]], UnicodeSpace) == Run(cfg, s2, [], [], UnicodeSpace) by {
      assert [116 as byte, 101, 115, 116] + [32 as byte] == [116 as byte, 101, 115, 116, 32];
      assert Step(cfg, s1, [32], [[32]], UnicodeSpace) == Running(s2);
    }
  }

  lemma FamilyPart3(coe: bool)
    ensures Run(Config(10, coe, false, false), BState([116, 101, 115, 116, 32], CharPos(5, 1), CharPos(5, 1), 0, []),
                [FamilyEmoji], [FamilyEmojiRunes], UnicodeSpace)
            == Running(BState(FamilyEmoji, CharPos(0, 0), CharPos(25, 25), 1, [(0, [116, 101, 115, 116, 32])]))
  {
    var cfg := Config(10, coe, false, false);
    var s0 := BState([116, 101, 115, 116, 32], CharPos(5, 1), CharPos(5, 1), 0, []);
    var s1 := BState(FamilyEmoji, CharPos(0, 0), CharPos(25, 25), 1, [(0, [116, 101, 115, 116, 32])]);
    assert Run(cfg, s0, [FamilyEmoji], [FamilyEmojiRunes], UnicodeSpace) == Run(cfg, s1, [], [], UnicodeSpace) by {
      assert |FamilyEmoji| == 25 && !UnicodeSpace(FamilyEmoji);
      assert (s0.line + FamilyEmoji)[..5] == s0.line && (s0.line + FamilyEmoji)[5..] == FamilyEmoji;
      assert Step(cfg, s0, FamilyEmoji, FamilyEmojiRunes, UnicodeSpace) == Running(s1);
    }
  }

  lemma FamilyPart4(coe: bool)
    ensures Run(Config(10, coe, false, false), BState(FamilyEmoji, CharPos(0, 0), CharPos(25, 25), 1, [(0, [116, 101, 115, 116, 32])]),
                [[32]], [[[32]]], UnicodeSpace)
            == Running(BState([], CharPos(0, 0), CharPos(0, 1), 2, [(0, [116, 101, 115, 116, 32]), (1, FamilyEmoji + [32])]))
  {
    var cfg := Config(10, coe, false, false);
    var s0 := BState(FamilyEmoji, CharPos(0, 0), CharPos(25, 25), 1, [(0, [116, 101, 115, 116, 32])]);
    var s1 := BState([], CharPos(0, 0), CharPos(0, 1), 2, [(0, [116, 101, 115, 116, 32]), (1, FamilyEmoji + [32])]);
    assert Run(cfg, s0, [[32]], [[[32]]], UnicodeSpace) == Run(cfg, s1, [], [], UnicodeSpace) by {
      assert |FamilyEmoji| == 25;
      assert (FamilyEmoji + [32])[..26] == FamilyEmoji + [32] && (FamilyEmoji + [32])[26..] == [];
      assert Step(cfg, s0, [32], [[32]], UnicodeSpace) == Running(s1);
    }
  }

  lemma FamilyPart5(coe: bool)
    ensures Run(Config(10, coe, false, false), BState([], CharPos(0, 0), CharPos(0, 1), 2, [(0, [116, 101, 115, 116, 32]), (1, FamilyEmoji + [32])]),
                [[101]], [[[101]]], UnicodeSpace)
            == Running(BState([101], CharPos(0, 0), CharPos(1, 1), 2, [(0, [116, 101, 115, 116, 32]), (1, FamilyEmoji + [32])]))
  {
    var cfg := Config(10, coe, false, false);
    var s0 := BState([], CharPos(0, 0), CharPos(0, 1), 2, [(0, [116, 101, 115, 116, 32]), (1, FamilyEmoji + [32])]);
    var s1 := BState([101], CharPos(0, 0), CharPos(1, 1), 2, [(0, [116, 101, 115, 116, 32]), (1, FamilyEmoji + [32])]);
    assert Run(cfg, s0, [[101]], [[[101]]], UnicodeSpace) == Run(cfg, s1, [], [], UnicodeSpace) by {
      assert [] + [101 as byte] == [101 as byte];
      assert Step(cfg, s0, [101], [[101]], UnicodeSpace) == Running(s1);
    }
  }

  lemma FamilyPart6(coe: bool)
    ensures Run(Config(10, coe, false, false), BState([101], CharPos(0, 0), CharPos(1, 1), 2, [(0, [116, 101, 115, 116, 32]), (1, FamilyEmoji + [32])]),
                [[110], [100]], [[[110]], [[100]]], UnicodeSpace)
            == Running(BState([101, 110, 100], CharPos(0, 0), CharPos(3, 1), 2, [(0, [116, 101, 115, 116, 32]), (1, FamilyEmoji + [32])]))
  {
    var cfg := Config(10, coe, false, false);
    var s0 := BState([101], CharPos(0, 0), CharPos(1, 1), 2, [(0, [116, 101, 115, 116, 32]), (1, FamilyEmoji + [32])]);
    var s1 := BState([101, 110], CharPos(0, 0), CharPos(2, 1), 2, [(0, [116, 101, 115, 116, 32]), (1, FamilyEmoji + [32])]);
    assert Run(cfg, s0, [[110], [100]], [[[110]], [[100]]], UnicodeSpace) == Run(cfg, s1, [[100]], [[[100]]], UnicodeSpace) by {
      assert [101 as byte] + [110 as byte] == [101 as byte, 110];
      assert Step(cfg, s0, [110], [[110]], UnicodeSpace) == Running(s1);
    }
    var s2 := BState([101, 110, 100], CharPos(0, 0), CharPos(3, 1), 2, [(0, [116, 101, 115, 116, 32]), (1, FamilyEmoji + [32])]);
    assert Run(cfg, s1, [[100]], [[[100]]], UnicodeSpace) == Run(cfg, s2, [], [], UnicodeSpace) by {
      assert [101 as byte, 110] + [100 as byte] == [101 as byte, 110, 100];
      assert Step(cfg, s1, [100], [[100]], UnicodeSpace) == Running(s2);
    }
  }

  lemma FamilyRune1()
    ensures RuneStep(Config(10, false, true, false), BState([116, 101, 115, 116, 32], CharPos(5, 1), CharPos(5, 1), 0, []), [240, 159, 145, 169])
            == BState([116, 101, 115, 116, 32, 240, 159, 145, 169], CharPos(5, 1), CharPos(9, 4), 0, [])
  {
    assert [116 as byte, 101, 115, 116, 32] + [240 as byte, 159, 145, 169] == [116 as byte, 101, 115, 116, 32, 240, 159, 145, 169];
  }

  lemma FamilyRune2()
    ensures RuneStep(Config(10, false, true, false), BState([116, 101, 115, 116, 32, 240, 159, 145, 169], CharPos(5, 1), CharPos(9, 4), 0, []), [226, 128, 141])
            == BState([], CharPos(0, 0), CharPos(0, 3), 1, [(0, [116, 101, 115, 116, 32, 240, 159, 145, 169, 226, 128, 141])])
  {
    assert [116 as byte, 101, 115, 116, 32, 240, 159, 145, 169] + [226 as byte, 128, 141] == [116 as byte, 101, 115, 116, 32, 240, 159, 145, 169, 226, 128, 141];
    assert [116 as byte, 101, 115, 116, 32, 240, 159, 145, 169, 226, 128, 141][..12] == [116 as byte, 101, 115, 116, 32, 240, 159, 145, 169, 226, 128, 141] && [116 as byte, 101, 115, 116, 32, 240, 159, 145, 169, 226, 128, 141][12..] == [];
  }

  lemma FamilyRune3()
    ensures RuneStep(Config(10, false, true, false), BState([], CharPos(0, 0), CharPos(0, 3), 1, [(0, [116, 101, 115, 116, 32, 240, 159, 145, 169, 226, 128, 141])]), [240, 159, 145, 169])
            == BState([240, 159, 145, 169], CharPos(0, 0), CharPos(4, 4), 1, [(0, [116, 101, 115, 116, 32, 240, 159, 145, 169, 226, 128, 141])])
  {
    assert [] + [240 as byte, 159, 145, 169] == [240 as byte, 159, 145, 169];
  }

  lemma FamilyRune4()
    ensures RuneStep(Config(10, false, true, false), BState([240, 159, 145, 169], CharPos(0, 0), CharPos(4, 4), 1, [(0, [116, 101, 115, 116, 32, 240, 159, 145, 169, 226, 128, 141])]), [226, 128, 141])
            == BState([240, 159, 145, 169, 226, 128, 141], CharPos(0, 0), CharPos(7, 3), 1, [(0, [116, 101, 115, 116, 32, 240, 159, 145, 169, 226, 128, 141])])
  {
    assert [240 as byte, 159, 145, 169] + [226 as byte, 128, 141] == [240 as byte, 159, 145, 169, 226, 128, 141];
  }

  lemma FamilyRune5()
    ensures RuneStep(Config(10, false, true, false), BState([240, 159, 145, 169, 226, 128, 141], CharPos(0, 0), CharPos(7, 3), 1, [(0, [116, 101, 115, 116, 32, 240, 159, 145, 169, 226, 128, 141])]), [240, 159, 145, 167])
            == BState([], CharPos(0, 0), CharPos(0, 4), 2, [(0, [116, 101, 115, 116, 32, 240, 159, 145, 169, 226, 128, 141]), (1, [240, 159, 145, 169, 226, 128, 141, 240, 159, 145, 167])])
  {
    assert [240 as byte, 159, 145, 169, 226, 128, 141] + [240 as byte, 159, 145, 167] == [240 as byte, 159, 145, 169, 226, 128, 141, 240, 159, 145, 167];
    assert [240 as byte, 159, 145, 169, 226, 128, 141, 240, 159, 145, 167][..11] == [240 as byte, 159, 145, 169, 226, 128, 141, 240, 159, 145, 167] && [240 as byte, 159, 145, 169, 226, 128, 141, 240, 159, 145, 167][11..] == [];
  }

  lemma FamilyRune6()
    ensures RuneStep(Config(10, false, true, false), BState([], CharPos(0, 0), CharPos(0, 4), 2, [(0, [116, 101, 115, 116, 32, 240, 159, 145, 169, 226, 128, 141]), (1, [240, 159, 145, 169, 226, 128, 141, 240, 159, 145, 167])]), [226, 128, 141])
            == BState([226, 128, 141], CharPos(0, 0), CharPos(3, 3), 2, [(0, [116, 101, 115, 116, 32, 240, 159, 145, 169, 226, 128, 141]), (1, [240, 159, 145, 169, 226, 128, 141, 240, 159, 145, 167])])
  {
    assert [] + [226 as byte, 128, 141] == [226 as byte, 128, 141];
  }

  lemma FamilyRune7()
    ensures RuneStep(Config(10, false, true, false), BState([226, 128, 141], CharPos(0, 0), CharPos(3, 3), 2, [(0, [116, 101, 115, 116, 32, 240, 159, 145, 169, 226, 128, 141]), (1, [240, 159, 145, 169, 226, 128, 141, 240, 159, 145, 167])]), [240, 159, 145, 167])
            == BState([226, 128, 141, 240, 159, 145, 167], CharPos(0, 0), CharPos(7, 4), 2, [(0, [116, 101, 115, 116, 32, 240, 159, 145, 169, 226, 128, 141]), (1, [240, 159, 145, 169, 226, 128, 141, 240, 159, 145, 167])])
  {
    assert [226 as byte, 128, 141] + [240 as byte, 159, 145, 167] == [226 as byte, 128, 141, 240, 159, 145, 167];
  }

  /** The rune loop over the first rune of the emoji, on a list that is not a literal, so
      that it is unfolded one rune at a time; FamilyRuneLoop2 to 7 add one rune each. */
  lemma FamilyRuneLoop1(rs: seq<seq<byte>>)
    requires rs == FamilyEmojiRunes
    ensures BreakCluster(Config(10, false, true, false), BState([116, 101, 115, 116, 32], CharPos(5, 1), CharPos(5, 1), 0, []), rs[..1])
            == BState([116, 101, 115, 116, 32, 240, 159, 145, 169], CharPos(5, 1), CharPos(9, 4), 0, [])
  {
    assert rs[..0] == [];
    BreakSnoc(Config(10, false, true, false), BState([116, 101, 115, 116, 32], CharPos(5, 1), CharPos(5, 1), 0, []), rs, 0);
    assert rs[0] == [240 as byte, 159, 145, 169];
    FamilyRune1();
  }

  lemma FamilyRuneLoop2(rs: seq<seq<byte>>)
    requires rs == FamilyEmojiRunes
    ensures BreakCluster(Config(10, false, true, false), BState([116, 101, 115, 116, 32], CharPos(5, 1), CharPos(5, 1), 0, []), rs[..2])
            == BState([], CharPos(0, 0), CharPos(0, 3), 1, [(0, [116, 101, 115, 116, 32, 240, 159, 145, 169, 226, 128, 141])])
  {
    FamilyRuneLoop1(rs);
    BreakSnoc(Config(10, false, true, false), BState([116, 101, 115, 116, 32], CharPos(5, 1), CharPos(5, 1), 0, []), rs, 1);
    assert rs[1] == [226 as byte, 128, 141];
    FamilyRune2();
  }

  lemma FamilyRuneLoop3(rs: seq<seq<byte>>)
    requires rs == FamilyEmojiRunes
    ensures BreakCluster(Config(10, false, true, false), BState([116, 101, 115, 116, 32], CharPos(5, 1), CharPos(5, 1), 0, []), rs[..3])
            == BState([240, 159, 145, 169], CharPos(0, 0), CharPos(4, 4), 1, [(0, [116, 101, 115, 116, 32, 240, 159, 145, 169, 226, 128, 141])])
  {
    FamilyRuneLoop2(rs);
    BreakSnoc(Config(10, false, true, false), BState([116, 101, 115, 116, 32], CharPos(5, 1), CharPos(5, 1), 0, []), rs, 2);
    assert rs[2] == [240 as byte, 159, 145, 169];
    FamilyRune3();
  }

  lemma FamilyRuneLoop4(rs: seq<seq<byte>>)
    requires rs == FamilyEmojiRunes
    ensures BreakCluster(Config(10, false, true, false), BState([116, 101, 115, 116, 32], CharPos(5, 1), CharPos(5, 1), 0, []), rs[..4])
            == BState([240, 159, 145, 169, 226, 128, 141], CharPos(0, 0), CharPos(7, 3), 1, [(0, [116, 101, 115, 116, 32, 240, 159, 145, 169, 226, 128, 141])])
  {
    FamilyRuneLoop3(rs);
    BreakSnoc(Config(10, false, true, false), BState([116, 101, 115, 116, 32], CharPos(5, 1), CharPos(5, 1), 0, []), rs, 3);
    assert rs[3] == [226 as byte, 128, 141];
    FamilyRune4();
  }

  lemma FamilyRuneLoop5(rs: seq<seq<byte>>)
    requires rs == FamilyEmojiRunes
    ensures BreakCluster(Config(10, false, true, false), BState([116, 101, 115, 116, 32], CharPos(5, 1), CharPos(5, 1), 0, []), rs[..5])
            == BState([], CharPos(0, 0), CharPos(0, 4), 2, [(0, [116, 101, 115, 116, 32, 240, 159, 145, 169, 226, 128, 141]), (1, [240, 159, 145, 169, 226, 128, 141, 240, 159, 145, 167])])
  {
    FamilyRuneLoop4(rs);
    BreakSnoc(Config(10, false, true, false), BState([116, 101, 115, 116, 32], CharPos(5, 1), CharPos(5, 1), 0, []), rs, 4);
    assert rs[4] == [240 as byte, 159, 145, 167];
    FamilyRune5();
  }

  lemma FamilyRuneLoop6(rs: seq<seq<byte>>)
    requires rs == FamilyEmojiRunes
    ensures BreakCluster(Config(10, false, true, false), BState([116, 101, 115, 116, 32], CharPos(5, 1), CharPos(5, 1), 0, []), rs[..6])
            == BState([226, 128, 141], CharPos(0, 0), CharPos(3, 3), 2, [(0, [116, 101, 115, 116, 32, 240, 159, 145, 169, 226, 128, 141]), (1, [240, 159, 145, 169, 226, 128, 141, 240, 159, 145, 167])])
  {
    FamilyRuneLoop5(rs);
    BreakSnoc(Config(10, false, true, false), BState([116, 101, 115, 116, 32], CharPos(5, 1), CharPos(5, 1), 0, []), rs, 5);
    assert rs[5] == [226 as byte, 128, 141];
    FamilyRune6();
  }

  lemma FamilyRuneLoop7(rs: seq<seq<byte>>)
    requires rs == FamilyEmojiRunes
    ensures BreakCluster(Config(10, false, true, false), BState([116, 101, 115, 116, 32], CharPos(5, 1), CharPos(5, 1), 0, []), rs[..7])
            == BState([226, 128, 141, 240, 159, 145, 167], CharPos(0, 0), CharPos(7, 4), 2, [(0, [116, 101, 115, 116, 32, 240, 159, 145, 169, 226, 128, 141]), (1, [240, 159, 145, 169, 226, 128, 141, 240, 159, 145, 167])])
  {
    FamilyRuneLoop6(rs);
    BreakSnoc(Config(10, false, true, false), BState([116, 101, 115, 116, 32], CharPos(5, 1), CharPos(5, 1), 0, []), rs, 6);
    assert rs[6] == [240 as byte, 159, 145, 167];
    FamilyRune7();
  }

  /** The rune loop over the family emoji: the cut comes as soon as the working line reaches
      the limit, so the lines it yields are 12 and 11 bytes long. */
  lemma FamilyEmojiBreak()
    ensures BreakCluster(Config(10, false, true, false), BState([116, 101, 115, 116, 32], CharPos(5, 1), CharPos(5, 1), 0, []), FamilyEmojiRunes)
            == BState([226, 128, 141, 240, 159, 145, 167], CharPos(0, 0), CharPos(7, 4), 2, [(0, [116, 101, 115, 116, 32, 240, 159, 145, 169, 226, 128, 141]), (1, [240, 159, 145, 169, 226, 128, 141, 240, 159, 145, 167])])
  {
    FamilyRuneLoop7(FamilyEmojiRunes);
    assert FamilyEmojiRunes[..7] == FamilyEmojiRunes;
  }

  lemma FamilyBreakPart3()
    ensures Run(Config(10, false, true, false), BState([116, 101, 115, 116, 32], CharPos(5, 1), CharPos(5, 1), 0, []),
                [FamilyEmoji], [FamilyEmojiRunes], UnicodeSpace)
            == Running(BState([226, 128, 141, 240, 159, 145, 167], CharPos(0, 0), CharPos(7, 4), 2, [(0, [116, 101, 115, 116, 32, 240, 159, 145, 169, 226, 128, 141]), (1, [240, 159, 145, 169, 226, 128, 141, 240, 159, 145, 167])]))
  {
    FamilyEmojiBreak();
    assert |FamilyEmoji| == 25;
    assert [FamilyEmoji][1..] == [] && [FamilyEmojiRunes][1..] == [];
  }

  lemma FamilyBreakPart4()
    ensures Run(Config(10, false, true, false), BState([226, 128, 141, 240, 159, 145, 167], CharPos(0, 0), CharPos(7, 4), 2, [(0, [116, 101, 115, 116, 32, 240, 159, 145, 169, 226, 128, 141]), (1, [240, 159, 145, 169, 226, 128, 141, 240, 159, 145, 167])]),
                [[32]], [[[32]]], UnicodeSpace)
            == Running(BState([226, 128, 141, 240, 159, 145, 167, 32], CharPos(8, 1), CharPos(8, 1), 2, [(0, [116, 101, 115, 116, 32, 240, 159, 145, 169, 226, 128, 141]), (1, [240, 159, 145, 169, 226, 128, 141, 240, 159, 145, 167])]))
  {
    var cfg := Config(10, false, true, false);
    var s0 := BState([226, 128, 141, 240, 159, 145, 167], CharPos(0, 0), CharPos(7, 4), 2, [(0, [116, 101, 115, 116, 32, 240, 159, 145, 169, 226, 128, 141]), (1, [240, 159, 145, 169, 226, 128, 141, 240, 159, 145, 167])]);
    var s1 := BState([226, 128, 141, 240, 159, 145, 167, 32], CharPos(8, 1), CharPos(8, 1), 2, [(0, [116, 101, 115, 116, 32, 240, 159, 145, 169, 226, 128, 141]), (1, [240, 159, 145, 169, 226, 128, 141, 240, 159, 145, 167])]);
    assert Run(cfg, s0, [[32]], [[[32]]], UnicodeSpace) == Run(cfg, s1, [], [], UnicodeSpace) by {
      assert [226 as byte, 128, 141, 240, 159, 145, 167] + [32 as byte] == [226 as byte, 128, 141, 240, 159, 145, 167, 32];
      assert Step(cfg, s0, [32], [[32]], UnicodeSpace) == Running(s1);
    }
  }

  lemma FamilyBreakPart5()
    ensures Run(Config(10, false, true, false), BState([226, 128, 141, 240, 159, 145, 167, 32], CharPos(8, 1), CharPos(8, 1), 2, [(0, [116, 101, 115, 116, 32, 240, 159, 145, 169, 226, 128, 141]), (1, [240, 159, 145, 169, 226, 128, 141, 240, 159, 145, 167])]),
                [[101]], [[[101]]], UnicodeSpace)
            == Running(BState([226, 128, 141, 240, 159, 145, 167, 32, 101], CharPos(8, 1), CharPos(9, 1), 2, [(0, [116, 101, 115, 116, 32, 240, 159, 145, 169, 226, 128, 141]), (1, [240, 159, 145, 169, 226, 128, 141, 240, 159, 145, 167])]))
  {
    var cfg := Config(10, false, true, false);
    var s0 := BState([226, 128, 141, 240, 159, 145, 167, 32], CharPos(8, 1), CharPos(8, 1), 2, [(0, [116, 101, 115, 116, 32, 240, 159, 145, 169, 226, 128, 141]), (1, [240, 159, 145, 169, 226, 128, 141, 240, 159, 145, 167])]);
    var s1 := BState([226, 128, 141, 240, 159, 145, 167, 32, 101], CharPos(8, 1), CharPos(9, 1), 2, [(0, [116, 101, 115, 116, 32, 240, 159, 145, 169, 226, 128, 141]), (1, [240, 159, 145, 169, 226, 128, 141, 240, 159, 145, 167])]);
    assert Run(cfg, s0, [[101]], [[[101]]], UnicodeSpace) == Run(cfg, s1, [], [], UnicodeSpace) by {
      assert [226 as byte, 128, 141, 240, 159, 145, 167, 32] + [101 as byte] == [226 as byte, 128, 141, 240, 159, 145, 167, 32, 101];
      assert Step(cfg, s0, [101], [[101]], UnicodeSpace) == Running(s1);
    }
  }

  lemma FamilyBreakPart6()
    ensures Run(Config(10, false, true, false), BState([226, 128, 141, 240, 159, 145, 167, 32, 101], CharPos(8, 1), CharPos(9, 1), 2, [(0, [116, 101, 115, 116, 32, 240, 159, 145, 169, 226, 128, 141]), (1, [240, 159, 145, 169, 226, 128, 141, 240, 159, 145, 167])]),
                [[110], [100]], [[[110]], [[100]]], UnicodeSpace)
            == Running(BState([101, 110, 100], CharPos(0, 0), CharPos(3, 1), 3, [(0, [116, 101, 115, 116, 32, 240, 159, 145, 169, 226, 128, 141]), (1, [240, 159, 145, 169, 226, 128, 141, 240, 159, 145, 167]), (2, [226, 128, 141, 240, 159, 145, 167, 32])]))
  {
    var cfg := Config(10, false, true, false);
    var s0 := BState([226, 128, 141, 240, 159, 145, 167, 32, 101], CharPos(8, 1), CharPos(9, 1), 2, [(0, [116, 101, 115, 116, 32, 240, 159, 145, 169, 226, 128, 141]), (1, [240, 159, 145, 169, 226, 128, 141, 240, 159, 145, 167])]);
    var s1 := BState([101, 110], CharPos(0, 0), CharPos(2, 1), 3, [(0, [116, 101, 115, 116, 32, 240, 159, 145, 169, 226, 128, 141]), (1, [240, 159, 145, 169, 226, 128, 141, 240, 159, 145, 167]), (2, [226, 128, 141, 240, 159, 145, 167, 32])]);
    assert Run(cfg, s0, [[110], [100]], [[[110]], [[100]]], UnicodeSpace) == Run(cfg, s1, [[100]], [[[100]]], UnicodeSpace) by {
      assert [226 as byte, 128, 141, 240, 159, 145, 167, 32, 101] + [110 as byte] == [226 as byte, 128, 141, 240, 159, 145, 167, 32, 101, 110];
      assert [226 as byte, 128, 141, 240, 159, 145, 167, 32, 101, 110][..8] == [226 as byte, 128, 141, 240, 159, 145, 167, 32];
      assert [226 as byte, 128, 141, 240, 159, 145, 167, 32, 101, 110][8..] == [101 as byte, 110];
      assert Step(cfg, s0, [110], [[110]], UnicodeSpace) == Running(s1);
    }
    var s2 := BState([101, 110, 100], CharPos(0, 0), CharPos(3, 1), 3, [(0, [116, 101, 115, 116, 32, 240, 159, 145, 169, 226, 128, 141]), (1, [240, 159, 145, 169, 226, 128, 141, 240, 159, 145, 167]), (2, [226, 128, 141, 240, 159, 145, 167, 32])]);
    assert Run(cfg, s1, [[100]], [[[100]]], UnicodeSpace) == Run(cfg, s2, [], [], UnicodeSpace) by {
      assert [101 as byte, 110] + [100 as byte] == [101 as byte, 110, 100];
      assert Step(cfg, s1, [100], [[100]], UnicodeSpace) == Running(s2);
    }
  }

  /** Split's cluster loop over Family without breaking clusters, whatever ContinueOnError says. */
  lemma FamilyScan(coe: bool)
    ensures Scan(Config(10, coe, false, false), Family, FamilyRunes, UnicodeSpace)
            == Running(BState([101, 110, 100], CharPos(0, 0), CharPos(3, 1), 2, [(0, [116, 101, 115, 116, 32]), (1, FamilyEmoji + [32])]))
  {
    var cfg := Config(10, coe, false, false);
    ScanIsRun(cfg, Family, FamilyRunes, UnicodeSpace);
    FamilyPart1(coe, false);
    RunAppend(cfg, BState([], CharPos(0, 0), CharPos(0, 0), 0, []), [[116], [101], [115]], [[[116]], [[101]], [[115]]],
              [[116], [32]] + ([FamilyEmoji] + ([[32]] + ([[101]] + ([[110], [100]])))),
              [[[116]], [[32]]] + ([FamilyEmojiRunes] + ([[[32]]] + ([[[101]]] + ([[[110]], [[100]]])))), UnicodeSpace);
    FamilyPart2(coe, false);
    RunAppend(cfg, BState([116, 101, 115], CharPos(0, 0), CharPos(3, 1), 0, []), [[116], [32]], [[[116]], [[32]]],
              [FamilyEmoji] + ([[32]] + ([[101]] + ([[110], [100]]))),
              [FamilyEmojiRunes] + ([[[32]]] + ([[[101]]] + ([[[110]], [[100]]]))), UnicodeSpace);
    FamilyPart3(coe);
    RunAppend(cfg, BState([116, 101, 115, 116, 32], CharPos(5, 1), CharPos(5, 1), 0, []), [FamilyEmoji], [FamilyEmojiRunes],
              [[32]] + ([[101]] + ([[110], [100]])),
              [[[32]]] + ([[[101]]] + ([[[110]], [[100]]])), UnicodeSpace);
    FamilyPart4(coe);
    RunAppend(cfg, BState(FamilyEmoji, CharPos(0, 0), CharPos(25, 25), 1, [(0, [116, 101, 115, 116, 32])]), [[32]], [[[32]]],
              [[101]] + ([[110], [100]]),
              [[[101]]] + ([[[110]], [[100]]]), UnicodeSpace);
    FamilyPart5(coe);
    RunAppend(cfg, BState([], CharPos(0, 0), CharPos(0, 1), 2, [(0, [116, 101, 115, 116, 32]), (1, FamilyEmoji + [32])]), [[101]], [[[101]]],
              [[110], [100]],
              [[[110]], [[100]]], UnicodeSpace);
    FamilyPart6(coe);
  }

  /** Split's cluster loop over Family with BreakGraphemeClusters. */
  lemma FamilyBreakScan()
    ensures Scan(Config(10, false, true, false), Family, FamilyRunes, UnicodeSpace)
            == Running(BState([101, 110, 100], CharPos(0, 0), CharPos(3, 1), 3, [(0, [116, 101, 115, 116, 32, 240, 159, 145, 169, 226, 128, 141]), (1, [240, 159, 145, 169, 226, 128, 141, 240, 159, 145, 167]), (2, [226, 128, 141, 240, 159, 145, 167, 32])]))
  {
    var cfg := Config(10, false, true, false);
    ScanIsRun(cfg, Family, FamilyRunes, UnicodeSpace);
    FamilyPart1(false, true);
    RunAppend(cfg, BState([], CharPos(0, 0), CharPos(0, 0), 0, []), [[116], [101], [115]], [[[116]], [[101]], [[115]]],
              [[116], [32]] + ([FamilyEmoji] + ([[32]] + ([[101]] + ([[110], [100]])))),
              [[[116]], [[32]]] + ([FamilyEmojiRunes] + ([[[32]]] + ([[[101]]] + ([[[110]], [[100]]])))), UnicodeSpace);
    FamilyPart2(false, true);
    RunAppend(cfg, BState([116, 101, 115], CharPos(0, 0), CharPos(3, 1), 0, []), [[116], [32]], [[[116]], [[32]]],
              [FamilyEmoji] + ([[32]] + ([[101]] + ([[110], [100]]))),
              [FamilyEmojiRunes] + ([[[32]]] + ([[[101]]] + ([[[110]], [[100]]]))), UnicodeSpace);
    FamilyBreakPart3();
    RunAppend(cfg, BState([116, 101, 115, 116, 32], CharPos(5, 1), CharPos(5, 1), 0, []), [FamilyEmoji], [FamilyEmojiRunes],
              [[32]] + ([[101]] + ([[110], [100]])),
              [[[32]]] + ([[[101]]] + ([[[110]], [[100]]])), UnicodeSpace);
    FamilyBreakPart4();
    RunAppend(cfg, BState([226, 128, 141, 240, 159, 145, 167], CharPos(0, 0), CharPos(7, 4), 2, [(0, [116, 101, 115, 116, 32, 240, 159, 145, 169, 226, 128, 141]), (1, [240, 159, 145, 169, 226, 128, 141, 240, 159, 145, 167])]), [[32]], [[[32]]],
              [[101]] + ([[110], [100]]),
              [[[101]]] + ([[[110]], [[100]]]), UnicodeSpace);
    FamilyBreakPart5();
    RunAppend(cfg, BState([226, 128, 141, 240, 159, 145, 167, 32], CharPos(8, 1), CharPos(8, 1), 2, [(0, [116, 101, 115, 116, 32, 240, 159, 145, 169, 226, 128, 141]), (1, [240, 159, 145, 169, 226, 128, 141, 240, 159, 145, 167])]), [[101]], [[[101]]],
              [[110], [100]],
              [[[110]], [[100]]], UnicodeSpace);
    FamilyBreakPart6();
  }

  /** SplitString fails on Family at limit 10: the emoji alone is over the limit. */
  lemma FamilyStrictFails()
    ensures StrictSpec.SplitLines(Family, UnicodeSpace, 10).Err?
  {
    assert AllNonEmpty(Family) by {
      forall i | 0 <= i < |Family| ensures |Family[i]| > 0 {
        assert |FamilyEmoji| == 25;
      }
    }
    assert |Family[5]| > 10;
    StrictProps.OversizedClusterFails(Concat(Family), Family, UnicodeSpace, 10);
  }

  /** TestSplitBuilder_ContinueOnError: at limit 10 the builder with ContinueOnError yields
      "test ", the emoji with the space after it (26 bytes), and "end". The default builder
      yields the same three lines and signals no error: the emoji follows a space, so the cuts
      after a space (wordwrap.go:137-148) take it, and the stop at wordwrap.go:149-155 is never
      reached. SplitString fails on the same input (FamilyStrictFails). */
  lemma FamilyOnError()
    ensures var lines := [(0, [116, 101, 115, 116, 32]), (1, FamilyEmoji + [32]), (2, [101, 110, 100])];
      && SplitPairs(Configure(10, [ContinueOnError(true)]), Family, FamilyRunes, UnicodeSpace) == lines
      && SplitPairs(Configure(10, []), Family, FamilyRunes, UnicodeSpace) == lines
      && |lines[1].1| == 26
  {
    var e := FamilyEmoji + [32];
    assert e == [240, 159, 145, 169, 226, 128, 141, 240, 159, 145, 169, 226, 128, 141, 240, 159, 145, 167, 226, 128, 141, 240, 159, 145, 167, 32];
    assert Configure(10, [ContinueOnError(true)]) == Config(10, true, false, false);
    assert Configure(10, []) == Config(10, false, false, false);
    FamilyScan(true);
    FamilyScan(false);
    assert [(0, [116 as byte, 101, 115, 116, 32]), (1, e)] + [(2, [101 as byte, 110, 100])]
           == [(0, [116, 101, 115, 116, 32]), (1, e), (2, [101, 110, 100])];
  }

  /** TestSplitBuilder_BreakGraphemeClusters: at limit 10 the emoji is broken into its runes and
      the builder yields four lines. The first two, "test " with the first woman and joiner
      (12 bytes) and woman, joiner, girl (11 bytes), are over the limit although ContinueOnError
      is off: the rune loop cuts only once the working line has reached the limit
      (wordwrap.go:108-113). */
  lemma FamilyBreak()
    ensures var lines := [(0, [116, 101, 115, 116, 32, 240, 159, 145, 169, 226, 128, 141]), (1, [240, 159, 145, 169, 226, 128, 141, 240, 159, 145, 167]), (2, [226, 128, 141, 240, 159, 145, 167, 32]), (3, [101, 110, 100])];
      && SplitPairs(Configure(10, [BreakGraphemeClusters(true)]), Family, FamilyRunes, UnicodeSpace) == lines
      && |lines[0].1| == 12 && |lines[1].1| == 11
  {
    assert Configure(10, [BreakGraphemeClusters(true)]) == Config(10, false, true, false);
    FamilyBreakScan();
    assert [(0, [116 as byte, 101, 115, 116, 32, 240, 159, 145, 169, 226, 128, 141]), (1, [240 as byte, 159, 145, 169, 226, 128, 141, 240, 159, 145, 167]), (2, [226 as byte, 128, 141, 240, 159, 145, 167, 32])] + [(3, [101 as byte, 110, 100])]
           == [(0, [116, 101, 115, 116, 32, 240, 159, 145, 169, 226, 128, 141]), (1, [240, 159, 145, 169, 226, 128, 141, 240, 159, 145, 167]), (2, [226, 128, 141, 240, 159, 145, 167, 32]), (3, [101, 110, 100])];
  }
}
