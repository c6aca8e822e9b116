/**
  The conversion loop of `main`: tokenize the input, pass each recognised token
  to the pen state machine in input order, and frame the emitted `LINE`
  records with the DXF header and footer. `Run` folds `Step` over the tokens;
  `Convert` is the loop, proved to produce `Run`'s segments and errors.
*/
module Converter {
  import opened Wrappers
  import opened Tokenizer
  import opened Commands
  import opened Coordinates
  import opened Geometry
  import opened Dxf
  import opened Numbers
  import opened Plotter

  /** Where a run has got to: the pen, the segments emitted and the errors reported so far. */
  datatype Trace = Trace(pen: PenState, segments: seq<Segment>, errors: seq<CommandError>)

  /**
    One token of the loop: a token the filter drops changes nothing, and a
    processed one appends at most one segment or one error, never both, and
    rewrites nothing already emitted.
  */
  function Feed(t: Trace, token: string): (u: Trace)
    ensures !Recognised(token) ==> u == t
    ensures |u.segments| + |u.errors| <= |t.segments| + |t.errors| + 1
    ensures |t.segments| <= |u.segments| && u.segments[..|t.segments|] == t.segments
    ensures |t.errors| <= |u.errors| && u.errors[..|t.errors|] == t.errors
  {
    if !Recognised(token) then t
    else
      var r := Step(t.pen, token);
      Trace(r.pen, t.segments + LineOf(r.report), t.errors + ErrorOf(r.report))
  }

  /**
    The loop over a sequence of tokens, starting from pen `s`. Every token that
    reaches the state machine has a known opcode, so the "don't know how to
    handle" error never occurs in a run.
  */
  function Run(s: PenState, tokens: seq<string>): (u: Trace)
    ensures UnrecognizedOpcode !in u.errors
    decreases |tokens|
  {
    if tokens == [] then Trace(s, [], [])
    else
      var t := Run(s, tokens[..|tokens| - 1]);
      FeedNeverUnrecognized(t, tokens[|tokens| - 1]);
      Feed(t, tokens[|tokens| - 1])
  }

  /** The converted document for the input buffer `data`: it reads back as the segments the run drew. */
  function Output(data: string): (doc: seq<Item>)
    ensures DecodeDocument(doc) == Some(Run(Initial, Tokens(CStr(data))).segments)
  {
    var segs := Run(Initial, Tokens(CStr(data))).segments;
    DocumentRoundTrip(segs);
    Document(segs)
  }

  /** The tokens that pass the filter, in order: all of them and nothing else. */
  function Filtered(tokens: seq<string>): (r: seq<string>)
    ensures |r| <= |tokens|
    ensures forall i :: 0 <= i < |r| ==> Recognised(r[i])
    ensures forall w :: w in r <==> w in tokens && Recognised(w)
    decreases |tokens|
  {
    if tokens == [] then []
    else
      var init, last := tokens[..|tokens| - 1], tokens[|tokens| - 1];
      Filtered(init) + (if Recognised(last) then [last] else [])
  }

  /** Filtering distributes over concatenation: the kept tokens stay in their order, each as often as it occurs. */
  lemma {:induction false} FilteredAppend(a: seq<string>, b: seq<string>)
    ensures Filtered(a + b) == Filtered(a) + Filtered(b)
    decreases |b|
  {
    if b == [] {
      assert a + b == a;
    } else {
      var init, last := b[..|b| - 1], b[|b| - 1];
      assert (a + b)[..|a + b| - 1] == a + init;
      assert (a + b)[|a + b| - 1] == last;
      FilteredAppend(a, init);
    }
  }

  /**
    The number of segments a run should draw: one for each `PA`/`PR` token
    whose operands can be located and that is reached with the pen down.
  */
  function DrawCount(s: PenState, tokens: seq<string>): nat
    decreases |tokens|
  {
    if tokens == [] then 0
    else
      var init, last := tokens[..|tokens| - 1], tokens[|tokens| - 1];
      DrawCount(s, init) + (if IsMove(last) && Run(s, init).pen.status == Down then 1 else 0)
  }

  /** A run draws exactly one segment per located move made with the pen down. */
  lemma {:induction false} SegmentCount(s: PenState, tokens: seq<string>)
    ensures |Run(s, tokens).segments| == DrawCount(s, tokens)
    decreases |tokens|
  {
    if tokens != [] {
      var init, last := tokens[..|tokens| - 1], tokens[|tokens| - 1];
      SegmentCount(s, init);
      FeedSegments(Run(s, init), last);
    }
  }

  /** One token adds a segment exactly when it is a located move made with the pen down. */
  lemma FeedSegments(t: Trace, token: string)
    ensures |Feed(t, token).segments| == |t.segments| + (if IsMove(token) && t.pen.status == Down then 1 else 0)
  {
    if IsMove(token) {
      FeedMotion(t, token);
    } else if Recognised(token) {
      RecognisedIsDispatched(token);
      if Dispatch(token) in {Some(PenUp), Some(PenDown)} {
        FeedPenCommand(t, token);
      } else {
        FeedRejected(t, token);
      }
    }
  }

  /** Running one more token extends the run. */
  lemma RunSnoc(s: PenState, tokens: seq<string>, token: string)
    ensures Run(s, tokens + [token]) == Feed(Run(s, tokens), token)
  {
    assert (tokens + [token])[..|tokens|] == tokens;
  }

  /** Tokens the filter drops can be removed without changing the pen, the output or the errors. */
  lemma {:induction false} RunIgnoresUnrecognised(s: PenState, tokens: seq<string>)
    ensures Run(s, tokens) == Run(s, Filtered(tokens))
    decreases |tokens|
  {
    if tokens != [] {
      var init, last := tokens[..|tokens| - 1], tokens[|tokens| - 1];
      RunIgnoresUnrecognised(s, init);
      if Recognised(last) {
        RunSnoc(s, Filtered(init), last);
      } else {
        assert Filtered(tokens) == Filtered(init);
      }
    }
  }

  /**
    The pen's position and the errors depend only on the start position, never
    on whether the pen is up or down: motion commands move the pen either way.
  */
  lemma {:induction false} RunPositionIgnoresStatus(s1: PenState, s2: PenState, tokens: seq<string>)
    requires s1.at == s2.at
    ensures Run(s1, tokens).pen.at == Run(s2, tokens).pen.at
    ensures Run(s1, tokens).errors == Run(s2, tokens).errors
    decreases |tokens|
  {
    if tokens != [] {
      var init, last := tokens[..|tokens| - 1], tokens[|tokens| - 1];
      RunPositionIgnoresStatus(s1, s2, init);
      PositionIgnoresStatus(Run(s1, init).pen, Run(s2, init).pen, last);
    }
  }

  /** Each token that passes the filter yields at most one segment or one error, never both. */
  lemma {:induction false} RunOutputBound(s: PenState, tokens: seq<string>)
    ensures |Run(s, tokens).segments| + |Run(s, tokens).errors| <= |Filtered(tokens)|
    decreases |tokens|
  {
    if tokens != [] {
      var init, last := tokens[..|tokens| - 1], tokens[|tokens| - 1];
      RunOutputBound(s, init);
    }
  }

  /** Feeding one token adds no "don't know how to handle" error. */
  lemma FeedNeverUnrecognized(t: Trace, token: string)
    requires UnrecognizedOpcode !in t.errors
    ensures UnrecognizedOpcode !in Feed(t, token).errors
  {
    if Recognised(token) {
      RecognisedIsDispatched(token);
      var r := Step(t.pen, token);
      assert ErrorOf(r.report) != [UnrecognizedOpcode];
    }
  }

  /** A `PD` token: one that passes the filter with the opcode `PD`. */
  predicate IsPenDown(token: string) {
    Recognised(token) && Dispatch(token) == Some(PenDown)
  }

  /** With the pen up and no `PD` among the tokens, nothing is drawn and the pen stays up. */
  lemma {:induction false} PenUpDrawsNothing(s: PenState, tokens: seq<string>)
    requires s.status == Up
    requires forall i :: 0 <= i < |tokens| ==> !IsPenDown(tokens[i])
    ensures Run(s, tokens).segments == []
    ensures Run(s, tokens).pen.status == Up
    decreases |tokens|
  {
    if tokens != [] {
      var init, last := tokens[..|tokens| - 1], tokens[|tokens| - 1];
      PenUpDrawsNothing(s, init);
      FeedUp(Run(s, init), last);
    }
  }

  /** One token other than `PD`, fed with the pen up, leaves it up and draws nothing. */
  lemma FeedUp(t: Trace, token: string)
    requires t.pen.status == Up && !IsPenDown(token)
    ensures Feed(t, token).pen.status == Up && Feed(t, token).segments == t.segments
  {
    if Recognised(token) {
      var r := Step(t.pen, token);
      assert r.pen.status == Up && LineOf(r.report) == [];
    }
  }

  /** A `PA` or `PR` token whose operands can be located. */
  predicate IsMove(token: string) {
    Recognised(token) && Dispatch(token) in {Some(PlotAbsolute), Some(PlotRelative)} && Locate(token).Success?
  }

  /**
    With the pen down, a run of `PA`/`PR` moves draws one segment per move,
    and the segments form one connected path from the start position to the
    final one.
  */
  lemma {:induction false} PenDownDrawsPath(s: PenState, tokens: seq<string>)
    requires s.status == Down
    requires forall i :: 0 <= i < |tokens| ==> IsMove(tokens[i])
    ensures var t := Run(s, tokens);
      && t.pen.status == Down && t.errors == []
      && |t.segments| == |tokens|
      && (t.segments == [] ==> t.pen.at == s.at)
      && (t.segments != [] ==> t.segments[0].start == s.at && t.segments[|t.segments| - 1].end == t.pen.at)
      && Connected(t.segments)
    decreases |tokens|
  {
    if tokens != [] {
      var init, last := tokens[..|tokens| - 1], tokens[|tokens| - 1];
      PenDownDrawsPath(s, init);
      var t0 := Run(s, init);
      assert IsMove(last);
      FeedMotion(t0, last);
      var target := MotionTarget(t0.pen, last);
      assert Run(s, tokens) == Trace(PenState(Down, target), t0.segments + [Segment(t0.pen.at, target)], t0.errors);
      ConnectedSnoc(t0.segments, Segment(t0.pen.at, target));
    }
  }

  /** Each segment starts where the one before it ends. */
  predicate Connected(segments: seq<Segment>) {
    forall i :: 0 <= i < |segments| - 1 ==> segments[i].end == segments[i + 1].start
  }

  /** A segment that starts where a connected run ends extends it. */
  lemma ConnectedSnoc(segments: seq<Segment>, seg: Segment)
    requires Connected(segments)
    requires segments != [] ==> segments[|segments| - 1].end == seg.start
    ensures Connected(segments + [seg])
  {
    var r := segments + [seg];
    forall i | 0 <= i < |r| - 1
      ensures r[i].end == r[i + 1].start
    {
      if i < |segments| - 1 {
        assert r[i] == segments[i] && r[i + 1] == segments[i + 1];
      }
    }
  }

  /** Where a `PA`/`PR` token with located operands sends pen `s`. */
  function MotionTarget(s: PenState, token: string): Point
    requires IsMove(token)
  {
    Target(s, Dispatch(token).value, token, Locate(token).value)
  }

  /**
    Feeding a `PA`/`PR` token with located operands moves the pen to its target
    and, with the pen down, records the segment travelled; no error is reported.
  */
  lemma FeedMotion(t: Trace, token: string)
    requires IsMove(token)
    ensures var target := MotionTarget(t.pen, token);
      Feed(t, token)
        == Trace(PenState(t.pen.status, target),
                 t.segments + (if t.pen.status == Down then [Segment(t.pen.at, target)] else []),
                 t.errors)
  {
    StepMotion(t.pen, token, Dispatch(token).value, Locate(token).value);
  }

  /**
    The loop of `main`: the header, then every recognised token through the pen
    state machine in order, then the footer. The result depends on the input
    alone, so converting the same input twice gives the same output.
  */
  method Convert(data: string) returns (doc: seq<Item>, errors: seq<CommandError>)
    ensures doc == Output(data)
    ensures errors == Run(Initial, Tokens(CStr(data))).errors
  {
    var pen := new Pen();
    var out := new DxfWriter();
    out.Write(Header);
    var tokens := Tokenize(data);
    TokensAvoid(CStr(data), '\0');
    errors := Drive(pen, out, tokens);
    out.Write(Footer);
    doc := out.items;
  }

  /** The `while (p)` loop of `main`: every token, in order, through `Handle`. */
  method Drive(pen: Pen, out: DxfWriter, tokens: seq<string>) returns (errors: seq<CommandError>)
    requires forall i :: 0 <= i < |tokens| ==> '\0' !in tokens[i]
    requires pen.State() == Initial && out.items == Header
    modifies pen, out
    ensures pen.State() == Run(Initial, tokens).pen
    ensures out.items == Header + Records(Run(Initial, tokens).segments)
    ensures errors == Run(Initial, tokens).errors
  {
    errors := [];
    ghost var trace := Trace(Initial, [], []);
    var i := 0;
    while i < |tokens|
      invariant i <= |tokens|
      invariant trace == Run(Initial, tokens[..i])
      invariant pen.State() == trace.pen && errors == trace.errors
      invariant out.items == Header + Records(trace.segments)
    {
      var token := tokens[i];
      assert Run(Initial, tokens[..i + 1]) == Feed(trace, token) by {
        assert tokens[..i + 1] == tokens[..i] + [token];
        RunSnoc(Initial, tokens[..i], token);
      }
      var reported := Handle(pen, out, token, trace);
      errors := errors + reported;
      trace := Feed(trace, token);
      i := i + 1;
    }
    assert tokens[..i] == tokens;
  }

  /** The body of the loop of `main` for one token: filter it, then process it. */
  method Handle(pen: Pen, out: DxfWriter, token: string, ghost t: Trace) returns (reported: seq<CommandError>)
    requires '\0' !in token
    requires pen.State() == t.pen
    requires out.items == Header + Records(t.segments)
    modifies pen, out
    ensures pen.State() == Feed(t, token).pen
    ensures Feed(t, token).errors == t.errors + reported
    ensures out.items == Header + Records(Feed(t, token).segments)
  {
    reported := [];
    if Recognised(token) {
      var command := new char[|token|](k requires 0 <= k < |token| => token[k]);
      assert command[..] == token;
      var report := pen.ProcessCommand(out, command);
      reported := ErrorOf(report);
      FeedRecognised(t, token, StepResult(pen.State(), report));
    }
  }

  /** A token that passes the filter is stepped, and its segment, if any, extends the records. */
  lemma FeedRecognised(t: Trace, token: string, r: StepResult)
    requires Recognised(token) && r == Step(t.pen, token)
    ensures Feed(t, token) == Trace(r.pen, t.segments + LineOf(r.report), t.errors + ErrorOf(r.report))
    ensures Header + Records(Feed(t, token).segments) == Header + Records(t.segments) + Records(LineOf(r.report))
  {
    RecordsAppend(t.segments, LineOf(r.report));
  }

  /** The records of two runs of segments are the two runs of records. */
  lemma {:induction false} RecordsAppend(a: seq<Segment>, b: seq<Segment>)
    ensures Records(a + b) == Records(a) + Records(b)
    decreases |b|
  {
    if b == [] {
      assert a + b == a;
    } else {
      var init, last := b[..|b| - 1], b[|b| - 1];
      assert a + b == (a + init) + [last];
      assert b == init + [last];
      RecordsSnoc(a + init, last);
      RecordsSnoc(init, last);
      RecordsAppend(a, init);
    }
  }

  /** A `PU` or `PD` token sets the pen's status and changes nothing else. */
  lemma FeedPenCommand(t: Trace, token: string)
    requires Recognised(token) && Dispatch(token) in {Some(PenUp), Some(PenDown)}
    ensures Feed(t, token) == Trace(PenState(if Dispatch(token) == Some(PenUp) then Up else Down, t.pen.at), t.segments, t.errors)
  {
    PenCommands(t.pen, token);
  }

  /** A `PA`/`PR` token whose operands cannot be located adds the locator's error and changes nothing else. */
  lemma FeedRejected(t: Trace, token: string)
    requires Recognised(token) && Dispatch(token) in {Some(PlotAbsolute), Some(PlotRelative)}
    requires Locate(token).Failure?
    ensures Feed(t, token) == Trace(t.pen, t.segments, t.errors + [Locate(token).error])
  {
    MotionWithoutOperands(t.pen, token);
  }

  /** A run over two tokens feeds them one after the other. */
  lemma RunTwo(s: PenState, a: string, b: string)
    ensures Run(s, [a, b]) == Feed(Feed(Trace(s, [], []), a), b)
  {
    RunSnoc(s, [], a);
    RunSnoc(s, [a], b);
    assert [] + [a] == [a] && [a] + [b] == [a, b];
  }

  /** A run over three tokens feeds the third after the first two. */
  lemma RunThree(s: PenState, a: string, b: string, c: string)
    ensures Run(s, [a, b, c]) == Feed(Run(s, [a, b]), c)
  {
    RunSnoc(s, [a, b], c);
    assert [a, b] + [c] == [a, b, c];
  }

  /** The pen-command tokens, as the filter and the dispatch see them. */
  lemma PenTokens()
    ensures Recognised("PU") && Dispatch("PU") == Some(PenUp)
    ensures Recognised("PD") && Dispatch("PD") == Some(PenDown)
  {
    assert "PU"[..2] == "PU" && "PD"[..2] == "PD";
  }

  /** From the initial pen, `PU` and an absolute move to (x1,y1) move the pen there without drawing. */
  lemma UpAndMove(x1: int, y1: int)
    ensures Run(Initial, ["PU", MoveText('A', x1, y1)]) == Trace(PenState(Up, Point(x1 as real, y1 as real)), [], [])
  {
    PenTokens();
    RunTwo(Initial, "PU", MoveText('A', x1, y1));
    FeedPenCommand(Trace(Initial, [], []), "PU");
    FeedMove(Trace(Initial, [], []), 'A', x1, y1);
  }

  /** ... and a following `PD` puts the pen down there. */
  lemma UpMoveAndDown(x1: int, y1: int)
    ensures Run(Initial, ["PU", MoveText('A', x1, y1), "PD"]) == Trace(PenState(Down, Point(x1 as real, y1 as real)), [], [])
  {
    PenTokens();
    UpAndMove(x1, y1);
    RunThree(Initial, "PU", MoveText('A', x1, y1), "PD");
    FeedPenCommand(Run(Initial, ["PU", MoveText('A', x1, y1)]), "PD");
  }

  /**
    From the initial pen, `PU`, an absolute move to (x1,y1), `PD` and an
    absolute move to (x2,y2) draw exactly one line, from (x1,y1) to (x2,y2).
  */
  lemma ExampleAbsolute(x1: int, y1: int, x2: int, y2: int)
    ensures Run(Initial, ["PU", MoveText('A', x1, y1), "PD", MoveText('A', x2, y2)]).segments
      == [Segment(Point(x1 as real, y1 as real), Point(x2 as real, y2 as real))]
  {
    var first, second := MoveText('A', x1, y1), MoveText('A', x2, y2);
    UpMoveAndDown(x1, y1);
    RunSnoc(Initial, ["PU", first, "PD"], second);
    assert ["PU", first, "PD"] + [second] == ["PU", first, "PD", second];
    FeedMove(Run(Initial, ["PU", first, "PD"]), 'A', x2, y2);
  }

  /** Feeding a well-formed `PA`/`PR` token with integer operands moves the pen to its target and,
      with the pen down, records the segment travelled. */
  lemma FeedMove(t: Trace, letter: char, x: int, y: int)
    requires letter in {'A', 'R'}
    ensures var target := if letter == 'R' then Add(t.pen.at, Point(x as real, y as real)) else Point(x as real, y as real);
      Feed(t, MoveText(letter, x, y))
        == Trace(PenState(t.pen.status, target),
                 t.segments + (if t.pen.status == Down then [Segment(t.pen.at, target)] else []),
                 t.errors)
  {
    var cmd := MoveText(letter, x, y);
    assert cmd[..2] == ['P', letter];
    assert Recognised(cmd);
    MoveTextStep(t.pen, letter, x, y);
  }

  /** From the initial pen, `PD` and a relative move by (d,0) draw the line from the origin to (d,0). */
  lemma DownAndMove(d: int)
    ensures var p1 := Point(d as real, 0.0);
      Run(Initial, ["PD", MoveText('R', d, 0)]) == Trace(PenState(Down, p1), [Segment(Point(0.0, 0.0), p1)], [])
  {
    PenTokens();
    RunTwo(Initial, "PD", MoveText('R', d, 0));
    FeedPenCommand(Trace(Initial, [], []), "PD");
    FeedMove(Trace(PenState(Down, Point(0.0, 0.0)), [], []), 'R', d, 0);
  }

  /** With the pen down, a relative move by (d,0) and then by (0,d) draws two sides of a square:
      (0,0)->(d,0) and (d,0)->(d,d). */
  lemma ExampleRelative(d: int)
    ensures Run(Initial, ["PD", MoveText('R', d, 0), MoveText('R', 0, d)]).segments
      == [Segment(Point(0.0, 0.0), Point(d as real, 0.0)), Segment(Point(d as real, 0.0), Point(d as real, d as real))]
  {
    var p1 := Point(d as real, 0.0);
    var t := Run(Initial, ["PD", MoveText('R', d, 0)]);
    DownAndMove(d);
    RunThree(Initial, "PD", MoveText('R', d, 0), MoveText('R', 0, d));
    FeedMove(t, 'R', 0, d);
    assert Add(p1, Point(0 as real, d as real)) == Point(d as real, d as real);
  }

  /** `PAxx,10` and `PA10` draw nothing, leave the pen where it was, and report a missing separator each. */
  lemma ExampleMalformed(t: Trace)
    ensures Feed(t, "PAxx,10") == Trace(t.pen, t.segments, t.errors + [MissingSeparator])
    ensures Feed(t, "PA10") == Trace(t.pen, t.segments, t.errors + [MissingSeparator])
  {
    assert "PAxx,10"[..2] == "PA" && "PA10"[..2] == "PA";
    LocateExamples();
    FeedRejected(t, "PAxx,10");
    FeedRejected(t, "PA10");
  }

  /**
    The scan for the number start skips a leading decimal point: `PA.5,1`
    is a located move whose target is (5,1), not (0.5,1).
  */
  lemma LeadingPointTarget(s: PenState)
    ensures IsMove("PA.5,1") && MotionTarget(s, "PA.5,1") == Point(5.0, 1.0)
  {
    var cmd := "PA.5,1";
    assert cmd[..2] == "PA";
    LocateExamples();
    assert Operand(cmd, Operands(3, 4)) == Point(5.0, 1.0) by {
      assert cmd[3..4] == "5" && cmd[5..] == "1";
      SmallNumbers();
    }
  }

  /** Tokens the filter drops, such as `SP1` or `IN`, change nothing. */
  lemma ExampleDropped(t: Trace)
    ensures Feed(t, "SP1") == t && Feed(t, "IN") == t
  {
    assert "SP1"[..2] == "SP";
    assert "IN"[..2] == "IN";
  }

  /** `PA.5,1` moves the pen to (5,1), drawing from its old position when it is down. */
  lemma ExampleLeadingPoint(t: Trace)
    ensures Feed(t, "PA.5,1") == Trace(t.pen.(at := Point(5.0, 1.0)), t.segments + (if t.pen.status == Down then [Segment(t.pen.at, Point(5.0, 1.0))] else []), t.errors)
  {
    LeadingPointTarget(t.pen);
    FeedMotion(t, "PA.5,1");
  }
}
