/**
  The pen state machine, `HPGLDXF_process_command`. `Step` says what one
  command does to the pen and what it emits; the `Pen` class is the `struct pen`
  the C code updates through a pointer, and its `ProcessCommand` is proved to
  do what `Step` says.
*/
module Plotter {
  import opened Wrappers
  import opened Tokenizer
  import opened Commands
  import opened Numbers
  import opened Coordinates
  import opened Geometry
  import opened Dxf

  /** `PEN_UP` and `PEN_DOWN`. */
  datatype Status = Up | Down

  /** The pen: status and position. */
  datatype PenState = PenState(status: Status, at: Point)

  /** The pen at the start of a run: at the origin and up. */
  const Initial := PenState(Up, Point(0.0, 0.0))

  /** What a command produced: an optional segment, or the error it was rejected with. */
  datatype Report = Applied(line: Option<Segment>) | Rejected(error: CommandError)

  datatype StepResult = StepResult(pen: PenState, report: Report)

  /** The segments a report emits: none or one. */
  function LineOf(report: Report): (segs: seq<Segment>)
    ensures |segs| <= 1
    ensures segs != [] <==> report.Applied? && report.line.Some?
  {
    if report.Applied? && report.line.Some? then [report.line.value] else []
  }

  /** The errors a report carries: none or one. */
  function ErrorOf(report: Report): (errs: seq<CommandError>)
    ensures errs != [] <==> report.Rejected?
  {
    if report.Rejected? then [report.error] else []
  }

  /** The operand pair of a located motion command, as `strtod` converts the two texts. */
  function Operand(command: string, o: Operands): Point
    requires o.start <= o.comma < |command|
  {
    Point(ParseNumber(XText(command, o)), ParseNumber(YText(command, o)))
  }

  /**
    Where a motion command moves the pen: an absolute target is the operand
    whatever the pen's position, a relative one lies the operand away from it.
  */
  function Target(s: PenState, op: Opcode, command: string, o: Operands): (p: Point)
    requires o.start <= o.comma < |command|
    ensures op != PlotRelative ==> p == Operand(command, o)
    ensures op == PlotRelative ==> p.x - s.at.x == Operand(command, o).x && p.y - s.at.y == Operand(command, o).y
  {
    if op == PlotRelative then Add(s.at, Operand(command, o)) else Operand(command, o)
  }

  /**
    One command applied to the pen. A rejected command leaves the pen as it
    was; a motion command never changes the status; only `PU` and `PD` do.
  */
  function Step(s: PenState, command: string): (r: StepResult)
    ensures r.report.Rejected? ==> r.pen == s
    ensures Dispatch(command) !in {Some(PenUp), Some(PenDown)} ==> r.pen.status == s.status
    ensures r.report.Applied? && r.report.line.Some? ==> r.report.line.value.start == s.at && r.report.line.value.end == r.pen.at
  {
    match Dispatch(command)
    case None => StepResult(s, Rejected(UnrecognizedOpcode))
    case Some(PenUp) => StepResult(s.(status := Up), Applied(None))
    case Some(PenDown) => StepResult(s.(status := Down), Applied(None))
    case Some(op) =>
      match Locate(command)
      case Failure(e) => StepResult(s, Rejected(e))
      case Success(o) =>
        var target := Target(s, op, command, o);
        StepResult(PenState(s.status, target),
                   Applied(if s.status == Down then Some(Segment(s.at, target)) else None))
  }

  /** `PU` and `PD` set the status and nothing else: no parsing, no move, no segment. */
  lemma PenCommands(s: PenState, command: string)
    requires Dispatch(command) in {Some(PenUp), Some(PenDown)}
    ensures Step(s, command).pen.at == s.at
    ensures Step(s, command).pen.status == (if Dispatch(command) == Some(PenUp) then Up else Down)
    ensures Step(s, command).report == Applied(None)
  {
  }

  /**
    A located `PA` or `PR` draws exactly when the pen was down, from the old
    position to the target, and moves the pen to the target either way.
  */
  lemma MotionCommand(s: PenState, command: string)
    requires Dispatch(command) in {Some(PlotAbsolute), Some(PlotRelative)}
    requires Locate(command).Success?
    ensures var r := Step(s, command);
      var o := Locate(command).value;
      var target := if Dispatch(command) == Some(PlotAbsolute) then Operand(command, o)
                    else Add(s.at, Operand(command, o));
      && r.pen == PenState(s.status, target)
      && (r.report == Applied(Some(Segment(s.at, target))) <==> s.status == Down)
      && (r.report == Applied(None) <==> s.status == Up)
  {
    StepMotion(s, command, Dispatch(command).value, Locate(command).value);
  }

  /**
    The motion branch of `Step` unfolded for a given opcode and operand pair:
    the form `Pen.Plot` and the driver-loop lemmas rewrite with, where
    `MotionCommand` states the same branch as properties.
  */
  lemma StepMotion(s: PenState, command: string, op: Opcode, o: Operands)
    requires op in {PlotAbsolute, PlotRelative} && Dispatch(command) == Some(op)
    requires Locate(command) == Success(o)
    ensures var target := Target(s, op, command, o);
      Step(s, command) == StepResult(PenState(s.status, target),
                                     Applied(if s.status == Down then Some(Segment(s.at, target)) else None))
  {
  }

  /** The command text `P<letter><x>,<y>` for whole numbers `x` and `y`. */
  function MoveText(letter: char, x: int, y: int): string {
    ['P', letter] + IntText(x) + [','] + IntText(y)
  }

  /** Integer text holds no comma and starts with a digit or a minus sign. */
  lemma IntTextShape(n: int)
    ensures IntText(n) != [] && IsNumberStart(IntText(n)[0])
    ensures ',' !in IntText(n)
  {
    var m: nat := if n < 0 then -n else n;
    assert AllDigits(Digits(m));
    assert forall i :: 0 <= i < |Digits(m)| ==> Digits(m)[i] != ',';
  }

  /**
    A well-formed `PA`/`PR` with whole-number operands moves the pen to, or by,
    exactly those numbers, and draws when the pen is down.
  */
  lemma MoveTextStep(s: PenState, letter: char, x: int, y: int)
    requires letter in {'A', 'a', 'R', 'r'}
    ensures var target := if letter in {'R', 'r'} then Add(s.at, Point(x as real, y as real)) else Point(x as real, y as real);
      Step(s, MoveText(letter, x, y))
        == StepResult(PenState(s.status, target), Applied(if s.status == Down then Some(Segment(s.at, target)) else None))
  {
    var cmd := MoveText(letter, x, y);
    var o := Operands(2, 2 + |IntText(x)|);
    MoveTextOperands(letter, x, y);
    var op := if letter in {'R', 'r'} then PlotRelative else PlotAbsolute;
    assert OpcodeLetter(cmd) == letter;
    StepMotion(s, cmd, op, o);
  }

  /** The operands of a `MoveText` command are located after the opcode and convert to `x` and `y`. */
  lemma MoveTextOperands(letter: char, x: int, y: int)
    requires !IsNumberStart(letter)
    ensures var o := Operands(2, 2 + |IntText(x)|);
      Locate(MoveText(letter, x, y)) == Success(o) && Operand(MoveText(letter, x, y), o) == Point(x as real, y as real)
  {
    var cmd := MoveText(letter, x, y);
    var xs, ys := IntText(x), IntText(y);
    var o := Operands(2, 2 + |xs|);
    MoveTextLocated(letter, x, y);
    assert XText(cmd, o) == xs + [] && YText(cmd, o) == ys + [];
    ParseIntText(x, []);
    ParseIntText(y, []);
  }

  /** The operands of `P<letter><x>,<y>` start right after the opcode and end at the comma after `x`. */
  lemma MoveTextLocated(letter: char, x: int, y: int)
    requires !IsNumberStart(letter)
    ensures Locate(MoveText(letter, x, y)) == Success(Operands(2, 2 + |IntText(x)|))
  {
    var cmd := MoveText(letter, x, y);
    var xs, ys := IntText(x), IntText(y);
    IntTextShape(x);
    var comma := 2 + |xs|;
    assert cmd[2..comma] == xs && cmd[comma] == ',';
    assert NumberStart(cmd, 0) == 2 by {
      assert cmd[0] == 'P' && cmd[1] == letter && IsNumberStart(cmd[2]);
      NumberStartIs(cmd, 2);
    }
    assert CommaFrom(cmd, 2) == comma by {
      assert forall i :: 2 <= i < comma ==> cmd[i] == xs[i - 2];
    }
  }

  /** A motion command whose operands cannot be located is rejected with the locator's error. */
  lemma MotionWithoutOperands(s: PenState, command: string)
    requires Dispatch(command) in {Some(PlotAbsolute), Some(PlotRelative)}
    requires Locate(command).Failure?
    ensures Step(s, command) == StepResult(s, Rejected(Locate(command).error))
  {
  }

  /** The pen's status never affects where a command moves it, nor whether the command fails. */
  lemma PositionIgnoresStatus(s1: PenState, s2: PenState, command: string)
    requires s1.at == s2.at
    ensures Step(s1, command).pen.at == Step(s2, command).pen.at
    ensures ErrorOf(Step(s1, command).report) == ErrorOf(Step(s2, command).report)
  {
  }

  /** The `struct pen` of one conversion run. */
  class Pen {
    var status: Status
    var x: real
    var y: real

    function State(): PenState
      reads this
    {
      PenState(status, Point(x, y))
    }

    /** The initialisation at the top of `main`. */
    constructor ()
      ensures State() == Initial
    {
      x := 0.0;
      y := 0.0;
      status := Up;
    }

    /**
      `HPGLDXF_process_command`: `command` is the token's character buffer
      (a C string without its terminator). The comma is overwritten by a NUL
      while the X text is converted and put back afterwards. A segment is
      written to `f` when the pen is down.
    */
    method ProcessCommand(f: DxfWriter, command: array<char>) returns (report: Report)
      requires forall i :: 0 <= i < command.Length ==> command[i] != '\0'
      modifies this, f, command
      ensures command[..] == old(command[..])
      ensures StepResult(State(), report) == Step(old(State()), old(command[..]))
      ensures f.items == old(f.items) + Records(LineOf(report))
    {
      ghost var s := command[..];
      ghost var st := State();
      var letter := if command.Length >= 2 then command[1] else '\0';
      assert letter == OpcodeLetter(s);
      if letter == 'U' || letter == 'u' {
        status := Up;
        report := Applied(None);
      } else if letter == 'D' || letter == 'd' {
        status := Down;
        report := Applied(None);
      } else if letter == 'A' || letter == 'a' || letter == 'r' || letter == 'R' {
        report := Plot(f, command, letter == 'r' || letter == 'R');
      } else {
        report := Rejected(UnrecognizedOpcode);
      }
    }

    /**
      The `PA`/`PR` case: locate the operands, convert them with the comma
      temporarily replaced by a NUL, move the pen, and write a segment when the
      pen is down.
    */
    method Plot(f: DxfWriter, command: array<char>, relative: bool) returns (report: Report)
      requires forall i :: 0 <= i < command.Length ==> command[i] != '\0'
      requires Dispatch(command[..]) == Some(if relative then PlotRelative else PlotAbsolute)
      modifies this, f, command
      ensures command[..] == old(command[..])
      ensures StepResult(State(), report) == Step(old(State()), old(command[..]))
      ensures f.items == old(f.items) + Records(LineOf(report))
    {
      ghost var s := command[..];
      ghost var st := State();
      ghost var op := if relative then PlotRelative else PlotAbsolute;
      var cp := SkipToNumber(command);
      if cp == command.Length {
        report := Rejected(MissingCoordinates);
        assert Locate(s) == Failure(MissingCoordinates);
        MotionWithoutOperands(st, s);
        return;
      }
      var ep := CommaFrom(command[..], cp);
      if ep == command.Length {
        report := Rejected(MissingSeparator);
        assert Locate(s) == Failure(MissingSeparator);
        MotionWithoutOperands(st, s);
        return;
      }
      assert Locate(s) == Success(Operands(cp, ep));
      report := PlotAt(f, command, relative, cp, ep);
    }

    /**
      The `PA`/`PR` case once the operands are located at `cp` and `ep`:
      convert them, move the pen, and write a segment when the pen is down.
    */
    method PlotAt(f: DxfWriter, command: array<char>, relative: bool, cp: nat, ep: nat) returns (report: Report)
      requires forall i :: 0 <= i < command.Length ==> command[i] != '\0'
      requires Dispatch(command[..]) == Some(if relative then PlotRelative else PlotAbsolute)
      requires Locate(command[..]) == Success(Operands(cp, ep))
      modifies this, f, command
      ensures command[..] == old(command[..])
      ensures StepResult(State(), report) == Step(old(State()), old(command[..]))
      ensures f.items == old(f.items) + Records(LineOf(report))
    {
      ghost var s := command[..];
      ghost var st := State();
      ghost var op := if relative then PlotRelative else PlotAbsolute;
      ghost var o := Operands(cp, ep);
      var p := ReadOperands(command, cp, ep);
      assert Point(x, y) == st.at;
      var target := if relative then Add(Point(x, y), p) else p;
      assert target == Target(st, op, s, o) by {
        assert p == Operand(s, o);
      }
      var line := MoveTo(f, target);
      report := Applied(line);
      StepMotion(st, s, op, o);
      assert StepResult(State(), report) == Step(st, s);
      assert LineOf(report) == if line.Some? then [line.value] else [];
    }

    /**
      Moves the pen to `target`; when the pen is down the segment travelled is
      written out as a `LINE` record and returned. The pen's status is kept.
    */
    method MoveTo(f: DxfWriter, target: Point) returns (line: Option<Segment>)
      modifies this, f
      ensures State() == PenState(old(status), target)
      ensures line == if old(status) == Down then Some(Segment(old(State()).at, target)) else None
      ensures f.items == old(f.items) + Records(if line.Some? then [line.value] else [])
    {
      if status == Down {
        line := Some(Segment(Point(x, y), target));
        f.WriteLine(line.value);
      } else {
        line := None;
      }
      x := target.x;
      y := target.y;
    }
  }

  /**
    Reads the two operands of a located motion command: the comma is overwritten
    with a NUL so that the first operand ends there, both operands are parsed and
    the comma is put back.
  */
  method ReadOperands(command: array<char>, cp: nat, ep: nat) returns (p: Point)
    requires forall i :: 0 <= i < command.Length ==> command[i] != '\0'
    requires Locate(command[..]) == Success(Operands(cp, ep))
    modifies command
    ensures command[..] == old(command[..])
    ensures p == Operand(old(command[..]), Operands(cp, ep))
  {
    ghost var s := command[..];
    ghost var o := Operands(cp, ep);
    assert s[ep] == ',';
    command[ep] := '\0';
    ghost var cut := command[..];
    assert cut == s[ep := '\0'];
    var xText := CStr(command[cp..]);
    var yText := CStr(command[ep + 1..]);
    assert xText == XText(s, o) && yText == YText(s, o) by {
      assert command[cp..] == cut[cp..] && command[ep + 1..] == cut[ep + 1..];
      CutAtComma(s, cp, ep);
    }
    p := Point(ParseNumber(xText), ParseNumber(yText));
    RestoreComma(command, ep, s);
  }

  /** `*ep = ','`: writing the comma back over the NUL restores the command. */
  method RestoreComma(command: array<char>, ep: nat, ghost s: string)
    requires ep < command.Length == |s| && s[ep] == ','
    requires command[..] == s[ep := '\0']
    modifies command
    ensures command[..] == s
  {
    command[ep] := ',';
    assert forall i :: 0 <= i < command.Length ==> command[i] == s[i];
  }

  /** The scan for the number start: advance to the first digit or minus sign, or to the end. */
  method SkipToNumber(command: array<char>) returns (cp: nat)
    ensures cp == NumberStart(command[..], 0)
  {
    cp := 0;
    while cp < command.Length && !IsDigit(command[cp]) && command[cp] != '-'
      invariant 0 <= cp <= command.Length
      invariant forall i :: 0 <= i < cp ==> !IsNumberStart(command[i])
    {
      cp := cp + 1;
    }
    NumberStartIs(command[..], cp);
  }

  /**
    Overwriting the comma with a NUL ends the C string at `cp` just before the
    comma, leaves the one after it whole, and putting the comma back restores
    the buffer.
  */
  lemma CutAtComma(s: string, cp: nat, ep: nat)
    requires cp <= ep < |s| && s[ep] == ','
    requires '\0' !in s
    ensures CStr(s[ep := '\0'][cp..]) == s[cp..ep]
    ensures CStr(s[ep := '\0'][ep + 1..]) == s[ep + 1..]
    ensures s[ep := '\0'][ep := ','] == s
  {
    var cut := s[ep := '\0'];
    assert cut[cp..] == s[cp..ep] + ['\0'] + s[ep + 1..];
    CStrAtNul(s[cp..ep], s[ep + 1..]);
    assert cut[ep + 1..] == s[ep + 1..];
    CStrNoNul(s[ep + 1..]);
  }

  /** The scan's stopping point is the first number start. */
  lemma NumberStartIs(s: string, k: nat)
    requires k <= |s|
    requires forall i :: 0 <= i < k ==> !IsNumberStart(s[i])
    requires k < |s| ==> IsNumberStart(s[k])
    ensures NumberStart(s, 0) == k
  {
    var n := NumberStart(s, 0);
  }
}
