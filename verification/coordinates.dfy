/**
  The coordinate locator of `HPGLDXF_process_command`: skip to the first digit
  or minus sign, then split the operand at the first comma from there on. The
  X text runs from the number start up to the comma, the Y text is everything
  after the comma.
*/
module Coordinates {
  import opened Wrappers
  import opened Commands
  import opened Numbers

  /** A character at which the scan for the number stops. */
  predicate IsNumberStart(c: char) {
    IsDigit(c) || c == '-'
  }

  /** The first digit or minus sign at or after `from`, or `|s|` when there is none. */
  function NumberStart(s: string, from: nat): (k: nat)
    requires from <= |s|
    ensures from <= k <= |s|
    ensures forall i :: from <= i < k ==> !IsNumberStart(s[i])
    ensures k < |s| ==> IsNumberStart(s[k])
    decreases |s| - from
  {
    if from == |s| || IsNumberStart(s[from]) then from else NumberStart(s, from + 1)
  }

  /** `strchr(s + from, ',')`: the first comma at or after `from`, or `|s|` when there is none. */
  function CommaFrom(s: string, from: nat): (k: nat)
    requires from <= |s|
    ensures from <= k <= |s|
    ensures forall i :: from <= i < k ==> s[i] != ','
    ensures k < |s| ==> s[k] == ','
    decreases |s| - from
  {
    if from == |s| || s[from] == ',' then from else CommaFrom(s, from + 1)
  }

  /** Where the operands of a motion command lie: the number start and the separating comma. */
  datatype Operands = Operands(start: nat, comma: nat)

  /**
    Locates the operands of a motion command, or says why it cannot: no digit
    and no minus sign anywhere, or no comma after the first of them.
  */
  function Locate(command: string): (r: Result<Operands, CommandError>)
    ensures r.Success? ==> r.value.start < r.value.comma < |command|
    ensures r != Failure(UnrecognizedOpcode)
  {
    var cp := NumberStart(command, 0);
    if cp == |command| then Failure(MissingCoordinates)
    else
      var ep := CommaFrom(command, cp);
      if ep == |command| then Failure(MissingSeparator)
      else Success(Operands(cp, ep))
  }

  /** No digit or minus sign comes before index `k`. */
  predicate FirstNumberStart(s: string, k: nat) {
    forall i :: 0 <= i < k && i < |s| ==> !IsNumberStart(s[i])
  }

  /** No comma occurs in `s` at or after index `k`. */
  predicate NoCommaFrom(s: string, k: nat) {
    forall i :: k <= i < |s| ==> s[i] != ','
  }

  /**
    What the locator finds: it fails for want of coordinates exactly when the
    command holds no digit and no minus sign, fails for want of a separator
    exactly when no comma follows the first of them, and otherwise returns
    that first number start and the first comma after it.
  */
  lemma LocateCharacterised(command: string)
    ensures var r := Locate(command);
      && (r == Failure(MissingCoordinates) <==>
            forall i :: 0 <= i < |command| ==> !IsNumberStart(command[i]))
      && (r == Failure(MissingSeparator) <==>
            exists k :: 0 <= k < |command| && IsNumberStart(command[k]) && FirstNumberStart(command, k) && NoCommaFrom(command, k))
      && (r.Success? ==>
            && IsNumberStart(command[r.value.start]) && FirstNumberStart(command, r.value.start)
            && command[r.value.comma] == ',' && NoCommaFrom(command[..r.value.comma], r.value.start))
  {
    var cp := NumberStart(command, 0);
    if cp < |command| && CommaFrom(command, cp) == |command| {
      assert IsNumberStart(command[cp]) && FirstNumberStart(command, cp) && NoCommaFrom(command, cp);
    }
  }

  /** The X operand text: from the number start up to, not including, the comma. */
  function XText(command: string, o: Operands): string
    requires o.start <= o.comma < |command|
  {
    command[o.start..o.comma]
  }

  /** The Y operand text: everything after the comma. */
  function YText(command: string, o: Operands): string
    requires o.comma < |command|
  {
    command[o.comma + 1..]
  }

  /** The operand texts and the comma between them make up the command from the number start on. */
  lemma OperandTexts(command: string)
    requires Locate(command).Success?
    ensures var o := Locate(command).value;
      && command[o.start..] == XText(command, o) + [','] + YText(command, o)
      && ',' !in XText(command, o)
      && XText(command, o) != [] && IsNumberStart(XText(command, o)[0])
  {
    var o := Locate(command).value;
    assert o.start == NumberStart(command, 0) && o.comma == CommaFrom(command, o.start);
    SplitAtComma(command, o.start, o.comma);
    NoCommaBefore(command, o.start, o.comma);
    assert XText(command, o)[0] == command[o.start];
  }

  /** Text from `a` on is the part before the comma at `c`, the comma, and the part after it. */
  lemma SplitAtComma(s: string, a: nat, c: nat)
    requires a <= c < |s| && s[c] == ','
    ensures s[a..] == s[a..c] + [','] + s[c + 1..]
  {
    assert s[a..] == s[a..c] + s[c..];
    assert s[c..] == [','] + s[c + 1..];
  }

  /** A stretch that the comma search passed over holds no comma. */
  lemma NoCommaBefore(s: string, a: nat, c: nat)
    requires a <= c <= |s|
    requires forall i :: a <= i < c ==> s[i] != ','
    ensures ',' !in s[a..c]
  {
    forall i | 0 <= i < c - a
      ensures s[a..c][i] != ','
    {
      assert s[a..c][i] == s[a + i];
    }
  }

  /** Worked cases: where the locator finds the operands, and where it gives up. */
  lemma LocateExamples()
    ensures Locate("PA10,20") == Success(Operands(2, 4))
    ensures Locate("PA-3,4") == Success(Operands(2, 4))
    ensures Locate("PAxx,10") == Failure(MissingSeparator)
    ensures Locate("PA10") == Failure(MissingSeparator)
    ensures Locate("PA") == Failure(MissingCoordinates)
    ensures Locate("PA.5,1") == Success(Operands(3, 4))
  {
    assert NumberStart("PA10,20", 0) == 2;
    assert CommaFrom("PA10,20", 2) == 4;
    assert NumberStart("PA-3,4", 0) == 2;
    assert CommaFrom("PA-3,4", 2) == 4;
    assert NumberStart("PAxx,10", 0) == 5;
    assert CommaFrom("PAxx,10", 5) == 7;
    assert NumberStart("PA10", 0) == 2;
    assert CommaFrom("PA10", 2) == 4;
    assert NumberStart("PA", 0) == 2;
    assert NumberStart("PA.5,1", 0) == 3;
    assert CommaFrom("PA.5,1", 3) == 4;
  }
}
