# hpgl-dxf command interpreter in Dafny

`hpgl-dxf` converts an HP-GL plotter command stream into a DXF drawing made of
`LINE` entities. This project models the interpreter at its core:

- the `strtok` tokenizer of the driver loop, which splits the input buffer on
  `;`, `\n` and `\r` (`Tokenizer`);
- the opcode filter, which passes only tokens that open with exactly `PA`,
  `PR`, `PD` or `PU`, and the case-insensitive dispatch on the second character
  inside `HPGLDXF_process_command` (`Commands`);
- the coordinate locator, which skips to the first digit or minus sign and
  splits the operands at the first comma after it (`Coordinates`), and the
  `strtod` conversion of the two operand texts (`Numbers`);
- the pen state machine, `struct pen` and `HPGLDXF_process_command`, as a class
  `Pen` with fields `status`, `x`, `y`, whose `ProcessCommand` works on the
  command's character array, including the temporary overwrite of the comma
  with a NUL and its restoration (`Plotter`);
- the `LINE` record with group codes 10/20/11/21 and the output stream it is
  written to, between the fixed `0 SECTION 0 ENTITIES 0` header and the
  `ENDSEC` footer (`Dxf`);
- the driver loop of `main`: pen initialised at (0,0) and up, header, every
  token through the filter and the state machine in input order, footer
  (`Converter`).

Each imperative piece is proved against a pure specification function:
`Tokenize` against `Tokens`, `Pen.ProcessCommand` against `Step`, and
`Convert` against `Run`, the fold of `Step` over the tokens. The properties
are proved about those functions.

`PAxx,10` is rejected for want of a separator: the scan at hpgl-dxf.c:121
stops at the first digit, which comes after the comma, and no comma follows
it (`Converter.ExampleMalformed`). `PA.5,1` moves the pen to (5,1), because
the same scan skips the decimal point (`Converter.ExampleLeadingPoint`).

## Model

| member | source | states |
|---|---|---|
| Tokenizer.CStr | hpgl-dxf.c:347-351 | the text `strtok` sees is the buffer up to its first NUL: a NUL-free prefix followed by the NUL, or the whole buffer |
| Tokenizer.CStrAtNul | hpgl-dxf.c:134-136 | a NUL written right after a NUL-free text ends the C string at that text |
| Tokenizer.CStrNoNul | hpgl-dxf.c:347-351 | a NUL-free text is its own C string |
| Tokenizer.RunLength | hpgl-dxf.c:362-389 | the length of a token is that of the longest delimiter-free prefix |
| Tokenizer.Tokens | hpgl-dxf.c:362-392 | the tokens `strtok` hands out, in order; any two are parted by a delimiter, so there are at most half as many tokens as characters, rounded up |
| Tokenizer.TokensAreWords | hpgl-dxf.c:362-392 | every token is non-empty and holds no `;`, `\n` or `\r`: runs of delimiters yield no empty tokens |
| Tokenizer.TokensAvoid | hpgl-dxf.c:362-392 | a character absent from the input is absent from every token (so tokens hold no NUL) |
| Tokenizer.RunLengthIs | hpgl-dxf.c:362-389 | a delimiter-free prefix that ends at a delimiter or at the end is exactly the next token |
| Tokenizer.TokensOfWord | hpgl-dxf.c:362-392 | a delimiter-free, non-empty text is a single token |
| Tokenizer.TokensOfTerminated | hpgl-dxf.c:362-392 | tokenizing words each followed by `;` gives the words back, in order |
| Tokenizer.TokensSplit | hpgl-dxf.c:362-392 | tokenizing around a delimiter is tokenizing each side and concatenating, so leading, trailing and repeated delimiters add nothing |
| Tokenizer.Tokenize | hpgl-dxf.c:362-392 | the `strtok` loop over the buffer yields exactly `Tokens` of the text before the first NUL, in input order |
| Tokenizer.ScanRun | hpgl-dxf.c:389 | the scan stops at the first delimiter, NUL or end of buffer, and everything before it is ordinary text |
| Tokenizer.TokensSkip | hpgl-dxf.c:362-389 | a leading delimiter is consumed without producing a token |
| Tokenizer.TokensCut | hpgl-dxf.c:362-389 | a maximal delimiter-free run is the next token and tokenizing resumes after it |
| Commands.Recognised | hpgl-dxf.c:373-378 | a token passes the filter if and only if it has at least two characters, an upper-case `P` first and an upper-case `A`, `R`, `D` or `U` second |
| Commands.Dispatch | hpgl-dxf.c:104-118 | `U`/`u` gives pen up, `D`/`d` pen down, `A`/`a` absolute, `R`/`r` relative (each an if-and-only-if), any other second character the default branch |
| Commands.RecognisedIsDispatched | hpgl-dxf.c:373-380 | every token that passes the filter is dispatched to the opcode its prefix names, so the default branch is unreachable from the loop |
| Commands.LowerCaseIsFiltered | hpgl-dxf.c:373-378 | the filter is case-sensitive although the dispatch is not: `pa10,10` and `Pu` are dropped |
| Numbers.SkipSpace | hpgl-dxf.c:135-136 | what is left is a suffix of the text that does not start with white space, and every character dropped is white space |
| Numbers.FractionValue | hpgl-dxf.c:135-136 | the digits after the decimal point contribute a value in [0, 1) |
| Numbers.Magnitude | hpgl-dxf.c:135-136 | unsigned number text never converts to a negative value |
| Numbers.ParseNumber | hpgl-dxf.c:135-136 | the `strtod` conversion: the value is at most zero after a minus sign and at least zero otherwise |
| Numbers.Signed | hpgl-dxf.c:135-136 | after the white space, a minus sign gives a value of at most zero, anything else one of at least zero |
| Numbers.ParseNoDigits | hpgl-dxf.c:135-136 | text without a single digit converts to zero, as `strtod` does when it finds no number |
| Numbers.SignedNoDigits | hpgl-dxf.c:135-136 | signed text without a digit converts to zero |
| Numbers.MagnitudeNoDigits | hpgl-dxf.c:135-136 | unsigned text without a digit, a lone decimal point included, has magnitude zero |
| Numbers.NoDigitsAfterSpace | hpgl-dxf.c:135-136 | skipping the white space brings in no digit |
| Numbers.DigitRun | hpgl-dxf.c:135-136 | the digits conversion reads are the longest all-digit prefix |
| Numbers.DigitsValueOfDigits | hpgl-dxf.c:135-136 | the decimal text of a natural number has that number as its value |
| Numbers.DigitRunOver | hpgl-dxf.c:135-136 | conversion reads a whole digit string and stops at the first non-digit |
| Numbers.MagnitudeOfDigits | hpgl-dxf.c:135-136 | digits followed by neither a digit nor a point have their digits' value |
| Numbers.MagnitudeOfDigitsText | hpgl-dxf.c:135-136 | the decimal text of `m` converts to `m` whatever follows that cannot extend it |
| Numbers.ParseUnsigned | hpgl-dxf.c:135-136 | text that starts with a digit converts as unsigned text |
| Numbers.ParseNegative | hpgl-dxf.c:135-136 | a minus sign negates the converted value of what follows |
| Numbers.ParseDigitsText | hpgl-dxf.c:135-136 | non-negative whole-number text converts to its value |
| Numbers.ParseNegativeText | hpgl-dxf.c:135-136 | `-` followed by the digits of `m` converts to `-m` |
| Numbers.ParseIntText | hpgl-dxf.c:135-136 | converting the decimal text of any integer gives it back, whatever non-extending text follows |
| Numbers.SmallNumbers | hpgl-dxf.c:135-136 | `0`, `1`, `5`, `10`, `20` convert to their values |
| Coordinates.NumberStart | hpgl-dxf.c:121 | the scan stops at the first digit or `-` from its start, or at the end when there is none |
| Coordinates.CommaFrom | hpgl-dxf.c:128 | `strchr` finds the first comma at or after its start, or reports none |
| Coordinates.Locate | hpgl-dxf.c:121-132 | a located number start lies before the comma, which lies inside the command; the locator never reports an unknown opcode |
| Coordinates.LocateCharacterised | hpgl-dxf.c:121-132 | missing coordinates if and only if no digit or `-` occurs; missing separator if and only if no comma follows the first of them; otherwise the first number start and the first comma after it |
| Coordinates.OperandTexts | hpgl-dxf.c:128-137 | the X text runs from the number start to the comma and holds no comma, the Y text is everything after the comma, and X opens with a digit or `-` |
| Coordinates.SplitAtComma | hpgl-dxf.c:134-136 | the text from the number start is the X text, the comma, and the Y text |
| Coordinates.NoCommaBefore | hpgl-dxf.c:128 | the stretch `strchr` passed over holds no comma |
| Coordinates.LocateExamples | hpgl-dxf.c:121-132 | `PA10,20` and `PA-3,4` are located at (2,4); `PAxx,10` and `PA10` lack a separator; `PA` lacks coordinates; `PA.5,1` starts at the `5` |
| Geometry.Add | hpgl-dxf.c:140-144 | a relative target differs from the old position by exactly the parsed offset, per component |
| Dxf.Document | hpgl-dxf.c:356-395 | the output opens with the header and closes with the footer, with ten items per segment between them |
| Dxf.LineRecord | hpgl-dxf.c:148-162 | a `LINE` record is ten items: name, 10/x1, 20/y1, 11/x2, 21/y2, and the closing group code 0 |
| Dxf.Records | hpgl-dxf.c:147-163 | one record per emitted segment, in order |
| Dxf.RecordsSnoc | hpgl-dxf.c:147-163 | emitting one more segment appends exactly its record |
| Dxf.LineRoundTrip | hpgl-dxf.c:148-162 | a `LINE` record reads back as its segment |
| Dxf.RecordsRoundTrip | hpgl-dxf.c:147-163 | the records determine the segments: decoding them gives the segments back |
| Dxf.DocumentRoundTrip | hpgl-dxf.c:356-395 | the whole output, header and footer included, decodes to the emitted segments |
| Dxf.DxfWriter.constructor | hpgl-dxf.c:329 | a freshly opened output stream is empty |
| Dxf.DxfWriter.Write | hpgl-dxf.c:356 | writing framing text appends it to the stream |
| Dxf.DxfWriter.WriteLine | hpgl-dxf.c:148-162 | writing a segment appends its `LINE` record to the stream |
| Plotter.LineOf | hpgl-dxf.c:147-163 | a command emits at most one segment, and one exactly when it was applied with a segment |
| Plotter.ErrorOf | hpgl-dxf.c:123-132 | a command reports an error exactly when it was rejected |
| Plotter.Target | hpgl-dxf.c:140-144 | an absolute target is the operand whatever the pen's position; a relative target lies exactly the operand away from the pen |
| Plotter.Step | hpgl-dxf.c:99-176 | a rejected command leaves the pen unchanged; only `PU`/`PD` change the status; an emitted segment runs from the old position to the new one |
| Plotter.PenCommands | hpgl-dxf.c:104-113 | `PU`/`pu` sets Up and `PD`/`pd` sets Down, with no move, no parsing and no segment |
| Plotter.MotionCommand | hpgl-dxf.c:140-166 | a located `PA` moves to the parsed point and `PR` by it, whether the pen is up or down; the status is kept; a segment from the old position to the target is emitted if and only if the pen was down |
| Plotter.StepMotion | hpgl-dxf.c:140-166 | the new pen and report of a located motion command, in terms of its target |
| Plotter.MotionWithoutOperands | hpgl-dxf.c:121-132 | a motion command without coordinates or without a separator is rejected with that error and changes nothing |
| Plotter.PositionIgnoresStatus | hpgl-dxf.c:140-166 | whether the pen is up or down affects neither where a command moves it nor whether it fails |
| Plotter.IntTextShape | hpgl-dxf.c:121-128 | integer text starts with a digit or `-` and holds no comma |
| Plotter.MoveTextStep | hpgl-dxf.c:115-168 | `PA<x>,<y>` moves the pen to (x,y) and `PR<x>,<y>` by (x,y), drawing from the old position exactly when the pen is down |
| Plotter.MoveTextOperands | hpgl-dxf.c:121-137 | the operands of `P<letter><x>,<y>` are located right after the opcode and convert to x and y |
| Plotter.MoveTextLocated | hpgl-dxf.c:121-132 | in `P<letter><x>,<y>` the X text starts right after the two-letter opcode and the comma follows the digits of x |
| Plotter.Pen.constructor | hpgl-dxf.c:269-271 | the pen starts at (0,0) and up |
| Plotter.Pen.ProcessCommand | hpgl-dxf.c:99-176 | the new pen and the report are what `Step` gives for the old pen; the segment emitted, if any, is written to the stream; the command buffer is unchanged afterwards |
| Plotter.Pen.Plot | hpgl-dxf.c:115-168 | the `PA`/`PR` branch does what `Step` says, writes the segment when the pen is down, and leaves the buffer as it found it |
| Plotter.Pen.PlotAt | hpgl-dxf.c:134-166 | once the operands are located, converting them, moving the pen and drawing when it is down do what `Step` says, and the buffer is left as it was |
| Plotter.Pen.MoveTo | hpgl-dxf.c:147-166 | the pen moves to the target with its status kept, and the segment travelled is written exactly when it was down |
| Plotter.ReadOperands | hpgl-dxf.c:134-137 | with the comma replaced by a NUL, the two conversions read the X and Y texts; the comma is restored |
| Plotter.RestoreComma | hpgl-dxf.c:137 | writing the comma back over the NUL gives back the command exactly as it was before the cut |
| Plotter.SkipToNumber | hpgl-dxf.c:121 | the pointer loop stops at the first digit or `-` |
| Plotter.CutAtComma | hpgl-dxf.c:134-137 | after the NUL overwrite the C string at the number start is the X text and the one after it the Y text; restoring the comma restores the buffer |
| Plotter.NumberStartIs | hpgl-dxf.c:121 | the first digit or `-` is where the scan stops |
| Converter.Feed | hpgl-dxf.c:373-385 | one loop iteration: a dropped token changes nothing, and a processed one appends at most one segment or one error, never both, leaving what was already emitted untouched |
| Converter.Run | hpgl-dxf.c:362-392 | the loop over all tokens from a given pen; the "don't know how to handle" error (hpgl-dxf.c:170-171) never occurs in a run |
| Converter.RunOutputBound | hpgl-dxf.c:373-385 | a run emits no more segments and errors together than there are tokens passing the filter |
| Converter.SegmentCount | hpgl-dxf.c:147-166 | a run draws exactly one segment per `PA`/`PR` token that is reached with the pen down and whose operands are located (`DrawCount`) |
| Converter.FeedSegments | hpgl-dxf.c:147-166 | one token adds a segment exactly when it is a located `PA`/`PR` and the pen is down, and adds none otherwise |
| Converter.FeedNeverUnrecognized | hpgl-dxf.c:170-171 | feeding one token adds no "don't know how to handle" error |
| Converter.Output | hpgl-dxf.c:356-395 | the converted document for an input buffer reads back as exactly the segments the run drew |
| Converter.Filtered | hpgl-dxf.c:373-385 | the tokens that pass the filter: every kept token passes it, and every token that passes it is kept (order and multiplicity: `FilteredAppend`) |
| Converter.FilteredAppend | hpgl-dxf.c:373-385 | the filter works token by token: filtering a concatenation is the concatenation of the filtered parts, so kept tokens keep their order and their repetitions |
| Converter.RunSnoc | hpgl-dxf.c:363-392 | one more token extends the run by one step of the loop |
| Converter.RunIgnoresUnrecognised | hpgl-dxf.c:373-385 | dropped tokens change neither the pen nor the output nor the errors |
| Converter.RunPositionIgnoresStatus | hpgl-dxf.c:140-166 | the final position and the errors of a run depend on the start position only, not on the status |
| Converter.PenUpDrawsNothing | hpgl-dxf.c:147-163 | with the pen up and no `PD`, nothing is drawn and the pen stays up |
| Converter.FeedUp | hpgl-dxf.c:104-166 | a token other than `PD`, fed with the pen up, leaves it up and draws nothing |
| Converter.PenDownDrawsPath | hpgl-dxf.c:147-166 | with the pen down, n located moves draw n segments forming one connected path from the start position to the final one, with no errors |
| Converter.ConnectedSnoc | hpgl-dxf.c:147-166 | a segment starting where a connected path ends extends the path |
| Converter.FeedMotion | hpgl-dxf.c:140-166 | a located `PA`/`PR` token moves the pen to its target and, pen down, adds the segment travelled |
| Converter.Convert | hpgl-dxf.c:356-395 | the output is header, the records of the run's segments, footer, and the errors are the run's; the result depends on the input alone |
| Converter.Drive | hpgl-dxf.c:362-392 | the loop leaves the pen where the run leaves it, the stream holding the header and the records of the run's segments, and the run's errors |
| Converter.Handle | hpgl-dxf.c:373-385 | one loop iteration filters a token and, if it passes, processes it, advancing pen, stream and errors by one step of the run |
| Converter.FeedRecognised | hpgl-dxf.c:373-380 | a token that passes the filter is stepped and its segment, if any, extends the records |
| Converter.RecordsAppend | hpgl-dxf.c:147-163 | the records of two runs of segments, one after the other, are the two runs of records concatenated |
| Converter.FeedPenCommand | hpgl-dxf.c:104-113 | a `PU`/`PD` token sets the status only |
| Converter.FeedRejected | hpgl-dxf.c:121-132 | a `PA`/`PR` token without operands adds the locator's error and changes nothing else |
| Converter.RunTwo | hpgl-dxf.c:363-392 | a run over two tokens processes them in order |
| Converter.RunThree | hpgl-dxf.c:363-392 | a run over three tokens processes the third after the first two |
| Converter.PenTokens | hpgl-dxf.c:373-378 | `PU` and `PD` pass the filter and dispatch to pen up and pen down |
| Converter.UpAndMove | hpgl-dxf.c:362-392 | from the start, `PU` then `PA<x>,<y>` moves the pen to (x,y) without drawing |
| Converter.UpMoveAndDown | hpgl-dxf.c:362-392 | from the start, `PU;PA<x>,<y>;PD` leaves the pen down at (x,y) having drawn nothing |
| Converter.ExampleAbsolute | hpgl-dxf.c:362-392 | `PU;PA<x1>,<y1>;PD;PA<x2>,<y2>` draws exactly one line, (x1,y1) to (x2,y2) |
| Converter.FeedMove | hpgl-dxf.c:115-168 | a well-formed `PA`/`PR` token with whole-number operands moves or draws as the source does |
| Converter.DownAndMove | hpgl-dxf.c:362-392 | from the start, `PD` then `PR<d>,0` draws (0,0) to (d,0) |
| Converter.ExampleRelative | hpgl-dxf.c:140-144 | `PD;PR<d>,0;PR0,<d>` draws (0,0) to (d,0) and then (d,0) to (d,d): relative moves accumulate |
| Converter.ExampleMalformed | hpgl-dxf.c:121-132 | `PAxx,10` and `PA10` draw nothing, leave the pen where it was, and report one missing separator each |
| Converter.LeadingPointTarget | hpgl-dxf.c:121 | `PA.5,1` is a located move whose target is (5,1), not (0.5,1) |
| Converter.ExampleDropped | hpgl-dxf.c:381-385 | `SP1` and `IN`, which the filter drops, change nothing |
| Converter.ExampleLeadingPoint | hpgl-dxf.c:121-166 | `PA.5,1` moves the pen to (5,1), drawing from its old position only when it is down |

## Left out

- Command-line parsing with `getopt`, the help and version text and the `exit` calls (hpgl-dxf.c:67-83, 201-244) are not modelled: they are process plumbing.
- The `stat`/`malloc`/`fopen`/`fread`/`fclose`/`free` calls and the exit codes 1-5 (hpgl-dxf.c:284-344, 396-399) are not modelled. The model starts from the in-memory buffer `data`, which is the file's contents. `CStr` models the terminating NUL that `main` appends.
- The debug `printf` lines and the `stderr` diagnostics are not modelled as text. Each diagnostic of `HPGLDXF_process_command` is a `CommandError` value, reported in a sequence of errors.
- Dafny `char` stands for one byte of the input file. No character encoding is modelled.
- Geometry.Add: a relative move adds exact reals. The `double` additions at hpgl-dxf.c:142-143 round, and that rounding is not modelled.
- Numbers.ParseNumber: conversion is exact on reals. It covers the decimal subset `strtod` accepts here: white space, a sign, digits, a point and fraction digits. Exponents, hexadecimal forms, `inf`/`nan` and rounding to `double` are not modelled, and neither is overflow.
- Dxf.DxfWriter.WriteLine: coordinates are kept as numbers. The `%0.3f` rendering of each value as text is not modelled.
- Converter.Convert: the loop interleaves `strtok` with processing; the model tokenizes the buffer first and then processes the tokens. The two agree because `HPGLDXF_process_command` puts back the only character it overwrites. `strtok` itself only writes at delimiter positions, which are never inside a token.
- Only the first coordinate pair of a `PA`/`PR` command is read, as in the code. Multi-pair polylines of full HP-GL are not part of the program.
- `Plotter.Pen.ProcessCommand` takes a NUL-free command, which is what `strtok` hands it. For a one-character command, `command[1]` is the terminator, and `OpcodeLetter` models it as NUL.
