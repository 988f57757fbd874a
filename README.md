# qu — a Dafny model of the queue-language interpreter

Qu is a small interpreted language whose only memory is a FIFO queue of
values. A value (`node`) is an int or a string. A program is a list of text
lines. The interpreter first does a label pass: each line that holds two `|`
characters binds a name to its line index. It then runs a dispatcher loop over
the lines. On each line, every keyword check (`ADD`, `GOTO`, `PUSH`, `RET`, …)
runs on its own, in a fixed order, and fires when its keyword occurs anywhere in
the line. So a single line can trigger several checks. The arithmetic keywords
call the ten routines of `OperationHandler`. A plain routine pops two operands
and pushes the result. A "K" routine keeps both operands and appends the result.

The model has these layers:

- `StdText` (text.dfy) has the parts of `std::string::find`/`rfind`/`substr`,
  `std::stoi` and `std::to_string` that the interpreter relies on. It includes
  the 32-bit range of `stoi`.
- `QuNode` (node.dfy) is the `node` class. It is a value, because no operation
  of the core changes a node after it has been built.
- `Operations` (operations.dfy) has the queue as a class (`NodeQueue`) and
  functions `Plain` and `Keep` that specify what the operations do to it. The
  ten `quAdd` … `quModK` routines are methods that change the queue in place.
  Each is proved to end in the state and status these functions give.
- `Reorder` (reorder.dfy) has the comparator of SORTUP and SORTDOWN and the
  sort it induces. It also has POKE's Fisher–Yates shuffle.
- `Semantics` (semantics.dfy) gives `run()` as functions:
  - `LabelPass` is the label pass.
  - One step function per keyword check.
  - `ExecLine` is the body of the dispatcher loop.
  - `Exec` and `RunProgram` are the loop and the whole run.
- `Interpreter` (interpreter.dfy) is the interpreter as the program runs it. It
  is a class whose fields are the globals `program_queue` and
  `saved_positions`, plus standard output and input. It has one method per
  keyword check. `ExecuteLine` is proved to realise `ExecLine`, and `Run` to
  return exactly `RunProgram`.
- `RunProperties` (properties.dfy) and `Scenarios` (scenarios.dfy) state what
  the label table holds, where jumps continue, and what PUSH, READ, POP and
  QDISPLAY produce. They also state how the keyword checks interact on one line.

The model follows the code, including where it differs from what the keywords
suggest:

- `DIV` calls the subtraction routine, and `DIVK` calls `quSub` and then `quSubK`.
- A jump to line `t` resumes at `t + 1`, because the `for` increment still runs
  after `continue`.
- A label's name is `substr(first + 1, last - 1)`, where the second argument is
  a length. So for an indented label the name runs past the closing bar.
- The first line that declares a name keeps it.
- The "K" forms lengthen the queue by one.
- Every error-handler call ends the process.

A fault becomes `Halted(fault)` in the model. A fault is either an error the
handler reports (kind and line index) or `Undefined(line)`. `Undefined` is used
where the C++ has undefined behaviour: `front()` of an empty queue in
PEEK and POP, and POKE on an empty queue. An uncaught `std::out_of_range` is
the error `UncaughtOutOfRange`. It comes from `substr` past the end of a line,
or from `stoi` in READ on a number outside `int`.

## Model

| member | source | states |
|---|---|---|
| QuNode.DefaultNode | dev/lemonjuice/qu/node/node.cpp:7 | `node()` is the int node 0 |
| QuNode.IntNode | dev/lemonjuice/qu/node/node.cpp:9 | `node(int)` holds an int, reads back the value, and its string field is empty |
| QuNode.StringNode | dev/lemonjuice/qu/node/node.cpp:11 | `node(string)` holds a string, reads back the text, and its int field is 0 |
| QuNode.ContainsStringIsNotInt | dev/lemonjuice/qu/node/node.cpp:15-21 | `containsString` is exactly the negation of `containsInt` |
| QuNode.GetIntAsString | dev/lemonjuice/qu/node/node.cpp:27-29 | the text `stoi` reads back as the int field, when that fits in `int` |
| QuNode.SetInt | dev/lemonjuice/qu/node/node.cpp:35-37 | only the int field changes; the tag and the string field stay |
| QuNode.SetString | dev/lemonjuice/qu/node/node.cpp:39-41 | only the string field changes; the tag and the int field stay |
| QuNode.AccessorsIgnoreTag | dev/lemonjuice/qu/node/node.cpp:43-49 | `p_print` writes the int of an int node and the text of a string node; a string node reads as int 0 and an int node as "" |
| QuNode.Render | dev/lemonjuice/qu/node/node.cpp:43-49 | `p_print` writes text that `stoi` reads back as the int of an int node (when it fits in `int`), and the string field of a string node |
| QuNode.RenderLn | dev/lemonjuice/qu/node/node.cpp:51-54 | `p_println` writes what `p_print` writes followed by exactly one newline |
| QuNode.CreateNodeDisplay | dev/lemonjuice/qu/node/node.cpp:62-79 | the display starts with `{` and the fixed `"nodeType"` head and ends with `}` |
| QuNode.DisplayShape | dev/lemonjuice/qu/node/node.cpp:62-79 | the display opens with the fixed head and `{`, ends with `}`, names `"int"` exactly for int nodes and `"string"` otherwise, and quotes a string value |
| Operations.NodeQueue.constructor | dev/lemonjuice/qu/operation/operationHandler.cpp:63 | a new queue is empty |
| Operations.NodeQueue.Push | dev/lemonjuice/qu/operation/operationHandler.cpp:64 | `push` appends at the back |
| Operations.NodeQueue.Pop | dev/lemonjuice/qu/operation/operationHandler.cpp:69 | `pop` removes the front |
| Operations.TruncDivMod | dev/lemonjuice/qu/operation/operationHandler.cpp:237 | C++ `/` and `%`: quotient times divisor plus remainder is the dividend, the remainder is smaller than the divisor and has the dividend's sign, and the quotient rounds toward zero |
| Operations.Apply | dev/lemonjuice/qu/operation/operationHandler.cpp:24-32 | ADD never fails; a result is an int exactly when both operands are; a failure is division by zero for two ints (DIV or MOD with divisor 0) and an operation mismatch otherwise |
| Operations.Plain | dev/lemonjuice/qu/operation/operationHandler.cpp:13-33 | fewer than two values is not-enough-arguments; a result drops the two operands, keeps the rest in order and is one shorter |
| Operations.Keep | dev/lemonjuice/qu/operation/operationHandler.cpp:42-74 | fewer than two values is not-enough-arguments; a result keeps the whole queue in front and is one longer |
| Operations.Binary | dev/lemonjuice/qu/operation/operationHandler.cpp:13-33 | the shared plain routine ends in the status and queue that `Plain` gives |
| Operations.BinaryKeep | dev/lemonjuice/qu/operation/operationHandler.cpp:42-74 | the shared "K" routine, including the rebuild through a new queue, ends in the status and queue that `Keep` gives |
| Operations.QuAdd | dev/lemonjuice/qu/operation/operationHandler.cpp:13-33 | `quAdd` turns `[a, b] + rest` into `rest + [a + b]` or fails as `Plain(Add)` says |
| Operations.QuAddK | dev/lemonjuice/qu/operation/operationHandler.cpp:42-74 | `quAddK` turns `q` into `q + [a + b]` or fails as `Keep(Add)` says |
| Operations.QuSub | dev/lemonjuice/qu/operation/operationHandler.cpp:83-102 | as `Plain(Sub)` |
| Operations.QuSubK | dev/lemonjuice/qu/operation/operationHandler.cpp:111-142 | as `Keep(Sub)` |
| Operations.QuMul | dev/lemonjuice/qu/operation/operationHandler.cpp:151-170 | as `Plain(Mul)` |
| Operations.QuMulK | dev/lemonjuice/qu/operation/operationHandler.cpp:179-210 | as `Keep(Mul)` |
| Operations.QuDiv | dev/lemonjuice/qu/operation/operationHandler.cpp:219-243 | as `Plain(Div)` |
| Operations.QuDivK | dev/lemonjuice/qu/operation/operationHandler.cpp:252-288 | as `Keep(Div)` |
| Operations.QuMod | dev/lemonjuice/qu/operation/operationHandler.cpp:297-321 | as `Plain(Mod)` |
| Operations.QuModK | dev/lemonjuice/qu/operation/operationHandler.cpp:330-366 | as `Keep(Mod)` |
| Operations.TooFewOperands | dev/lemonjuice/qu/operation/operationHandler.cpp:14-17 | every operation in both forms fails with not-enough-arguments exactly when the queue has fewer than two values |
| Operations.PlainShape | dev/lemonjuice/qu/operation/operationHandler.cpp:19-32 | a successful plain operation drops both operands, keeps the rest in order, appends the result, and is one shorter |
| Operations.KeepExtendsPlain | dev/lemonjuice/qu/operation/operationHandler.cpp:42-74 | a "K" operation fails exactly when the plain one does, with the same fault; on success it keeps the whole queue in front of the same result, one longer |
| Operations.AddSemantics | dev/lemonjuice/qu/operation/operationHandler.cpp:24-32 | ADD adds two ints and otherwise concatenates the string fields, so an int operand contributes "" |
| Operations.AddCommutesOnInts | dev/lemonjuice/qu/operation/operationHandler.cpp:24-27 | integer ADD does not depend on operand order |
| Operations.MismatchOnNonInts | dev/lemonjuice/qu/operation/operationHandler.cpp:94-101 | SUB, MUL, DIV and MOD report an operation mismatch exactly when an operand is not an int |
| Operations.DivisionByZeroIsCaught | dev/lemonjuice/qu/operation/operationHandler.cpp:230-242 | DIV and MOD of ints fail with division by zero exactly when the second operand is 0, and otherwise push the truncated quotient or remainder |
| Operations.SubMulOrder | dev/lemonjuice/qu/operation/operationHandler.cpp:94-97 | SUB and MUL take the front value as the left operand |
| Reorder.LexLessIrreflexive | dev/lemonjuice/qu/qu.cpp:489 | no string is less than itself under `std::string` `<` |
| Reorder.LexLessTransitive | dev/lemonjuice/qu/qu.cpp:489 | `std::string` `<` is transitive |
| Reorder.LexLessTotal | dev/lemonjuice/qu/qu.cpp:489 | of two different strings one is less than the other |
| Reorder.BeforeAsymmetric | dev/lemonjuice/qu/qu.cpp:485-493 | the SORTUP/SORTDOWN comparator never orders two nodes both ways |
| Reorder.BeforeTransitive | dev/lemonjuice/qu/qu.cpp:485-493 | the comparator is transitive, as `std::sort` requires |
| Reorder.SortNodes | dev/lemonjuice/qu/qu.cpp:476-500 | the sorted queue is a permutation of the queue and ordered by the comparator |
| Reorder.SortOrder | dev/lemonjuice/qu/qu.cpp:503-527 | after a sort the ints come before the strings, ints ascend (SORTUP) or descend (SORTDOWN), and strings likewise |
| Reorder.Swap | dev/lemonjuice/qu/qu.cpp:324 | `std::swap` of two vector cells keeps the elements |
| Interpreter.SwapCells | dev/lemonjuice/qu/qu.cpp:324 | swapping two cells of the array in place leaves exactly `Swap` of its old contents |
| Reorder.ShuffleFrom | dev/lemonjuice/qu/qu.cpp:322-325 | each round of POKE's Fisher–Yates loop swaps two cells, so the result has the same length and the same multiset of values |
| Reorder.Shuffle | dev/lemonjuice/qu/qu.cpp:312-331 | the queue after a POKE on a non-empty queue is a permutation of it |
| StdText.FindFrom | dev/lemonjuice/qu/qu.cpp:117 | `find` returns the first occurrence at or after the start, and `npos` only when there is none |
| StdText.FindChar | dev/lemonjuice/qu/qu.cpp:94 | `find(c)` is the first index holding `c`; it exists exactly when `rfind(c)` does, and is no later |
| StdText.RFindChar | dev/lemonjuice/qu/qu.cpp:95 | `rfind(c)` is the last index holding `c` |
| StdText.Stoi | dev/lemonjuice/qu/qu.cpp:543 | a value that `stoi` returns lies in the `int` range |
| StdText.StoiReadsNumericPrefix | dev/lemonjuice/qu/qu.cpp:541-548 | `stoi` reads back the decimal text of any `int`, ignoring what follows the digits |
| StdText.StoiOfIntToString | dev/lemonjuice/qu/qu.cpp:541-548 | `stoi(to_string(n)) == n` for every `int` `n` |
| StdText.IsIntegerOfDecimal | dev/lemonjuice/qu/qu.cpp:541-548 | `isInteger` holds on decimal text exactly when the number fits in `int`; otherwise `stoi` throws `out_of_range` |
| StdText.IsInteger | dev/lemonjuice/qu/qu.cpp:541-548 | `isInteger` holds only when `stoi` returns a value, that value fits in `int`, and the text holds a digit |
| Semantics.Bars | dev/lemonjuice/qu/qu.cpp:93-100 | one bar is the single-bar error; two or more give a name that starts after the first bar and is at most `last - 1` characters long |
| Semantics.ClassifyLabel | dev/lemonjuice/qu/qu.cpp:93-100 | a line is no label exactly when it has no bar; a lone bar is the only bar of its line; a label line has two distinct bars |
| Semantics.TableUpTo | dev/lemonjuice/qu/qu.cpp:91-101 | after `k` lines every bound position is below `k`, and a failure is a single-bar error on one of those lines |
| Semantics.LabelPass | dev/lemonjuice/qu/qu.cpp:91-102 | every bound position is a line index of the program, and a failure is a single-bar error on one of its lines |
| Semantics.CompareFirstTwo | dev/lemonjuice/qu/qu.cpp:558-594 | fewer than two values is not-enough-arguments; with two values it succeeds exactly for `>`, `<`, `==` and `!=`, and any other relation is the unspecified-comparison error |
| Semantics.AnchoredAt | dev/lemonjuice/qu/qu.cpp:142-143 | an anchored keyword is found only at column 0 or right after a space |
| Semantics.Unescape | dev/lemonjuice/qu/qu.cpp:379-383 | replacing `\n` escapes never lengthens the text |
| Semantics.ArithStep | dev/lemonjuice/qu/qu.cpp:117-119 | an arithmetic keyword changes only the queue, one shorter (plain) or one longer ("K"), or fails on that line; without the keyword nothing changes |
| Semantics.GotoStep | dev/lemonjuice/qu/qu.cpp:142-173 | GOTO with an integer argument jumps to it when `0 <= n < size` and is invalid-goto otherwise; any other argument jumps to its label's line, or is invalid-goto when unbound; a line too short for the argument is an uncaught `out_of_range`; the machine never changes |
| Semantics.Branch | dev/lemonjuice/qu/qu.cpp:194-199 | with fewer than two values the jump fails with not-enough-arguments; otherwise IFEQ/IFNQ/IFGT/IFLT jump exactly when the int fields of the two front values are equal/different/greater/less, else fall through; the queue is untouched |
| Semantics.IfStep | dev/lemonjuice/qu/qu.cpp:176-278 | the target is the integer argument (not range checked) or the label's line; an unbound label is an unknown-instruction error; then it branches as `Branch` says; without the anchored keyword nothing happens |
| Semantics.PeekStep | dev/lemonjuice/qu/qu.cpp:301-309 | a line without "PEEK" proceeds unchanged; PEEK writes the front value, with a newline exactly when the line has "LN", and changes nothing else; it fails exactly on an empty queue (undefined `front()`) or on "LN" without "PEEKLN" (unknown instruction) |
| Semantics.PokeStep | dev/lemonjuice/qu/qu.cpp:312-331 | POKE keeps the multiset of values and counts one more reseeding; it fails exactly on an empty queue |
| Semantics.PopStep | dev/lemonjuice/qu/qu.cpp:334-351 | POP leaves a suffix of the queue, empty with "ALL" and otherwise one shorter, and only appends output; it fails exactly on a lone POP of an empty queue |
| Semantics.PrintStep | dev/lemonjuice/qu/qu.cpp:354-366 | without an anchored "PRINT" the line proceeds unchanged; with fewer than 6 characters from the keyword it is an uncaught `out_of_range`; otherwise it appends exactly the quote-stripped argument and a newline, and changes nothing else |
| Semantics.PushStep | dev/lemonjuice/qu/qu.cpp:369-402 | PUSH appends exactly one value: with quotes, the text between the first and the last quote with `\n` replaced; without, the int `stoi` reads after "PUSH "; it fails only with invalid-push or an uncaught `out_of_range` |
| Semantics.PushQuotedStep | dev/lemonjuice/qu/qu.cpp:372-388 | two distinct quotes push the unescaped text between the first and the last; a single quote is invalid-push |
| Semantics.PushNumberStep | dev/lemonjuice/qu/qu.cpp:389-400 | too short a line is an uncaught `out_of_range`; it fails exactly when the text after "PUSH " is not an integer, with invalid-push; otherwise it pushes the int `stoi` reads |
| Semantics.DisplayStep | dev/lemonjuice/qu/qu.cpp:405-413 | QDISPLAY never fails, leaves the queue alone, and appends a line |
| Semantics.ReadStep | dev/lemonjuice/qu/qu.cpp:416-444 | without an anchored "READ" the line proceeds unchanged; otherwise it fails, with an uncaught `out_of_range`, exactly when the line is too short or `stoi` overflows; else it writes the quote-stripped prompt, consumes one input line (or none at the end) and appends one value: an int exactly when `stoi` parses the line, else the line as a string |
| Semantics.RetStep | dev/lemonjuice/qu/qu.cpp:447-463 | a line without "RET" proceeds unchanged; RET returns exactly when the front node is an int, with that int and the queue popped, and fails exactly on an empty queue (return from empty queue) or a string front (non-integer return value) |
| Semantics.SortStep | dev/lemonjuice/qu/qu.cpp:476-500 | a sort keeps the multiset of values and leaves the queue sorted by the comparator |
| Semantics.FrontArithmetic | dev/lemonjuice/qu/qu.cpp:117-139 | ADD, ADDK, DIV, DIVK and EMPTY change only the queue, or fail |
| Semantics.Jumps | dev/lemonjuice/qu/qu.cpp:142-278 | the jump keywords never change the machine and never return |
| Semantics.BackArithmetic | dev/lemonjuice/qu/qu.cpp:281-298 | MOD, MODK, MUL and MULK change only the queue, or fail |
| Semantics.QueueAccess | dev/lemonjuice/qu/qu.cpp:301-413 | the queue-access keywords read no input and only append output |
| Semantics.LastChecks | dev/lemonjuice/qu/qu.cpp:416-527 | READ through SORTDOWN never jump, and return only on a RET line |
| Semantics.ExecLine | dev/lemonjuice/qu/qu.cpp:109-528 | a line only appends output and reads input from the front; it returns only if it holds "RET", and a skipped line changes nothing |
| Semantics.Exec | dev/lemonjuice/qu/qu.cpp:108-532 | the dispatcher returns 0 when it starts past the end; a run that does not fault only appends output and consumes input from the front; it exits with a non-zero code only if some line holds "RET" |
| Semantics.Loop | dev/lemonjuice/qu/qu.cpp:108-532 | the loop returns 0 once the index leaves the program; a non-zero exit code comes from a line that returned it; with steps that only extend the machine, so does the whole loop |
| Semantics.Iterate | dev/lemonjuice/qu/qu.cpp:108-529 | one iteration followed by the rest of the loop keeps the same two guarantees as `Loop` |
| Semantics.LineStepFacts | dev/lemonjuice/qu/qu.cpp:109-528 | every line only extends the machine, and only a line holding "RET" returns |
| Semantics.RunProgram | dev/lemonjuice/qu/qu.cpp:86-533 | a failed label pass halts with a single-bar error; a run that does not fault only appends output and consumes input; a non-zero exit code needs a line holding "RET" |
| RunProperties.LabelFailure | dev/lemonjuice/qu/qu.cpp:91-102 | the label pass fails exactly when some line has a single bar, and then at the first such line with that bar's column |
| RunProperties.LabelTableSound | dev/lemonjuice/qu/qu.cpp:91-102 | each bound name maps to a line that declares it |
| RunProperties.LabelTableComplete | dev/lemonjuice/qu/qu.cpp:91-102 | every declared name is bound |
| RunProperties.LabelTableFirstWins | dev/lemonjuice/qu/qu.cpp:99 | `map::insert` keeps the first binding: no earlier line declares the name |
| RunProperties.LabelFailureSticks | dev/lemonjuice/qu/qu.cpp:96 | after a single-bar error, later lines do not change the outcome |
| RunProperties.GotoTargetsInRange | dev/lemonjuice/qu/qu.cpp:142-173 | with the program's own label table, GOTO targets are line indices |
| RunProperties.LabelAtColumnZero | dev/lemonjuice/qu/qu.cpp:93-100 | `\|name\|` at column 0 binds `name`, and the dispatcher skips that line |
| RunProperties.IndentedLabelKeepsClosingBar | dev/lemonjuice/qu/qu.cpp:98 | `"  \|AB\|"` binds `"AB\|"`: the length argument lets the name run past the closing bar |
| RunProperties.ContainsPrefix | dev/lemonjuice/qu/qu.cpp:117-124 | a line with ADDK (DIVK, MODK, …) also fires the plain check |
| RunProperties.GotoLabelResumesAfterLabel | dev/lemonjuice/qu/qu.cpp:153-158 | `GOTO name` continues the run at the line after the label's line |
| RunProperties.GotoNumberResumesAfterTarget | dev/lemonjuice/qu/qu.cpp:164-167 | `GOTO v` for a line index `v` continues the run at line `v + 1` |
| RunProperties.GotoNumberOutOfRangeHalts | dev/lemonjuice/qu/qu.cpp:164-171 | `GOTO v` for a number outside the program halts with invalid-goto on that line |
| RunProperties.GotoNumberStep | dev/lemonjuice/qu/qu.cpp:117-171 | on the line `GOTO v` no earlier check fires and GOTO jumps to `v` or is invalid-goto |
| RunProperties.NoAddKDivK | dev/lemonjuice/qu/qu.cpp:117-134 | a line without ADD and DIV passes the first four arithmetic checks unchanged |
| RunProperties.IfEqLabelResumesAfterLabel | dev/lemonjuice/qu/qu.cpp:176-199 | `IFEQ name` with equal front ints continues the run at the label's line plus one |
| RunProperties.StringsCompareEqual | dev/lemonjuice/qu/qu.cpp:577-588 | two string values compare by their int fields, so they are always equal |
| RunProperties.CompareTrichotomy | dev/lemonjuice/qu/qu.cpp:558-593 | with two values exactly one of `>`, `<`, `==` holds and `!=` negates `==`; other relations and short queues are errors |
| RunProperties.UnescapePlain | dev/lemonjuice/qu/qu.cpp:379-383 | text without a backslash is pushed unchanged |
| RunProperties.UnescapeAtBackslash | dev/lemonjuice/qu/qu.cpp:380-382 | at a backslash, `\n` becomes a newline and any other backslash is kept |
| RunProperties.EscapeRound | dev/lemonjuice/qu/qu.cpp:379-383 | one round of the escape loop keeps the loop's invariant |
| RunProperties.PushInteger | dev/lemonjuice/qu/qu.cpp:390-400 | `PUSH v` pushes the int `v` and reports it |
| RunProperties.PushString | dev/lemonjuice/qu/qu.cpp:372-388 | `PUSH "s"` pushes the string `s` unchanged when it holds no backslash |
| RunProperties.PushQuotedText | dev/lemonjuice/qu/qu.cpp:372-388 | `PUSH "s"` pushes `s` with its `\n` escapes replaced, for any `s`, inner quotes included |
| RunProperties.PushNewlineEscape | dev/lemonjuice/qu/qu.cpp:378-383 | `PUSH "a\nb"` pushes `a`, a newline and `b` |
| RunProperties.ReadInteger | dev/lemonjuice/qu/qu.cpp:425-437 | READ of an integer line writes the prompt, pushes the int and consumes the line |
| RunProperties.ReadAtEndOfInput | dev/lemonjuice/qu/qu.cpp:430-443 | at end of input READ pushes the empty string |
| RunProperties.PrintQuoted | dev/lemonjuice/qu/qu.cpp:359-362 | PRINT drops one pair of enclosing quotes |
| RunProperties.PrintLiteral | dev/lemonjuice/qu/qu.cpp:354-366 | `PRINT "s"` at column 0 appends exactly `s` and a newline |
| Semantics.StripQuotes | dev/lemonjuice/qu/qu.cpp:359-362 | the argument changes exactly when it starts and ends with `"`, and then it is the text between them (empty for a lone `"`) |
| Semantics.Skipped | dev/lemonjuice/qu/qu.cpp:111-114 | a skipped line is empty or starts with a bar, a space or a tab; a line that runs is non-empty, does not start with a bar, and has a character other than space and tab |
| RunProperties.PopAllLinesCount | dev/lemonjuice/qu/qu.cpp:338-344 | POPALLLN writes one newline per value |
| RunProperties.DisplayCommaCount | dev/lemonjuice/qu/qu.cpp:405-413 | QDISPLAY writes `n - 1` separators for `n` values |
| RunProperties.SkippedLinesRunThrough | dev/lemonjuice/qu/qu.cpp:111-114 | a tail of skipped lines runs off the end and returns 0 with the machine unchanged |
| RunProperties.LoneBarStopsRun | dev/lemonjuice/qu/qu.cpp:91-102 | a program with a single-bar line halts with the single-bar error, at that line or an earlier one |
| RunProperties.LoopContinues | dev/lemonjuice/qu/qu.cpp:108-199 | after a line that proceeds the loop goes on at the next index, and after a jump to `t` at `t + 1` |
| RunProperties.LoopStops | dev/lemonjuice/qu/qu.cpp:447-463 | a line that returns or faults ends the loop with that code or fault |
| RunProperties.ExecContinues | dev/lemonjuice/qu/qu.cpp:108-199 | after a program line that proceeds the run goes on at the next line, and after a jump to `t` at line `t + 1` |
| RunProperties.ExecStops | dev/lemonjuice/qu/qu.cpp:447-463 | a program line that returns or faults ends the run with that code or fault |
| Scenarios.DivSubtracts | dev/lemonjuice/qu/qu.cpp:127-129 | a `DIV` line subtracts the second value from the front one |
| Scenarios.DivKSubtractsTwice | dev/lemonjuice/qu/qu.cpp:127-134 | a `DIVK` line runs `quSub` and then `quSubK` |
| Scenarios.AddKOnTwoValuesFails | dev/lemonjuice/qu/qu.cpp:117-124 | `ADDK` on exactly two values fails: ADD consumes both first |
| Interpreter.ReplaceNewlineEscapes | dev/lemonjuice/qu/qu.cpp:378-383 | PUSH's in-place escape loop computes `Unescape` of its text |
| Interpreter.FindCharFrom | dev/lemonjuice/qu/qu.cpp:379 | `find(c, from)` is the first index at or after `from` holding `c`, and agrees with the general substring search `FindFrom` on the one-character pattern |
| Interpreter.QuInterpreter.constructor | dev/lemonjuice/qu/qu.cpp:20-22 | the globals start empty: no labels and an empty queue |
| Interpreter.QuInterpreter.RegisterLabels | dev/lemonjuice/qu/qu.cpp:91-102 | the label loop fails as `LabelPass` does or leaves its table in `saved_positions` |
| Interpreter.QuInterpreter.RegisterLabel | dev/lemonjuice/qu/qu.cpp:92-100 | one round of the label loop extends the table as `TableUpTo` does, or stops the pass with its single-bar error |
| Interpreter.QuInterpreter.Drain | dev/lemonjuice/qu/qu.cpp:314-318 | moving the queue into a vector keeps the order and empties the queue |
| Interpreter.QuInterpreter.Refill | dev/lemonjuice/qu/qu.cpp:327-330 | pushing the vector back rebuilds the queue in order |
| Interpreter.QuInterpreter.ShuffleArray | dev/lemonjuice/qu/qu.cpp:321-325 | the in-place Fisher–Yates loop yields `Shuffle` of the vector |
| Interpreter.QuInterpreter.Operate | dev/lemonjuice/qu/qu.cpp:116-134 | calling an `OperationHandler` routine ends as `Plain` or `Keep` says |
| Interpreter.QuInterpreter.ArithLine | dev/lemonjuice/qu/qu.cpp:117-119 | realises `ArithStep` |
| Interpreter.QuInterpreter.GotoLine | dev/lemonjuice/qu/qu.cpp:142-173 | realises `GotoStep` |
| Interpreter.QuInterpreter.IfLine | dev/lemonjuice/qu/qu.cpp:176-200 | realises `IfStep` |
| Interpreter.QuInterpreter.PeekLine | dev/lemonjuice/qu/qu.cpp:301-309 | realises `PeekStep` |
| Interpreter.QuInterpreter.PokeLine | dev/lemonjuice/qu/qu.cpp:312-331 | realises `PokeStep` |
| Interpreter.QuInterpreter.PopLine | dev/lemonjuice/qu/qu.cpp:334-351 | realises `PopStep` |
| Interpreter.QuInterpreter.PopAll | dev/lemonjuice/qu/qu.cpp:338-344 | the POPALL loop empties the queue and writes every value front to back |
| Interpreter.QuInterpreter.PrintLine | dev/lemonjuice/qu/qu.cpp:354-366 | realises `PrintStep` |
| Interpreter.QuInterpreter.PushLine | dev/lemonjuice/qu/qu.cpp:369-402 | realises `PushStep` |
| Interpreter.QuInterpreter.PushQuoted | dev/lemonjuice/qu/qu.cpp:372-388 | realises `PushQuotedStep` |
| Interpreter.QuInterpreter.PushNumber | dev/lemonjuice/qu/qu.cpp:389-400 | realises `PushNumberStep` |
| Interpreter.QuInterpreter.DisplayLine | dev/lemonjuice/qu/qu.cpp:405-413 | realises `DisplayStep` |
| Interpreter.QuInterpreter.WriteJoined | dev/lemonjuice/qu/qu.cpp:405-411 | the QDISPLAY loop over a copy writes every value with ", " between two values |
| Interpreter.QuInterpreter.ReadLine | dev/lemonjuice/qu/qu.cpp:416-444 | realises `ReadStep` |
| Interpreter.QuInterpreter.RetLine | dev/lemonjuice/qu/qu.cpp:447-463 | realises `RetStep` |
| Interpreter.QuInterpreter.SortLine | dev/lemonjuice/qu/qu.cpp:476-500 | realises `SortStep` |
| Interpreter.QuInterpreter.FrontArithmeticLine | dev/lemonjuice/qu/qu.cpp:116-139 | realises `FrontArithmetic` |
| Interpreter.QuInterpreter.JumpsLine | dev/lemonjuice/qu/qu.cpp:141-278 | realises `Jumps` |
| Interpreter.QuInterpreter.BackArithmeticLine | dev/lemonjuice/qu/qu.cpp:280-298 | realises `BackArithmetic` |
| Interpreter.QuInterpreter.QueueAccessLine | dev/lemonjuice/qu/qu.cpp:300-413 | realises `QueueAccess` |
| Interpreter.QuInterpreter.LastChecksLine | dev/lemonjuice/qu/qu.cpp:415-527 | realises `LastChecks` |
| Interpreter.QuInterpreter.ExecuteLine | dev/lemonjuice/qu/qu.cpp:109-528 | the loop body's signal and new state are those `ExecLine` gives |
| Interpreter.QuInterpreter.Run | dev/lemonjuice/qu/qu.cpp:86-533 | `run` on a fresh interpreter ends exactly as `RunProgram` says |
| Interpreter.QuInterpreter.Dispatch | dev/lemonjuice/qu/qu.cpp:108-532 | the dispatcher loop, with jumps resuming at `target + 1`, ends exactly as `Exec` says from line 0 |
| Interpreter.QuInterpreter.Advance | dev/lemonjuice/qu/qu.cpp:109-528 | one iteration keeps the rest of the run equal to what `Exec` gives for the next index, or ends it with the line's code or fault |

## Left out

- `main` and `fileArgChecker` (qu.cpp:33-81) are not modelled: argument checking, reading the file and echoing the program are outside the model. The model starts from the program's lines.
- The debug line "Output Start:" written at the start of `run` (qu.cpp:88) is not part of the modelled output.
- Error messages on standard error and the exit status -1 are not modelled. A fault is `Halted(fault)`, with the error kind and the line index.
- `qu.cpp` and `operationHandler.cpp` call error-handler methods under names that `errorHandler.cpp` defines with an `Error` suffix (`notEnoughArguments` versus `notEnoughArgumentsError`). The model takes each call to be the handler of that name, which reports and exits. The handler file itself is not part of this model.
- The unreachable `return -1` after the empty-queue RET error (qu.cpp:451) is not modelled, because the handler exits first.
- `Operations.Apply`: integers are unbounded. The 32-bit overflow of `+`, `-` and `*` and of `INT_MIN / -1` is undefined behaviour in C++ and is not modelled. `stoi`'s range is modelled.
- `Semantics.Exec`: the increment `i++` on `INT_MAX` and the `int`/`size_t` comparison are modelled only as "the loop runs while `0 <= i < |lines|`".
- `Semantics.RunProgram`: the model runs at most `fuel` dispatcher iterations, and `OutOfFuel` stands for a run that has not finished yet. Programs that loop forever are not otherwise described.
- `Semantics.PokeStep`: `srand(time(0))` and `rand()` are a parameter `rand(p, k)`. It gives the `k`-th draw after the `p`-th POKE. The clock is not modelled.
- `Semantics.RunProgram`: output written before a fault is not part of a `Halted` outcome.
- `Reorder.SortNodes`: `std::sort` leaves the order of equivalent elements unspecified. The model uses one particular sort, an insertion sort. It is specified by permutation and order, which hold for any result of `std::sort`. In a queue the interpreter builds, two nodes that the comparator treats as equivalent are equal values, so the two agree there.
- `node::printNode` (node.cpp:83-85) is never called by the core and is not modelled. `createNodeDisplay` is.
- The headers (`node.h`, `operationHandler.h`, `errorHandler.h`) only declare what is modelled above.
- Nodes are values: no operation of the core updates a node that is already in the queue, so aliasing of nodes is not modelled.
