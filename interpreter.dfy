/** The interpreter as the program runs it: the globals of `run()` (the
  * program queue, the saved positions) and the process's standard streams are
  * fields of one object, and every keyword check is a method that changes
  * them in place.  Each method is proved to do what the matching function
  * of module Semantics says, and `Run` to end as `RunProgram` does.
  */
module Interpreter {
  import opened StdText
  import opened QuErrors
  import opened QuNode
  import opened Operations
  import opened Reorder
  import opened Semantics
  import RunProperties

  /** What a keyword check tells the dispatcher loop: carry on with the next
    * check, continue the loop at `target + 1`, return from `run`, or end the process. */
  datatype Signal = Go | JumpTo(target: int) | Exit(code: int) | Stop(fault: Fault)

  /** `sig` and the state `after` are what the step function `s` describes. */
  predicate Realizes(sig: Signal, s: Step, after: Machine)
  {
    match s
    case Proceed(m) => sig == Go && after == m
    case Jump(t, m) => sig == JumpTo(t) && after == m
    case Return(code, m) => sig == Exit(code) && after == m
    case Fail(f) => sig == Stop(f)
  }

  /** The run from line `pc` on, with `fuel` iterations left, ends in `target`. */
  predicate RunEndsIn(lines: seq<string>, labels: map<string, int>, pc: int, m: Machine, fuel: nat,
                      rand: RandStream, target: RunOutcome)
  {
    Exec(lines, labels, pc, m, fuel, rand) == target
  }

  /** The line the dispatcher loop goes on with after line `i`: the next
    * one, or the one after a jump's target. */
  function ResumeAt(i: int, sig: Signal): int
  {
    if sig.JumpTo? then sig.target + 1 else i + 1
  }

  /** PUSH's escape loop: each backslash found from the left is replaced,
    * together with a following `n`, by a newline; the next search starts just
    * after the character written. */
  method ReplaceNewlineEscapes(s: string) returns (t: string)
    ensures t == Unescape(s)
  {
    t := s;
    var pos := FindChar(t, '\\');
    ghost var from: nat := 0;
    while pos.Some?
      invariant from <= |t|
      invariant UnescapedUpTo(s, t, from)
      invariant pos.Some? ==> from <= pos.value < |t| && t[pos.value] == '\\'
      invariant pos.Some? ==> forall k :: from <= k < pos.value ==> t[k] != '\\'
      invariant pos.None? ==> forall k :: from <= k < |t| ==> t[k] != '\\'
      decreases |t| - from
    {
      var p := pos.value;
      RunProperties.ScanToBackslash(s, t, from, p);
      ghost var scanned := t;
      if p + 1 < |t| && t[p + 1] == 'n' {
        t := t[..p] + "\n" + t[p + 2..];
      }
      RunProperties.EscapeRound(s, scanned, p, t);
      from := p + 1;
      pos := FindCharFrom(t, '\\', p + 1);
    }
    RunProperties.ScanToBackslash(s, t, from, |t|);
    assert t[..|t|] == t && t[|t|..] == [];
  }

  /** `s.find(c, from)`: the first index at or after `from` holding `c`. */
  function FindCharFrom(s: string, c: char, from: nat): (r: Option<nat>)
    ensures r.Some? ==> from <= r.value < |s| && s[r.value] == c
    ensures r.Some? ==> forall k :: from <= k < r.value ==> s[k] != c
    ensures r.None? ==> forall k :: from <= k < |s| ==> s[k] != c
    ensures r == FindFrom(s, [c], from)
    decreases |s| - from
  {
    if from >= |s| then None
    else
      assert s[from..from + 1] == [s[from]];
      if s[from] == c then Some(from)
      else FindCharFrom(s, c, from + 1)
  }

  /** `std::swap(temp_vector[i], temp_vector[j])`. */
  method SwapCells(a: array<Node>, i: nat, j: nat)
    requires i < a.Length && j < a.Length
    modifies a
    ensures a[..] == Swap(old(a[..]), i, j)
  {
    a[i], a[j] := a[j], a[i];
  }

  /** One round of the Fisher-Yates loop. */
  lemma ShuffleFromStep(s: seq<Node>, i: nat, rand: RandStream, p: nat, k: nat)
    requires 0 < i < |s|
    ensures ShuffleFrom(s, i, rand, p, k) == ShuffleFrom(Swap(s, i, rand(p, k) % (i + 1)), i - 1, rand, p, k + 1)
  {
  }

  class QuInterpreter {
    /** The program text, one string per line. */
    const lines: seq<string>
    /** `rand()` after each POKE's reseeding. */
    const rand: RandStream
    /** `program_queue`. */
    const programQueue: NodeQueue
    /** `saved_positions`. */
    var savedPositions: map<string, int>
    /** Everything written to standard output so far. */
    var output: string
    /** The standard-input lines not read yet. */
    var input: seq<string>
    /** How many POKEs have run. */
    var pokes: nat

    function State(): Machine
      reads this, programQueue
    {
      Machine(programQueue.items, output, input, pokes)
    }

    constructor (program: seq<string>, stdin: seq<string>, random: RandStream)
      ensures lines == program && rand == random && savedPositions == map[]
      ensures State() == InitialMachine(stdin)
      ensures fresh(programQueue)
    {
      lines := program;
      rand := random;
      programQueue := new NodeQueue();
      savedPositions := map[];
      output := "";
      input := stdin;
      pokes := 0;
    }

    // -------------------------------------------------------------------
    // The label pass
    // -------------------------------------------------------------------

    /** The first loop of `run()`: binds each `|name|` to its line. */
    method RegisterLabels() returns (st: Status)
      requires savedPositions == map[]
      modifies this`savedPositions
      ensures st == StatusOf(LabelPass(lines))
      ensures st.Ok? ==> savedPositions == LabelPass(lines).value
    {
      ghost var cls := Classified(lines);
      for i := 0 to |lines|
        invariant TableUpTo(cls, i) == Success(savedPositions)
      {
        st := RegisterLabel(i, cls);
        if st.Abort? {
          return;
        }
      }
      st := Ok;
    }

    /** One pass of the label loop: a lone bar stops the pass, a name not
      * bound yet is bound to this line. */
    method RegisterLabel(i: nat, ghost cls: seq<LabelLine>) returns (st: Status)
      requires i < |lines| && cls == Classified(lines)
      requires TableUpTo(cls, i) == Success(savedPositions)
      modifies this`savedPositions
      ensures st.Ok? ==> TableUpTo(cls, i + 1) == Success(savedPositions)
      ensures st.Abort? ==> TableUpTo(cls, |cls|) == Failure(st.fault)
    {
      var line := lines[i];
      assert cls[i] == ClassifyLabel(line);
      RunProperties.LabelsNext(cls, i, savedPositions);
      var first := FindChar(line, '|');
      if first.Some? {
        var last := RFindChar(line, '|').value;
        assert cls[i] == Bars(line, first.value, last);
        if first.value == last {
          assert cls[i] == LoneBar(first.value);
          RunProperties.LabelFailureSticks(cls, i + 1, |cls|);
          return Abort(Error(SingleBar(first.value), i));
        }
        var name := Substr(line, first.value + 1, last - 1);
        assert cls[i] == Label(name);
        ghost var next := if name in savedPositions then savedPositions else savedPositions[name := i];
        assert TableUpTo(cls, i + 1) == Success(next);
        if name !in savedPositions {
          savedPositions := savedPositions[name := i];
        }
      } else {
        assert cls[i] == NoLabel;
        assert TableUpTo(cls, i + 1) == Success(savedPositions);
      }
      st := Ok;
    }

    // -------------------------------------------------------------------
    // Draining and refilling the queue
    // -------------------------------------------------------------------

    /** Moves every node of the queue, front first, into a sequence. */
    method Drain() returns (temp: seq<Node>)
      modifies programQueue
      ensures temp == old(programQueue.items) && programQueue.items == []
    {
      temp := [];
      while !programQueue.Empty()
        invariant temp + programQueue.items == old(programQueue.items)
        decreases |programQueue.items|
      {
        RunProperties.TakeFront(temp, programQueue.items);
        temp := temp + [programQueue.Front()];
        programQueue.Pop();
      }
    }

    /** Pushes the nodes of `s` back, in order, onto the empty queue. */
    method Refill(s: seq<Node>)
      requires programQueue.items == []
      modifies programQueue
      ensures programQueue.items == s
    {
      for k := 0 to |s|
        invariant programQueue.items == s[..k]
      {
        programQueue.Push(s[k]);
      }
    }

    /** The Fisher-Yates loop of POKE number `p`, on the array. */
    method ShuffleArray(a: array<Node>, p: nat)
      requires a.Length > 0
      modifies a
      ensures a[..] == Shuffle(old(a[..]), rand, p)
    {
      var i := a.Length - 1;
      var k := 0;
      while i > 0
        invariant 0 <= i < a.Length
        invariant ShuffleFrom(a[..], i, rand, p, k) == Shuffle(old(a[..]), rand, p)
        decreases i
      {
        var j := rand(p, k) % (i + 1);
        ShuffleFromStep(a[..], i, rand, p, k);
        SwapCells(a, i, j);
        i := i - 1;
        k := k + 1;
      }
    }

    // -------------------------------------------------------------------
    // The keyword checks
    // -------------------------------------------------------------------

    /** Calls the `OperationHandler` routine for `op`, plain or "K". */
    method Operate(op: Op, keep: bool, i: int) returns (st: Status)
      modifies programQueue
      ensures st == StatusOf(if keep then Keep(op, old(programQueue.items), i) else Plain(op, old(programQueue.items), i))
      ensures st.Ok? ==>
        programQueue.items == (if keep then Keep(op, old(programQueue.items), i) else Plain(op, old(programQueue.items), i)).value
    {
      match (op, keep)
      case (Add, false) => st := QuAdd(programQueue, i);
      case (Add, true) => st := QuAddK(programQueue, i);
      case (Sub, false) => st := QuSub(programQueue, i);
      case (Sub, true) => st := QuSubK(programQueue, i);
      case (Mul, false) => st := QuMul(programQueue, i);
      case (Mul, true) => st := QuMulK(programQueue, i);
      case (Div, false) => st := QuDiv(programQueue, i);
      case (Div, true) => st := QuDivK(programQueue, i);
      case (Mod, false) => st := QuMod(programQueue, i);
      case (Mod, true) => st := QuModK(programQueue, i);
    }

    method ArithLine(line: string, keyword: string, op: Op, keep: bool, i: int) returns (sig: Signal)
      modifies programQueue
      ensures Realizes(sig, ArithStep(line, keyword, op, keep, i, old(State())), State())
    {
      if Contains(line, keyword) {
        var st := Operate(op, keep, i);
        if st.Abort? {
          return Stop(st.fault);
        }
      }
      sig := Go;
    }

    method GotoLine(line: string, i: int) returns (sig: Signal)
      ensures Realizes(sig, GotoStep(line, i, |lines|, savedPositions, State()), State())
    {
      var pos := Find(line, "GOTO");
      if pos.Some? && (pos.value == 0 || line[pos.value - 1] == ' ') {
        if pos.value + 5 > |line| {
          return Stop(Error(UncaughtOutOfRange, i));
        }
        var arg := line[pos.value + 5..];
        var lineNumber: int;
        if IsInteger(arg) {
          lineNumber := Stoi(arg).value;
        } else {
          if arg in savedPositions {
            return JumpTo(savedPositions[arg]);
          }
          return Stop(Error(InvalidGoto, i));
        }
        if 0 <= lineNumber < |lines| {
          return JumpTo(lineNumber);
        }
        return Stop(Error(InvalidGoto, i));
      }
      sig := Go;
    }

    method IfLine(line: string, keyword: string, relation: string, i: int) returns (sig: Signal)
      ensures Realizes(sig, IfStep(line, keyword, relation, i, savedPositions, State()), State())
    {
      var pos := Find(line, keyword);
      if pos.Some? && (pos.value == 0 || line[pos.value - 1] == ' ') {
        if pos.value + 5 > |line| {
          return Stop(Error(UncaughtOutOfRange, i));
        }
        var arg := line[pos.value + 5..];
        var jumpLine: int;
        if IsInteger(arg) {
          jumpLine := Stoi(arg).value;
        } else if arg in savedPositions {
          jumpLine := savedPositions[arg];
        } else {
          return Stop(Error(UnknownInstruction, i));
        }
        var holds := CompareFirstTwo(programQueue.items, relation, i);
        if holds.Failure? {
          return Stop(holds.fault);
        }
        if holds.value {
          return JumpTo(jumpLine);
        }
      }
      sig := Go;
    }

    method PeekLine(line: string, i: int) returns (sig: Signal)
      modifies this`output
      ensures Realizes(sig, PeekStep(line, i, old(State())), State())
    {
      if Contains(line, "PEEK") {
        if programQueue.Empty() {
          return Stop(Undefined(i));
        }
        var current := programQueue.Front();
        if Contains(line, "LN") {
          if Contains(line, "PEEKLN") {
            output := output + RenderLn(current);
          } else {
            return Stop(Error(UnknownInstruction, i));
          }
        } else {
          output := output + Render(current);
        }
      }
      sig := Go;
    }

    method PokeLine(line: string, i: int) returns (sig: Signal)
      modifies this`pokes, programQueue
      ensures Realizes(sig, PokeStep(line, i, old(State()), rand), State())
    {
      if Contains(line, "POKE") {
        var temp := Drain();
        if temp == [] {
          return Stop(Undefined(i));
        }
        var a := new Node[|temp|](k requires 0 <= k < |temp| => temp[k]);
        assert a[..] == temp;
        ShuffleArray(a, pokes);
        pokes := pokes + 1;
        Refill(a[..]);
      }
      sig := Go;
    }

    method PopLine(line: string, i: int) returns (sig: Signal)
      modifies this`output, programQueue
      ensures Realizes(sig, PopStep(line, i, old(State())), State())
    {
      if Contains(line, "POP") {
        var popAll := Contains(line, "ALL");
        var newline := Contains(line, "LN");
        if popAll {
          PopAll(newline);
        } else {
          if programQueue.Empty() {
            return Stop(Undefined(i));
          }
          var current := programQueue.Front();
          output := output + Printed(current, newline);
          programQueue.Pop();
        }
      }
      sig := Go;
    }

    /** POPALL and POPALLLN: pops and writes every node, front first. */
    method PopAll(newline: bool)
      modifies this`output, programQueue
      ensures programQueue.items == []
      ensures output == old(output) + PrintedAll(old(programQueue.items), newline)
    {
      ghost var done: seq<Node> := [];
      while !programQueue.Empty()
        invariant done + programQueue.items == old(programQueue.items)
        invariant output == old(output) + PrintedAll(done, newline)
        decreases |programQueue.items|
      {
        ghost var rest := programQueue.items;
        var current := programQueue.Front();
        programQueue.Pop();
        output := output + Printed(current, newline);
        RunProperties.PrintedAllSnoc(done, current, newline);
        RunProperties.TakeFront(done, rest);
        done := done + [current];
      }
      assert done == old(programQueue.items);
    }

    method PrintLine(line: string, i: int) returns (sig: Signal)
      modifies this`output
      ensures Realizes(sig, PrintStep(line, i, old(State())), State())
    {
      var pos := Find(line, "PRINT");
      if pos.Some? && (pos.value == 0 || line[pos.value - 1] == ' ') {
        if pos.value + 6 > |line| {
          return Stop(Error(UncaughtOutOfRange, i));
        }
        var arg := StripQuotes(line[pos.value + 6..]);
        output := output + arg + "\n";
      }
      sig := Go;
    }

    method PushLine(line: string, i: int) returns (sig: Signal)
      modifies this`output, programQueue
      ensures Realizes(sig, PushStep(line, i, old(State())), State())
    {
      if Contains(line, "PUSH") {
        if FindChar(line, '"').Some? {
          sig := PushQuoted(line, i);
        } else {
          sig := PushNumber(line, i);
        }
      } else {
        sig := Go;
      }
    }

    /** PUSH of the text between the first and the last double quote. */
    method PushQuoted(line: string, i: int) returns (sig: Signal)
      requires FindChar(line, '"').Some?
      modifies programQueue
      ensures Realizes(sig, PushQuotedStep(line, i, old(State())), State())
    {
      var quote1 := FindChar(line, '"').value;
      var quote2 := RFindChar(line, '"').value;
      if quote1 != quote2 {
        var pushString := line[quote1 + 1..quote2];
        pushString := ReplaceNewlineEscapes(pushString);
        programQueue.Push(StringNode(pushString));
        sig := Go;
      } else {
        sig := Stop(Error(InvalidPush, i));
      }
    }

    /** PUSH of the integer after the keyword, on a line without quotes. */
    method PushNumber(line: string, i: int) returns (sig: Signal)
      requires Contains(line, "PUSH")
      modifies this`output, programQueue
      ensures Realizes(sig, PushNumberStep(line, i, old(State())), State())
    {
      ghost var m := State();
      var p := Find(line, "PUSH").value;
      if p + 5 > |line| {
        return Stop(Error(UncaughtOutOfRange, i));
      }
      var secondHalf := line[p + 5..];
      if IsInteger(secondHalf) {
        var pushInt := Stoi(secondHalf).value;
        ghost var after := m.(queue := m.queue + [IntNode(pushInt)],
                              output := m.output + "Pushing integer: " + IntToString(pushInt) + "\n");
        assert PushNumberStep(line, i, m) == Proceed(after);
        output := output + "Pushing integer: " + IntToString(pushInt) + "\n";
        programQueue.Push(IntNode(pushInt));
        assert State() == after;
        sig := Go;
      } else {
        sig := Stop(Error(InvalidPush, i));
      }
    }

    method DisplayLine(line: string) returns (sig: Signal)
      modifies this`output
      ensures Realizes(sig, DisplayStep(line, old(State())), State())
    {
      if Contains(line, "QDISPLAY") {
        WriteJoined(programQueue.items);
        output := output + "\n";
      }
      sig := Go;
    }

    /** QDISPLAY's loop over a copy of the queue: every node, with ", "
      * between two nodes. */
    method WriteJoined(items: seq<Node>)
      modifies this`output
      ensures output == old(output) + Joined(items)
    {
      var temp := items;
      ghost var shown: seq<Node> := [];
      while temp != []
        invariant shown + temp == items
        invariant output == old(output) + Joined(shown) + (if shown != [] && temp != [] then ", " else "")
        decreases |temp|
      {
        var current := temp[0];
        RunProperties.TakeFront(shown, temp);
        temp := temp[1..];
        output := output + Render(current);
        RunProperties.DisplayGrows(old(output), shown, current);
        shown := shown + [current];
        if temp != [] {
          output := output + ", ";
        }
      }
      assert shown == items;
    }

    method ReadLine(line: string, i: int) returns (sig: Signal)
      modifies this`output, this`input, programQueue
      ensures Realizes(sig, ReadStep(line, i, old(State())), State())
    {
      var pos := Find(line, "READ");
      if pos.Some? && (pos.value == 0 || line[pos.value - 1] == ' ') {
        if pos.value + 5 > |line| {
          return Stop(Error(UncaughtOutOfRange, i));
        }
        var arg := StripQuotes(line[pos.value + 5..]);
        output := output + arg;
        var text := "";
        if input != [] {
          text := input[0];
          input := input[1..];
        }
        match Stoi(text)
        case Parsed(value) => programQueue.Push(IntNode(value));
        case InvalidArgument => programQueue.Push(StringNode(text));
        case OutOfRange => return Stop(Error(UncaughtOutOfRange, i));
      }
      sig := Go;
    }

    method RetLine(line: string, i: int) returns (sig: Signal)
      modifies programQueue
      ensures Realizes(sig, RetStep(line, i, old(State())), State())
    {
      if Contains(line, "RET") {
        if programQueue.Empty() {
          return Stop(Error(ReturnFromEmptyQueue, i));
        }
        var front := programQueue.Front();
        programQueue.Pop();
        if ContainsInt(front) {
          return Exit(GetInt(front));
        }
        return Stop(Error(NonIntegerReturnValue, i));
      }
      sig := Go;
    }

    method SortLine(line: string, keyword: string, dir: Direction) returns (sig: Signal)
      modifies programQueue
      ensures Realizes(sig, SortStep(line, keyword, dir, old(State())), State())
    {
      if Contains(line, keyword) {
        var temp := Drain();
        Refill(SortNodes(temp, dir));
      }
      sig := Go;
    }

    // -------------------------------------------------------------------
    // One line, in the dispatcher's order
    // -------------------------------------------------------------------

    /** ADD, ADDK, DIV, DIVK; EMPTY only queries the queue. */
    method FrontArithmeticLine(line: string, i: int) returns (sig: Signal)
      modifies programQueue
      ensures Realizes(sig, FrontArithmetic(line, i, old(State())), State())
    {
      sig := ArithLine(line, "ADD", Add, false, i);
      if sig != Go { return; }
      sig := ArithLine(line, "ADDK", Add, true, i);
      if sig != Go { return; }
      sig := ArithLine(line, "DIV", Sub, false, i);
      if sig != Go { return; }
      sig := ArithLine(line, "DIVK", Sub, true, i);
    }

    method JumpsLine(line: string, i: int) returns (sig: Signal)
      ensures Realizes(sig, Jumps(line, i, |lines|, savedPositions, State()), State())
    {
      sig := GotoLine(line, i);
      if sig != Go { return; }
      sig := IfLine(line, "IFEQ", "==", i);
      if sig != Go { return; }
      sig := IfLine(line, "IFGT", ">", i);
      if sig != Go { return; }
      sig := IfLine(line, "IFLT", "<", i);
      if sig != Go { return; }
      sig := IfLine(line, "IFNQ", "!=", i);
    }

    method BackArithmeticLine(line: string, i: int) returns (sig: Signal)
      modifies programQueue
      ensures Realizes(sig, BackArithmetic(line, i, old(State())), State())
    {
      sig := ArithLine(line, "MOD", Mod, false, i);
      if sig != Go { return; }
      sig := ArithLine(line, "MODK", Mod, true, i);
      if sig != Go { return; }
      sig := ArithLine(line, "MUL", Mul, false, i);
      if sig != Go { return; }
      sig := ArithLine(line, "MULK", Mul, true, i);
    }

    method QueueAccessLine(line: string, i: int) returns (sig: Signal)
      modifies this`output, this`pokes, programQueue
      ensures Realizes(sig, QueueAccess(line, i, old(State()), rand), State())
    {
      sig := PeekLine(line, i);
      if sig != Go { return; }
      sig := PokeLine(line, i);
      if sig != Go { return; }
      sig := PopLine(line, i);
      if sig != Go { return; }
      sig := PrintLine(line, i);
      if sig != Go { return; }
      sig := PushLine(line, i);
      if sig != Go { return; }
      sig := DisplayLine(line);
    }

    method LastChecksLine(line: string, i: int) returns (sig: Signal)
      modifies this`output, this`input, programQueue
      ensures Realizes(sig, LastChecks(line, i, old(State())), State())
    {
      sig := ReadLine(line, i);
      if sig != Go { return; }
      sig := RetLine(line, i);
      if sig != Go { return; }
      sig := ArithLine(line, "SUB", Sub, false, i);
      if sig != Go { return; }
      sig := ArithLine(line, "SUBK", Sub, true, i);
      if sig != Go { return; }
      sig := SortLine(line, "SORTUP", Up);
      if sig != Go { return; }
      sig := SortLine(line, "SORTDOWN", Down);
    }

    /** The body of the dispatcher loop for line `i`. */
    method ExecuteLine(i: nat) returns (sig: Signal)
      requires i < |lines|
      modifies this`output, this`input, this`pokes, programQueue
      ensures Realizes(sig, ExecLine(lines, i, savedPositions, old(State()), rand), State())
    {
      var line := lines[i];
      if Skipped(line) {
        return Go;
      }
      sig := FrontArithmeticLine(line, i);
      if sig != Go { return; }
      sig := JumpsLine(line, i);
      if sig != Go { return; }
      sig := BackArithmeticLine(line, i);
      if sig != Go { return; }
      sig := QueueAccessLine(line, i);
      if sig != Go { return; }
      sig := LastChecksLine(line, i);
    }

    /** `run(program_text)` on a fresh interpreter, for at most `fuel`
      * iterations of the dispatcher loop. */
    method Run(fuel: nat) returns (r: RunOutcome)
      requires savedPositions == map[] && State() == InitialMachine(input)
      modifies this`savedPositions, this`output, this`input, this`pokes, programQueue
      ensures r == RunProgram(lines, old(input), rand, fuel)
    {
      var st := RegisterLabels();
      if st.Abort? {
        return Halted(st.fault);
      }
      r := Dispatch(fuel);
    }

    /** The second loop of `run()`: the dispatcher, from line 0. */
    method Dispatch(fuel: nat) returns (r: RunOutcome)
      modifies this`output, this`input, this`pokes, programQueue
      ensures r == Exec(lines, savedPositions, 0, old(State()), fuel, rand)
    {
      ghost var target := Exec(lines, savedPositions, 0, State(), fuel, rand);
      var i: int := 0;
      var left := fuel;
      while 0 <= i < |lines| && left > 0
        invariant RunEndsIn(lines, savedPositions, i, State(), left, rand, target)
        decreases left
      {
        var sig := Advance(i, left, target);
        if sig.Exit? {
          return Exited(sig.code, State());
        } else if sig.Stop? {
          return Halted(sig.fault);
        }
        i := ResumeAt(i, sig);
        left := left - 1;
      }
      if 0 <= i < |lines| {
        r := OutOfFuel(State());
      } else {
        r := Exited(0, State());
      }
    }

    /** One iteration of the dispatcher loop, on line `i` with `left`
      * iterations to go: what the rest of the run is, given what the line's
      * checks did. */
    method Advance(i: int, ghost left: nat, ghost target: RunOutcome) returns (sig: Signal)
      requires 0 <= i < |lines| && left > 0
      requires RunEndsIn(lines, savedPositions, i, State(), left, rand, target)
      modifies this`output, this`input, this`pokes, programQueue
      ensures (sig.Go? || sig.JumpTo?) ==> RunEndsIn(lines, savedPositions, ResumeAt(i, sig), State(), left - 1, rand, target)
      ensures sig.Exit? ==> target == Exited(sig.code, State())
      ensures sig.Stop? ==> target == Halted(sig.fault)
    {
      ghost var before := State();
      sig := ExecuteLine(i);
      if sig.Go? || sig.JumpTo? {
        RunProperties.ExecContinues(lines, savedPositions, i, before, left, rand, ResumeAt(i, sig), State());
      } else {
        RunProperties.ExecStops(lines, savedPositions, i, before, left, rand);
      }
    }
  }
}
