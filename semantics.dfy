/** What `run()` does, as functions: the label pass, the effect of each
  * keyword check on one line, the line dispatcher, and the run loop.  The
  * class in module Interpreter executes the same steps in place and is
  * proved to agree with these functions.
  */
module Semantics {
  import opened StdText
  import opened QuErrors
  import opened QuNode
  import opened Operations
  import opened Reorder

  // ---------------------------------------------------------------------
  // Label pass
  // ---------------------------------------------------------------------

  /** How the label pass reads one line. */
  datatype LabelLine =
    | NoLabel                  // no `|` at all
    | LoneBar(column: nat)     // the first and the last `|` coincide
    | Label(name: string)      // two or more bars

  /** The name is `substr(first + 1, last - 1)`: the second argument is a
    * length, so it is the text between the bars only when the first bar is
    * at column 0. */
  function ClassifyLabel(line: string): (r: LabelLine)
    ensures r.NoLabel? <==> forall k :: 0 <= k < |line| ==> line[k] != '|'
    ensures r.LoneBar? ==>
      r.column < |line| && line[r.column] == '|' && forall k :: 0 <= k < |line| && line[k] == '|' ==> k == r.column
    ensures r.Label? ==> exists a, b :: 0 <= a < b < |line| && line[a] == '|' && line[b] == '|'
  {
    match FindChar(line, '|')
    case None => NoLabel
    case Some(first) => Bars(line, first, RFindChar(line, '|').value)
  }

  /** The label of a line whose first bar is at `first` and last at `last`:
    * the name is the text after the first bar, at most `last - 1` characters
    * long, so it runs past the last bar unless the first bar is at column 0. */
  function Bars(line: string, first: nat, last: nat): (r: LabelLine)
    requires first <= last < |line|
    ensures r.LoneBar? <==> first == last
    ensures r.Label? ==>
      (first < last && r.name == line[first + 1..if first + last <= |line| then first + last else |line|])
  {
    if first == last then LoneBar(first)
    else Label(Substr(line, first + 1, last - 1))
  }

  /** How the label pass reads each line of the program, in order. */
  function Classified(lines: seq<string>): (cls: seq<LabelLine>)
    ensures |cls| == |lines|
    ensures forall j :: 0 <= j < |lines| ==> cls[j] == ClassifyLabel(lines[j])
  {
    if lines == [] then []
    else Classified(lines[..|lines| - 1]) + [ClassifyLabel(lines[|lines| - 1])]
  }

  /** The label table after the first `k` classified lines.  `std::map::insert`
    * keeps an existing binding, so the first line with a name wins. */
  function TableUpTo(cls: seq<LabelLine>, k: nat): (r: Result<map<string, int>>)
    requires k <= |cls|
    ensures r.Success? ==> forall name :: name in r.value ==> 0 <= r.value[name] < k
    ensures r.Failure? ==> r.fault.Error? && r.fault.kind.SingleBar? && 0 <= r.fault.line < k
  {
    if k == 0 then Success(map[])
    else
      var table :- TableUpTo(cls, k - 1);
      match cls[k - 1]
      case NoLabel => Success(table)
      case LoneBar(column) => Failure(Error(SingleBar(column), k - 1))
      case Label(name) => Success(if name in table then table else table[name := k - 1])
  }

  /** The label pass over the whole program: every bound position is a line
    * index, and a failure is a single-bar error on one of the lines. */
  function LabelPass(lines: seq<string>): (r: Result<map<string, int>>)
    ensures r.Success? ==> forall name :: name in r.value ==> 0 <= r.value[name] < |lines|
    ensures r.Failure? ==> r.fault.Error? && r.fault.kind.SingleBar? && 0 <= r.fault.line < |lines|
  {
    TableUpTo(Classified(lines), |lines|)
  }

  // ---------------------------------------------------------------------
  // Machine state and the result of a step
  // ---------------------------------------------------------------------

  /** Everything the dispatcher changes: the program queue, what has been
    * written to standard output, the standard-input lines not read yet, and
    * how many POKEs have reseeded `rand()`. */
  datatype Machine = Machine(queue: seq<Node>, output: string, input: seq<string>, pokes: nat)

  /** `later` can follow `m`: output is only appended to, input is only read
    * from the front, and the POKE count never goes down. */
  predicate Extends(m: Machine, later: Machine)
  {
    && m.output <= later.output
    && |later.input| <= |m.input| && m.input[|m.input| - |later.input|..] == later.input
    && m.pokes <= later.pokes
  }

  /** The outcome of one keyword check, or of a whole line.  Anything but
    * `Proceed` ends the line: a jump (`i = target; continue;`), a return from
    * `run`, or a fault. */
  datatype Step =
    | Proceed(m: Machine)
    | Jump(target: int, m: Machine)
    | Return(code: int, m: Machine)
    | Fail(fault: Fault)
  {
    predicate IsFailure() { !Proceed? }

    function PropagateFailure(): Step
      requires !Proceed?
    {
      this
    }

    function Extract(): Machine
      requires Proceed?
    {
      m
    }
  }

  /** The step either fails or leaves a machine that extends `m`. */
  predicate Continues(m: Machine, s: Step)
  {
    s.Fail? || Extends(m, s.m)
  }

  lemma {:induction false} ExtendsTransitive(a: Machine, b: Machine, c: Machine)
    ensures Extends(a, b) && Extends(b, c) ==> Extends(a, c)
  {
    if Extends(a, b) && Extends(b, c) {
      var k := |a.input| - |b.input|;
      assert c.input == a.input[k..][|b.input| - |c.input|..];
    }
  }

  // ---------------------------------------------------------------------
  // Helpers of the dispatcher
  // ---------------------------------------------------------------------

  /** Lines the dispatcher skips: empty, only spaces and tabs, or starting with `|`. */
  predicate Skipped(line: string): (b: bool)
    ensures b ==> line == [] || line[0] == '|' || line[0] == ' ' || line[0] == '\t'
    ensures !b ==> line != [] && line[0] != '|' && exists k :: 0 <= k < |line| && line[k] != ' ' && line[k] != '\t'
  {
    || line == []
    || (forall k :: 0 <= k < |line| ==> line[k] == ' ' || line[k] == '\t')
    || line[0] == '|'
  }

  /** Column of an anchored keyword (GOTO, IF*, PRINT, READ): its first
    * occurrence, if that is at column 0 or right after a space. */
  function AnchoredAt(line: string, keyword: string): (r: Option<nat>)
    ensures r.Some? ==> OccursAt(line, keyword, r.value)
    ensures r.Some? ==> r.value == 0 || line[r.value - 1] == ' '
  {
    match Find(line, keyword)
    case None => None
    case Some(p) => if p == 0 || line[p - 1] == ' ' then Some(p) else None
  }

  /** Strips one pair of enclosing double quotes (PRINT and READ prompts).  A
    * lone `"` becomes the empty string, as `substr(1, npos)` does. */
  function StripQuotes(arg: string): (r: string)
    ensures r != arg <==> |arg| > 0 && arg[0] == '"' && arg[|arg| - 1] == '"'
    ensures r != arg ==> arg == "\"" || arg == "\"" + r + "\""
  {
    if |arg| > 0 && arg[0] == '"' && arg[|arg| - 1] == '"' then
      if |arg| >= 2 then arg[1..|arg| - 1] else ""
    else arg
  }

  /** PUSH's escape handling: each backslash followed by `n` becomes a newline;
    * the scan resumes just after what it produced. */
  function Unescape(s: string): (r: string)
    ensures |r| <= |s|
  {
    if |s| >= 2 && s[0] == '\\' && s[1] == 'n' then "\n" + Unescape(s[2..])
    else if s == [] then []
    else [s[0]] + Unescape(s[1..])
  }

  /** The first `from` characters of `t` are final: together with the
    * unescaped rest of `t` they make the unescaped `s`. */
  predicate UnescapedUpTo(s: string, t: string, from: nat)
    requires from <= |t|
  {
    t[..from] + Unescape(t[from..]) == Unescape(s)
  }

  /** Text written by POP or POPLN for one node. */
  function Printed(n: Node, newline: bool): string
  {
    if newline then RenderLn(n) else Render(n)
  }

  /** Text written by POPALL or POPALLLN: every node, front to back. */
  function PrintedAll(q: seq<Node>, newline: bool): string
  {
    if q == [] then "" else Printed(q[0], newline) + PrintedAll(q[1..], newline)
  }

  /** Text written by QDISPLAY before its newline: the nodes, comma separated. */
  function Joined(q: seq<Node>): string
  {
    if q == [] then ""
    else if |q| == 1 then Render(q[0])
    else Render(q[0]) + ", " + Joined(q[1..])
  }

  /** `compareFirstTwo`: the int fields of the two front nodes, compared on a
    * copy of the queue. */
  function CompareFirstTwo(q: seq<Node>, relation: string, line: int): (r: Result<bool>)
    ensures |q| < 2 ==> r == Failure(Error(NotEnoughArguments, line))
    ensures r.Success? <==> |q| >= 2 && relation in {">", "<", "==", "!="}
    ensures r.Failure? && |q| >= 2 ==> r.fault == Error(UnspecifiedComparisonOperation, line)
  {
    if |q| < 2 then Failure(Error(NotEnoughArguments, line))
    else
      var a := GetInt(q[0]);
      var b := GetInt(q[1]);
      if relation == ">" then Success(a > b)
      else if relation == "<" then Success(a < b)
      else if relation == "==" then Success(a == b)
      else if relation == "!=" then Success(a != b)
      else Failure(Error(UnspecifiedComparisonOperation, line))
  }

  // ---------------------------------------------------------------------
  // The keyword checks, in the order the dispatcher runs them
  // ---------------------------------------------------------------------

  /** ADD, ADDK, DIV, DIVK, MOD, MODK, MUL, MULK, SUB and SUBK: an unanchored
    * keyword that runs one arithmetic operation. */
  function ArithStep(line: string, keyword: string, op: Op, keep: bool, i: int, m: Machine): (r: Step)
    ensures r.Proceed? || r.Fail?
    ensures !Contains(line, keyword) ==> r == Proceed(m)
    ensures r.Proceed? ==> r.m == m.(queue := r.m.queue)
    ensures r.Proceed? && Contains(line, keyword) ==>
      |m.queue| >= 2 && |r.m.queue| == (if keep then |m.queue| + 1 else |m.queue| - 1)
    ensures r.Fail? ==> r.fault.Error? && r.fault.line == i
  {
    if !Contains(line, keyword) then Proceed(m)
    else
      match (if keep then Keep(op, m.queue, i) else Plain(op, m.queue, i))
      case Success(q) => Proceed(m.(queue := q))
      case Failure(f) => Fail(f)
  }

  /** GOTO: an integer target must be a line index; otherwise the argument is
    * looked up as a label. */
  function GotoStep(line: string, i: int, n: nat, labels: map<string, int>, m: Machine): (r: Step)
    ensures !r.Return?
    ensures r.Proceed? ==> r == Proceed(m) && AnchoredAt(line, "GOTO").None?
    ensures r.Jump? ==> r.m == m && (0 <= r.target < n || r.target in labels.Values)
    ensures r.Fail? ==> r.fault.Error? && r.fault.line == i
    ensures AnchoredAt(line, "GOTO").Some? ==>
      var p := AnchoredAt(line, "GOTO").value;
      if p + 5 > |line| then r == Fail(Error(UncaughtOutOfRange, i))
      else
        var arg := line[p + 5..];
        if IsInteger(arg) then
          (0 <= Stoi(arg).value < n ==> r == Jump(Stoi(arg).value, m)) &&
          (!(0 <= Stoi(arg).value < n) ==> r == Fail(Error(InvalidGoto, i)))
        else
          (arg in labels ==> r == Jump(labels[arg], m)) &&
          (arg !in labels ==> r == Fail(Error(InvalidGoto, i)))
  {
    match AnchoredAt(line, "GOTO")
    case None => Proceed(m)
    case Some(p) =>
      if p + 5 > |line| then Fail(Error(UncaughtOutOfRange, i))
      else
        var arg := line[p + 5..];
        match Stoi(arg)
        case Parsed(v) => if 0 <= v < n then Jump(v, m) else Fail(Error(InvalidGoto, i))
        case _ => if arg in labels then Jump(labels[arg], m) else Fail(Error(InvalidGoto, i))
  }

  /** Jumps when the front two values satisfy `relation`; the queue is left alone. */
  function Branch(target: int, relation: string, i: int, m: Machine): (r: Step)
    ensures r.Proceed? || r.Jump? ==> r.m == m
    ensures r.Jump? ==> r.target == target
    ensures !r.Return?
    ensures |m.queue| < 2 ==> r == Fail(Error(NotEnoughArguments, i))
    ensures |m.queue| >= 2 && relation == "==" ==> (r.Jump? <==> GetInt(m.queue[0]) == GetInt(m.queue[1]))
    ensures |m.queue| >= 2 && relation == "!=" ==> (r.Jump? <==> GetInt(m.queue[0]) != GetInt(m.queue[1]))
    ensures |m.queue| >= 2 && relation == ">" ==> (r.Jump? <==> GetInt(m.queue[0]) > GetInt(m.queue[1]))
    ensures |m.queue| >= 2 && relation == "<" ==> (r.Jump? <==> GetInt(m.queue[0]) < GetInt(m.queue[1]))
    ensures |m.queue| >= 2 && relation in {">", "<", "==", "!="} ==> r.Jump? || r == Proceed(m)
    ensures |m.queue| >= 2 && relation !in {">", "<", "==", "!="} ==> r == Fail(Error(UnspecifiedComparisonOperation, i))
  {
    match CompareFirstTwo(m.queue, relation, i)
    case Failure(f) => Fail(f)
    case Success(holds) => if holds then Jump(target, m) else Proceed(m)
  }

  /** IFEQ, IFGT, IFLT and IFNQ: the target is an integer (not range checked)
    * or a label; a missing label is an unknown instruction. */
  function IfStep(line: string, keyword: string, relation: string, i: int, labels: map<string, int>, m: Machine): (r: Step)
    ensures r.Proceed? || r.Jump? ==> r.m == m
    ensures !r.Return?
    ensures AnchoredAt(line, keyword).None? ==> r == Proceed(m)
    ensures r.Fail? ==> r.fault.Error? && r.fault.line == i
    ensures AnchoredAt(line, keyword).Some? ==>
      var p := AnchoredAt(line, keyword).value;
      if p + 5 > |line| then r == Fail(Error(UncaughtOutOfRange, i))
      else
        var arg := line[p + 5..];
        if IsInteger(arg) then r == Branch(Stoi(arg).value, relation, i, m)
        else
          (arg in labels ==> r == Branch(labels[arg], relation, i, m)) &&
          (arg !in labels ==> r == Fail(Error(UnknownInstruction, i)))
  {
    match AnchoredAt(line, keyword)
    case None => Proceed(m)
    case Some(p) =>
      if p + 5 > |line| then Fail(Error(UncaughtOutOfRange, i))
      else
        var arg := line[p + 5..];
        match Stoi(arg)
        case Parsed(v) => Branch(v, relation, i, m)
        case _ => if arg in labels then Branch(labels[arg], relation, i, m) else Fail(Error(UnknownInstruction, i))
  }

  /** PEEK and PEEKLN write the front node; any other line holding "PEEK" and
    * "LN" is an unknown instruction.  `front()` of an empty queue is undefined. */
  function PeekStep(line: string, i: int, m: Machine): (r: Step)
    ensures r.Proceed? || r.Fail?
    ensures r.Proceed? ==> r.m == m.(output := r.m.output)
    ensures r.Proceed? && Contains(line, "PEEK") ==>
      (m.queue != [] && r.m.output == m.output + Printed(m.queue[0], Contains(line, "LN")))
    ensures !Contains(line, "PEEK") ==> r == Proceed(m)
    ensures r.Fail? <==>
      Contains(line, "PEEK") && (m.queue == [] || (Contains(line, "LN") && !Contains(line, "PEEKLN")))
    ensures r.Fail? ==> r.fault == if m.queue == [] then Undefined(i) else Error(UnknownInstruction, i)
  {
    if !Contains(line, "PEEK") then Proceed(m)
    else if m.queue == [] then Fail(Undefined(i))
    else if Contains(line, "LN") then
      if Contains(line, "PEEKLN") then Proceed(m.(output := m.output + RenderLn(m.queue[0])))
      else Fail(Error(UnknownInstruction, i))
    else Proceed(m.(output := m.output + Render(m.queue[0])))
  }

  /** POKE shuffles the queue.  On an empty queue the C++ loop starts from
    * `size() - 1` wrapped round and takes `rand() % 0`: undefined. */
  function PokeStep(line: string, i: int, m: Machine, rand: RandStream): (r: Step)
    ensures r.Proceed? || r.Fail?
    ensures r.Proceed? ==> multiset(r.m.queue) == multiset(m.queue) && r.m.output == m.output && r.m.input == m.input
    ensures r.Proceed? ==> r.m.pokes == if Contains(line, "POKE") then m.pokes + 1 else m.pokes
    ensures r.Fail? <==> Contains(line, "POKE") && m.queue == []
  {
    if !Contains(line, "POKE") then Proceed(m)
    else if m.queue == [] then Fail(Undefined(i))
    else Proceed(m.(queue := Shuffle(m.queue, rand, m.pokes), pokes := m.pokes + 1))
  }

  /** POP, POPLN, POPALL and POPALLLN: "ALL" anywhere on the line empties the
    * queue, "LN" anywhere adds newlines. */
  function PopStep(line: string, i: int, m: Machine): (r: Step)
    ensures r.Proceed? || r.Fail?
    ensures r.Proceed? ==> r.m == m.(queue := r.m.queue, output := r.m.output) && m.output <= r.m.output
    ensures r.Proceed? ==> |r.m.queue| <= |m.queue| && r.m.queue == m.queue[|m.queue| - |r.m.queue|..]
    ensures r.Proceed? && Contains(line, "POP") ==>
      if Contains(line, "ALL") then r.m.queue == [] else |r.m.queue| == |m.queue| - 1
    ensures r.Fail? <==> Contains(line, "POP") && !Contains(line, "ALL") && m.queue == []
  {
    if !Contains(line, "POP") then Proceed(m)
    else
      var all := Contains(line, "ALL");
      var newline := Contains(line, "LN");
      if all then Proceed(m.(queue := [], output := m.output + PrintedAll(m.queue, newline)))
      else if m.queue == [] then Fail(Undefined(i))
      else Proceed(m.(queue := m.queue[1..], output := m.output + Printed(m.queue[0], newline)))
  }

  /** PRINT writes its argument, quotes stripped, and a newline. */
  function PrintStep(line: string, i: int, m: Machine): (r: Step)
    ensures r.Proceed? || r.Fail?
    ensures r.Proceed? ==> r.m == m.(output := r.m.output) && m.output <= r.m.output
    ensures r.Proceed? && AnchoredAt(line, "PRINT").Some? ==>
      (|r.m.output| > |m.output| && r.m.output[|r.m.output| - 1] == '\n')
    ensures AnchoredAt(line, "PRINT").None? ==> r == Proceed(m)
    ensures AnchoredAt(line, "PRINT").Some? ==>
      var p := AnchoredAt(line, "PRINT").value;
      if p + 6 > |line| then r == Fail(Error(UncaughtOutOfRange, i))
      else r.Proceed? && r.m.output == m.output + StripQuotes(line[p + 6..]) + "\n"
  {
    match AnchoredAt(line, "PRINT")
    case None => Proceed(m)
    case Some(p) =>
      if p + 6 > |line| then Fail(Error(UncaughtOutOfRange, i))
      else Proceed(m.(output := m.output + StripQuotes(line[p + 6..]) + "\n"))
  }

  /** PUSH: a string between the first and last `"`, or else an integer after
    * "PUSH ". */
  function PushStep(line: string, i: int, m: Machine): (r: Step)
    ensures r.Proceed? || r.Fail?
    ensures r.Proceed? ==> r.m.input == m.input && r.m.pokes == m.pokes && m.output <= r.m.output
    ensures r.Proceed? && Contains(line, "PUSH") ==>
      |r.m.queue| == |m.queue| + 1 && r.m.queue[..|m.queue|] == m.queue &&
      (ContainsString(r.m.queue[|m.queue|]) <==> FindChar(line, '"').Some?)
    ensures !Contains(line, "PUSH") ==> r == Proceed(m)
    ensures r.Fail? ==> r.fault == Error(InvalidPush, i) || r.fault == Error(UncaughtOutOfRange, i)
    ensures r.Proceed? && Contains(line, "PUSH") && FindChar(line, '"').Some? ==>
      FindChar(line, '"').value < RFindChar(line, '"').value &&
      r.m.queue[|m.queue|] == StringNode(Unescape(line[FindChar(line, '"').value + 1..RFindChar(line, '"').value]))
    ensures r.Proceed? && Contains(line, "PUSH") && FindChar(line, '"').None? ==>
      Find(line, "PUSH").value + 5 <= |line| &&
      var arg := line[Find(line, "PUSH").value + 5..];
      IsInteger(arg) && r.m.queue[|m.queue|] == IntNode(Stoi(arg).value)
  {
    if !Contains(line, "PUSH") then Proceed(m)
    else if FindChar(line, '"').Some? then PushQuotedStep(line, i, m)
    else PushNumberStep(line, i, m)
  }

  /** PUSH of the text between the first and the last double quote, with its
    * `\n` escapes replaced; a single quote is an invalid push. */
  function PushQuotedStep(line: string, i: int, m: Machine): (r: Step)
    requires FindChar(line, '"').Some?
    ensures r.Proceed? ==> r.m == m.(queue := r.m.queue) && |r.m.queue| == |m.queue| + 1 &&
                           r.m.queue[..|m.queue|] == m.queue && ContainsString(r.m.queue[|m.queue|])
    ensures r.Fail? <==> FindChar(line, '"') == RFindChar(line, '"')
    ensures r.Proceed? || r == Fail(Error(InvalidPush, i))
    ensures r.Proceed? ==>
      FindChar(line, '"').value < RFindChar(line, '"').value &&
      r.m.queue[|m.queue|] == StringNode(Unescape(line[FindChar(line, '"').value + 1..RFindChar(line, '"').value]))
  {
    var first := FindChar(line, '"').value;
    var last := RFindChar(line, '"').value;
    if first != last then Proceed(m.(queue := m.queue + [StringNode(Unescape(line[first + 1..last]))]))
    else Fail(Error(InvalidPush, i))
  }

  /** PUSH of the integer after the keyword and one more character: a line
    * too short for that is an uncaught `out_of_range`, text that is not an
    * integer an invalid push. */
  function PushNumberStep(line: string, i: int, m: Machine): (r: Step)
    requires Contains(line, "PUSH")
    ensures r.Proceed? ==> r.m.input == m.input && r.m.pokes == m.pokes && m.output <= r.m.output &&
                           |r.m.queue| == |m.queue| + 1 && r.m.queue[..|m.queue|] == m.queue &&
                           ContainsInt(r.m.queue[|m.queue|])
    ensures r.Proceed? || r.Fail?
    ensures var p := Find(line, "PUSH").value;
      && (p + 5 > |line| ==> r == Fail(Error(UncaughtOutOfRange, i)))
      && (p + 5 <= |line| ==> (r.Fail? <==> !IsInteger(line[p + 5..])))
      && (p + 5 <= |line| && r.Fail? ==> r == Fail(Error(InvalidPush, i)))
      && (r.Proceed? ==> p + 5 <= |line| && r.m.queue[|m.queue|] == IntNode(Stoi(line[p + 5..]).value))
  {
    var p := Find(line, "PUSH").value;
    if p + 5 > |line| then Fail(Error(UncaughtOutOfRange, i))
    else
      match Stoi(line[p + 5..])
      case Parsed(v) =>
        Proceed(m.(queue := m.queue + [IntNode(v)],
                   output := m.output + "Pushing integer: " + IntToString(v) + "\n"))
      case _ => Fail(Error(InvalidPush, i))
  }

  /** QDISPLAY writes the whole queue and leaves it as it is. */
  function DisplayStep(line: string, m: Machine): (r: Step)
    ensures r.Proceed? && r.m == m.(output := r.m.output) && m.output <= r.m.output
    ensures Contains(line, "QDISPLAY") ==> |r.m.output| > |m.output| && r.m.output[|r.m.output| - 1] == '\n'
  {
    if !Contains(line, "QDISPLAY") then Proceed(m)
    else Proceed(m.(output := m.output + Joined(m.queue) + "\n"))
  }

  /** READ writes its prompt and reads one input line (empty at end of input):
    * an integer prefix is pushed as an int, anything else as a string, and a
    * number out of `int` range is an uncaught `out_of_range`. */
  function ReadStep(line: string, i: int, m: Machine): (r: Step)
    ensures r.Proceed? || r.Fail?
    ensures r.Proceed? && AnchoredAt(line, "READ").None? ==> r.m == m
    ensures r.Proceed? ==> r.m.pokes == m.pokes && m.output <= r.m.output
    ensures r.Proceed? && AnchoredAt(line, "READ").Some? ==>
      var text := if m.input == [] then "" else m.input[0];
      && r.m.input == (if m.input == [] then [] else m.input[1..])
      && |r.m.queue| == |m.queue| + 1 && r.m.queue[..|m.queue|] == m.queue
      && var n := r.m.queue[|m.queue|];
         (ContainsInt(n) ==> Stoi(text) == Parsed(GetInt(n)))
         && (ContainsString(n) ==> Stoi(text) == InvalidArgument && GetString(n) == text)
    ensures AnchoredAt(line, "READ").None? ==> r == Proceed(m)
    ensures AnchoredAt(line, "READ").Some? ==>
      var p := AnchoredAt(line, "READ").value;
      var text := if m.input == [] then "" else m.input[0];
      && (r.Fail? <==> p + 5 > |line| || Stoi(text).OutOfRange?)
      && (r.Fail? ==> r.fault == Error(UncaughtOutOfRange, i))
      && (r.Proceed? ==> r.m.output == m.output + StripQuotes(line[p + 5..]))
  {
    match AnchoredAt(line, "READ")
    case None => Proceed(m)
    case Some(p) =>
      if p + 5 > |line| then Fail(Error(UncaughtOutOfRange, i))
      else
        var text := if m.input == [] then "" else m.input[0];
        var m' := m.(output := m.output + StripQuotes(line[p + 5..]),
                     input := if m.input == [] then [] else m.input[1..]);
        match Stoi(text)
        case Parsed(v) => Proceed(m'.(queue := m.queue + [IntNode(v)]))
        case InvalidArgument => Proceed(m'.(queue := m.queue + [StringNode(text)]))
        case OutOfRange => Fail(Error(UncaughtOutOfRange, i))
  }

  /** RET pops the front node and returns its int. */
  function RetStep(line: string, i: int, m: Machine): (r: Step)
    ensures !r.Jump?
    ensures r.Proceed? <==> !Contains(line, "RET")
    ensures r.Proceed? ==> r.m == m
    ensures r.Return? ==>
      (m.queue != [] && ContainsInt(m.queue[0]) && r.code == GetInt(m.queue[0]) && r.m == m.(queue := m.queue[1..]))
    ensures r.Return? <==> Contains(line, "RET") && m.queue != [] && ContainsInt(m.queue[0])
    ensures r.Fail? <==> Contains(line, "RET") && (m.queue == [] || !ContainsInt(m.queue[0]))
    ensures r.Fail? ==> r.fault == Error(if m.queue == [] then ReturnFromEmptyQueue else NonIntegerReturnValue, i)
  {
    if !Contains(line, "RET") then Proceed(m)
    else if m.queue == [] then Fail(Error(ReturnFromEmptyQueue, i))
    else if ContainsInt(m.queue[0]) then Return(GetInt(m.queue[0]), m.(queue := m.queue[1..]))
    else Fail(Error(NonIntegerReturnValue, i))
  }

  /** SORTUP and SORTDOWN. */
  function SortStep(line: string, keyword: string, dir: Direction, m: Machine): (r: Step)
    ensures r.Proceed? && r.m == m.(queue := r.m.queue) && multiset(r.m.queue) == multiset(m.queue)
    ensures Contains(line, keyword) ==> SortedBy(r.m.queue, dir)
  {
    if !Contains(line, keyword) then Proceed(m)
    else Proceed(m.(queue := SortNodes(m.queue, dir)))
  }

  // ---------------------------------------------------------------------
  // One line
  // ---------------------------------------------------------------------

  /** ADD, ADDK, DIV, DIVK and EMPTY.  DIV and DIVK run the subtraction
    * routines; EMPTY only queries the queue. */
  function FrontArithmetic(line: string, i: int, m: Machine): (r: Step)
    ensures r.Proceed? || r.Fail?
    ensures r.Proceed? ==> r.m == m.(queue := r.m.queue)
  {
    var m1 :- ArithStep(line, "ADD", Add, false, i, m);
    var m2 :- ArithStep(line, "ADDK", Add, true, i, m1);
    var m3 :- ArithStep(line, "DIV", Sub, false, i, m2);
    ArithStep(line, "DIVK", Sub, true, i, m3)
  }

  /** GOTO, IFEQ, IFGT, IFLT and IFNQ. */
  function Jumps(line: string, i: int, n: nat, labels: map<string, int>, m: Machine): (r: Step)
    ensures r.Proceed? || r.Jump? ==> r.m == m
    ensures !r.Return?
  {
    var m1 :- GotoStep(line, i, n, labels, m);
    var m2 :- IfStep(line, "IFEQ", "==", i, labels, m1);
    var m3 :- IfStep(line, "IFGT", ">", i, labels, m2);
    var m4 :- IfStep(line, "IFLT", "<", i, labels, m3);
    IfStep(line, "IFNQ", "!=", i, labels, m4)
  }

  /** MOD, MODK, MUL and MULK. */
  function BackArithmetic(line: string, i: int, m: Machine): (r: Step)
    ensures r.Proceed? || r.Fail?
    ensures r.Proceed? ==> r.m == m.(queue := r.m.queue)
  {
    var m1 :- ArithStep(line, "MOD", Mod, false, i, m);
    var m2 :- ArithStep(line, "MODK", Mod, true, i, m1);
    var m3 :- ArithStep(line, "MUL", Mul, false, i, m2);
    ArithStep(line, "MULK", Mul, true, i, m3)
  }

  /** PEEK, POKE, POP, PRINT, PUSH and QDISPLAY. */
  function QueueAccess(line: string, i: int, m: Machine, rand: RandStream): (r: Step)
    ensures r.Proceed? || r.Fail?
    ensures r.Proceed? ==> r.m.input == m.input && m.output <= r.m.output && m.pokes <= r.m.pokes
  {
    var m1 :- PeekStep(line, i, m);
    var m2 :- PokeStep(line, i, m1, rand);
    var m3 :- PopStep(line, i, m2);
    var m4 :- PrintStep(line, i, m3);
    var m5 :- PushStep(line, i, m4);
    DisplayStep(line, m5)
  }

  /** READ, RET, SUB, SUBK, SORTUP and SORTDOWN. */
  function LastChecks(line: string, i: int, m: Machine): (r: Step)
    ensures !r.Jump?
    ensures Continues(m, r)
    ensures r.Return? ==> Contains(line, "RET")
  {
    var m1 :- ReadStep(line, i, m);
    var m2 :- RetStep(line, i, m1);
    var m3 :- ArithStep(line, "SUB", Sub, false, i, m2);
    var m4 :- ArithStep(line, "SUBK", Sub, true, i, m3);
    var m5 := SortStep(line, "SORTUP", Up, m4).m;
    SortStep(line, "SORTDOWN", Down, m5)
  }

  /** One pass of the dispatcher's loop body over the line with index `i`:
    * every keyword check fires on its own, in source order, until one of
    * them jumps, returns or fails. */
  function ExecLine(lines: seq<string>, i: nat, labels: map<string, int>, m: Machine, rand: RandStream): (r: Step)
    requires i < |lines|
    ensures Continues(m, r)
    ensures r.Return? ==> Contains(lines[i], "RET")
    ensures Skipped(lines[i]) ==> r == Proceed(m)
  {
    var line := lines[i];
    if Skipped(line) then Proceed(m)
    else
      var m1 :- FrontArithmetic(line, i, m);
      var m2 :- Jumps(line, i, |lines|, labels, m1);
      var m3 :- BackArithmetic(line, i, m2);
      var m4 :- QueueAccess(line, i, m3, rand);
      var r := LastChecks(line, i, m4);
      if r.Fail? then r
      else
        assert m4.input == m.input && m.output <= m4.output && m.pokes <= m4.pokes;
        ExtendsTransitive(m, m4, r.m);
        r
  }

  // ---------------------------------------------------------------------
  // The run
  // ---------------------------------------------------------------------

  /** How a run ends: `run` returns a code, a fault stops the process, or the
    * step budget of the model runs out first. */
  datatype RunOutcome =
    | Exited(code: int, m: Machine)
    | Halted(fault: Fault)
    | OutOfFuel(m: Machine)

  /** The dispatcher's `for` loop from line index `pc` over `n` lines, with at
    * most `fuel` iterations, where `step(i, m)` is the effect of line `i`.  The
    * loop goes on while `0 <= pc < n` (a negative `int` compares as a huge
    * `size_t`); a jump to `t` continues at `t + 1` because the `for` loop's
    * increment still runs after `continue`. */
  function Loop(step: (nat, Machine) -> Step, n: nat, pc: int, m: Machine, fuel: nat): (r: RunOutcome)
    ensures !(0 <= pc < n) ==> r == Exited(0, m)
    ensures r.Exited? && r.code != 0 ==>
      exists j: nat, m0: Machine :: j < n && step(j, m0).Return? && step(j, m0).code == r.code
    ensures (forall j: nat, m0: Machine :: Continues(m0, step(j, m0))) ==> (!r.Halted? ==> Extends(m, r.m))
    decreases fuel, 1
  {
    if !(0 <= pc < n) then Exited(0, m)
    else if fuel == 0 then OutOfFuel(m)
    else Iterate(step, n, pc, m, fuel)
  }

  /** One iteration of the loop body, on line `pc`, and the loop after it. */
  function Iterate(step: (nat, Machine) -> Step, n: nat, pc: nat, m: Machine, fuel: nat): (r: RunOutcome)
    requires pc < n && fuel > 0
    ensures r.Exited? && r.code != 0 ==>
      exists j: nat, m0: Machine :: j < n && step(j, m0).Return? && step(j, m0).code == r.code
    ensures (forall j: nat, m0: Machine :: Continues(m0, step(j, m0))) ==> (!r.Halted? ==> Extends(m, r.m))
    decreases fuel, 0
  {
    match step(pc, m)
    case Proceed(m') =>
      var r := Loop(step, n, pc + 1, m', fuel - 1);
      if r.Halted? then r else ExtendsTransitive(m, m', r.m); r
    case Jump(t, m') =>
      var r := Loop(step, n, t + 1, m', fuel - 1);
      if r.Halted? then r else ExtendsTransitive(m, m', r.m); r
    case Return(code, m') => Exited(code, m')
    case Fail(f) => Halted(f)
  }

  /** The effect of line `i` of the program; the loop never asks for an index
    * past the end. */
  function LineStep(lines: seq<string>, labels: map<string, int>, rand: RandStream): (nat, Machine) -> Step
  {
    (i: nat, m: Machine) => if i < |lines| then ExecLine(lines, i, labels, m, rand) else Proceed(m)
  }

  /** Every line only extends the machine, and only a line holding "RET"
    * returns. */
  lemma LineStepFacts(lines: seq<string>, labels: map<string, int>, rand: RandStream)
    ensures forall j: nat, m0: Machine :: Continues(m0, LineStep(lines, labels, rand)(j, m0))
    ensures forall j: nat, m0: Machine :: j < |lines| && LineStep(lines, labels, rand)(j, m0).Return? ==>
      Contains(lines[j], "RET")
  {
  }

  /** The dispatcher's loop over the program's lines, from line index `pc`.
    * Unless it faults, it only appends output and reads input from the front,
    * and it exits with a code other than 0 only if some line holds "RET". */
  function Exec(lines: seq<string>, labels: map<string, int>, pc: int, m: Machine, fuel: nat, rand: RandStream): (r: RunOutcome)
    ensures !(0 <= pc < |lines|) ==> r == Exited(0, m)
    ensures !r.Halted? ==> Extends(m, r.m)
    ensures r.Exited? && r.code != 0 ==> exists k :: 0 <= k < |lines| && Contains(lines[k], "RET")
  {
    LineStepFacts(lines, labels, rand);
    Loop(LineStep(lines, labels, rand), |lines|, pc, m, fuel)
  }

  function InitialMachine(input: seq<string>): Machine
  {
    Machine([], "", input, 0)
  }

  /** `run(program_text)`: the label pass, then the dispatcher from line 0
    * on an empty queue. */
  function RunProgram(lines: seq<string>, input: seq<string>, rand: RandStream, fuel: nat): (r: RunOutcome)
    ensures LabelPass(lines).Failure? ==> r.Halted? && r.fault.Error? && r.fault.kind.SingleBar?
    ensures !r.Halted? ==> Extends(InitialMachine(input), r.m)
    ensures r.Exited? && r.code != 0 ==> exists k :: 0 <= k < |lines| && Contains(lines[k], "RET")
  {
    match LabelPass(lines)
    case Failure(f) => Halted(f)
    case Success(labels) => Exec(lines, labels, 0, InitialMachine(input), fuel, rand)
  }
}
