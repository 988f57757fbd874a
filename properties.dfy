/** Properties of `run()` that relate several steps or the whole label pass:
  * what the label table holds, where a jump continues, what PUSH and READ
  * push for the text they are given, and how some small programs end.
  */
module RunProperties {
  import opened StdText
  import opened QuErrors
  import opened QuNode
  import opened Operations
  import opened Semantics

  // ---------------------------------------------------------------------
  // The label pass
  // ---------------------------------------------------------------------

  /** After `k` lines the label pass has failed exactly when one of them has a
    * lone bar, and then at the first such line. */
  lemma {:induction false} LabelFailure(cls: seq<LabelLine>, k: nat)
    requires k <= |cls|
    ensures TableUpTo(cls, k).Success? <==> forall j :: 0 <= j < k ==> !cls[j].LoneBar?
    ensures TableUpTo(cls, k).Failure? ==>
      exists j :: 0 <= j < k && cls[j].LoneBar?
        && TableUpTo(cls, k).fault == Error(SingleBar(cls[j].column), j)
        && forall j' :: 0 <= j' < j ==> !cls[j'].LoneBar?
  {
    if k > 0 {
      LabelFailure(cls, k - 1);
    }
  }

  /** When the label pass succeeds on the first `k` lines, each name in its
    * table is bound to a line, among those, that declares it. */
  lemma {:induction false} LabelTableSound(cls: seq<LabelLine>, k: nat)
    requires k <= |cls| && TableUpTo(cls, k).Success?
    ensures var t := TableUpTo(cls, k).value;
      forall name :: name in t ==> 0 <= t[name] < k && cls[t[name]] == Label(name)
  {
    if k > 0 {
      LabelTableSound(cls, k - 1);
    }
  }

  /** ... and every name some line declares is in the table. */
  lemma {:induction false} LabelTableComplete(cls: seq<LabelLine>, k: nat)
    requires k <= |cls| && TableUpTo(cls, k).Success?
    ensures var t := TableUpTo(cls, k).value;
      forall j :: 0 <= j < k && cls[j].Label? ==> cls[j].name in t
  {
    if k > 0 {
      LabelTableComplete(cls, k - 1);
    }
  }

  /** ... bound to the first line that declares it: no earlier line does. */
  lemma {:induction false} LabelTableFirstWins(cls: seq<LabelLine>, k: nat)
    requires k <= |cls| && TableUpTo(cls, k).Success?
    ensures var t := TableUpTo(cls, k).value;
      forall name :: name in t ==>
        0 <= t[name] < k && forall j :: 0 <= j < t[name] ==> cls[j] != Label(name)
  {
    if k > 0 {
      var t := TableUpTo(cls, k - 1).value;
      LabelsNext(cls, k - 1, t);
      LabelTableFirstWins(cls, k - 1);
      LabelTableComplete(cls, k - 1);
      var t' := TableUpTo(cls, k).value;
      forall name | name in t'
        ensures 0 <= t'[name] < k && forall j :: 0 <= j < t'[name] ==> cls[j] != Label(name)
      {
        if name !in t {
          assert cls[k - 1] == Label(name) && t'[name] == k - 1;
        }
      }
    }
  }

  /** Once the label pass has failed, later lines do not change the outcome. */
  lemma {:induction false} LabelFailureSticks(cls: seq<LabelLine>, k: nat, n: nat)
    requires k <= n <= |cls| && TableUpTo(cls, k).Failure?
    ensures TableUpTo(cls, n) == TableUpTo(cls, k)
    decreases n - k
  {
    if k < n {
      assert TableUpTo(cls, k + 1) == TableUpTo(cls, k);
      LabelFailureSticks(cls, k + 1, n);
    }
  }

  /** One line of the label pass, after lines that all succeeded. */
  lemma LabelsNext(cls: seq<LabelLine>, i: nat, table: map<string, int>)
    requires i < |cls| && TableUpTo(cls, i) == Success(table)
    ensures TableUpTo(cls, i + 1) ==
      match cls[i]
      case NoLabel => Success(table)
      case LoneBar(column) => Failure(Error(SingleBar(column), i))
      case Label(name) => Success(if name in table then table else table[name := i])
  {
  }

  /** With the label table of the program, GOTO only ever jumps to a line of
    * the program, so the run continues at an index from 1 to `|lines|`. */
  lemma GotoTargetsInRange(lines: seq<string>, line: string, i: int, m: Machine)
    requires LabelPass(lines).Success?
    ensures var r := GotoStep(line, i, |lines|, LabelPass(lines).value, m);
      r.Jump? ==> 0 <= r.target < |lines|
  {
  }

  /** A bar-delimited label written at column 0 binds its own name, and the
    * dispatcher skips that line. */
  lemma LabelAtColumnZero(name: string)
    requires forall k :: 0 <= k < |name| ==> name[k] != '|'
    ensures ClassifyLabel("|" + name + "|") == Label(name)
    ensures Skipped("|" + name + "|")
  {
    var line := "|" + name + "|";
    assert line[0] == '|';
    assert FindChar(line, '|') == Some(0);
    assert forall k :: 0 < k < |line| - 1 ==> line[k] == name[k - 1];
    assert RFindChar(line, '|') == Some(|line| - 1);
    assert line[1..|line| - 1] == name;
  }

  /** When the first bar is indented, the name runs past the closing bar:
    * `"  |AB|"` binds `"AB|"`, not `"AB"`. */
  lemma IndentedLabelKeepsClosingBar()
    ensures ClassifyLabel("  |AB|") == Label("AB|")
  {
    var line := "  |AB|";
    assert line[0] != '|' && line[1] != '|' && line[2] == '|';
    assert FindChar(line, '|') == Some(2);
    assert RFindChar(line, '|') == Some(5);
    assert line[3..] == "AB|";
  }

  // ---------------------------------------------------------------------
  // Keyword search
  // ---------------------------------------------------------------------

  /** A line that contains a keyword contains each of its prefixes too: every
    * ADDK line is also an ADD line, every DIVK line a DIV line, and so on. */
  lemma ContainsPrefix(s: string, p: string, q: string)
    requires Contains(s, p + q)
    ensures Contains(s, p)
  {
    var k := Find(s, p + q).value;
    assert OccursAt(s, p + q, k);
    assert s[k..k + |p|] == (p + q)[..|p|] == p;
    assert OccursAt(s, p, k);
  }

  /** A keyword found at column 0 is found there by `find`. */
  lemma FindAtStart(s: string, pat: string)
    requires |pat| <= |s| && s[..|pat|] == pat
    ensures Find(s, pat) == Some(0)
  {
    assert s[0..|pat|] == pat;
  }

  // ---------------------------------------------------------------------
  // Jumps
  // ---------------------------------------------------------------------

  /** `GOTO name` jumps to the line the label pass bound to `name`, and the
    * run resumes on the line after it: the labelled line is not executed. */
  lemma GotoLabelResumesAfterLabel(lines: seq<string>, labels: map<string, int>, pc: int, m: Machine,
                                   fuel: nat, rand: Reorder.RandStream, name: string)
    requires 0 <= pc < |lines| && fuel > 0
    requires lines[pc] == "GOTO " + name
    requires !IsInteger(name) && name in labels
    requires !Contains(lines[pc], "ADD") && !Contains(lines[pc], "DIV")
    ensures Exec(lines, labels, pc, m, fuel, rand) == Exec(lines, labels, labels[name] + 1, m, fuel - 1, rand)
  {
    var line := lines[pc];
    assert !Skipped(line) by { assert line[0] == 'G'; }
    if Contains(line, "ADDK") { assert "ADDK" == "ADD" + "K"; ContainsPrefix(line, "ADD", "K"); }
    if Contains(line, "DIVK") { assert "DIVK" == "DIV" + "K"; ContainsPrefix(line, "DIV", "K"); }
    assert FrontArithmetic(line, pc, m) == Proceed(m);
    FindAtStart(line, "GOTO");
    assert AnchoredAt(line, "GOTO") == Some(0);
    assert line[5..] == name;
    assert GotoStep(line, pc, |lines|, labels, m) == Jump(labels[name], m);
    assert ExecLine(lines, pc, labels, m, rand) == Jump(labels[name], m);
    ExecContinues(lines, labels, pc, m, fuel, rand, labels[name] + 1, m);
  }

  /** `GOTO v` for a line index `v` continues the run on line `v + 1`. */
  lemma GotoNumberResumesAfterTarget(lines: seq<string>, labels: map<string, int>, pc: int, m: Machine,
                                     fuel: nat, rand: Reorder.RandStream, v: int)
    requires 0 <= pc < |lines| && fuel > 0
    requires lines[pc] == "GOTO " + IntToString(v) && InIntRange(v) && 0 <= v < |lines|
    requires !Contains(lines[pc], "ADD") && !Contains(lines[pc], "DIV")
    ensures Exec(lines, labels, pc, m, fuel, rand) == Exec(lines, labels, v + 1, m, fuel - 1, rand)
  {
    var line := lines[pc];
    GotoNumberStep(line, pc, |lines|, labels, m, v);
    assert ExecLine(lines, pc, labels, m, rand) == Jump(v, m);
    ExecContinues(lines, labels, pc, m, fuel, rand, v + 1, m);
  }

  /** `GOTO v` for a number that is not a line index ends the run with the
    * invalid-goto error of that line. */
  lemma GotoNumberOutOfRangeHalts(lines: seq<string>, labels: map<string, int>, pc: int, m: Machine,
                                  fuel: nat, rand: Reorder.RandStream, v: int)
    requires 0 <= pc < |lines| && fuel > 0
    requires lines[pc] == "GOTO " + IntToString(v) && InIntRange(v) && !(0 <= v < |lines|)
    requires !Contains(lines[pc], "ADD") && !Contains(lines[pc], "DIV")
    ensures Exec(lines, labels, pc, m, fuel, rand) == Halted(Error(InvalidGoto, pc))
  {
    var line := lines[pc];
    GotoNumberStep(line, pc, |lines|, labels, m, v);
    assert ExecLine(lines, pc, labels, m, rand) == Fail(Error(InvalidGoto, pc));
    ExecStops(lines, labels, pc, m, fuel, rand);
  }

  /** The line `GOTO v` up to its GOTO check: nothing fires before it, and
    * the GOTO check reads the number `v`. */
  lemma GotoNumberStep(line: string, i: int, n: nat, labels: map<string, int>, m: Machine, v: int)
    requires line == "GOTO " + IntToString(v) && InIntRange(v)
    requires !Contains(line, "ADD") && !Contains(line, "DIV")
    ensures !Skipped(line)
    ensures FrontArithmetic(line, i, m) == Proceed(m)
    ensures GotoStep(line, i, n, labels, m) == if 0 <= v < n then Jump(v, m) else Fail(Error(InvalidGoto, i))
  {
    assert line[0] == 'G';
    NoAddKDivK(line, i, m);
    FindAtStart(line, "GOTO");
    assert line[5..] == IntToString(v);
    StoiOfIntToString(v);
  }

  /** A line without ADD and DIV has no ADDK or DIVK either, so the first
    * checks of the dispatcher leave it alone. */
  lemma NoAddKDivK(line: string, i: int, m: Machine)
    requires !Contains(line, "ADD") && !Contains(line, "DIV")
    ensures FrontArithmetic(line, i, m) == Proceed(m)
  {
    if Contains(line, "ADDK") { assert "ADDK" == "ADD" + "K"; ContainsPrefix(line, "ADD", "K"); }
    if Contains(line, "DIVK") { assert "DIVK" == "DIV" + "K"; ContainsPrefix(line, "DIV", "K"); }
  }

  /** `IFEQ name` when the two front values hold equal ints jumps to the
    * label's line, and the run resumes on the line after it. */
  lemma IfEqLabelResumesAfterLabel(lines: seq<string>, labels: map<string, int>, pc: int, m: Machine,
                                   fuel: nat, rand: Reorder.RandStream, name: string)
    requires 0 <= pc < |lines| && fuel > 0
    requires lines[pc] == "IFEQ " + name
    requires !IsInteger(name) && name in labels
    requires !Contains(lines[pc], "ADD") && !Contains(lines[pc], "DIV") && !Contains(lines[pc], "GOTO")
    requires |m.queue| >= 2 && GetInt(m.queue[0]) == GetInt(m.queue[1])
    ensures Exec(lines, labels, pc, m, fuel, rand) == Exec(lines, labels, labels[name] + 1, m, fuel - 1, rand)
  {
    var line := lines[pc];
    assert !Skipped(line) by { assert line[0] == 'I'; }
    NoAddKDivK(line, pc, m);
    assert GotoStep(line, pc, |lines|, labels, m) == Proceed(m);
    FindAtStart(line, "IFEQ");
    assert line[5..] == name;
    assert IfStep(line, "IFEQ", "==", pc, labels, m) == Jump(labels[name], m);
    assert ExecLine(lines, pc, labels, m, rand) == Jump(labels[name], m);
    ExecContinues(lines, labels, pc, m, fuel, rand, labels[name] + 1, m);
  }

  /** `compareFirstTwo` reads the int fields, which are 0 for string nodes:
    * two strings are always "equal", never "greater" or "less". */
  lemma StringsCompareEqual(q: seq<Node>, line: int)
    requires |q| >= 2 && ContainsString(q[0]) && ContainsString(q[1])
    requires q[0] == StringNode(GetString(q[0])) && q[1] == StringNode(GetString(q[1]))
    ensures CompareFirstTwo(q, "==", line) == Success(true)
    ensures CompareFirstTwo(q, "!=", line) == Success(false)
    ensures CompareFirstTwo(q, ">", line) == Success(false)
    ensures CompareFirstTwo(q, "<", line) == Success(false)
  {
  }

  // ---------------------------------------------------------------------
  // PUSH and READ
  // ---------------------------------------------------------------------

  /** Decimal text holds no double quote. */
  lemma {:induction false} NoQuoteInNumber(v: int)
    ensures FindChar(IntToString(v), '"').None?
  {
    var s := IntToString(v);
    var digits := NatToString(if v < 0 then -v else v);
    forall k | 0 <= k < |s| ensures s[k] != '"' {
      if v < 0 && k > 0 { assert s[k] == digits[k - 1]; }
    }
  }

  /** Text without a backslash is pushed unchanged. */
  lemma {:induction false} UnescapePlain(s: string)
    requires forall k :: 0 <= k < |s| ==> s[k] != '\\'
    ensures Unescape(s) == s
  {
    if s != [] {
      UnescapePlain(s[1..]);
      assert s == [s[0]] + s[1..];
    }
  }

  /** `PUSH v` for an `int` value `v` pushes `v` and reports it. */
  lemma PushInteger(v: int, i: int, m: Machine)
    requires InIntRange(v)
    ensures PushStep("PUSH " + IntToString(v), i, m) ==
      Proceed(m.(queue := m.queue + [IntNode(v)], output := m.output + "Pushing integer: " + IntToString(v) + "\n"))
  {
    var line := "PUSH " + IntToString(v);
    FindAtStart(line, "PUSH");
    NoQuoteInNumber(v);
    assert FindChar(line, '"').None? by {
      forall k | 0 <= k < |line| ensures line[k] != '"' {
        if k >= 5 { assert line[k] == IntToString(v)[k - 5]; }
      }
    }
    assert line[5..] == IntToString(v);
    StoiOfIntToString(v);
  }

  /** `PUSH "s"` pushes `s` with its `\n` escapes replaced, whatever `s`
    * holds: quotes inside it are kept, since only the first and the last
    * quote of the line delimit the text. */
  lemma PushQuotedText(s: string, i: int, m: Machine)
    ensures PushStep("PUSH \"" + s + "\"", i, m) == Proceed(m.(queue := m.queue + [StringNode(Unescape(s))]))
  {
    var line := "PUSH \"" + s + "\"";
    FindAtStart(line, "PUSH");
    assert line[5] == '"';
    assert forall k :: 0 <= k < 5 ==> line[k] != '"';
    assert FindChar(line, '"') == Some(5);
    assert RFindChar(line, '"') == Some(|line| - 1);
    assert line[6..|line| - 1] == s;
  }

  /** `PUSH "s"` pushes the string `s` itself when it holds no backslash. */
  lemma PushString(s: string, i: int, m: Machine)
    requires forall k :: 0 <= k < |s| ==> s[k] != '\\'
    ensures PushStep("PUSH \"" + s + "\"", i, m) == Proceed(m.(queue := m.queue + [StringNode(s)]))
  {
    PushQuotedText(s, i, m);
    UnescapePlain(s);
  }

  /** `PUSH "a\nb"` pushes `a`, a newline and `b`. */
  lemma PushNewlineEscape(i: int, m: Machine)
    ensures PushStep("PUSH \"a\\nb\"", i, m) == Proceed(m.(queue := m.queue + [StringNode("a\nb")]))
  {
    PushQuotedText("a\\nb", i, m);
    assert "PUSH \"" + "a\\nb" + "\"" == "PUSH \"a\\nb\"";
    assert Unescape("b") == "b";
    assert Unescape("\\nb") == "\n" + Unescape("b");
    assert Unescape("a\\nb") == "a" + Unescape("\\nb");
    assert "a" + ("\n" + "b") == "a\nb";
  }

  /** READ of an input line holding an `int` pushes that int and consumes the
    * line; the prompt is written first. */
  lemma ReadInteger(line: string, i: int, m: Machine, v: int, rest: seq<string>)
    requires AnchoredAt(line, "READ").Some? && AnchoredAt(line, "READ").value + 5 <= |line|
    requires InIntRange(v) && m.input == [IntToString(v)] + rest
    ensures var p := AnchoredAt(line, "READ").value;
      ReadStep(line, i, m) ==
        Proceed(m.(queue := m.queue + [IntNode(v)], output := m.output + StripQuotes(line[p + 5..]), input := rest))
  {
    StoiOfIntToString(v);
  }

  /** At end of input READ pushes the empty string. */
  lemma ReadAtEndOfInput(line: string, i: int, m: Machine)
    requires AnchoredAt(line, "READ").Some? && AnchoredAt(line, "READ").value + 5 <= |line|
    requires m.input == []
    ensures ReadStep(line, i, m).Proceed?
    ensures ReadStep(line, i, m).m.queue == m.queue + [StringNode("")]
  {
    assert DigitsEnd("", 0) == 0;
  }

  /** PRINT drops one pair of enclosing quotes. */
  lemma PrintQuoted(s: string)
    ensures StripQuotes("\"" + s + "\"") == s
  {
  }

  /** `PRINT "s"` at column 0 writes `s` and a newline, quotes dropped. */
  lemma PrintLiteral(s: string, i: int, m: Machine)
    ensures PrintStep("PRINT \"" + s + "\"", i, m) == Proceed(m.(output := m.output + s + "\n"))
  {
    var line := "PRINT \"" + s + "\"";
    assert line[..5] == "PRINT";
    FindAtStart(line, "PRINT");
    assert line[6..] == "\"" + s + "\"";
    PrintQuoted(s);
  }

  /** Text before the first backslash is kept as it is. */
  lemma {:induction false} UnescapeSkipsPlain(t: string, from: nat, pos: nat)
    requires from <= pos <= |t|
    requires forall k :: from <= k < pos ==> t[k] != '\\'
    ensures Unescape(t[from..]) == t[from..pos] + Unescape(t[pos..])
    decreases pos - from
  {
    if from < pos {
      UnescapeSkipsPlain(t, from + 1, pos);
      var u := Unescape(t[pos..]);
      UnescapeOfPlainHead(t[from..]);
      assert t[from..][1..] == t[from + 1..];
      ConcatAssoc([t[from]], t[from + 1..pos], u);
      assert [t[from]] + t[from + 1..pos] == t[from..pos];
    }
  }

  /** A first character other than a backslash is kept as it is. */
  lemma UnescapeOfPlainHead(s: string)
    requires s != [] && s[0] != '\\'
    ensures Unescape(s) == [s[0]] + Unescape(s[1..])
  {
  }

  /** At a backslash the scan either turns `\n` into a newline or keeps the
    * backslash and resumes right after it. */
  lemma UnescapeAtBackslash(t: string, p: nat)
    requires p < |t| && t[p] == '\\'
    ensures Unescape(t[p..]) ==
      if p + 1 < |t| && t[p + 1] == 'n' then "\n" + Unescape(t[p + 2..]) else "\\" + Unescape(t[p + 1..])
  {
    if p + 1 < |t| && t[p + 1] == 'n' {
      assert t[p..][2..] == t[p + 2..];
    } else {
      assert t[p..][1..] == t[p + 1..];
    }
  }

  lemma ConcatAssoc(a: string, b: string, c: string)
    ensures a + (b + c) == (a + b) + c
  {
  }

  /** PUSH's escape loop, from `from` to the next backslash `p`: the text in
    * between is final. */
  lemma ScanToBackslash(s: string, t: string, from: nat, p: nat)
    requires from <= p <= |t|
    requires forall k :: from <= k < p ==> t[k] != '\\'
    requires UnescapedUpTo(s, t, from)
    ensures UnescapedUpTo(s, t, p)
  {
    UnescapeSkipsPlain(t, from, p);
    var u := Unescape(t[p..]);
    assert Unescape(t[from..]) == t[from..p] + u;
    ConcatAssoc(t[..from], t[from..p], u);
    assert t[..from] + t[from..p] == t[..p];
  }

  /** One round of PUSH's escape loop at the backslash `p`: `\n` becomes a
    * newline, any other backslash stays, and the loop resumes at `p + 1`. */
  lemma EscapeRound(s: string, t: string, p: nat, t': string)
    requires p < |t| && t[p] == '\\'
    requires UnescapedUpTo(s, t, p)
    requires t' == if p + 1 < |t| && t[p + 1] == 'n' then t[..p] + "\n" + t[p + 2..] else t
    ensures p + 1 <= |t'| && UnescapedUpTo(s, t', p + 1)
  {
    UnescapeAtBackslash(t, p);
    if p + 1 < |t| && t[p + 1] == 'n' {
      EscapeNewline(t, p);
    } else {
      EscapeKept(t, p);
    }
  }

  /** Writing a newline over the `\n` at `p` leaves the unescaped text as it was. */
  lemma EscapeNewline(t: string, p: nat)
    requires p + 1 < |t|
    ensures var t' := t[..p] + "\n" + t[p + 2..];
      t'[..p + 1] + Unescape(t'[p + 1..]) == t[..p] + ("\n" + Unescape(t[p + 2..]))
  {
    var t' := t[..p] + "\n" + t[p + 2..];
    var rest := Unescape(t[p + 2..]);
    assert t'[..p + 1] == t[..p] + "\n";
    assert t'[p + 1..] == t[p + 2..];
    ConcatAssoc(t[..p], "\n", rest);
  }

  /** A backslash not followed by `n` is kept as it is. */
  lemma EscapeKept(t: string, p: nat)
    requires p < |t| && t[p] == '\\'
    ensures t[..p + 1] + Unescape(t[p + 1..]) == t[..p] + ("\\" + Unescape(t[p + 1..]))
  {
    var rest := Unescape(t[p + 1..]);
    assert t[..p + 1] == t[..p] + [t[p]];
    ConcatAssoc(t[..p], "\\", rest);
  }

  // ---------------------------------------------------------------------
  // POP and QDISPLAY
  // ---------------------------------------------------------------------

  /** POPALLLN writes one line per node: as many newlines as the queue had
    * nodes, when no node's text has one of its own. */
  lemma {:induction false} PopAllLinesCount(q: seq<Node>)
    requires forall k :: 0 <= k < |q| ==> '\n' !in Render(q[k])
    ensures multiset(PrintedAll(q, true))['\n'] == |q|
  {
    if q != [] {
      PopAllLinesCount(q[1..]);
      assert multiset(RenderLn(q[0]))['\n'] == 1;
    }
  }

  /** QDISPLAY separates `n` nodes with `n - 1` commas when none of their
    * texts has a comma. */
  lemma {:induction false} DisplayCommaCount(q: seq<Node>)
    requires forall k :: 0 <= k < |q| ==> ',' !in Render(q[k])
    ensures multiset(Joined(q))[','] == if q == [] then 0 else |q| - 1
  {
    if |q| > 1 {
      DisplayCommaCount(q[1..]);
    }
  }

  /** Moving the front of `rest` to the end of `done` keeps their
    * concatenation: the invariant of the loops that empty a queue. */
  lemma TakeFront<T>(done: seq<T>, rest: seq<T>)
    requires rest != []
    ensures (done + [rest[0]]) + rest[1..] == done + rest
  {
    assert [rest[0]] + rest[1..] == rest;
  }

  /** POPALL's output grows one node at a time. */
  lemma {:induction false} PrintedAllSnoc(q: seq<Node>, x: Node, newline: bool)
    ensures PrintedAll(q + [x], newline) == PrintedAll(q, newline) + Printed(x, newline)
  {
    if q != [] {
      PrintedAllSnoc(q[1..], x, newline);
      assert (q + [x])[1..] == q[1..] + [x];
    }
  }

  /** QDISPLAY's output grows one node at a time, with a separator before
    * every node but the first. */
  lemma {:induction false} JoinedSnoc(q: seq<Node>, x: Node)
    ensures Joined(q + [x]) == if q == [] then Render(x) else Joined(q) + ", " + Render(x)
  {
    if |q| > 1 {
      var a, b, c := Render(q[0]), Joined(q[1..]), Render(x);
      assert (q + [x])[1..] == q[1..] + [x];
      JoinedSnoc(q[1..], x);
      calc {
        Joined(q + [x]);
        a + ", " + Joined(q[1..] + [x]);
        a + ", " + (b + ", " + c);
        { SeparatorShift(a, b, c); }
        a + ", " + b + ", " + c;
      }
    } else if |q| == 1 {
      assert (q + [x])[1..] == [x];
    }
  }

  /** QDISPLAY's loop writes the next node after what it has written so far
    * (the nodes shown, and a separator when there were any): the output then
    * holds the display of one more node. */
  lemma DisplayGrows(prefix: string, shown: seq<Node>, x: Node)
    ensures prefix + Joined(shown) + (if shown != [] then ", " else "") + Render(x) == prefix + Joined(shown + [x])
  {
    JoinedSnoc(shown, x);
    var j, r := Joined(shown), Render(x);
    if shown == [] {
      assert prefix + j + "" == prefix;
    } else {
      ConcatAssoc(prefix, j, ", ");
      ConcatAssoc(prefix, j + ", ", r);
    }
  }

  /** Moving a separated tail under one more separator. */
  lemma SeparatorShift(a: string, b: string, c: string)
    ensures a + ", " + (b + ", " + c) == a + ", " + b + ", " + c
  {
    ConcatAssoc(a + ", ", b, ", " + c);
    ConcatAssoc(a + ", " + b, ", ", c);
  }

  /** `compareFirstTwo` on two or more values: exactly one of `>`, `<` and
    * `==` holds, `!=` is the negation of `==`, and any other relation is an
    * unspecified comparison; fewer than two values is not-enough-arguments
    * whatever the relation. */
  lemma CompareTrichotomy(q: seq<Node>, relation: string, line: int)
    ensures |q| < 2 ==> CompareFirstTwo(q, relation, line) == Failure(Error(NotEnoughArguments, line))
    ensures |q| >= 2 ==>
      var gt := CompareFirstTwo(q, ">", line);
      var lt := CompareFirstTwo(q, "<", line);
      var eq := CompareFirstTwo(q, "==", line);
      var ne := CompareFirstTwo(q, "!=", line);
      && gt.Success? && lt.Success? && eq.Success? && ne.Success?
      && (if gt.value then 1 else 0) + (if lt.value then 1 else 0) + (if eq.value then 1 else 0) == 1
      && ne.value == !eq.value
    ensures |q| >= 2 && relation != ">" && relation != "<" && relation != "==" && relation != "!=" ==>
      CompareFirstTwo(q, relation, line) == Failure(Error(UnspecifiedComparisonOperation, line))
  {
  }

  // ---------------------------------------------------------------------
  // Whole runs
  // ---------------------------------------------------------------------

  /** A step that proceeds or jumps hands the rest of the loop on to the next
    * index or to the one after the jump target. */
  lemma LoopContinues(step: (nat, Machine) -> Step, n: nat, pc: nat, m: Machine, fuel: nat, next: int, m': Machine)
    requires pc < n && fuel > 0
    requires (step(pc, m) == Proceed(m') && next == pc + 1) || step(pc, m) == Jump(next - 1, m')
    ensures Loop(step, n, pc, m, fuel) == Loop(step, n, next, m', fuel - 1)
  {
  }

  /** A step that returns or faults ends the loop with that code or fault. */
  lemma LoopStops(step: (nat, Machine) -> Step, n: nat, pc: nat, m: Machine, fuel: nat)
    requires pc < n && fuel > 0
    requires step(pc, m).Return? || step(pc, m).Fail?
    ensures Loop(step, n, pc, m, fuel) ==
      if step(pc, m).Return? then Exited(step(pc, m).code, step(pc, m).m) else Halted(step(pc, m).fault)
  {
  }

  /** A line that proceeds or jumps hands the rest of the run on to the
    * line after it or after the jump target. */
  lemma ExecContinues(lines: seq<string>, labels: map<string, int>, pc: nat, m: Machine, fuel: nat,
                      rand: Reorder.RandStream, next: int, m': Machine)
    requires pc < |lines| && fuel > 0
    requires (ExecLine(lines, pc, labels, m, rand) == Proceed(m') && next == pc + 1) ||
             ExecLine(lines, pc, labels, m, rand) == Jump(next - 1, m')
    ensures Exec(lines, labels, pc, m, fuel, rand) == Exec(lines, labels, next, m', fuel - 1, rand)
  {
    var step := LineStep(lines, labels, rand);
    assert step(pc, m) == ExecLine(lines, pc, labels, m, rand);
    LoopContinues(step, |lines|, pc, m, fuel, next, m');
  }

  /** A line that returns or faults ends the run with that code or fault. */
  lemma ExecStops(lines: seq<string>, labels: map<string, int>, pc: nat, m: Machine, fuel: nat,
                  rand: Reorder.RandStream)
    requires pc < |lines| && fuel > 0
    requires ExecLine(lines, pc, labels, m, rand).Return? || ExecLine(lines, pc, labels, m, rand).Fail?
    ensures var s := ExecLine(lines, pc, labels, m, rand);
      Exec(lines, labels, pc, m, fuel, rand) == if s.Return? then Exited(s.code, s.m) else Halted(s.fault)
  {
    var step := LineStep(lines, labels, rand);
    assert step(pc, m) == ExecLine(lines, pc, labels, m, rand);
    LoopStops(step, |lines|, pc, m, fuel);
  }

  /** From `pc` on, a program whose remaining lines are all skipped (blank,
    * or label lines starting with a bar) runs off its end and returns 0 with
    * the machine untouched, given one unit of fuel per line. */
  lemma {:induction false} SkippedLinesRunThrough(lines: seq<string>, labels: map<string, int>, pc: nat, m: Machine,
                                                fuel: nat, rand: Reorder.RandStream)
    requires pc <= |lines| && fuel >= |lines| - pc
    requires forall k :: pc <= k < |lines| ==> Skipped(lines[k])
    ensures Exec(lines, labels, pc, m, fuel, rand) == Exited(0, m)
    decreases |lines| - pc
  {
    if pc < |lines| {
      assert ExecLine(lines, pc, labels, m, rand) == Proceed(m);
      ExecContinues(lines, labels, pc, m, fuel, rand, pc + 1, m);
      SkippedLinesRunThrough(lines, labels, pc + 1, m, fuel - 1, rand);
    }
  }

  /** A program with a lone `|` on some line never starts: the run stops at
    * the first such line, before any output. */
  lemma LoneBarStopsRun(lines: seq<string>, input: seq<string>, rand: Reorder.RandStream, fuel: nat, j: nat)
    requires j < |lines| && ClassifyLabel(lines[j]).LoneBar?
    ensures RunProgram(lines, input, rand, fuel).Halted?
    ensures RunProgram(lines, input, rand, fuel).fault.Error?
    ensures RunProgram(lines, input, rand, fuel).fault.kind.SingleBar?
    ensures RunProgram(lines, input, rand, fuel).fault.line <= j
  {
    LabelFailure(Classified(lines), |lines|);
  }
}
