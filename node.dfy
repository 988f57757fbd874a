/** The interpreter's value cell (`node`): a tag plus an int field and a string
  * field.  Each constructor fills the field it does not use with a default,
  * and the accessors return the stored field whatever the tag says.
  */
module QuNode {
  import opened StdText

  datatype Node = Node(intVal: int, stringVal: string, isInt: bool)

  /** `node(int)`. */
  function IntNode(v: int): (n: Node)
    ensures ContainsInt(n) && GetInt(n) == v && GetString(n) == ""
  {
    Node(v, "", true)
  }

  /** `node(string)`. */
  function StringNode(s: string): (n: Node)
    ensures ContainsString(n) && GetString(n) == s && GetInt(n) == 0
  {
    Node(0, s, false)
  }

  /** `node()`. */
  function DefaultNode(): (n: Node)
    ensures n == IntNode(0)
  {
    Node(0, "", true)
  }

  predicate ContainsInt(n: Node)
  {
    n.isInt
  }

  predicate ContainsString(n: Node)
  {
    !n.isInt
  }

  function GetInt(n: Node): int
  {
    n.intVal
  }

  function GetString(n: Node): string
  {
    n.stringVal
  }

  /** `getIntAsString`: the decimal text of the int field. */
  function GetIntAsString(n: Node): (s: string)
    ensures InIntRange(GetInt(n)) ==> Stoi(s) == Parsed(GetInt(n))
  {
    if InIntRange(n.intVal) then StoiOfIntToString(n.intVal); IntToString(n.intVal)
    else IntToString(n.intVal)
  }

  /** `setInt`, as a functional update. */
  function SetInt(n: Node, v: int): (m: Node)
    ensures GetInt(m) == v && GetString(m) == GetString(n) && ContainsInt(m) == ContainsInt(n)
  {
    n.(intVal := v)
  }

  /** `setString`, as a functional update. */
  function SetString(n: Node, s: string): (m: Node)
    ensures GetString(m) == s && GetInt(m) == GetInt(n) && ContainsInt(m) == ContainsInt(n)
  {
    n.(stringVal := s)
  }

  /** What `p_print` writes: the int for an int node, which `stoi` reads
    * back, else the string. */
  function Render(n: Node): (s: string)
    ensures ContainsInt(n) && InIntRange(GetInt(n)) ==> Stoi(s) == Parsed(GetInt(n))
    ensures ContainsString(n) ==> s == GetString(n)
  {
    if ContainsInt(n) then GetIntAsString(n) else GetString(n)
  }

  /** What `p_println` writes: the same text, then one newline. */
  function RenderLn(n: Node): (s: string)
    ensures |s| > 0 && s[|s| - 1] == '\n' && s[..|s| - 1] == Render(n)
  {
    Render(n) + "\n"
  }

  const DisplayHead: string := "{\n\t\"nodeType\": "

  /** `createNodeDisplay`: a pseudo-JSON rendering of the node. */
  function CreateNodeDisplay(n: Node): (d: string)
    ensures |d| > |DisplayHead| + 1 && d[..|DisplayHead|] == DisplayHead && d[0] == '{' && d[|d| - 1] == '}'
  {
    DisplayHead +
    (if ContainsInt(n) then "\"int\",\n\t\"nodeValue\": " + IntToString(GetInt(n)) + "\n"
     else "\"string\",\n\t\"nodeValue\": \"" + GetString(n) + "\"\n") +
    "}"
  }

  // ---------------------------------------------------------------------
  // Properties
  // ---------------------------------------------------------------------

  /** The two tag queries always disagree. */
  lemma ContainsStringIsNotInt(n: Node)
    ensures ContainsString(n) <==> !ContainsInt(n)
  {
  }

  /** The accessors do not look at the tag: a string node reads as int 0 and
    * an int node reads as the empty string. */
  lemma AccessorsIgnoreTag(v: int, s: string)
    ensures GetInt(StringNode(s)) == 0 && GetString(IntNode(v)) == ""
    ensures Render(IntNode(v)) == IntToString(v) && Render(StringNode(s)) == s
  {
  }

  /** A body framed by `DisplayHead` and `}`: where its prefixes and suffixes
    * sit in the whole display. */
  lemma Framed(body: string, m: nat, t: nat)
    requires m <= |body| && t <= |body|
    ensures var d := DisplayHead + body + "}";
      && |d| == |DisplayHead| + |body| + 1
      && d[0] == '{' && d[|d| - 1] == '}'
      && d[..|DisplayHead|] == DisplayHead
      && d[|DisplayHead|..|DisplayHead| + m] == body[..m]
      && d[|d| - 1 - t..] == body[|body| - t..] + "}"
  {
    var d := DisplayHead + body + "}";
    var h := |DisplayHead|;
    assert d[h..h + m] == body[..m] by {
      forall k | 0 <= k < m ensures d[h..h + m][k] == body[..m][k] {
        assert d[h + k] == body[k];
      }
    }
    var tail, want := d[|d| - 1 - t..], body[|body| - t..] + "}";
    assert tail == want by {
      forall k | 0 <= k < t + 1 ensures tail[k] == want[k] {
        if k < t { assert d[|d| - 1 - t + k] == body[|body| - t + k]; }
      }
    }
  }

  /** The display opens with `{`, closes with `}`, names `"int"` exactly for
    * an int node, and otherwise names `"string"` and quotes the value. */
  lemma DisplayShape(n: Node)
    ensures var d := CreateNodeDisplay(n);
      && |d| > |DisplayHead| + 8
      && d[0] == '{' && d[|d| - 1] == '}'
      && d[..|DisplayHead|] == DisplayHead
      && (ContainsInt(n) <==> d[|DisplayHead|..|DisplayHead| + 5] == "\"int\"")
      && (ContainsString(n) <==> d[|DisplayHead|..|DisplayHead| + 8] == "\"string\"")
      && (ContainsString(n) ==> d[|d| - |GetString(n)| - 4..] == "\"" + GetString(n) + "\"\n}")
  {
    var d, h := CreateNodeDisplay(n), |DisplayHead|;
    if ContainsInt(n) {
      IntDisplayShape(n);
      assert d[h..h + 8][1] == 'i';
    } else {
      StringDisplayShape(n);
      assert d[h..h + 5][1] == 's';
    }
  }

  /** The display of an int node: `"int"` right after the head. */
  lemma IntDisplayShape(n: Node)
    requires ContainsInt(n)
    ensures var d := CreateNodeDisplay(n);
      |d| > |DisplayHead| + 8 && d[|DisplayHead|..|DisplayHead| + 5] == "\"int\""
  {
    var body := "\"int\",\n\t\"nodeValue\": " + IntToString(GetInt(n)) + "\n";
    Framed(body, 5, 0);
    assert body[..5] == "\"int\"";
  }

  /** The display of a string node: `"string"` right after the head, and the
    * quoted value on the last line. */
  lemma StringDisplayShape(n: Node)
    requires ContainsString(n)
    ensures var d := CreateNodeDisplay(n);
      && |d| > |DisplayHead| + 8
      && d[|DisplayHead|..|DisplayHead| + 8] == "\"string\""
      && d[|d| - |GetString(n)| - 4..] == "\"" + GetString(n) + "\"\n}"
  {
    var g := GetString(n);
    var body := "\"string\",\n\t\"nodeValue\": \"" + g + "\"\n";
    Framed(body, 8, |g| + 3);
    assert body[..8] == "\"string\"";
    assert body[|body| - (|g| + 3)..] == "\"" + g + "\"\n";
  }
}
