/** How the dispatcher reads some lines: every keyword check runs on its own,
  * so a line can trigger several of them, and DIV and DIVK call the
  * subtraction routines. */
module Scenarios {
  import opened StdText
  import opened QuErrors
  import opened QuNode
  import opened Operations
  import opened Semantics

  /** A keyword is absent from a line that lacks one of its characters. */
  lemma Absent(s: string, pat: string, j: nat)
    requires j < |pat| && forall k :: 0 <= k < |s| ==> s[k] != pat[j]
    ensures !Contains(s, pat)
  {
    forall k | 0 <= k ensures !OccursAt(s, pat, k) {
      if k + |pat| <= |s| {
        assert s[k..k + |pat|][j] == s[k + j];
      }
    }
  }

  /** A line contains its own prefixes. */
  lemma HasPrefix(s: string, p: string)
    requires |p| <= |s| && s[..|p|] == p
    ensures Contains(s, p)
  {
    assert s[0..|p|] == p;
    assert OccursAt(s, p, 0);
  }

  /** A `DIV` line subtracts: `[a, b] + rest` becomes `rest + [a - b]`. */
  lemma DivSubtracts(i: int, m: Machine)
    requires |m.queue| >= 2 && ContainsInt(m.queue[0]) && ContainsInt(m.queue[1])
    ensures FrontArithmetic("DIV", i, m) ==
      Proceed(m.(queue := m.queue[2..] + [IntNode(GetInt(m.queue[0]) - GetInt(m.queue[1]))]))
  {
    Absent("DIV", "ADD", 0);
    Absent("DIV", "ADDK", 0);
    HasPrefix("DIV", "DIV");
  }

  /** A `DIVK` line runs the subtraction twice: first the plain form, which
    * consumes the two front values, then the "K" form on what is left. */
  lemma DivKSubtractsTwice(i: int, m: Machine, q1: seq<Node>)
    requires Plain(Sub, m.queue, i) == Success(q1)
    ensures FrontArithmetic("DIVK", i, m) ==
      match Keep(Sub, q1, i)
      case Success(q2) => Proceed(m.(queue := q2))
      case Failure(f) => Fail(f)
  {
    Absent("DIVK", "ADD", 0);
    Absent("DIVK", "ADDK", 0);
    HasPrefix("DIVK", "DIV");
    HasPrefix("DIVK", "DIVK");
  }

  /** An `ADDK` line on exactly two values fails: its plain ADD consumes both
    * and leaves the "K" form too few operands. */
  lemma AddKOnTwoValuesFails(i: int, m: Machine)
    requires |m.queue| == 2
    ensures FrontArithmetic("ADDK", i, m) == Fail(Error(NotEnoughArguments, i))
  {
    HasPrefix("ADDK", "ADD");
    HasPrefix("ADDK", "ADDK");
  }
}
