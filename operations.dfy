/** The arithmetic unit (`OperationHandler`): ten operations that rewrite the
  * program queue in place.  A plain form pops two operands and pushes one
  * result; a "K" form pops the first operand, peeks the second, pushes the
  * result and then rebuilds the queue with the first operand back at the front.
  */
module Operations {
  import opened StdText
  import opened QuErrors
  import opened QuNode

  /** `std::queue<node>`: pushed at the back, popped at the front. */
  class NodeQueue {
    var items: seq<Node>

    constructor ()
      ensures items == []
    {
      items := [];
    }

    function Size(): nat
      reads this
    {
      |items|
    }

    predicate Empty()
      reads this
    {
      items == []
    }

    function Front(): Node
      reads this
      requires items != []
    {
      items[0]
    }

    method Push(x: Node)
      modifies this
      ensures items == old(items) + [x]
    {
      items := items + [x];
    }

    method Pop()
      requires items != []
      modifies this
      ensures items == old(items)[1..]
    {
      items := items[1..];
    }
  }

  // ---------------------------------------------------------------------
  // C++ integer division
  // ---------------------------------------------------------------------

  function Abs(x: int): nat
  {
    if x < 0 then -x else x
  }

  /** C++ `a / b`: the quotient truncated toward zero. */
  function TruncDiv(a: int, b: int): int
    requires b != 0
  {
    var q := Abs(a) / Abs(b);
    if (a < 0) == (b < 0) then q else -q
  }

  /** C++ `a % b`: the remainder that goes with `TruncDiv`. */
  function TruncMod(a: int, b: int): int
    requires b != 0
  {
    a - b * TruncDiv(a, b)
  }

  /** Quotient and remainder rebuild the dividend, the remainder is smaller
    * than the divisor and carries the dividend's sign, and the quotient never
    * moves away from zero. */
  lemma TruncDivMod(a: int, b: int)
    requires b != 0
    ensures b * TruncDiv(a, b) + TruncMod(a, b) == a
    ensures Abs(TruncMod(a, b)) < Abs(b)
    ensures a >= 0 ==> TruncMod(a, b) >= 0
    ensures a < 0 ==> TruncMod(a, b) <= 0
    ensures Abs(b * TruncDiv(a, b)) <= Abs(a)
  {
    var bq, r := NatDivMod(Abs(a), Abs(b));
    TruncProduct(a, b);
    if a >= 0 {
      assert b * TruncDiv(a, b) == bq;
      assert TruncMod(a, b) == r;
    } else {
      assert b * TruncDiv(a, b) == -(bq as int);
      assert TruncMod(a, b) == -(r as int);
    }
  }

  /** Euclid's division on naturals, with the multiple of `y` named. */
  lemma NatDivMod(x: nat, y: nat) returns (yq: nat, r: nat)
    requires y > 0
    ensures yq == y * (x / y) && r == x % y
    ensures x == yq + r && r < y
  {
    yq, r := y * (x / y), x % y;
  }

  /** `b * TruncDiv(a, b)` is the largest multiple of `|b|` not above `|a|`,
    * with the sign of `a`; one case per pair of operand signs. */
  lemma TruncProduct(a: int, b: int)
    requires b != 0
    ensures var bq := Abs(b) * (Abs(a) / Abs(b));
      b * TruncDiv(a, b) == if a >= 0 then bq else -bq
  {
    var q := Abs(a) / Abs(b);
    if a >= 0 && b > 0 {
      assert TruncDiv(a, b) == q && b == Abs(b);
    } else if a >= 0 {
      assert TruncDiv(a, b) == -q && Abs(b) == -b;
      assert b * -q == Abs(b) * q;
    } else if b > 0 {
      assert TruncDiv(a, b) == -q && b == Abs(b);
      assert b * -q == -(Abs(b) * q);
    } else {
      assert TruncDiv(a, b) == q && Abs(b) == -b;
      assert b * q == -(Abs(b) * q);
    }
  }

  // ---------------------------------------------------------------------
  // What each operation computes from its two operands
  // ---------------------------------------------------------------------

  datatype Op = Add | Sub | Mul | Div | Mod

  predicate BothInts(a: Node, b: Node)
  {
    ContainsInt(a) && ContainsInt(b)
  }

  /** The result an operation pushes for operands `a` (front) and `b` (second),
    * or the error it raises on the line with index `line`. */
  function Apply(op: Op, a: Node, b: Node, line: int): (r: Result<Node>)
    ensures op == Add ==> r.Success?
    ensures r.Success? ==> (ContainsInt(r.value) <==> BothInts(a, b))
    ensures r.Failure? ==> r.fault == Error(if BothInts(a, b) then DivisionByZero else OperationMismatch, line)
    ensures r.Failure? && BothInts(a, b) ==> (op == Div || op == Mod) && GetInt(b) == 0
  {
    match op
    case Add =>
      if BothInts(a, b) then Success(IntNode(GetInt(a) + GetInt(b)))
      else Success(StringNode(GetString(a) + GetString(b)))
    case Sub =>
      if BothInts(a, b) then Success(IntNode(GetInt(a) - GetInt(b)))
      else Failure(Error(OperationMismatch, line))
    case Mul =>
      if BothInts(a, b) then Success(IntNode(GetInt(a) * GetInt(b)))
      else Failure(Error(OperationMismatch, line))
    case Div =>
      if !BothInts(a, b) then Failure(Error(OperationMismatch, line))
      else if GetInt(b) == 0 then Failure(Error(DivisionByZero, line))
      else Success(IntNode(TruncDiv(GetInt(a), GetInt(b))))
    case Mod =>
      if !BothInts(a, b) then Failure(Error(OperationMismatch, line))
      else if GetInt(b) == 0 then Failure(Error(DivisionByZero, line))
      else Success(IntNode(TruncMod(GetInt(a), GetInt(b))))
  }

  /** The queue after a plain operation: `[a, b] + rest` becomes `rest + [r]`. */
  function Plain(op: Op, q: seq<Node>, line: int): (r: Result<seq<Node>>)
    ensures |q| < 2 ==> r == Failure(Error(NotEnoughArguments, line))
    ensures r.Success? ==> |r.value| == |q| - 1 && r.value[..|q| - 2] == q[2..]
  {
    if |q| < 2 then Failure(Error(NotEnoughArguments, line))
    else
      var r :- Apply(op, q[0], q[1], line);
      Success(q[2..] + [r])
  }

  /** The queue after a "K" operation: `[a, b] + rest` becomes `[a, b] + rest + [r]`. */
  function Keep(op: Op, q: seq<Node>, line: int): (r: Result<seq<Node>>)
    ensures |q| < 2 ==> r == Failure(Error(NotEnoughArguments, line))
    ensures r.Success? ==> |r.value| == |q| + 1 && r.value[..|q|] == q
  {
    if |q| < 2 then Failure(Error(NotEnoughArguments, line))
    else
      var r :- Apply(op, q[0], q[1], line);
      Success(q + [r])
  }

  function StatusOf<T>(r: Result<T>): Status
  {
    if r.Success? then Ok else Abort(r.fault)
  }

  // ---------------------------------------------------------------------
  // The operations, in place
  // ---------------------------------------------------------------------

  /** The body shared by `quAdd`, `quSub`, `quMul`, `quDiv` and `quMod`. */
  method Binary(q: NodeQueue, op: Op, line: int) returns (st: Status)
    modifies q
    ensures st == StatusOf(Plain(op, old(q.items), line))
    ensures st.Ok? ==> q.items == Plain(op, old(q.items), line).value
  {
    if q.Size() < 2 {
      return Abort(Error(NotEnoughArguments, line));
    }
    var first := q.Front();
    q.Pop();
    var second := q.Front();
    q.Pop();
    var r := Apply(op, first, second, line);
    if r.Failure? {
      return Abort(r.fault);
    }
    q.Push(r.value);
    st := Ok;
  }

  /** The body shared by the five "K" operations: the result is pushed, then
    * the queue is drained into a new queue that starts with the first operand. */
  method BinaryKeep(q: NodeQueue, op: Op, line: int) returns (st: Status)
    modifies q
    ensures st == StatusOf(Keep(op, old(q.items), line))
    ensures st.Ok? ==> q.items == Keep(op, old(q.items), line).value
  {
    if q.Size() < 2 {
      return Abort(Error(NotEnoughArguments, line));
    }
    var first := q.Front();
    q.Pop();
    var second := q.Front();
    var r := Apply(op, first, second, line);
    if r.Failure? {
      return Abort(r.fault);
    }
    q.Push(r.value);
    var newQueue := new NodeQueue();
    newQueue.Push(first);
    while !q.Empty()
      invariant fresh(newQueue)
      invariant newQueue.items + q.items == old(q.items) + [r.value]
      decreases |q.items|
    {
      newQueue.Push(q.Front());
      q.Pop();
    }
    q.items := newQueue.items;
    st := Ok;
  }

  method QuAdd(q: NodeQueue, line: int) returns (st: Status)
    modifies q
    ensures st == StatusOf(Plain(Add, old(q.items), line))
    ensures st.Ok? ==> q.items == Plain(Add, old(q.items), line).value
  {
    st := Binary(q, Add, line);
  }

  method QuAddK(q: NodeQueue, line: int) returns (st: Status)
    modifies q
    ensures st == StatusOf(Keep(Add, old(q.items), line))
    ensures st.Ok? ==> q.items == Keep(Add, old(q.items), line).value
  {
    st := BinaryKeep(q, Add, line);
  }

  method QuSub(q: NodeQueue, line: int) returns (st: Status)
    modifies q
    ensures st == StatusOf(Plain(Sub, old(q.items), line))
    ensures st.Ok? ==> q.items == Plain(Sub, old(q.items), line).value
  {
    st := Binary(q, Sub, line);
  }

  method QuSubK(q: NodeQueue, line: int) returns (st: Status)
    modifies q
    ensures st == StatusOf(Keep(Sub, old(q.items), line))
    ensures st.Ok? ==> q.items == Keep(Sub, old(q.items), line).value
  {
    st := BinaryKeep(q, Sub, line);
  }

  method QuMul(q: NodeQueue, line: int) returns (st: Status)
    modifies q
    ensures st == StatusOf(Plain(Mul, old(q.items), line))
    ensures st.Ok? ==> q.items == Plain(Mul, old(q.items), line).value
  {
    st := Binary(q, Mul, line);
  }

  method QuMulK(q: NodeQueue, line: int) returns (st: Status)
    modifies q
    ensures st == StatusOf(Keep(Mul, old(q.items), line))
    ensures st.Ok? ==> q.items == Keep(Mul, old(q.items), line).value
  {
    st := BinaryKeep(q, Mul, line);
  }

  method QuDiv(q: NodeQueue, line: int) returns (st: Status)
    modifies q
    ensures st == StatusOf(Plain(Div, old(q.items), line))
    ensures st.Ok? ==> q.items == Plain(Div, old(q.items), line).value
  {
    st := Binary(q, Div, line);
  }

  method QuDivK(q: NodeQueue, line: int) returns (st: Status)
    modifies q
    ensures st == StatusOf(Keep(Div, old(q.items), line))
    ensures st.Ok? ==> q.items == Keep(Div, old(q.items), line).value
  {
    st := BinaryKeep(q, Div, line);
  }

  method QuMod(q: NodeQueue, line: int) returns (st: Status)
    modifies q
    ensures st == StatusOf(Plain(Mod, old(q.items), line))
    ensures st.Ok? ==> q.items == Plain(Mod, old(q.items), line).value
  {
    st := Binary(q, Mod, line);
  }

  method QuModK(q: NodeQueue, line: int) returns (st: Status)
    modifies q
    ensures st == StatusOf(Keep(Mod, old(q.items), line))
    ensures st.Ok? ==> q.items == Keep(Mod, old(q.items), line).value
  {
    st := BinaryKeep(q, Mod, line);
  }

  // ---------------------------------------------------------------------
  // Properties
  // ---------------------------------------------------------------------

  /** Fewer than two elements is always not-enough-arguments, for every
    * operation in both forms. */
  lemma TooFewOperands(op: Op, q: seq<Node>, line: int)
    ensures |q| < 2 <==> Plain(op, q, line) == Failure(Error(NotEnoughArguments, line))
    ensures |q| < 2 <==> Keep(op, q, line) == Failure(Error(NotEnoughArguments, line))
  {
    if |q| >= 2 {
      var r := Apply(op, q[0], q[1], line);
      assert r.Failure? ==> r.fault.kind != NotEnoughArguments;
    }
  }

  /** A plain operation that succeeds drops the two operands, keeps the rest
    * in order, and appends the result: one element shorter. */
  lemma PlainShape(op: Op, q: seq<Node>, line: int)
    requires Plain(op, q, line).Success?
    ensures var p := Plain(op, q, line).value;
      && |q| >= 2
      && |p| == |q| - 1
      && p[..|p| - 1] == q[2..]
      && Apply(op, q[0], q[1], line) == Success(p[|p| - 1])
  {
  }

  /** A "K" operation that succeeds pushes exactly what the plain form pushes,
    * and leaves the first operand in front and the second behind it: one
    * element longer than before. */
  lemma KeepExtendsPlain(op: Op, q: seq<Node>, line: int)
    ensures Keep(op, q, line).Success? <==> Plain(op, q, line).Success?
    ensures Keep(op, q, line).Failure? ==> Keep(op, q, line) == Plain(op, q, line)
    ensures Keep(op, q, line).Success? ==>
      var k := Keep(op, q, line).value;
      && k == q[..2] + Plain(op, q, line).value
      && |k| == |q| + 1
      && k[0] == q[0] && k[1] == q[1]
      && k[..|q|] == q
  {
    if |q| >= 2 && Apply(op, q[0], q[1], line).Success? {
      var r := Apply(op, q[0], q[1], line).value;
      assert q == q[..2] + q[2..];
      assert q + [r] == q[..2] + (q[2..] + [r]);
    }
  }

  /** ADD of two ints is their sum, and of anything else is the concatenation
    * of the two string fields, so an int operand contributes "". */
  lemma AddSemantics(a: Node, b: Node, line: int)
    ensures BothInts(a, b) ==> Apply(Add, a, b, line) == Success(IntNode(GetInt(a) + GetInt(b)))
    ensures !BothInts(a, b) ==> Apply(Add, a, b, line) == Success(StringNode(GetString(a) + GetString(b)))
    ensures ContainsInt(a) && ContainsString(b) && a == IntNode(GetInt(a)) ==>
      Apply(Add, a, b, line).value == StringNode(GetString(b))
  {
  }

  /** ADD commutes on two ints; on a string and an int it is not the sum. */
  lemma AddCommutesOnInts(a: Node, b: Node, line: int)
    requires BothInts(a, b)
    ensures Apply(Add, a, b, line) == Apply(Add, b, a, line)
  {
  }

  /** SUB, MUL, DIV and MOD refuse any operand that is not an int. */
  lemma MismatchOnNonInts(op: Op, a: Node, b: Node, line: int)
    requires op != Add
    ensures !BothInts(a, b) <==> Apply(op, a, b, line) == Failure(Error(OperationMismatch, line))
  {
  }

  /** DIV and MOD with an int divisor of zero raise division-by-zero and push
    * nothing; with a non-zero divisor they push the truncated quotient or
    * the remainder. */
  lemma DivisionByZeroIsCaught(op: Op, a: Node, b: Node, line: int)
    requires op == Div || op == Mod
    requires BothInts(a, b)
    ensures GetInt(b) == 0 <==> Apply(op, a, b, line) == Failure(Error(DivisionByZero, line))
    ensures GetInt(b) != 0 ==> Apply(op, a, b, line).Success?
    ensures GetInt(b) != 0 ==>
      var v := GetInt(Apply(op, a, b, line).value);
      if op == Div then v == TruncDiv(GetInt(a), GetInt(b)) else v == TruncMod(GetInt(a), GetInt(b))
  {
  }

  /** SUB and MUL use the front element as the left operand. */
  lemma SubMulOrder(a: Node, b: Node, line: int)
    requires BothInts(a, b)
    ensures Apply(Sub, a, b, line) == Success(IntNode(GetInt(a) - GetInt(b)))
    ensures Apply(Mul, a, b, line) == Success(IntNode(GetInt(a) * GetInt(b)))
  {
  }
}
