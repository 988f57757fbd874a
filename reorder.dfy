/** The whole-queue reorderings: SORTUP and SORTDOWN (the comparator handed to
  * `std::sort`) and POKE (a Fisher-Yates shuffle driven by `rand()`).
  */
module Reorder {
  import opened QuNode

  datatype Direction = Up | Down

  /** `std::string`'s `operator<`: lexicographic, a proper prefix first. */
  predicate LexLess(a: string, b: string)
  {
    if a == [] then b != []
    else if b == [] then false
    else if a[0] != b[0] then a[0] < b[0]
    else LexLess(a[1..], b[1..])
  }

  lemma {:induction false} LexLessIrreflexive(a: string)
    ensures !LexLess(a, a)
  {
    if a != [] { LexLessIrreflexive(a[1..]); }
  }

  lemma {:induction false} LexLessTransitive(a: string, b: string, c: string)
    requires LexLess(a, b) && LexLess(b, c)
    ensures LexLess(a, c)
  {
    if a != [] && b != [] && c != [] && a[0] == b[0] && b[0] == c[0] {
      LexLessTransitive(a[1..], b[1..], c[1..]);
    }
  }

  lemma {:induction false} LexLessTotal(a: string, b: string)
    ensures a == b || LexLess(a, b) || LexLess(b, a)
  {
    if a != [] && b != [] && a[0] == b[0] {
      LexLessTotal(a[1..], b[1..]);
      if a[1..] == b[1..] { assert a == [a[0]] + a[1..] && b == [b[0]] + b[1..]; }
    }
  }

  /** The comparator of SORTUP (`Up`) and SORTDOWN (`Down`): two ints by value,
    * two strings lexicographically, and an int before a string in both
    * directions. */
  predicate Before(a: Node, b: Node, dir: Direction)
  {
    if ContainsInt(a) && ContainsInt(b) then
      if dir == Up then GetInt(a) < GetInt(b) else GetInt(a) > GetInt(b)
    else if ContainsString(a) && ContainsString(b) then
      if dir == Up then LexLess(GetString(a), GetString(b)) else LexLess(GetString(b), GetString(a))
    else ContainsInt(a)
  }

  lemma BeforeAsymmetric(a: Node, b: Node, dir: Direction)
    ensures !(Before(a, b, dir) && Before(b, a, dir))
  {
    if ContainsString(a) && ContainsString(b) && Before(a, b, dir) && Before(b, a, dir) {
      LexLessTransitive(GetString(a), GetString(b), GetString(a));
      LexLessIrreflexive(GetString(a));
    }
  }

  lemma BeforeTransitive(a: Node, b: Node, c: Node, dir: Direction)
    requires Before(a, b, dir) && Before(b, c, dir)
    ensures Before(a, c, dir)
  {
    if ContainsString(a) && ContainsString(b) && ContainsString(c) {
      if dir == Up {
        LexLessTransitive(GetString(a), GetString(b), GetString(c));
      } else {
        LexLessTransitive(GetString(c), GetString(b), GetString(a));
      }
    }
  }

  /** No element is strictly before an element that precedes it. */
  predicate SortedBy(s: seq<Node>, dir: Direction)
  {
    forall i, j :: 0 <= i < j < |s| ==> !Before(s[j], s[i], dir)
  }

  /** Places `x` in front of the first element it comes strictly before. */
  function Insert(x: Node, s: seq<Node>, dir: Direction): seq<Node>
  {
    if s == [] then [x]
    else if Before(x, s[0], dir) then [x] + s
    else [s[0]] + Insert(x, s[1..], dir)
  }

  /** No element of `t` comes strictly before `h`. */
  predicate NoneBefore(h: Node, t: seq<Node>, dir: Direction)
  {
    forall k :: 0 <= k < |t| ==> !Before(t[k], h, dir)
  }

  lemma ConsSorted(h: Node, t: seq<Node>, dir: Direction)
    requires NoneBefore(h, t, dir) && SortedBy(t, dir)
    ensures SortedBy([h] + t, dir)
  {
    var r := [h] + t;
    forall i, j | 0 <= i < j < |r| ensures !Before(r[j], r[i], dir) {
      if i > 0 { assert r[i] == t[i - 1] && r[j] == t[j - 1]; }
    }
  }

  lemma {:induction false} InsertPermutes(x: Node, s: seq<Node>, dir: Direction)
    ensures multiset(Insert(x, s, dir)) == multiset(s) + multiset{x}
  {
    if s != [] && !Before(x, s[0], dir) {
      InsertPermutes(x, s[1..], dir);
      assert s == [s[0]] + s[1..];
    }
  }

  lemma {:induction false} InsertKeepsNoneBefore(h: Node, x: Node, t: seq<Node>, dir: Direction)
    requires NoneBefore(h, t, dir) && !Before(x, h, dir)
    ensures NoneBefore(h, Insert(x, t, dir), dir)
  {
    if t != [] && !Before(x, t[0], dir) {
      InsertKeepsNoneBefore(h, x, t[1..], dir);
    }
  }

  lemma {:induction false} InsertSorted(x: Node, s: seq<Node>, dir: Direction)
    requires SortedBy(s, dir)
    ensures SortedBy(Insert(x, s, dir), dir)
  {
    if s == [] {
    } else if Before(x, s[0], dir) {
      forall k | 0 <= k < |s| ensures !Before(s[k], x, dir) {
        BeforeAsymmetric(x, s[0], dir);
        if k > 0 && Before(s[k], x, dir) {
          BeforeTransitive(s[k], x, s[0], dir);
        }
      }
      ConsSorted(x, s, dir);
    } else {
      InsertSorted(x, s[1..], dir);
      forall k | 0 <= k < |s[1..]| ensures !Before(s[1..][k], s[0], dir) {
        assert s[1..][k] == s[k + 1];
      }
      InsertKeepsNoneBefore(s[0], x, s[1..], dir);
      ConsSorted(s[0], Insert(x, s[1..], dir), dir);
    }
  }

  /** The sorted queue: a permutation of the input, ordered by `Before`. */
  function SortNodes(s: seq<Node>, dir: Direction): (r: seq<Node>)
    ensures multiset(r) == multiset(s)
    ensures SortedBy(r, dir)
  {
    if s == [] then []
    else
      var t := SortNodes(s[1..], dir);
      InsertPermutes(s[0], t, dir);
      InsertSorted(s[0], t, dir);
      assert s == [s[0]] + s[1..];
      Insert(s[0], t, dir)
  }

  /** What SORTUP and SORTDOWN leave in the queue: the same elements, every int
    * ahead of every string, the ints ascending (Up) or descending (Down) and
    * the strings lexicographically ascending or descending likewise. */
  lemma SortOrder(s: seq<Node>, dir: Direction)
    ensures var r := SortNodes(s, dir);
      && multiset(r) == multiset(s) && |r| == |s|
      && (forall i, j :: 0 <= i < j < |r| && ContainsInt(r[j]) ==> ContainsInt(r[i]))
      && (forall i, j :: 0 <= i < j < |r| && ContainsInt(r[i]) && ContainsInt(r[j]) ==>
            if dir == Up then GetInt(r[i]) <= GetInt(r[j]) else GetInt(r[i]) >= GetInt(r[j]))
      && (forall i, j :: 0 <= i < j < |r| && ContainsString(r[i]) && ContainsString(r[j]) ==>
            if dir == Up then !LexLess(GetString(r[j]), GetString(r[i]))
            else !LexLess(GetString(r[i]), GetString(r[j])))
  {
    var r := SortNodes(s, dir);
    assert |r| == |multiset(r)| == |multiset(s)| == |s|;
  }

  // ---------------------------------------------------------------------
  // POKE
  // ---------------------------------------------------------------------

  /** `std::swap` of the cells `i` and `j`. */
  function Swap(s: seq<Node>, i: nat, j: nat): (r: seq<Node>)
    requires i < |s| && j < |s|
    ensures |r| == |s| && r[i] == s[j] && r[j] == s[i]
    ensures forall k :: 0 <= k < |s| && k != i && k != j ==> r[k] == s[k]
  {
    s[i := s[j]][j := s[i]]
  }

  lemma SwapPermutes(s: seq<Node>, i: nat, j: nat)
    requires i < |s| && j < |s|
    ensures multiset(Swap(s, i, j)) == multiset(s)
  {
  }

  /** `rand()` after seeding: `rand(p, k)` is the `k`-th value drawn after the
    * `p`-th POKE seeded the generator from the clock. */
  type RandStream = (nat, nat) -> nat

  /** Fisher-Yates from index `i` down to 1, as POKE number `p` runs it:
    * position `i` swaps with position `rand(p, k) % (i + 1)`, where `k`
    * counts the draws made so far. */
  function ShuffleFrom(s: seq<Node>, i: nat, rand: RandStream, p: nat, k: nat): (r: seq<Node>)
    requires i < |s|
    ensures |r| == |s|
    ensures multiset(r) == multiset(s)
    decreases i
  {
    if i == 0 then s
    else
      var j := rand(p, k) % (i + 1);
      SwapPermutes(s, i, j);
      ShuffleFrom(Swap(s, i, j), i - 1, rand, p, k + 1)
  }

  /** The queue after POKE number `p`, for a non-empty queue: a permutation. */
  function Shuffle(s: seq<Node>, rand: RandStream, p: nat): (r: seq<Node>)
    requires s != []
    ensures multiset(r) == multiset(s)
  {
    ShuffleFrom(s, |s| - 1, rand, p, 0)
  }
}
