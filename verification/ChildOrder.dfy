/** Putting the node cards into order in place (`renderNodes`, design/assets/app.js). */
module ChildOrder {
  import opened Options

  ghost predicate Distinct(s: seq<nat>) { forall i, j :: 0 <= i < j < |s| ==> s[i] != s[j] }

  function Without(s: seq<nat>, x: nat): seq<nat> {
    if s == [] then [] else if s[0] == x then s[1..] else [s[0]] + Without(s[1..], x)
  }

  function Index(s: seq<nat>, x: nat): (i: nat)
    requires x in s
    ensures i < |s| && s[i] == x
  {
    if s[0] == x then 0 else 1 + Index(s[1..], x)
  }

  /** An element with its children, each a node of its own. */
  class Grid {
    var children: seq<nat>

    /** `insertBefore`: a node that already is a child is moved; no cursor means the end. */
    method InsertBefore(node: nat, cursor: Option<nat>)
      requires Distinct(children) && cursor != Some(node) && (cursor.Some? ==> cursor.value in children)
      modifies this
      ensures Distinct(children)
      ensures var rest := Without(old(children), node);
        if cursor.None? then children == rest + [node]
        else cursor.value in rest && children == rest[..Index(rest, cursor.value)] + [node] + rest[Index(rest, cursor.value)..]
    {
      WithoutFacts(children, node);
      var rest := Without(children, node);
      var at := if cursor.None? then |rest| else Index(rest, cursor.value);
      children := rest[..at] + [node] + rest[at..];
    }

    method RemoveChild(node: nat)
      requires Distinct(children)
      modifies this
      ensures Distinct(children) && children == Without(old(children), node)
    {
      WithoutFacts(children, node);
      children := Without(children, node);
    }

    /** The child after the given one. */
    function NextSibling(node: nat): Option<nat>
      requires node in children
      reads this
    {
      var i := Index(children, node);
      if i + 1 < |children| then Some(children[i + 1]) else None
    }

    function FirstChild(): Option<nat>
      reads this
    {
      if children == [] then None else Some(children[0])
    }

    /** One desired node: the cursor passes it when it is there already, otherwise it is put before the cursor. */
    method PlaceOne(node: nat, cursor: Option<nat>, ghost placed: seq<nat>, ghost rest: seq<nat>) returns (next: Option<nat>, moved: bool)
      requires Distinct(children) && children == placed + rest && cursor == First(rest) && node !in placed
      modifies this
      ensures moved <==> First(rest) != Some(node)
      ensures var after := if moved then Without(rest, node) else rest[1..];
        Distinct(children) && children == placed + [node] + after && next == First(after)
      ensures !moved ==> children == old(children)
    {
      if cursor == Some(node) {
        NextOf(placed, rest);
        next, moved := NextSibling(node), false;
      } else {
        MoveFront(placed, rest, node);
        InsertBefore(node, cursor);
        next, moved := cursor, true;
      }
    }

    /** What is left behind the last desired node goes. */
    method RemoveRest(cursor: Option<nat>, ghost kept: seq<nat>, ghost rest: seq<nat>) returns (removals: nat)
      requires Distinct(children) && children == kept + rest && cursor == First(rest)
      modifies this
      ensures children == kept && removals == |rest|
    {
      removals := 0;
      var current := cursor;
      ghost var left := rest;
      while current.Some?
        invariant Distinct(children) && children == kept + left && current == First(left)
        invariant removals + |left| == |rest|
        decreases |left|
      {
        NextOf(kept, left);
        DropFront(kept, left);
        var next := NextSibling(current.value);
        RemoveChild(current.value);
        left := left[1..];
        current := next;
        removals := removals + 1;
      }
    }

    /** The two loops at the end of `renderNodes`; `moves` counts the insertions and `removals` the removals. */
    method Reorder(desired: seq<nat>) returns (moves: nat, removals: nat)
      requires Distinct(children) && Distinct(desired)
      modifies this
      ensures children == desired
      ensures desired <= old(children) <==> moves == 0
      ensures moves == 0 ==> removals == |old(children)| - |desired|
    {
      hide Without;
      ghost var rest := children;
      moves := 0;
      var cursor := FirstChild();
      var k := 0;
      assert children == desired[..0] + rest;
      while k < |desired|
        invariant k <= |desired| && Distinct(children)
        invariant children == desired[..k] + rest && cursor == First(rest)
        invariant moves == 0 ==> children == old(children)
        invariant desired <= old(children) ==> moves == 0
      {
        ghost var before := children;
        NotPlaced(desired, k);
        var moved;
        cursor, moved := PlaceOne(desired[k], cursor, desired[..k], rest);
        if moved { Misplaced(desired, k, rest, before); }
        rest := if moved then Without(rest, desired[k]) else rest[1..];
        if moved { moves := moves + 1; }
        k := k + 1;
      }
      assert desired[..|desired|] == desired;
      removals := RemoveRest(cursor, desired, rest);
    }
  }

  function First(s: seq<nat>): Option<nat> { if s == [] then None else Some(s[0]) }

  lemma Misplaced(desired: seq<nat>, k: nat, rest: seq<nat>, children: seq<nat>)
    requires k < |desired| && children == desired[..k] + rest && First(rest) != Some(desired[k])
    ensures !(desired <= children)
  {
    if rest != [] { assert children[k] == rest[0]; }
  }

  lemma {:induction false} WithoutFacts(s: seq<nat>, x: nat)
    requires Distinct(s)
    ensures Distinct(Without(s, x))
    ensures forall y :: y in Without(s, x) <==> y in s && y != x
    ensures x !in s ==> Without(s, x) == s
  {
    if s != [] {
      WithoutFacts(s[1..], x);
      assert s == [s[0]] + s[1..];
      if s[0] == x {
      } else {
        var w := Without(s[1..], x);
        forall j | 0 <= j < |w| ensures w[j] != s[0] { assert w[j] in s[1..]; }
      }
    }
  }

  /** A node still to be placed is not among the placed ones. */
  lemma NotPlaced(desired: seq<nat>, k: nat)
    requires Distinct(desired) && k < |desired|
    ensures desired[k] !in desired[..k]
    ensures desired[..k + 1] == desired[..k] + [desired[k]]
  {
  }

  lemma {:induction false} IndexIn(a: seq<nat>, b: seq<nat>)
    requires b != [] && b[0] !in a
    ensures Index(a + b, b[0]) == |a|
  {
    if a == [] {
      assert a + b == b;
    } else {
      assert (a + b)[1..] == a[1..] + b;
      IndexIn(a[1..], b);
    }
  }

  lemma NotInFront(a: seq<nat>, b: seq<nat>)
    requires b != [] && Distinct(a + b)
    ensures b[0] !in a
  {
    forall i | 0 <= i < |a| ensures a[i] != b[0] { assert (a + b)[i] == a[i] && (a + b)[|a|] == b[0]; }
  }

  lemma NextOf(a: seq<nat>, b: seq<nat>)
    requires b != [] && Distinct(a + b)
    ensures b[0] in a + b && Index(a + b, b[0]) == |a|
    ensures |b| > 1 ==> (a + b)[|a| + 1] == b[1]
  {
    NotInFront(a, b);
    IndexIn(a, b);
    assert (a + b)[|a|] == b[0];
  }

  lemma {:induction false} WithoutConcat(a: seq<nat>, b: seq<nat>, x: nat)
    requires x !in a
    ensures Without(a + b, x) == a + Without(b, x)
  {
    if a == [] {
      assert a + b == b;
    } else {
      assert (a + b)[1..] == a[1..] + b;
      WithoutConcat(a[1..], b, x);
    }
  }

  /** Inserting before the cursor puts the node right behind the placed ones. */
  lemma MoveFront(a: seq<nat>, b: seq<nat>, x: nat)
    requires Distinct(a + b) && x !in a && (b != [] ==> b[0] != x)
    ensures Without(a + b, x) == a + Without(b, x)
    ensures b != [] ==> Without(b, x) != [] && Without(b, x)[0] == b[0]
    ensures b != [] ==> b[0] in a + Without(b, x) && Index(a + Without(b, x), b[0]) == |a|
  {
    WithoutConcat(a, b, x);
    if b != [] {
      var w := Without(b, x);
      assert w == [b[0]] + Without(b[1..], x);
      NextOf(a, b);
      NotInFront(a, b);
      IndexIn(a, w);
      assert (a + w)[|a|] == b[0];
    }
  }

  lemma DropFront(a: seq<nat>, b: seq<nat>)
    requires b != [] && Distinct(a + b)
    ensures Without(a + b, b[0]) == a + b[1..]
  {
    NextOf(a, b);
    NotInFront(a, b);
    WithoutConcat(a, b, b[0]);
  }
}
