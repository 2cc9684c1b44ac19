// The binary search tree both tree-based stress programs build, as a value: the rule by which
// a value descends (smaller to the left, equal or greater to the right), the search that
// follows the same rule, and the node count. The heap-allocated trees of HttpTree and
// IterativeTree are proved to denote these values.
module SearchTree {
  datatype Tree = Leaf | Node(left: Tree, value: int, right: Tree)

  /** The values stored, with their multiplicities. */
  function Elements(t: Tree): multiset<int>
  {
    match t
    case Leaf => multiset{}
    case Node(l, x, r) => Elements(l) + multiset{x} + Elements(r)
  }

  /** Every value stored in `t` is smaller than `x`. */
  predicate Below(t: Tree, x: int)
  {
    match t
    case Leaf => true
    case Node(l, y, r) => y < x && Below(l, x) && Below(r, x)
  }

  /** Every value stored in `t` is equal to or greater than `x`. */
  predicate AtLeast(t: Tree, x: int)
  {
    match t
    case Leaf => true
    case Node(l, y, r) => x <= y && AtLeast(l, x) && AtLeast(r, x)
  }

  /** Every value in a left subtree is smaller than its node's value; every value in a right
      subtree is equal or greater. */
  predicate Ordered(t: Tree)
  {
    match t
    case Leaf => true
    case Node(l, x, r) => Ordered(l) && Ordered(r) && Below(l, x) && AtLeast(r, x)
  }

  /** `Below` and `AtLeast` speak about exactly the stored values. */
  lemma {:induction false} BoundsMeanElements(t: Tree, x: int)
    ensures Below(t, x) <==> (forall y :: y in Elements(t) ==> y < x)
    ensures AtLeast(t, x) <==> (forall y :: y in Elements(t) ==> x <= y)
  {
    match t
    case Leaf =>
    case Node(l, y, r) =>
      BoundsMeanElements(l, x);
      BoundsMeanElements(r, x);
      assert forall z :: z in Elements(t) <==> z in Elements(l) || z == y || z in Elements(r);
  }

  /** The number of nodes: one per node, so it also counts repeated values. */
  function Size(t: Tree): nat
  {
    match t
    case Leaf => 0
    case Node(l, _, r) => Size(l) + 1 + Size(r)
  }

  /** The tree after `v` is attached as a new leaf: a smaller value descends left, an equal
      or greater one right. */
  function Inserted(t: Tree, v: int): Tree
  {
    match t
    case Leaf => Node(Leaf, v, Leaf)
    case Node(l, x, r) => if v < x then Node(Inserted(l, v), x, r) else Node(l, x, Inserted(r, v))
  }

  /** The search walk: stop at an equal value, otherwise descend by comparison. */
  function Found(t: Tree, v: int): bool
  {
    match t
    case Leaf => false
    case Node(l, x, r) => if v == x then true else if v < x then Found(l, v) else Found(r, v)
  }

  /** An insert adds exactly the one value. */
  lemma {:induction false} InsertedElements(t: Tree, v: int)
    ensures Elements(Inserted(t, v)) == Elements(t) + multiset{v}
  {
    match t
    case Leaf =>
    case Node(l, x, r) =>
      if v < x {
        InsertedElements(l, v);
        AddedOnLeft(Elements(l), x, Elements(r), v);
      } else {
        InsertedElements(r, v);
        AddedOnRight(Elements(l), x, Elements(r), v);
      }
  }

  lemma AddedOnLeft(a: multiset<int>, x: int, b: multiset<int>, v: int)
    ensures (a + multiset{v}) + multiset{x} + b == (a + multiset{x} + b) + multiset{v}
  {
  }

  lemma AddedOnRight(a: multiset<int>, x: int, b: multiset<int>, v: int)
    ensures a + multiset{x} + (b + multiset{v}) == (a + multiset{x} + b) + multiset{v}
  {
  }

  /** An insert adds exactly one node. */
  lemma {:induction false} InsertedSize(t: Tree, v: int)
    ensures Size(Inserted(t, v)) == Size(t) + 1
  {
    match t
    case Leaf =>
    case Node(l, x, r) =>
      if v < x {
        InsertedSize(l, v);
      } else {
        InsertedSize(r, v);
      }
  }

  /** An insert keeps a bound that the new value meets. */
  lemma {:induction false} InsertedBounds(t: Tree, v: int, x: int)
    ensures Below(t, x) && v < x ==> Below(Inserted(t, v), x)
    ensures AtLeast(t, x) && x <= v ==> AtLeast(Inserted(t, v), x)
  {
    match t
    case Leaf =>
    case Node(l, y, r) =>
      InsertedBounds(l, v, x);
      InsertedBounds(r, v, x);
  }

  /** An insert keeps the ordering. */
  lemma {:induction false} InsertedOrdered(t: Tree, v: int)
    requires Ordered(t)
    ensures Ordered(Inserted(t, v))
  {
    match t
    case Leaf =>
    case Node(l, x, r) =>
      if v < x {
        InsertedOrdered(l, v);
        InsertedBounds(l, v, x);
      } else {
        InsertedOrdered(r, v);
        InsertedBounds(r, v, x);
      }
  }

  /** In an ordered tree the search finds a value exactly when it is stored. */
  lemma {:induction false} FoundIffStored(t: Tree, v: int)
    ensures Ordered(t) ==> (Found(t, v) <==> v in Elements(t))
  {
    match t
    case Leaf =>
    case Node(l, x, r) =>
      FoundIffStored(l, v);
      FoundIffStored(r, v);
      if Ordered(t) {
        BoundsMeanElements(l, x);
        BoundsMeanElements(r, x);
        if v < x {
          assert v !in Elements(r);
        } else if v > x {
          assert v !in Elements(l);
        }
      }
  }

  /** The node count is the number of stored values, repeats included. */
  lemma {:induction false} SizeCountsElements(t: Tree)
    ensures Size(t) == |Elements(t)|
  {
    match t
    case Leaf =>
    case Node(l, x, r) =>
      SizeCountsElements(l);
      SizeCountsElements(r);
  }

  /** Inserting a value makes the search find it, in an ordered tree. */
  lemma InsertedFound(t: Tree, v: int)
    requires Ordered(t)
    ensures Found(Inserted(t, v), v)
  {
    InsertedOrdered(t, v);
    InsertedElements(t, v);
    FoundIffStored(Inserted(t, v), v);
  }
}
