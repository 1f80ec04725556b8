/** The nodes of a tree. */
module Parts {
  import opened Continuation
  import opened Durable
  import opened Agreement

  /** `n` is a node of the tree `c`, with all that follows it. */
  ghost predicate Inside(n: Cont, c: Cont)
    decreases c, 1
  {
    n == c || Beneath(n, c) || (Next(c).Some? && Inside(n, Next(c).value))
  }

  /** `n` is a node nested in the node `c`. */
  ghost predicate Beneath(n: Cont, c: Cont)
    decreases c, 0
  {
    match c
    case Fork(_, branches, _) => exists b :: b in branches && Inside(n, b)
    case Branch(_, _, routes, default, _) =>
      || (exists k :: k in routes && Inside(n, routes[k]))
      || (default.Some? && Inside(n, default.value))
    case Loop(_, body, _, _, _) => Inside(n, body)
    case ChildWorkflow(_, child, _) => Inside(n, child)
    case _ => false
  }

  lemma {:induction false} InsideTrans(a: Cont, b: Cont, c: Cont)
    requires Inside(a, b) && Inside(b, c)
    ensures Inside(a, c)
    decreases c, 1
  {
    if b != c {
      if Beneath(b, c) {
        BeneathTrans(a, b, c);
      } else {
        InsideTrans(a, b, Next(c).value);
      }
    }
  }

  lemma {:induction false} BeneathTrans(a: Cont, b: Cont, c: Cont)
    requires Inside(a, b) && Beneath(b, c)
    ensures Beneath(a, c)
    decreases c, 0
  {
    match c
    case Fork(_, branches, _) =>
      var d :| d in branches && Inside(b, d);
      InsideTrans(a, b, d);
    case Branch(_, _, routes, default, _) =>
      if k :| k in routes && Inside(b, routes[k]) {
        InsideTrans(a, b, routes[k]);
      } else {
        InsideTrans(a, b, default.value);
      }
    case Loop(_, body, _, _, _) => InsideTrans(a, b, body);
    case ChildWorkflow(_, child, _) => InsideTrans(a, b, child);
  }

  /** What follows a node, and what is nested in it, belongs to the same tree. */
  lemma InsideNext(c: Cont, root: Cont)
    requires Inside(c, root) && Next(c).Some?
    ensures Inside(Next(c).value, root)
  {
    var n := Next(c).value;
    assert Inside(n, n);
    InsideTrans(n, c, root);
  }

  lemma InsideBeneath(n: Cont, c: Cont, root: Cont)
    requires Inside(c, root) && Beneath(n, c)
    ensures Inside(n, root)
  {
    InsideTrans(n, c, root);
  }

  lemma {:induction false} InsideIds(n: Cont, c: Cont)
    requires Inside(n, c)
    ensures n.id in Ids(c)
    decreases c, 1
  {
    if n != c {
      if Beneath(n, c) {
        BeneathIds(n, c);
      } else {
        InsideIds(n, Next(c).value);
      }
    }
  }

  lemma {:induction false} BeneathIds(n: Cont, c: Cont)
    requires Beneath(n, c)
    ensures n.id in NodeIds(c)
    decreases c, 0
  {
    match c
    case Fork(_, branches, _) =>
      var b :| b in branches && Inside(n, b);
      InsideIds(n, b);
      BranchIdsAt(branches, b);
    case Branch(_, _, routes, default, _) =>
      if k :| k in routes && Inside(n, routes[k]) {
        InsideIds(n, routes[k]);
      } else {
        InsideIds(n, default.value);
      }
    case Loop(_, body, _, _, _) => InsideIds(n, body);
    case ChildWorkflow(_, child, _) => InsideIds(n, child);
  }
}
