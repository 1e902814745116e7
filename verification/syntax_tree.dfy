/**
 * The abstract syntax tree that `ast.parse` produces, reduced to the node kinds the
 * analyzers inspect, and `ast.walk`, its breadth-first traversal. The parser itself is
 * not part of this model: analyses receive its tree, or `None` for a `SyntaxError`.
 */
module SyntaxTree {
  import opened Py

  // ===========================================================================
  // The syntax tree and its walk
  // ===========================================================================

  /** What a call applies: an attribute (`x.attr`), a plain name, or anything else. */
  datatype Callee = Attribute(attr: string) | Name(id: string) | OtherCallee

  /**
   * The node kinds the analyzers look at. `Call` keeps the callee and the keyword names
   * (`None` for `**kwargs`). `FunctionDef` stands for both `def` and `async def`; it keeps
   * whether a return annotation is present and, for each positional argument, whether
   * it is annotated. `BoolOp` is an `and`/`or` chain.
   */
  datatype NodeKind =
    | Assert
    | Call(func: Callee, keywords: seq<Option<string>>)
    | For
    | While
    | If
    | ExceptHandler
    | BoolOp
    | BinOp(isAdd: bool, leftConstant: bool, rightConstant: bool)
    | FunctionDef(name: string, returnAnnotated: bool, argsAnnotated: seq<bool>)
    | ClassDef
    | ListComp
    | DictComp
    | OtherNode

  /** A syntax-tree node with its line number and its child nodes in field order. */
  datatype Node = Node(kind: NodeKind, line: int, children: seq<Node>)

  function Size(n: Node): nat
    decreases n, 1
  {
    1 + SizeAll(n.children)
  }

  function SizeAll(q: seq<Node>): nat
    decreases q, 0
  {
    if q == [] then 0 else Size(q[0]) + SizeAll(q[1..])
  }

  lemma {:induction false} SizeAllAppend(a: seq<Node>, b: seq<Node>)
    ensures SizeAll(a + b) == SizeAll(a) + SizeAll(b)
    decreases |a|
  {
    if a != [] {
      assert (a + b)[0] == a[0];
      assert (a + b)[1..] == a[1..] + b;
      SizeAllAppend(a[1..], b);
    } else {
      assert a + b == b;
    }
  }

  /** The breadth-first order of `ast.walk`: take the first queued node, queue its children. */
  function BfsFrom(q: seq<Node>): seq<Node>
    decreases SizeAll(q)
  {
    if q == [] then []
    else
      SizeAllAppend(q[1..], q[0].children);
      assert SizeAll(q) == 1 + SizeAll(q[0].children) + SizeAll(q[1..]);
      [q[0]] + BfsFrom(q[1..] + q[0].children)
  }

  /** `ast.walk(node)`. */
  function Walk(n: Node): seq<Node> {
    BfsFrom([n])
  }

  /** How many nodes of a tree satisfy `p`. */
  function CountTree(n: Node, p: Node -> bool): nat
    decreases n, 1
  {
    (if p(n) then 1 else 0) + CountForest(n.children, p)
  }

  function CountForest(q: seq<Node>, p: Node -> bool): nat
    decreases q, 0
  {
    if q == [] then 0 else CountTree(q[0], p) + CountForest(q[1..], p)
  }

  lemma {:induction false} CountForestAppend(a: seq<Node>, b: seq<Node>, p: Node -> bool)
    ensures CountForest(a + b, p) == CountForest(a, p) + CountForest(b, p)
    decreases |a|
  {
    if a != [] {
      assert (a + b)[0] == a[0];
      assert (a + b)[1..] == a[1..] + b;
      CountForestAppend(a[1..], b, p);
    } else {
      assert a + b == b;
    }
  }

  lemma {:induction false} CountBfs(q: seq<Node>, p: Node -> bool)
    ensures CountIf(BfsFrom(q), p) == CountForest(q, p)
    decreases SizeAll(q)
  {
    if q != [] {
      SizeAllAppend(q[1..], q[0].children);
      assert SizeAll(q) == 1 + SizeAll(q[0].children) + SizeAll(q[1..]);
      CountIfAppend([q[0]], BfsFrom(q[1..] + q[0].children), p);
      CountBfs(q[1..] + q[0].children, p);
      CountForestAppend(q[1..], q[0].children, p);
      assert CountIf([q[0]], p) == (if p(q[0]) then 1 else 0) by {
        assert [q[0]][..0] == [];
      }
    }
  }

  /**
   * The walk visits the whole tree: for any property, as many walked nodes have it as
   * tree nodes do (with `p := x => x == m`, each node is visited as often as it occurs).
   */
  lemma {:induction false} WalkCountsTree(n: Node, p: Node -> bool)
    ensures CountIf(Walk(n), p) == CountTree(n, p)
  {
    CountBfs([n], p);
    assert [n][1..] == [];
  }

  /** The walk starts at the node itself. */
  lemma {:induction false} WalkStartsAtRoot(n: Node)
    ensures |Walk(n)| >= 1 && Walk(n)[0] == n
  {
  }
}
