/** The intrusive red-black tree of src/container/rbtree.c, with parent links. */
module RbTree {
  import opened Prelude
  import opened RbShape
  import opened RbFixup

  /** The linked nodes from `n` down are the tree `t`, and its root's parent link is `parent`. */
  predicate Rep(t: Tree, n: Node?, parent: Node?)
    reads Nodes(t)
  {
    match t
    case Leaf => n == null
    case T(color, node, left, right) =>
      n == node && n.color == color && n.parent == parent && Rep(left, n.left, n) && Rep(right, n.right, n)
  }

  function AboveOf(c: Ctx, above: Node?): Node? { if c.Top? then above else c.node }

  /** The linked nodes around `child` are the context `c`, which begins below `above` with the link `link`. */
  predicate RepCtx(c: Ctx, child: Node?, above: Node?, link: Node?)
    reads CtxNodes(c)
  {
    match c
    case Top => child == link
    case F(side, color, n, sib, up) =>
      && n.color == color && n.parent == AboveOf(up, above)
      && (if side.Left? then n.left == child && Rep(sib, n.right, n) else n.right == child && Rep(sib, n.left, n))
      && RepCtx(up, n, above, link)
  }

  lemma ColorLink(t: Tree, n: Node?, parent: Node?)
    requires Rep(t, n, parent)
    ensures (n == null || n.color.Black?) <==> ColorOf(t).Black?
    ensures n != null <==> t.T?
    ensures n != null ==> n == t.node && n in Nodes(t)
  {
  }

  lemma {:induction false} Widen(t: Tree, k: int, lo: Option<int>, hi: Option<int>)
    requires Between(lo, k, hi) && (Bst(t, Some(k), hi) || Bst(t, lo, Some(k)))
    ensures Bst(t, lo, hi)
  {
    if t.T? {
      if Bst(t, Some(k), hi) {
        Widen(t.left, k, lo, Some(t.node.key));
      } else {
        Widen(t.right, k, Some(t.node.key), hi);
      }
    }
  }

  function RootNode(t: Tree): Node? { if t.T? then t.node else null }

  function Depth(c: Ctx): nat { if c.Top? then 0 else 1 + Depth(c.up) }

  function RotatedLeft(t: Tree): Tree
    requires t.T? && t.right.T?
  {
    t.right.(left := t.(right := t.right.left))
  }

  function RotatedRight(t: Tree): Tree
    requires t.T? && t.left.T?
  {
    t.left.(right := t.(left := t.left.right))
  }

  lemma RotationPlaced(t: Tree, c: Ctx)
    requires Placed(t, c) && t.T?
    ensures t.right.T? ==> Placed(RotatedLeft(t), c) && Nodes(RotatedLeft(t)) == Nodes(t)
    ensures t.left.T? ==> Placed(RotatedRight(t), c) && Nodes(RotatedRight(t)) == Nodes(t)
  {
    var k, lo, hi := Some(t.node.key), Lo(c), Hi(c);
    if t.right.T? {
      assert Bst(t.right, k, hi);
      assert Bst(RotatedLeft(t).left, lo, Some(t.right.node.key));
    }
    if t.left.T? {
      assert Bst(t.left, lo, k);
      assert Bst(RotatedRight(t).right, Some(t.left.node.key), hi);
    }
  }

  class RbTree {
    var root: Node?
    ghost var nodes: set<Node>
    ghost var tree: Tree

    /** A red-black tree over exactly `nodes`, linked both ways. */
    ghost predicate Valid()
      reads this, nodes
    {
      Nodes(tree) == nodes && Rep(tree, root, null) && Bst(tree, None, None) && RedBlack(tree)
    }

    constructor ()
      ensures Valid() && nodes == {}
    {
      root, nodes, tree := null, {}, Leaf;
      new;
      assert Sound(Leaf, 0);
    }

    /** The subtree at `n` and its context, both as linked, make up the tree. */
    ghost predicate At(t: Tree, c: Ctx, n: Node?)
      reads this, Nodes(t), CtxNodes(c)
    {
      nodes == Nodes(t) + CtxNodes(c) && Placed(t, c) && Rep(t, n, AboveOf(c, null)) && RepCtx(c, n, null, root)
    }

    /** A subtree gets a new parent link at its root, if it has one. */
    static method Reparent(n: Node?, parent: Node?, ghost t: Tree, ghost was: Node?, ghost lo: Option<int>,
                           ghost hi: Option<int>)
      requires Rep(t, n, was) && Bst(t, lo, hi)
      modifies Nodes(t)`parent
      ensures Rep(t, n, parent)
    {
      if n != null {
        ApartTree(t, lo, hi);
        n.parent := parent;
      }
    }

    /** The link that led to `from` leads to `to`: the parent's, or the root. */
    method Redirect(parent: Node?, from: Node, to: Node?, ghost c: Ctx)
      requires RepCtx(c, from, null, root) && CtxBst(c) && parent == AboveOf(c, null) && from !in CtxNodes(c)
      modifies this`root, CtxNodes(c)
      ensures RepCtx(c, to, null, root)
    {
      if c.F? {
        ApartFrame(c);
        assert c.sib.T? ==> c.sib.node in Nodes(c.sib);
      }
      if parent != null {
        if from == parent.left {
          parent.left := to;
        } else {
          parent.right := to;
        }
      } else {
        root := to;
      }
    }

    /** The two nodes of a rotation exchange links, once the middle subtree has its new parent. */
    static method HookLeft(node: Node, right: Node, ghost cn: Color, ghost cr: Color, ghost a: Tree, ghost b: Tree,
                           ghost d: Tree)
      requires node != right && {node, right} !! Nodes(a) && {node, right} !! Nodes(b) && {node, right} !! Nodes(d)
      requires Rep(a, node.left, node) && Rep(b, right.left, node) && Rep(d, right.right, right) && node.color == cn
      requires right.color == cr
      modifies node, right
      ensures Rep(T(cr, right, T(cn, node, a, b), d), right, old(node.parent))
    {
      node.right := right.left;
      right.left := node;
      right.parent := node.parent;
      node.parent := right;
      assert Rep(T(cn, node, a, b), node, right);
    }

    static method HookRight(node: Node, left: Node, ghost cn: Color, ghost cl: Color, ghost a: Tree, ghost b: Tree,
                            ghost d: Tree)
      requires node != left && {node, left} !! Nodes(a) && {node, left} !! Nodes(b) && {node, left} !! Nodes(d)
      requires Rep(a, left.left, left) && Rep(b, left.right, node) && Rep(d, node.right, node) && node.color == cn
      requires left.color == cl
      modifies node, left
      ensures Rep(T(cl, left, a, T(cn, node, b, d)), left, old(node.parent))
    {
      node.left := left.right;
      left.right := node;
      left.parent := node.parent;
      node.parent := left;
      assert Rep(T(cn, node, b, d), node, left);
    }

    /** The part of a rotation below the parent. */
    static method TurnLeft(node: Node, right: Node, ghost t: Tree, ghost lo: Option<int>, ghost hi: Option<int>)
      requires Bst(t, lo, hi) && t.T? && t.right.T? && right == t.right.node && Rep(t, node, node.parent)
      modifies Nodes(t)
      ensures Rep(RotatedLeft(t), right, old(node.parent))
    {
      ghost var a, b, d := t.left, t.right.left, t.right.right;
      ApartTree(t, lo, hi);
      ApartTree(t.right, Some(t.node.key), hi);
      assert Rep(t.right, right, node) && Rep(b, right.left, right) && Rep(d, right.right, right);
      assert Nodes(t.right) == {right} + Nodes(b) + Nodes(d);
      assert allocated(Nodes(a)) && allocated(Nodes(d));
      Reparent(right.left, node, b, right, Some(node.key), Some(right.key));
      HookLeft(node, right, t.color, t.right.color, a, b, d);
    }

    static method TurnRight(node: Node, left: Node, ghost t: Tree, ghost lo: Option<int>, ghost hi: Option<int>)
      requires Bst(t, lo, hi) && t.T? && t.left.T? && left == t.left.node && Rep(t, node, node.parent)
      modifies Nodes(t)
      ensures Rep(RotatedRight(t), left, old(node.parent))
    {
      ghost var a, b, d := t.left.left, t.left.right, t.right;
      ApartTree(t, lo, hi);
      ApartTree(t.left, lo, Some(t.node.key));
      assert Rep(t.left, left, node) && Rep(a, left.left, left) && Rep(b, left.right, left);
      assert Nodes(t.left) == {left} + Nodes(a) + Nodes(b);
      assert allocated(Nodes(a)) && allocated(Nodes(d));
      Reparent(left.right, node, b, left, Some(left.key), Some(node.key));
      HookRight(node, left, t.color, t.left.color, a, b, d);
    }

    /** `_rbtree_rotate_left` */
    method RotateLeft(node: Node, ghost t: Tree, ghost c: Ctx)
      requires At(t, c, node) && t.T? && t.right.T?
      modifies this`root, nodes
      ensures At(RotatedLeft(t), c, t.right.node)
    {
      Apart(t, c);
      RotationPlaced(t, c);
      assert Rep(t.right, node.right, node);
      var right, parent := node.right, node.parent;
      assert allocated(CtxNodes(c)) && allocated(Nodes(t));
      TurnLeft(node, right, t, Lo(c), Hi(c));
      Redirect(parent, node, right, c);
    }

    /** `_rbtree_rotate_right` */
    method RotateRight(node: Node, ghost t: Tree, ghost c: Ctx)
      requires At(t, c, node) && t.T? && t.left.T?
      modifies this`root, nodes
      ensures At(RotatedRight(t), c, t.left.node)
    {
      Apart(t, c);
      RotationPlaced(t, c);
      assert Rep(t.left, node.left, node);
      var left, parent := node.left, node.parent;
      assert allocated(CtxNodes(c)) && allocated(Nodes(t));
      TurnRight(node, left, t, Lo(c), Hi(c));
      Redirect(parent, node, left, c);
    }

    // ---- moving the point of view ---------------------------------------------------------------------------------

    lemma Up(t: Tree, c: Ctx, n: Node?)
      requires At(t, c, n) && c.F?
      ensures At(Make(c.side, c.color, c.node, t, c.sib), c.up, c.node)
    {
    }

    lemma Down(t: Tree, c: Ctx, n: Node?, side: Side)
      requires At(t, c, n) && t.T?
      ensures var near, far := if side.Left? then t.left else t.right, if side.Left? then t.right else t.left;
              var inner := F(side, t.color, t.node, far, c);
              At(near, inner, if side.Left? then t.node.left else t.node.right)
    {
    }

    lemma {:induction false} Whole(t: Tree, c: Ctx, n: Node?)
      requires At(t, c, n)
      ensures Rep(Plug(t, c), root, null) && Bst(Plug(t, c), None, None) && Nodes(Plug(t, c)) == Nodes(t) + CtxNodes(c)
      decreases c
    {
      if c.F? {
        Up(t, c, n);
        Whole(Make(c.side, c.color, c.node, t, c.sib), c.up, c.node);
      }
    }

    // ---- insertion ------------------------------------------------------------------------------------------------

    /** Painting a node. */
    method Paint(n: Node, color: Color, ghost t: Tree, ghost c: Ctx)
      requires At(t, c, n) && t.T?
      modifies n`color
      ensures At(t.(color := color), c, n)
    {
      Apart(t, c);
      n.color := color;
      assert Rep(t.left, n.left, n) && Rep(t.right, n.right, n);
    }

    /** Painting the child of a node on one side. */
    method PaintChild(n: Node, color: Color, ghost side: Side, ghost top: Color, ghost p: Node, ghost near: Tree,
                      ghost far: Tree, ghost c: Ctx)
      requires At(Make(side, top, p, near, far), c, p) && near.T? && n == near.node
      modifies n`color
      ensures At(Make(side, top, p, near.(color := color), far), c, p)
    {
      Down(Make(side, top, p, near, far), c, p, side);
      Paint(n, color, near, F(side, top, p, far, c));
      Up(near.(color := color), F(side, top, p, far, c), n);
    }

    /** A red uncle: parent and uncle turn black and the grandparent red. */
    method PushRed(parent: Node, uncle: Node, gparent: Node, ghost side: Side, ghost near: Tree, ghost far: Tree,
                   ghost c: Ctx)
      requires At(Make(side, Black, gparent, near, far), c, gparent) && near.T? && far.T? && parent == near.node
      requires uncle == far.node
      modifies uncle`color, parent`color, gparent`color
      ensures At(Make(side, Red, gparent, Blacken(near), Blacken(far)), c, gparent)
    {
      PaintChild(uncle, Black, Opposite(side), Black, gparent, far, near, c);
      PaintChild(parent, Black, side, Black, gparent, near, Blacken(far), c);
      Paint(gparent, Red, Make(side, Black, gparent, Blacken(near), Blacken(far)), c);
    }

    /** A black uncle, node and parent in line on the left: the grandparent turns right under its child. */
    method LineLeft(parent: Node, gparent: Node, ghost near: Tree, ghost far: Tree, ghost uncle: Tree, ghost c: Ctx)
      requires At(T(Black, gparent, T(Red, parent, near, far), uncle), c, gparent)
      modifies this`root, nodes
      ensures At(T(Black, parent, near, T(Red, gparent, far, uncle)), c, parent)
    {
      assert parent in Nodes(T(Red, parent, near, far));
      PaintChild(parent, Black, Left, Black, gparent, T(Red, parent, near, far), uncle, c);
      Paint(gparent, Red, T(Black, gparent, T(Black, parent, near, far), uncle), c);
      RotateRight(gparent, T(Red, gparent, T(Black, parent, near, far), uncle), c);
    }

    method LineRight(parent: Node, gparent: Node, ghost near: Tree, ghost far: Tree, ghost uncle: Tree, ghost c: Ctx)
      requires At(T(Black, gparent, uncle, T(Red, parent, far, near)), c, gparent)
      modifies this`root, nodes
      ensures At(T(Black, parent, T(Red, gparent, uncle, far), near), c, parent)
    {
      assert parent in Nodes(T(Red, parent, far, near));
      PaintChild(parent, Black, Right, Black, gparent, T(Red, parent, far, near), uncle, c);
      Paint(gparent, Red, T(Black, gparent, uncle, T(Black, parent, far, near)), c);
      RotateLeft(gparent, T(Red, gparent, uncle, T(Black, parent, far, near)), c);
    }

    /** What the links say at a node with a parent. */
    lemma ParentLinks(t: Tree, c: Ctx, n: Node?)
      requires At(t, c, n) && c.F?
      ensures (n != null ==> n.parent == c.node && n.color == ColorOf(t)) && (n == null <==> t.Leaf?)
      ensures c.node.color == c.color && c.node in nodes
      ensures Rep(c.sib, if c.side.Left? then c.node.right else c.node.left, c.node)
      ensures if c.side.Left? then c.node.left == n else c.node.right == n
      ensures n != null || c.sib.T? ==> (c.side.Left? <==> c.node.left == n) && (c.side.Right? <==> c.node.right == n)
    {
      Apart(t, c);
    }

    /** A black uncle on the right: node and parent are brought in line, and the grandparent turns under the parent. */
    method TurnUnderLeft(node: Node, parent: Node, gparent: Node, ghost t: Tree, ghost c: Ctx, ghost h: int)
      returns (n: Node, ghost t': Tree, ghost c': Ctx)
      requires At(t, c, node) && RedHere(t, c, h) && c.F? && c.color.Red? && c.up.F? && c.up.side.Left?
      requires ColorOf(c.up.sib).Black?
      requires parent == c.node && gparent == c.up.node
      modifies this`root, nodes
      ensures At(t', c', n) && RedHere(t', c', h) && Depth(c') < Depth(c)
    {
      Grandparent(t, c, h);
      ParentLinks(t, c, node);
      ghost var u, up, near, far := c.up.sib, c.up.up, t, c.sib;
      Up(t, c, node);
      var p := parent;
      n := node;
      if parent.right == node {
        RotateLeft(parent, T(Red, parent, c.sib, t), c.up);
        near, far := T(Red, parent, c.sib, t.left), t.right;
        p, n := node, parent;
      }
      Up(T(Red, p, near, far), c.up, p);
      LineLeft(p, gparent, near, far, u, up);
      UncleBlack(Left, p, near, far, gparent, u, up, h);
      Down(T(Black, p, near, T(Red, gparent, far, u)), up, p, Left);
      t', c' := near, F(Left, Black, p, T(Red, gparent, far, u), up);
    }

    method TurnUnderRight(node: Node, parent: Node, gparent: Node, ghost t: Tree, ghost c: Ctx, ghost h: int)
      returns (n: Node, ghost t': Tree, ghost c': Ctx)
      requires At(t, c, node) && RedHere(t, c, h) && c.F? && c.color.Red? && c.up.F? && c.up.side.Right?
      requires ColorOf(c.up.sib).Black?
      requires parent == c.node && gparent == c.up.node
      modifies this`root, nodes
      ensures At(t', c', n) && RedHere(t', c', h) && Depth(c') < Depth(c)
    {
      Grandparent(t, c, h);
      ParentLinks(t, c, node);
      ghost var u, up, near, far := c.up.sib, c.up.up, t, c.sib;
      Up(t, c, node);
      var p := parent;
      n := node;
      if parent.left == node {
        RotateRight(parent, T(Red, parent, t, c.sib), c.up);
        near, far := T(Red, parent, t.right, c.sib), t.left;
        p, n := node, parent;
      }
      Up(T(Red, p, far, near), c.up, p);
      LineRight(p, gparent, near, far, u, up);
      UncleBlack(Right, p, near, far, gparent, u, up, h);
      Down(T(Black, p, T(Red, gparent, u, far), near), up, p, Right);
      t', c' := near, F(Right, Black, p, T(Red, gparent, u, far), up);
    }

    /** One turn of the loop of `_rbtree_insert_color`. */
    method InsertStep(node: Node, ghost t: Tree, ghost c: Ctx, ghost h: int)
      returns (n: Node, ghost t': Tree, ghost c': Ctx, ghost h': int)
      requires At(t, c, node) && RedHere(t, c, h) && c.F? && c.color.Red?
      modifies this`root, nodes
      ensures At(t', c', n) && RedHere(t', c', h') && Depth(c') < Depth(c)
    {
      Grandparent(t, c, h);
      ParentLinks(t, c, node);
      Up(t, c, node);
      ghost var pt, u, up := Make(c.side, Red, c.node, t, c.sib), c.up.sib, c.up.up;
      ParentLinks(pt, c.up, c.node);
      Up(pt, c.up, c.node);
      var parent := node.parent;
      var gparent := parent.parent;
      var leftward := parent == gparent.left;
      var uncle := if leftward then gparent.right else gparent.left;
      if uncle != null && uncle.color.Red? {
        assert uncle in Nodes(u) && parent in Nodes(pt);
        UncleRed(t, c, h);
        PushRed(parent, uncle, gparent, c.up.side, pt, u, up);
        n, t', c', h' := gparent, Make(c.up.side, Red, gparent, Blacken(pt), Blacken(u)), up, h + 1;
      } else {
        h' := h;
        if leftward {
          n, t', c' := TurnUnderLeft(node, parent, gparent, t, c, h);
        } else {
          n, t', c' := TurnUnderRight(node, parent, gparent, t, c, h);
        }
      }
    }

    /** `_rbtree_insert_color` */
    method InsertColor(node: Node, ghost at: Tree, ghost around: Ctx, ghost height: int) returns (ghost tree: Tree)
      requires At(at, around, node) && RedHere(at, around, height)
      modifies this`root, nodes
      ensures Rep(tree, root, null) && Bst(tree, None, None) && RedBlack(tree) && Nodes(tree) == nodes
    {
      var n := node;
      ghost var t, c, h := at, around, height;
      if c.F? { ParentLinks(t, c, n); }
      while n.parent != null && n.parent.color.Red?
        invariant At(t, c, n) && RedHere(t, c, h) && n.parent == AboveOf(c, null) && (c.F? ==> c.node.color == c.color)
        decreases Depth(c)
      {
        n, t, c, h := InsertStep(n, t, c, h);
        if c.F? { ParentLinks(t, c, n); }
      }
      InsertDone(t, c, h);
      Whole(t, c, n);
      tree := Plug(t, c);
      assert root in Nodes(tree);
      Paint(root, Black, tree, Top);
      tree := Blacken(tree);
    }

    /** `_rbtree_link_node`: a new red leaf. */
    method LinkNode(node: Node, parent: Node?, left: bool, ghost c: Ctx)
      requires At(Leaf, c, null) && node !in nodes && Between(Lo(c), node.key, Hi(c))
      requires parent == AboveOf(c, null) && (c.F? ==> (left <==> c.side.Left?))
      modifies this`root, this`nodes, nodes, node
      ensures At(T(Red, node, Leaf, Leaf), c, node) && nodes == old(nodes) + {node}
    {
      if c.F? { Apart(Leaf, c); }
      assert Bst(T(Red, node, Leaf, Leaf), Lo(c), Hi(c));
      node.parent, node.color, node.left, node.right := parent, Red, null, null;
      assert RepCtx(c, null, null, root);
      if parent == null {
        root := node;
      } else if left {
        parent.left := node;
      } else {
        parent.right := node;
      }
      nodes := nodes + {node};
    }

    /** The search loop of `rbtree_insert`: a node with the key, or the place where one belongs. */
    method Descend(key: int) returns (p: Node?, parent: Node?, left: bool, ghost c: Ctx, ghost h: int)
      requires Valid()
      ensures p != null ==> p in nodes && p.key == key
      ensures p == null ==>
                At(Leaf, c, null) && CtxSound(c, h, Black) && RootBlack(c) && Between(Lo(c), key, Hi(c)) && h == 0
      ensures p == null ==> parent == AboveOf(c, null) && (c.F? ==> (left <==> c.side.Left?))
      ensures p == null ==> forall m :: m in nodes ==> m.key != key
    {
      p, parent, left := root, null, false;
      h :| Sound(tree, h);
      ghost var t := tree;
      c := Top;
      while p != null
        invariant At(t, c, p) && Sound(t, h) && CtxSound(c, h, ColorOf(t)) && RootBlack(c)
        invariant c.Top? ==> ColorOf(t).Black?
        invariant Between(Lo(c), key, Hi(c)) && parent == AboveOf(c, null) && (c.F? ==> (left <==> c.side.Left?))
        decreases t
      {
        parent := p;
        ghost var side := if key < p.key then Left else Right;
        Down(t, c, p, side);
        DownSound(t, c, h, side);
        assert p in nodes;
        if key < p.key {
          p, left := p.left, true;
        } else if key > p.key {
          p, left := p.right, false;
        } else {
          return;
        }
        h := if t.color.Black? then h - 1 else h;
        t, c := if side.Left? then t.left else t.right,
            F(side, t.color, t.node, if side.Left? then t.right else t.left, c);
      }
      forall m | m in nodes ensures m.key != key { CtxOutside(c, m); }
    }

    /** `rbtree_insert`: a node whose key is already there is not inserted. */
    method Insert(node: Node)
      requires Valid()
      modifies this, nodes, node
      ensures Valid()
      ensures if exists m :: m in old(nodes) && m.key == node.key then nodes == old(nodes) && tree == old(tree)
              else nodes == old(nodes) + {node}
    {
      var p, parent, left;
      ghost var c, h;
      p, parent, left, c, h := Descend(node.key);
      if p != null { return; }
      LinkNode(node, parent, left, c);
      assert Sound(Leaf, 0) && Sound(T(Red, node, Leaf, Leaf), 0);
      tree := InsertColor(node, T(Red, node, Leaf, Leaf), c, h);
    }

    /** `rbtree_find` */
    method Find(key: int) returns (n: Node?)
      requires Valid()
      ensures n != null ==> n in nodes && n.key == key
      ensures n == null ==> forall m :: m in nodes ==> m.key != key
    {
      n := root;
      ghost var t, c := tree, Top;
      while n != null
        invariant At(t, c, n) && Between(Lo(c), key, Hi(c))
        decreases t
      {
        ghost var side := if key < n.key then Left else Right;
        Down(t, c, n, side);
        assert n in nodes;
        if key < n.key {
          n := n.left;
        } else if key > n.key {
          n := n.right;
        } else {
          return;
        }
        t, c := if side.Left? then t.left else t.right,
            F(side, t.color, t.node, if side.Left? then t.right else t.left, c);
      }
      forall m | m in nodes ensures m.key != key { CtxOutside(c, m); }
    }

    // ---- removal --------------------------------------------------------------------------------------------------

    /** From a subtree to its sibling. */
    lemma Across(t: Tree, c: Ctx, n: Node?)
      requires At(t, c, n) && c.F?
      ensures At(c.sib, F(Opposite(c.side), c.color, c.node, t, c.up),
                 if c.side.Left? then c.node.right else c.node.left)
    {
      Up(t, c, n);
      Down(Make(c.side, c.color, c.node, t, c.sib), c.up, c.node, Opposite(c.side));
    }

    lemma {:induction false} RootAbove(c: Ctx, n: Node?)
      requires RepCtx(c, n, null, root) && c.F?
      ensures root != null && root in CtxNodes(c)
    {
      if c.up.F? { RootAbove(c.up, c.node); }
    }

    /** A red sibling on the right is rotated above the parent. */
    method RaiseRight(node: Node?, parent: Node, other: Node, ghost t: Tree, ghost near: Tree, ghost far: Tree,
                      ghost up: Ctx)
      requires At(t, F(Left, Black, parent, T(Red, other, near, far), up), node)
      modifies this`root, nodes
      ensures At(t, F(Left, Red, parent, near, F(Left, Black, other, far, up)), node)
    {
      ghost var s := T(Red, other, near, far);
      assert other in Nodes(s);
      Up(t, F(Left, Black, parent, s, up), node);
      PaintChild(other, Black, Right, Black, parent, s, t, up);
      Paint(parent, Red, T(Black, parent, t, T(Black, other, near, far)), up);
      RotateLeft(parent, T(Red, parent, t, T(Black, other, near, far)), up);
      Down(T(Black, other, T(Red, parent, t, near), far), up, other, Left);
      Down(T(Red, parent, t, near), F(Left, Black, other, far, up), parent, Left);
    }

    method RaiseLeft(node: Node?, parent: Node, other: Node, ghost t: Tree, ghost near: Tree, ghost far: Tree,
                     ghost up: Ctx)
      requires At(t, F(Right, Black, parent, T(Red, other, far, near), up), node)
      modifies this`root, nodes
      ensures At(t, F(Right, Red, parent, near, F(Right, Black, other, far, up)), node)
    {
      ghost var s := T(Red, other, far, near);
      assert other in Nodes(s);
      Up(t, F(Right, Black, parent, s, up), node);
      PaintChild(other, Black, Left, Black, parent, s, t, up);
      Paint(parent, Red, T(Black, parent, T(Black, other, far, near), t), up);
      RotateRight(parent, T(Red, parent, T(Black, other, far, near), t), up);
      Down(T(Black, other, far, T(Red, parent, near, t)), up, other, Right);
      Down(T(Red, parent, near, t), F(Right, Black, other, far, up), parent, Right);
    }

    /** A black sibling on the right with only its near child red is rotated away. */
    method TipRight(other: Node, inner: Node, ghost s: Tree, ghost c: Ctx)
      requires At(s, c, other) && s.T? && s.left.T? && inner == s.left.node
      modifies this`root, nodes
      ensures At(T(Black, inner, s.left.left, T(Red, other, s.left.right, s.right)), c, inner)
    {
      ghost var near := s.left;
      assert inner in Nodes(near);
      PaintChild(inner, Black, Left, s.color, other, near, s.right, c);
      Paint(other, Red, T(s.color, other, Blacken(near), s.right), c);
      RotateRight(other, T(Red, other, Blacken(near), s.right), c);
    }

    method TipLeft(other: Node, inner: Node, ghost s: Tree, ghost c: Ctx)
      requires At(s, c, other) && s.T? && s.right.T? && inner == s.right.node
      modifies this`root, nodes
      ensures At(T(Black, inner, T(Red, other, s.left, s.right.left), s.right.right), c, inner)
    {
      ghost var near := s.right;
      assert inner in Nodes(near);
      PaintChild(inner, Black, Right, s.color, other, near, s.left, c);
      Paint(other, Red, T(s.color, other, s.left, Blacken(near)), c);
      RotateLeft(other, T(Red, other, s.left, Blacken(near)), c);
    }

    /** A black sibling on the right with its far child red takes the parent's place and colour. */
    method SettleRight(parent: Node, other: Node, outer: Node, ghost t: Tree, ghost pc: Color, ghost near: Tree,
                       ghost far: Tree, ghost up: Ctx)
      requires At(T(pc, parent, t, T(Black, other, near, far)), up, parent) && far.T? && outer == far.node
      requires pc == parent.color
      modifies this`root, nodes
      ensures At(T(pc, other, T(Black, parent, t, near), Blacken(far)), up, other)
    {
      ghost var s := T(Black, other, near, far);
      assert other in Nodes(s) && outer in Nodes(far);
      var color := parent.color;
      PaintChild(other, color, Right, pc, parent, s, t, up);
      Paint(parent, Black, T(pc, parent, t, T(pc, other, near, far)), up);
      ghost var top := T(Black, parent, t, T(pc, other, near, far));
      Down(top, up, parent, Right);
      PaintChild(outer, Black, Right, pc, other, far, near, F(Right, Black, parent, t, up));
      Up(T(pc, other, near, Blacken(far)), F(Right, Black, parent, t, up), other);
      RotateLeft(parent, T(Black, parent, t, T(pc, other, near, Blacken(far))), up);
    }

    method SettleLeft(parent: Node, other: Node, outer: Node, ghost t: Tree, ghost pc: Color, ghost near: Tree,
                      ghost far: Tree, ghost up: Ctx)
      requires At(T(pc, parent, T(Black, other, far, near), t), up, parent) && far.T? && outer == far.node
      requires pc == parent.color
      modifies this`root, nodes
      ensures At(T(pc, other, Blacken(far), T(Black, parent, near, t)), up, other)
    {
      ghost var s := T(Black, other, far, near);
      assert other in Nodes(s) && outer in Nodes(far);
      var color := parent.color;
      PaintChild(other, color, Left, pc, parent, s, t, up);
      Paint(parent, Black, T(pc, parent, T(pc, other, far, near), t), up);
      ghost var top := T(Black, parent, T(pc, other, far, near), t);
      Down(top, up, parent, Left);
      PaintChild(outer, Black, Left, pc, other, far, near, F(Left, Black, parent, t, up));
      Up(T(pc, other, Blacken(far), near), F(Left, Black, parent, t, up), other);
      RotateRight(parent, T(Black, parent, T(pc, other, Blacken(far), near), t), up);
    }

    /** The tree is complete again. */
    ghost predicate Mended(t: Tree)
      reads this, Nodes(t)
    {
      Nodes(t) == nodes && Rep(t, root, null) && Bst(t, None, None) && RedBlack(t)
    }

    /** The links of a sibling on the right to its children. */
    lemma NephewsLeft(t: Tree, c: Ctx, n: Node?)
      requires At(t, c, n) && c.F? && c.side.Left? && c.sib.T?
      ensures At(c.sib, F(Right, c.color, c.node, t, c.up), c.sib.node) && c.sib.node == c.node.right
      ensures var s, m := c.sib, c.sib.node;
              && ((m.left == null || m.left.color.Black?) <==> ColorOf(s.left).Black?)
              && (m.left != null ==> m.left in nodes && s.left.T? && m.left == s.left.node)
              && ((m.right == null || m.right.color.Black?) <==> ColorOf(s.right).Black?)
              && (m.right != null ==> m.right in nodes && s.right.T? && m.right == s.right.node)
    {
      Across(t, c, n);
      var s, c' := c.sib, F(Right, c.color, c.node, t, c.up);
      Down(s, c', s.node, Left);
      Down(s, c', s.node, Right);
      ColorLink(s.left, s.node.left, s.node);
      ColorLink(s.right, s.node.right, s.node);
    }

    /** A black sibling on the right with black children: the shortage moves to the parent. */
    method DimRight(node: Node?, parent: Node, sibling: Node, ghost t: Tree, ghost c: Ctx, ghost h: int)
      returns (ghost t': Tree, ghost h': int)
      requires At(t, c, node) && Short(t, c, h) && ColorOf(t).Black? && c.F? && c.side.Left? && parent == c.node
      requires c.sib.T? && c.sib.color.Black? && sibling == c.sib.node && ColorOf(c.sib.left).Black?
      requires ColorOf(c.sib.right).Black?
      modifies this`root, nodes
      ensures At(t', c.up, parent) && Short(t', c.up, h') && ColorOf(t') == c.color
    {
      ghost var pc, s, up := c.color, c.sib, c.up;
      Up(t, c, node);
      assert sibling in Nodes(s);
      PaintChild(sibling, Red, Right, pc, parent, s, t, up);
      SiblingDull(t, Left, pc, parent, sibling, s.left, s.right, up, h);
      t', h' := T(pc, parent, t, T(Red, sibling, s.left, s.right)), if pc.Black? then h + 1 else h;
    }

    /** A black sibling on the right with a red child: the shortage ends. */
    method BrightRight(node: Node?, parent: Node, sibling: Node, ghost t: Tree, ghost c: Ctx, ghost h: int)
      returns (ghost t': Tree)
      requires At(t, c, node) && Short(t, c, h) && ColorOf(t).Black? && c.F? && c.side.Left? && parent == c.node
      requires c.sib.T? && c.sib.color.Black? && sibling == c.sib.node
      requires ColorOf(c.sib.left).Red? || ColorOf(c.sib.right).Red?
      modifies this`root, nodes
      ensures Mended(t')
    {
      ghost var pc, s, up := c.color, c.sib, c.up;
      NephewsLeft(t, c, node);
      Up(t, c, node);
      var other := sibling;
      if sibling.right == null || sibling.right.color.Black? {
        ghost var near := s.left;
        SiblingNear(t, Left, pc, parent, sibling, near.node, near.left, near.right, s.right, up, h);
        TipRight(sibling, sibling.left, s, F(Right, pc, parent, t, up));
        s := T(Black, near.node, near.left, T(Red, sibling, near.right, s.right));
        Up(s, F(Right, pc, parent, t, up), near.node);
        other := parent.right;
      }
      LastTurnLeft(parent, other, t, pc, s, up, h);
      t' := Plug(T(pc, other, T(Black, parent, t, s.left), Blacken(s.right)), up);
    }

    /** One turn of `_rbtree_erase_color` with the node on the left of its parent. */
    method EraseLeft(node: Node?, parent: Node, ghost t: Tree, ghost c: Ctx, ghost h: int)
      returns (done: bool, ghost t': Tree, ghost c': Ctx, ghost h': int)
      requires At(t, c, node) && Short(t, c, h) && ColorOf(t).Black? && c.F? && c.side.Left? && parent == c.node
      modifies this`root, nodes
      ensures done ==> Mended(t')
      ensures !done ==>
                && At(t', c', parent) && Short(t', c', h')
                && (Depth(c') < Depth(c) || (Depth(c') == Depth(c) && ColorOf(t').Red?))
    {
      Sibling(t, c, h);
      NephewsLeft(t, c, node);
      c' := c;
      h' := h;
      var other := parent.right;
      if other.color.Red? {
        ghost var s := c.sib;
        SiblingRed(t, Left, parent, other, s.left, s.right, c.up, h);
        RaiseRight(node, parent, other, t, s.left, s.right, c.up);
        c' := F(Left, Red, parent, s.left, F(Left, Black, other, s.right, c.up));
        NephewsLeft(t, c', node);
        other := parent.right;
      }
      if (other.left == null || other.left.color.Black?) && (other.right == null || other.right.color.Black?) {
        t', h' := DimRight(node, parent, other, t, c', h);
        done, c' := false, c'.up;
      } else {
        t' := BrightRight(node, parent, other, t, c', h);
        done := true;
      }
    }

    method LastTurnLeft(parent: Node, other: Node, ghost t: Tree, ghost pc: Color, ghost s: Tree, ghost up: Ctx,
                        ghost h: int)
      requires At(T(pc, parent, t, s), up, parent) && Short(t, F(Left, pc, parent, s, up), h) && ColorOf(t).Black?
      requires s.T? && s.color.Black? && other == s.node && s.right.T? && s.right.color.Red?
      modifies this`root, nodes
      ensures Mended(Plug(T(pc, other, T(Black, parent, t, s.left), Blacken(s.right)), up))
    {
      Down(T(pc, parent, t, s), up, parent, Right);
      ColorLink(s.right, other.right, other);
      SiblingFar(t, Left, pc, parent, other, s.left, s.right, up, h);
      SettleRight(parent, other, other.right, t, pc, s.left, s.right, up);
      Whole(T(pc, other, T(Black, parent, t, s.left), Blacken(s.right)), up, other);
    }

    // the same, mirrored

    lemma NephewsRight(t: Tree, c: Ctx, n: Node?)
      requires At(t, c, n) && c.F? && c.side.Right? && c.sib.T?
      ensures At(c.sib, F(Left, c.color, c.node, t, c.up), c.sib.node) && c.sib.node == c.node.left
      ensures var s, m := c.sib, c.sib.node;
              && ((m.right == null || m.right.color.Black?) <==> ColorOf(s.right).Black?)
              && (m.right != null ==> m.right in nodes && s.right.T? && m.right == s.right.node)
              && ((m.left == null || m.left.color.Black?) <==> ColorOf(s.left).Black?)
              && (m.left != null ==> m.left in nodes && s.left.T? && m.left == s.left.node)
    {
      Across(t, c, n);
      var s, c' := c.sib, F(Left, c.color, c.node, t, c.up);
      Down(s, c', s.node, Right);
      Down(s, c', s.node, Left);
      ColorLink(s.right, s.node.right, s.node);
      ColorLink(s.left, s.node.left, s.node);
    }

    method DimLeft(node: Node?, parent: Node, sibling: Node, ghost t: Tree, ghost c: Ctx, ghost h: int)
      returns (ghost t': Tree, ghost h': int)
      requires At(t, c, node) && Short(t, c, h) && ColorOf(t).Black? && c.F? && c.side.Right? && parent == c.node
      requires c.sib.T? && c.sib.color.Black? && sibling == c.sib.node && ColorOf(c.sib.right).Black?
      requires ColorOf(c.sib.left).Black?
      modifies this`root, nodes
      ensures At(t', c.up, parent) && Short(t', c.up, h') && ColorOf(t') == c.color
    {
      ghost var pc, s, up := c.color, c.sib, c.up;
      Up(t, c, node);
      assert sibling in Nodes(s);
      PaintChild(sibling, Red, Left, pc, parent, s, t, up);
      SiblingDull(t, Right, pc, parent, sibling, s.right, s.left, up, h);
      t', h' := T(pc, parent, T(Red, sibling, s.left, s.right), t), if pc.Black? then h + 1 else h;
    }

    method BrightLeft(node: Node?, parent: Node, sibling: Node, ghost t: Tree, ghost c: Ctx, ghost h: int)
      returns (ghost t': Tree)
      requires At(t, c, node) && Short(t, c, h) && ColorOf(t).Black? && c.F? && c.side.Right? && parent == c.node
      requires c.sib.T? && c.sib.color.Black? && sibling == c.sib.node
      requires ColorOf(c.sib.right).Red? || ColorOf(c.sib.left).Red?
      modifies this`root, nodes
      ensures Mended(t')
    {
      ghost var pc, s, up := c.color, c.sib, c.up;
      NephewsRight(t, c, node);
      Up(t, c, node);
      var other := sibling;
      if sibling.left == null || sibling.left.color.Black? {
        ghost var near := s.right;
        SiblingNear(t, Right, pc, parent, sibling, near.node, near.right, near.left, s.left, up, h);
        TipLeft(sibling, sibling.right, s, F(Left, pc, parent, t, up));
        s := T(Black, near.node, T(Red, sibling, s.left, near.left), near.right);
        Up(s, F(Left, pc, parent, t, up), near.node);
        other := parent.left;
      }
      LastTurnRight(parent, other, t, pc, s, up, h);
      t' := Plug(T(pc, other, Blacken(s.left), T(Black, parent, s.right, t)), up);
    }

    method EraseRight(node: Node?, parent: Node, ghost t: Tree, ghost c: Ctx, ghost h: int)
      returns (done: bool, ghost t': Tree, ghost c': Ctx, ghost h': int)
      requires At(t, c, node) && Short(t, c, h) && ColorOf(t).Black? && c.F? && c.side.Right? && parent == c.node
      modifies this`root, nodes
      ensures done ==> Mended(t')
      ensures !done ==>
                && At(t', c', parent) && Short(t', c', h')
                && (Depth(c') < Depth(c) || (Depth(c') == Depth(c) && ColorOf(t').Red?))
    {
      Sibling(t, c, h);
      NephewsRight(t, c, node);
      c' := c;
      h' := h;
      var other := parent.left;
      if other.color.Red? {
        ghost var s := c.sib;
        SiblingRed(t, Right, parent, other, s.right, s.left, c.up, h);
        RaiseLeft(node, parent, other, t, s.right, s.left, c.up);
        c' := F(Right, Red, parent, s.right, F(Right, Black, other, s.left, c.up));
        NephewsRight(t, c', node);
        other := parent.left;
      }
      if (other.right == null || other.right.color.Black?) && (other.left == null || other.left.color.Black?) {
        t', h' := DimLeft(node, parent, other, t, c', h);
        done, c' := false, c'.up;
      } else {
        t' := BrightLeft(node, parent, other, t, c', h);
        done := true;
      }
    }

    method LastTurnRight(parent: Node, other: Node, ghost t: Tree, ghost pc: Color, ghost s: Tree, ghost up: Ctx,
                         ghost h: int)
      requires At(T(pc, parent, s, t), up, parent) && Short(t, F(Right, pc, parent, s, up), h) && ColorOf(t).Black?
      requires s.T? && s.color.Black? && other == s.node && s.left.T? && s.left.color.Red?
      modifies this`root, nodes
      ensures Mended(Plug(T(pc, other, Blacken(s.left), T(Black, parent, s.right, t)), up))
    {
      Down(T(pc, parent, s, t), up, parent, Left);
      ColorLink(s.left, other.left, other);
      SiblingFar(t, Right, pc, parent, other, s.right, s.left, up, h);
      SettleLeft(parent, other, other.left, t, pc, s.right, s.left, up);
      Whole(T(pc, other, Blacken(s.left), T(Black, parent, s.right, t)), up, other);
    }

    /** `_rbtree_erase_color` */
    method EraseColor(node: Node?, above: Node?, ghost at: Tree, ghost around: Ctx, ghost height: int)
      returns (ghost t: Tree)
      requires At(at, around, node) && Short(at, around, height) && above == AboveOf(around, null)
      modifies this`root, nodes
      ensures Mended(t)
    {
      var n, parent := node, above;
      ghost var c, h := around, height;
      t := at;
      while (n == null || n.color.Black?) && n != root
        invariant At(t, c, n) && Short(t, c, h) && parent == AboveOf(c, null)
        decreases Depth(c) + if ColorOf(t).Black? then 1 else 0
      {
        ColorLink(t, n, AboveOf(c, null));
        Sibling(t, c, h);
        ParentLinks(t, c, n);
        var done;
        if parent.left == n {
          done, t, c, h := EraseLeft(n, parent, t, c, h);
        } else {
          done, t, c, h := EraseRight(n, parent, t, c, h);
        }
        if done {
          BlackRoot(t);
          return;
        }
        n := parent;
        parent := n.parent;
      }
      ColorLink(t, n, AboveOf(c, null));
      if c.F? { RootAbove(c, n); Apart(t, c); }
      ShortDone(t, c, h);
      if n != null {
        assert n in nodes;
        Paint(n, Black, t, c);
      }
      Whole(Blacken(t), c, n);
      t := Plug(Blacken(t), c);
    }

    /** After the last rotation the root is painted black, which it is already. */
    method BlackRoot(ghost t: Tree)
      requires Mended(t)
      modifies nodes
      ensures Mended(t)
    {
      ColorLink(t, root, null);
      if root != null {
        Paint(root, Black, t, Top);
        assert t.(color := Black) == t;
      }
    }

    /** Any node of the tree can be looked at with its context. */
    lemma Focus(node: Node) returns (t: Tree, c: Ctx, h: int)
      requires Valid() && node in nodes
      ensures At(t, c, node) && t.T? && t.node == node
      ensures Sound(t, h) && CtxSound(c, h, t.color) && RootBlack(c) && (c.Top? ==> t.color.Black?)
    {
      h :| Sound(tree, h);
      t, c := tree, Top;
      while t.node != node
        invariant t.T? && At(t, c, t.node) && node in Nodes(t)
        invariant Sound(t, h) && CtxSound(c, h, t.color) && RootBlack(c) && (c.Top? ==> t.color.Black?)
        decreases t
      {
        var side := if node in Nodes(t.left) then Left else Right;
        Down(t, c, t.node, side);
        DownSound(t, c, h, side);
        h := if t.color.Black? then h - 1 else h;
        t, c := if side.Left? then t.left else t.right,
            F(side, t.color, t.node, if side.Left? then t.right else t.left, c);
      }
    }

    /** Taking out a node with at most one child: the child takes its place. */
    method Splice(node: Node, child: Node?, ghost t: Tree, ghost x: Tree, ghost c: Ctx)
      requires At(t, c, node) && t.T?
      requires ((t.left.Leaf? && x == t.right && child == node.right)
                || (t.right.Leaf? && x == t.left && child == node.left))
      modifies this`root, this`nodes, nodes
      ensures At(x, c, child) && nodes == old(nodes) - {node}
    {
      Apart(t, c);
      var parent := node.parent;
      assert Rep(x, child, node) && Placed(x, c) by {
        assert x == t.right ==> Bst(x, Some(node.key), Hi(c));
        assert x == t.left ==> Bst(x, Lo(c), Some(node.key));
        Widen(x, node.key, Lo(c), Hi(c));
      }
      assert allocated(CtxNodes(c));
      Reparent(child, parent, x, node, Lo(c), Hi(c));
      assert allocated(Nodes(x));
      Redirect(parent, node, child, c);
      nodes := nodes - {node};
    }

    /** `s` takes over the links and colour of `gone`, and its children. */
    static method Inherit(gone: Node, s: Node, ghost t: Tree, ghost lo: Option<int>, ghost hi: Option<int>)
      requires t.T? && Bst(t, lo, hi) && Rep(t, gone, gone.parent) && s !in Nodes(t)
      modifies Nodes(t), s
      ensures Rep(T(t.color, s, t.left, t.right), s, old(gone.parent))
    {
      ApartTree(t, lo, hi);
      assert Rep(t.left, gone.left, gone) && Rep(t.right, gone.right, gone);
      assert allocated(Nodes(t.left)) && allocated(Nodes(t.right));
      s.parent, s.color, s.left, s.right := gone.parent, gone.color, gone.left, gone.right;
      Reparent(s.left, s, t.left, gone, lo, Some(t.node.key));
      Reparent(s.right, s, t.right, gone, Some(t.node.key), hi);
    }

    /** Putting `s`, which is outside the tree, in the place of `gone`. */
    method Substitute(gone: Node, s: Node, ghost t: Tree, ghost c: Ctx)
      requires At(t, c, gone) && t.T? && s !in nodes
      requires Between(Lo(c), s.key, Hi(c)) && Bst(t.left, Lo(c), Some(s.key)) && Bst(t.right, Some(s.key), Hi(c))
      modifies this`root, this`nodes, nodes, s
      ensures At(T(t.color, s, t.left, t.right), c, s) && nodes == old(nodes) - {gone} + {s}
    {
      Apart(t, c);
      assert allocated(CtxNodes(c));
      ghost var t' := T(t.color, s, t.left, t.right);
      var parent := gone.parent;
      Inherit(gone, s, t, Lo(c), Hi(c));
      assert allocated(Nodes(t'));
      Redirect(parent, gone, s, c);
      nodes := nodes - {gone} + {s};
    }

    /** Looking at the same tree from the top of a stretch of context, and from its bottom. */
    lemma {:induction false} Climb(u: Tree, p: Ctx, b: Ctx)
      requires At(u, Append(p, b), RootNode(u))
      ensures At(Plug(u, p), b, RootNode(Plug(u, p)))
      decreases p
    {
      if p.F? {
        Up(u, Append(p, b), RootNode(u));
        Climb(Make(p.side, p.color, p.node, u, p.sib), p.up, b);
      }
    }

    lemma {:induction false} Sink(u: Tree, p: Ctx, b: Ctx)
      requires At(Plug(u, p), b, RootNode(Plug(u, p)))
      ensures At(u, Append(p, b), RootNode(u))
      decreases p
    {
      if p.F? {
        var m := Make(p.side, p.color, p.node, u, p.sib);
        Sink(m, p.up, b);
        Down(m, Append(p.up, b), p.node, p.side);
      }
    }

    /** The colour repair at the end of `rbtree_remove`: needed only if the node that left its place was black. */
    method Mend(child: Node?, parent: Node?, color: Color, ghost u: Tree, ghost x: Tree, ghost c: Ctx, ghost h: int)
      requires At(x, c, child) && parent == AboveOf(c, null)
      requires u.T? && color == u.color && (x == u.left || x == u.right) && Sound(u, h) && CtxSound(c, h, color)
      requires RootBlack(c)
      modifies this`root, this`tree, nodes
      ensures Valid()
    {
      if color.Black? {
        SplicedShort(u, x, c, h);
        tree := EraseColor(child, parent, x, c, h - 1);
      } else {
        SplicedRed(u, x, c, h);
        Whole(x, c, child);
        tree := Plug(x, c);
      }
    }

    /** The search for the next node, the leftmost of the right subtree. */
    method Successor(gone: Node, ghost t: Tree, ghost c: Ctx, ghost h: int)
      returns (s: Node, ghost u: Tree, ghost p: Ctx, ghost h': int)
      requires At(t, c, gone) && t.T? && t.right.T? && Sound(t, h) && CtxSound(c, h, t.color) && RootBlack(c)
      requires c.Top? ==> t.color.Black?
      ensures AllLeft(p) && u.T? && u.left.Leaf? && u.node == s
      ensures var full := Append(p, F(Right, t.color, gone, t.left, c));
              At(u, full, s) && Sound(u, h') && CtxSound(full, h', u.color) && RootBlack(full)
    {
      Down(t, c, gone, Right);
      DownSound(t, c, h, Right);
      s, u, p, h' := gone.right, t.right, Top, if t.color.Black? then h - 1 else h;
      ghost var b := F(Right, t.color, gone, t.left, c);
      while s.left != null
        invariant AllLeft(p) && u.T? && u.node == s && Append(p, b).F?
        invariant At(u, Append(p, b), s) && Sound(u, h') && CtxSound(Append(p, b), h', u.color)
        invariant RootBlack(Append(p, b))
        decreases u
      {
        Down(u, Append(p, b), s, Left);
        DownSound(u, Append(p, b), h', Left);
        h' := if u.color.Black? then h' - 1 else h';
        s := s.left;
        p := F(Left, u.color, u.node, u.right, p);
        u := u.left;
      }
      ColorLink(u.left, s.left, s);
    }

    /** `rbtree_remove` of a node with two children: the next node is taken out of its place and put in this one. */
    method RemoveInner(gone: Node, ghost t: Tree, ghost c: Ctx, ghost h: int)
      requires At(t, c, gone) && t.T? && t.right.T? && Sound(t, h) && CtxSound(c, h, t.color) && RootBlack(c)
      requires c.Top? ==> t.color.Black?
      modifies this, nodes
      ensures Valid() && nodes == old(nodes) - {gone}
    {
      var s;
      ghost var u, p, h';
      s, u, p, h' := Successor(gone, t, c, h);
      ghost var b := F(Right, t.color, gone, t.left, c);
      var child, parent, color := Transplant(gone, s, u, p, t, c);
      RenameSound(p, b, s, h', color);
      Mend(child, parent, color, u, u.right, Append(p, b.(node := s)), h');
    }

    /** Taking `s` out of its place and putting it in the place of `gone`. The assignments are grouped by place; the
        links they leave are those of `rbtree_remove`. */
    method Transplant(gone: Node, s: Node, ghost u: Tree, ghost p: Ctx, ghost t: Tree, ghost c: Ctx)
      returns (child: Node?, parent: Node?, color: Color)
      requires t.T? && AllLeft(p) && u.T? && u.left.Leaf? && u.node == s
      requires At(u, Append(p, F(Right, t.color, gone, t.left, c)), s)
      modifies this`root, this`nodes, nodes
      ensures At(u.right, Append(p, F(Right, t.color, s, t.left, c)), child) && color == u.color
      ensures nodes == old(nodes) - {gone}
      ensures parent == AboveOf(Append(p, F(Right, t.color, s, t.left, c)), null)
    {
      ghost var full := Append(p, F(Right, t.color, gone, t.left, c));
      Surroundings(gone, s, u, p, t, c);
      child, parent, color := s.right, s.parent, s.color;
      if parent == gone { parent := s; }
      Splice(s, child, u, u.right, full);
      ColorLink(u.right, child, AboveOf(full, null));
      Exchange(gone, s, u.right, p, t, c);
    }

    /** What is known of the next node's place before anything moves. */
    lemma Surroundings(gone: Node, s: Node, u: Tree, p: Ctx, t: Tree, c: Ctx)
      requires t.T? && AllLeft(p) && u.T? && u.left.Leaf? && u.node == s
      requires At(u, Append(p, F(Right, t.color, gone, t.left, c)), s)
      ensures var full := Append(p, F(Right, t.color, gone, t.left, c));
              && s in nodes && gone in nodes && s.color == u.color && s != gone
              && (if s.parent == gone then s else s.parent) == AboveOf(Append(p, F(Right, t.color, s, t.left, c)), null)
              && Between(Lo(full), s.key, Hi(full)) && Bst(u.right, Some(s.key), Hi(full))
    {
      var full := Append(p, F(Right, t.color, gone, t.left, c));
      Apart(u, full);
      ParentLinks(u, full, s);
      LeftPathLo(p, F(Right, t.color, gone, t.left, c));
      PathApart(p, gone, t, c);
      assert Bst(u, Lo(full), Hi(full));
    }

    lemma PathApart(p: Ctx, gone: Node, t: Tree, c: Ctx)
      requires t.T? && AllLeft(p) && CtxBst(Append(p, F(Right, t.color, gone, t.left, c)))
      ensures p.F? ==> p.node != gone
    {
      if p.F? { LeftPathLo(p.up, F(Right, t.color, gone, t.left, c)); }
    }

    method Exchange(gone: Node, s: Node, ghost x: Tree, ghost p: Ctx, ghost t: Tree, ghost c: Ctx)
      requires t.T? && AllLeft(p) && At(x, Append(p, F(Right, t.color, gone, t.left, c)), RootNode(x)) && s !in nodes
      requires var full := Append(p, F(Right, t.color, gone, t.left, c));
               Between(Lo(full), s.key, Hi(full)) && Bst(x, Some(s.key), Hi(full))
      modifies this`root, this`nodes, nodes, s
      ensures At(x, Append(p, F(Right, t.color, s, t.left, c)), RootNode(x)) && nodes == old(nodes) - {gone} + {s}
    {
      ghost var b, b', r := F(Right, t.color, gone, t.left, c), F(Right, t.color, s, t.left, c), Plug(x, p);
      Climb(x, p, b);
      LeftmostIsNext(s, x, p, gone, t.color, t.left, c);
      Up(r, b, RootNode(r));
      Substitute(gone, s, T(t.color, gone, t.left, r), c);
      Down(T(t.color, s, t.left, r), c, s, Right);
      Sink(x, p, b');
    }

    /** `rbtree_remove` */
    method Remove(node: Node)
      requires Valid() && node in nodes
      modifies this, nodes
      ensures Valid() && nodes == old(nodes) - {node}
    {
      ghost var t, c, h := Focus(node);
      assert Rep(t.left, node.left, node) && Rep(t.right, node.right, node);
      var child, parent, color := node.right, node.parent, node.color;
      ghost var x := t.right;
      if node.left != null {
        if node.right != null {
          RemoveInner(node, t, c, h);
          return;
        }
        child, x := node.left, t.left;
      }
      Splice(node, child, t, x, c);
      Mend(child, parent, color, t, x, c, h);
    }

    /** The node with the least key above `node`'s, or none if there is no larger key. */
    ghost predicate IsNext(r: Node?, node: Node)
      reads this
    {
      if r == null then forall m :: m in nodes ==> m.key <= node.key
      else r in nodes && r.key > node.key && forall m :: m in nodes ==> m.key <= node.key || r.key <= m.key
    }

    /** The leftmost node of a right subtree. */
    method NextBelow(node: Node, ghost t: Tree, ghost c: Ctx) returns (r: Node?)
      requires At(t, c, node) && t.T? && t.right.T?
      ensures IsNext(r, node)
    {
      Down(t, c, node, Right);
      var n := node.right;
      ghost var u, p, b := t.right, Top, F(Right, t.color, node, t.left, c);
      while n.left != null
        invariant AllLeft(p) && u.T? && u.node == n && At(u, Append(p, b), n)
        decreases u
      {
        Down(u, Append(p, b), n, Left);
        n := n.left;
        p := F(Left, u.color, u.node, u.right, p);
        u := u.left;
      }
      ColorLink(u.left, n.left, n);
      r := n;
      ghost var full := Append(p, b);
      LeftPathLo(p, b);
      assert Bst(u, Lo(full), Hi(full)) && Nodes(u) == {n} + Nodes(u.left) + Nodes(u.right) && Nodes(u.left) == {};
      forall m | m in nodes ensures m.key <= node.key || n.key <= m.key {
        if m in CtxNodes(full) { CtxOutside(full, m); }
        else if m in Nodes(u.right) { BstBounds(u.right, Some(n.key), Hi(full), m); }
      }
    }

    /** `rbtree_next` */
    method Next(node: Node) returns (r: Node?)
      requires Valid() && node in nodes
      ensures IsNext(r, node)
    {
      ghost var t, c, h := Focus(node);
      ColorLink(t.right, node.right, node);
      if node.right != null {
        r := NextBelow(node, t, c);
        return;
      }
      var n := node;
      assert Bst(t, Lo(c), Hi(c)) && Nodes(t) == {node} + Nodes(t.left) + Nodes(t.right) && Nodes(t.right) == {};
      forall m | m in Nodes(t) ensures m.key <= node.key {
        if m in Nodes(t.left) { BstBounds(t.left, Lo(c), Some(node.key), m); }
      }
      while n.parent != null && n == n.parent.right
        invariant At(t, c, n) && t.T? && node in Nodes(t) && n.parent == AboveOf(c, null)
        invariant forall m :: m in Nodes(t) ==> m.key <= node.key
        decreases Depth(c)
      {
        ParentLinks(t, c, n);
        Up(t, c, n);
        BstBounds(t, Lo(c), Hi(c), node);
        forall m | m in Nodes(c.sib) ensures m.key <= node.key { BstBounds(c.sib, Lo(c.up), Some(c.node.key), m); }
        n := n.parent;
        t, c := Make(c.side, c.color, c.node, t, c.sib), c.up;
      }
      r := n.parent;
      if c.F? {
        ParentLinks(t, c, n);
        BstBounds(t, Lo(c), Hi(c), node);
        forall m | m in nodes ensures m.key <= node.key || r.key <= m.key {
          if m in CtxNodes(c) { NextAbove(t, c, m); }
        }
      }
    }
  }
}
