/** The shapes behind a red-black tree of linked nodes: the tree itself, and the context that surrounds a subtree, read
    from the subtree upwards. What the fix-up loops of src/container/rbtree.c do is stated here on such pairs. */
module RbShape {
  import opened Prelude

  datatype Color = Red | Black
  datatype Side = Left | Right

  class Node {
    var parent: Node?
    var left: Node?
    var right: Node?
    var color: Color
    /** What the comparators look at. */
    const key: int

    constructor (key: int)
      ensures this.key == key
    {
      this.key := key;
    }
  }

  datatype Tree = Leaf | T(color: Color, node: Node, left: Tree, right: Tree)

  /** A frame is a node above the subtree: the side the subtree hangs on, and the subtree on the other side. */
  datatype Ctx = Top | F(side: Side, color: Color, node: Node, sib: Tree, up: Ctx)

  function Opposite(side: Side): Side { if side.Left? then Right else Left }

  /** A tree with `near` on the given side and `far` on the other. */
  function Make(side: Side, color: Color, node: Node, near: Tree, far: Tree): Tree {
    if side.Left? then T(color, node, near, far) else T(color, node, far, near)
  }

  function Plug(t: Tree, c: Ctx): Tree
    decreases c
  {
    match c
    case Top => t
    case F(side, color, node, sib, up) => Plug(Make(side, color, node, t, sib), up)
  }

  function Nodes(t: Tree): set<Node> {
    match t
    case Leaf => {}
    case T(_, node, left, right) => {node} + Nodes(left) + Nodes(right)
  }

  function CtxNodes(c: Ctx): set<Node> {
    match c
    case Top => {}
    case F(_, _, node, sib, up) => {node} + Nodes(sib) + CtxNodes(up)
  }

  // ---- key order --------------------------------------------------------------------------------------------------

  predicate Between(lo: Option<int>, k: int, hi: Option<int>) {
    (lo.None? || lo.value < k) && (hi.None? || k < hi.value)
  }

  predicate Bst(t: Tree, lo: Option<int>, hi: Option<int>) {
    match t
    case Leaf => true
    case T(_, node, left, right) =>
      Between(lo, node.key, hi) && Bst(left, lo, Some(node.key)) && Bst(right, Some(node.key), hi)
  }

  /** The keys between which a subtree in this context must lie. */
  function Lo(c: Ctx): Option<int> {
    if c.Top? then None else if c.side.Left? then Lo(c.up) else Some(c.node.key)
  }

  function Hi(c: Ctx): Option<int> {
    if c.Top? then None else if c.side.Left? then Some(c.node.key) else Hi(c.up)
  }

  predicate CtxBst(c: Ctx) {
    match c
    case Top => true
    case F(side, _, node, sib, up) =>
      && Between(Lo(up), node.key, Hi(up)) && CtxBst(up)
      && (if side.Left? then Bst(sib, Some(node.key), Hi(up)) else Bst(sib, Lo(up), Some(node.key)))
  }

  predicate Placed(t: Tree, c: Ctx) { Bst(t, Lo(c), Hi(c)) && CtxBst(c) }

  lemma {:induction false} BstBounds(t: Tree, lo: Option<int>, hi: Option<int>, n: Node)
    requires Bst(t, lo, hi) && n in Nodes(t)
    ensures Between(lo, n.key, hi)
  {
    if n != t.node {
      if n in Nodes(t.left) {
        BstBounds(t.left, lo, Some(t.node.key), n);
      } else {
        BstBounds(t.right, Some(t.node.key), hi, n);
      }
    }
  }

  lemma {:induction false} CtxOutside(c: Ctx, n: Node)
    requires CtxBst(c) && n in CtxNodes(c)
    ensures !Between(Lo(c), n.key, Hi(c))
  {
    if n == c.node {
    } else if n in Nodes(c.sib) {
      if c.side.Left? {
        BstBounds(c.sib, Some(c.node.key), Hi(c.up), n);
      } else {
        BstBounds(c.sib, Lo(c.up), Some(c.node.key), n);
      }
    } else {
      CtxOutside(c.up, n);
    }
  }

  /** A node of the subtree is not a node of its context, nor of two parts of the subtree at once. */
  lemma Apart(t: Tree, c: Ctx)
    requires Placed(t, c)
    ensures Nodes(t) !! CtxNodes(c)
    ensures t.T? ==> t.node !in Nodes(t.left) && t.node !in Nodes(t.right) && Nodes(t.left) !! Nodes(t.right)
    ensures c.F? ==> c.node !in Nodes(c.sib) && c.node !in CtxNodes(c.up) && Nodes(c.sib) !! CtxNodes(c.up)
  {
    forall n | n in Nodes(t) ensures n !in CtxNodes(c) {
      BstBounds(t, Lo(c), Hi(c), n);
      if n in CtxNodes(c) { CtxOutside(c, n); }
    }
    if t.T? { ApartTree(t, Lo(c), Hi(c)); }
    if c.F? { ApartFrame(c); }
  }

  lemma ApartTree(t: Tree, lo: Option<int>, hi: Option<int>)
    requires Bst(t, lo, hi) && t.T?
    ensures t.node !in Nodes(t.left) && t.node !in Nodes(t.right) && Nodes(t.left) !! Nodes(t.right)
  {
    forall n | n in Nodes(t.left) ensures n != t.node && n !in Nodes(t.right) {
      BstBounds(t.left, lo, Some(t.node.key), n);
      if n in Nodes(t.right) { BstBounds(t.right, Some(t.node.key), hi, n); }
    }
    forall n | n in Nodes(t.right) ensures n != t.node { BstBounds(t.right, Some(t.node.key), hi, n); }
  }

  lemma ApartFrame(c: Ctx)
    requires CtxBst(c) && c.F?
    ensures c.node !in Nodes(c.sib) && c.node !in CtxNodes(c.up) && Nodes(c.sib) !! CtxNodes(c.up)
  {
    forall n | n in CtxNodes(c.up) ensures n != c.node && n !in Nodes(c.sib) {
      CtxOutside(c.up, n);
      if n in Nodes(c.sib) {
        if c.side.Left? {
          BstBounds(c.sib, Some(c.node.key), Hi(c.up), n);
        } else {
          BstBounds(c.sib, Lo(c.up), Some(c.node.key), n);
        }
      }
    }
    forall n | n in Nodes(c.sib) ensures n != c.node {
      if c.side.Left? {
        BstBounds(c.sib, Some(c.node.key), Hi(c.up), n);
      } else {
        BstBounds(c.sib, Lo(c.up), Some(c.node.key), n);
      }
    }
  }

  /** The context p, below the context b. */
  function Append(p: Ctx, b: Ctx): Ctx { if p.Top? then b else p.(up := Append(p.up, b)) }

  predicate AllLeft(p: Ctx) { p.F? ==> p.side.Left? && AllLeft(p.up) }

  lemma {:induction false} LeftPathLo(p: Ctx, b: Ctx)
    requires AllLeft(p)
    ensures Lo(Append(p, b)) == Lo(b) && CtxNodes(Append(p, b)) == CtxNodes(p) + CtxNodes(b)
  {
    if p.F? { LeftPathLo(p.up, b); }
  }

  lemma {:induction false} LeftPathHi(p: Ctx, b: Ctx, k: int)
    requires AllLeft(p) && CtxBst(Append(p, b)) && Between(None, k, Hi(Append(p, b)))
    ensures Between(None, k, Hi(b))
  {
    if p.F? { LeftPathHi(p.up, b, k); }
  }

  lemma {:induction false} PlugNodes(t: Tree, c: Ctx)
    ensures Nodes(Plug(t, c)) == Nodes(t) + CtxNodes(c)
    decreases c
  {
    if c.F? { PlugNodes(Make(c.side, c.color, c.node, t, c.sib), c.up); }
  }

  /** A lower bound on the keys can be raised to what the nodes allow, ... */
  lemma {:induction false} RaiseLo(t: Tree, lo: Option<int>, hi: Option<int>, k: int)
    requires Bst(t, lo, hi) && forall m :: m in Nodes(t) ==> k < m.key
    ensures Bst(t, Some(k), hi)
  {
    if t.T? { RaiseLo(t.left, lo, Some(t.node.key), k); }
  }

  /** ... and an upper bound can always be raised. */
  lemma {:induction false} RaiseHi(t: Tree, lo: Option<int>, hi: int, k: int)
    requires Bst(t, lo, Some(hi)) && hi <= k
    ensures Bst(t, lo, Some(k))
  {
    if t.T? { RaiseHi(t.right, Some(t.node.key), hi, k); }
  }

  /** A node in the leftmost place of the right subtree of `old` has the next key after it. */
  lemma LeftmostIsNext(s: Node, child: Tree, p: Ctx, gone: Node, color: Color, l: Tree, c: Ctx)
    requires AllLeft(p) && Placed(child, Append(p, F(Right, color, gone, l, c)))
    requires Between(Lo(Append(p, F(Right, color, gone, l, c))), s.key, Hi(Append(p, F(Right, color, gone, l, c))))
    requires Bst(child, Some(s.key), Hi(Append(p, F(Right, color, gone, l, c))))
    requires Bst(Plug(child, p), Some(gone.key), Hi(c))
    ensures Between(Lo(c), s.key, Hi(c)) && Bst(l, Lo(c), Some(s.key)) && Bst(Plug(child, p), Some(s.key), Hi(c))
  {
    var b := F(Right, color, gone, l, c);
    var full := Append(p, b);
    LeftPathHi(p, b, s.key);
    LeftPathLo(p, b);
    PlugNodes(child, p);
    forall m | m in Nodes(Plug(child, p)) ensures s.key < m.key {
      BstBounds(Plug(child, p), Some(gone.key), Hi(c), m);
      if m in Nodes(child) { BstBounds(child, Some(s.key), Hi(full), m); } else { CtxOutside(full, m); }
    }
    RaiseLo(Plug(child, p), Some(gone.key), Hi(c), s.key);
    FrameBst(p, b);
    RaiseHi(l, Lo(c), gone.key, s.key);
  }

  lemma {:induction false} FrameBst(p: Ctx, b: Ctx)
    requires CtxBst(Append(p, b))
    ensures CtxBst(b)
  {
    if p.F? { FrameBst(p.up, b); }
  }

  /** The parent of a left child holds the least key above the child's subtree. */
  lemma NextAbove(t: Tree, c: Ctx, m: Node)
    requires t.T? && Placed(t, c) && c.F? && c.side.Left? && m in CtxNodes(c)
    ensures m.key >= c.node.key || forall n :: n in Nodes(t) ==> m.key < n.key
  {
    CtxOutside(c, m);
    if m in CtxNodes(c.up) { CtxOutside(c.up, m); }
    if m in Nodes(c.sib) { BstBounds(c.sib, Some(c.node.key), Hi(c.up), m); }
    forall n | n in Nodes(t) ensures Between(Lo(c), n.key, Hi(c)) { BstBounds(t, Lo(c), Hi(c), n); }
  }

  // ---- colours ----------------------------------------------------------------------------------------------------

  function ColorOf(t: Tree): Color { if t.T? then t.color else Black }

  /** Every path down from the root passes h black nodes. */
  predicate BlackHeight(t: Tree, h: int) {
    match t
    case Leaf => h == 0
    case T(color, _, left, right) =>
      var below := if color.Black? then h - 1 else h;
      BlackHeight(left, below) && BlackHeight(right, below)
  }

  predicate NoRedRed(t: Tree) {
    t.T? ==>
      (t.color.Red? ==> ColorOf(t.left).Black? && ColorOf(t.right).Black?) && NoRedRed(t.left) && NoRedRed(t.right)
  }

  predicate Sound(t: Tree, h: int) { BlackHeight(t, h) && NoRedRed(t) }

  function Blacken(t: Tree): Tree { if t.T? then t.(color := Black) else t }

  /** Around a subtree of black height h whose root has the given colour, everything is as a red-black tree should
      be. */
  predicate CtxSound(c: Ctx, h: int, focus: Color) {
    match c
    case Top => true
    case F(_, color, _, sib, up) =>
      && Sound(sib, h) && (color.Red? ==> focus.Black? && ColorOf(sib).Black?)
      && CtxSound(up, if color.Black? then h + 1 else h, color)
  }

  /** The outermost node, if there is one around, is black. */
  predicate RootBlack(c: Ctx) { c.F? ==> if c.up.Top? then c.color.Black? else RootBlack(c.up) }

  /** A red-black tree with a black root. */
  ghost predicate RedBlack(t: Tree) { ColorOf(t).Black? && exists h :: Sound(t, h) }

  lemma {:induction false} HeightNatural(t: Tree, h: int)
    requires BlackHeight(t, h)
    ensures h >= 0
  {
    if t.T? { HeightNatural(t.left, if t.color.Black? then h - 1 else h); }
  }

  lemma {:induction false} PlugSound(t: Tree, c: Ctx, h: int)
    requires Sound(t, h) && CtxSound(c, h, ColorOf(t)) && RootBlack(c) && (c.Top? ==> ColorOf(t).Black?)
    ensures RedBlack(Plug(t, c))
    decreases c
  {
    if c.F? { PlugSound(Make(c.side, c.color, c.node, t, c.sib), c.up, if c.color.Black? then h + 1 else h); }
  }

  /** A context that tolerates a red subtree tolerates a black one. */
  lemma CtxForBlack(c: Ctx, h: int, focus: Color)
    requires CtxSound(c, h, focus)
    ensures CtxSound(c, h, Black)
  {
  }

  /** Soundness of a context does not look at which node a frame holds. */
  lemma {:induction false} RenameSound(p: Ctx, b: Ctx, n: Node, h: int, focus: Color)
    requires b.F? && CtxSound(Append(p, b), h, focus) && RootBlack(Append(p, b))
    ensures CtxSound(Append(p, b.(node := n)), h, focus) && RootBlack(Append(p, b.(node := n)))
  {
    if p.F? { RenameSound(p.up, b, n, if p.color.Black? then h + 1 else h, p.color); }
  }

  // ---- height -----------------------------------------------------------------------------------------------------

  function Height(t: Tree): nat {
    if t.Leaf? then 0 else 1 + if Height(t.left) > Height(t.right) then Height(t.left) else Height(t.right)
  }

  function Pow2(n: nat): nat { if n == 0 then 1 else 2 * Pow2(n - 1) }

  lemma {:induction false} HeightByBlack(t: Tree, h: int)
    requires Sound(t, h)
    ensures 0 <= h && Height(t) <= 2 * h + (if ColorOf(t).Red? then 1 else 0)
  {
    if t.T? {
      var below := if t.color.Black? then h - 1 else h;
      HeightByBlack(t.left, below);
      HeightByBlack(t.right, below);
    }
  }

  lemma {:induction false} SizeByBlack(t: Tree, h: int, lo: Option<int>, hi: Option<int>)
    requires Sound(t, h) && Bst(t, lo, hi)
    ensures 0 <= h && Pow2(h) <= |Nodes(t)| + 1
  {
    HeightNatural(t, h);
    if t.T? {
      var below := if t.color.Black? then h - 1 else h;
      SizeByBlack(t.left, below, lo, Some(t.node.key));
      SizeByBlack(t.right, below, Some(t.node.key), hi);
      ApartTree(t, lo, hi);
      assert |Nodes(t)| == 1 + |Nodes(t.left)| + |Nodes(t.right)|;
    }
  }

  lemma {:induction false} Pow2Adds(a: nat, b: nat)
    ensures Pow2(a + b) == Pow2(a) * Pow2(b) && Pow2(a) > 0
  {
    if a > 0 { Pow2Adds(a - 1, b); }
  }

  lemma {:induction false} Pow2Grows(a: nat, b: nat)
    requires a <= b
    ensures Pow2(a) <= Pow2(b)
    decreases b
  {
    if a < b { Pow2Grows(a, b - 1); }
  }

  lemma SquareGrows(a: nat, b: nat)
    requires a <= b
    ensures a * a <= b * b
  {
    assert a * a <= a * b;
    assert a * b <= b * b;
  }

  /** The height of a red-black tree of n nodes is at most 2 log2(n + 1): two to the height is at most (n + 1)
      squared. */
  lemma HeightBound(t: Tree)
    requires RedBlack(t) && Bst(t, None, None)
    ensures Pow2(Height(t)) <= (|Nodes(t)| + 1) * (|Nodes(t)| + 1)
  {
    var h :| Sound(t, h);
    HeightByBlack(t, h);
    SizeByBlack(t, h, None, None);
    Pow2Grows(Height(t), 2 * h);
    Pow2Adds(h, h);
    SquareGrows(Pow2(h), |Nodes(t)| + 1);
  }
}
