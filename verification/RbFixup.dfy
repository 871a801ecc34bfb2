/** What one turn of each fix-up loop does to the colours, on a subtree and its context. */
module RbFixup {
  import opened RbShape

  // ---- after an insertion -----------------------------------------------------------------------------------------

  /** A red subtree whose only fault may be a red parent. */
  predicate RedHere(t: Tree, c: Ctx, h: int) {
    t.T? && t.color.Red? && Sound(t, h) && CtxSound(c, h, Black) && RootBlack(c)
  }

  /** A red parent has a black parent of its own. */
  lemma Grandparent(t: Tree, c: Ctx, h: int)
    requires RedHere(t, c, h) && c.F? && c.color.Red?
    ensures c.up.F? && c.up.color.Black? && Sound(c.sib, h) && ColorOf(c.sib).Black? && Sound(c.up.sib, h)
    ensures CtxSound(c.up.up, h + 1, Black) && RootBlack(c.up.up)
  {
    assert CtxSound(c.up, h, Red) && RootBlack(c.up);
  }

  /** A red uncle: the red moves two levels up. */
  lemma UncleRed(t: Tree, c: Ctx, h: int)
    requires RedHere(t, c, h) && c.F? && c.color.Red? && c.up.F? && ColorOf(c.up.sib).Red?
    ensures RedHere(Make(c.up.side, Red, c.up.node, Make(c.side, Black, c.node, t, c.sib), Blacken(c.up.sib)), c.up.up,
                    h + 1)
  {
    Grandparent(t, c, h);
    assert Sound(Make(c.side, Black, c.node, t, c.sib), h + 1) && Sound(Blacken(c.up.sib), h + 1);
  }

  /** A black uncle: with node and parent in line on `side`, the parent takes the grandparent's place. */
  lemma UncleBlack(side: Side, p: Node, near: Tree, far: Tree, g: Node, uncle: Tree, up: Ctx, h: int)
    requires near.T? && near.color.Red? && Sound(near, h) && Sound(far, h) && ColorOf(far).Black?
    requires Sound(uncle, h) && ColorOf(uncle).Black? && CtxSound(up, h + 1, Black) && RootBlack(up)
    ensures RedHere(near, F(side, Black, p, Make(side, Red, g, far, uncle), up), h)
  {
  }

  /** The loop has ended; painting the root black completes the tree. */
  lemma {:induction false} InsertDone(t: Tree, c: Ctx, h: int)
    requires RedHere(t, c, h) && (c.F? ==> c.color.Black?)
    ensures Plug(t, c).T? && RedBlack(Blacken(Plug(t, c)))
  {
    if c.Top? {
      assert Sound(Blacken(t), h + 1);
    } else {
      PlugSound(t, c, h);
      PlugIsTree(t, c);
      assert Blacken(Plug(t, c)) == Plug(t, c);
    }
  }

  lemma {:induction false} PlugIsTree(t: Tree, c: Ctx)
    requires t.T? || c.F?
    ensures Plug(t, c).T?
    decreases c
  {
    if c.F? { PlugIsTree(Make(c.side, c.color, c.node, t, c.sib), c.up); }
  }

  /** One step down keeps what is known of subtree and context. */
  lemma DownSound(t: Tree, c: Ctx, h: int, side: Side)
    requires t.T? && Sound(t, h) && CtxSound(c, h, t.color) && RootBlack(c) && (c.Top? ==> t.color.Black?)
    ensures var near, far := if side.Left? then t.left else t.right, if side.Left? then t.right else t.left;
            var below := if t.color.Black? then h - 1 else h;
            Sound(near, below) && CtxSound(F(side, t.color, t.node, far, c), below, ColorOf(near))
                && RootBlack(F(side, t.color, t.node, far, c))
  {
  }

  // ---- after a removal --------------------------------------------------------------------------------------------

  /** A subtree one black node short of what its context expects. */
  predicate Short(t: Tree, c: Ctx, h: int) {
    Sound(Blacken(t), if ColorOf(t).Red? then h + 1 else h) && BlackHeight(t, h) && CtxSound(c, h + 1, Black)
        && RootBlack(c)
  }

  /** The sibling of a short subtree is there, and so are the children of a red sibling. */
  lemma Sibling(t: Tree, c: Ctx, h: int)
    requires Short(t, c, h) && c.F?
    ensures c.sib.T? && Sound(c.sib, h + 1)
    ensures c.sib.color.Red? ==>
              c.color.Black? && c.sib.left.T? && c.sib.right.T? && c.sib.left.color.Black? && c.sib.right.color.Black?
  {
    HeightNatural(t, h);
    if c.sib.color.Red? { assert BlackHeight(c.sib.left, h + 1) && BlackHeight(c.sib.right, h + 1); }
  }

  /** A red sibling is rotated above the parent; the new sibling is black. */
  lemma SiblingRed(t: Tree, side: Side, p: Node, s: Node, near: Tree, far: Tree, up: Ctx, h: int)
    requires Short(t, F(side, Black, p, Make(side, Red, s, near, far), up), h)
    ensures Short(t, F(side, Red, p, near, F(side, Black, s, far, up)), h)
  {
  }

  /** A black sibling with black children turns red, and the shortage moves to the parent. */
  lemma SiblingDull(t: Tree, side: Side, pc: Color, p: Node, s: Node, near: Tree, far: Tree, up: Ctx, h: int)
    requires Short(t, F(side, pc, p, Make(side, Black, s, near, far), up), h) && ColorOf(t).Black?
    requires ColorOf(near).Black? && ColorOf(far).Black?
    ensures Short(Make(side, pc, p, t, Make(side, Red, s, near, far)), up, if pc.Black? then h + 1 else h)
  {
    var m := Make(side, pc, p, t, Make(side, Red, s, near, far));
    assert Sound(t, h) && Sound(near, h) && Sound(far, h);
    assert Sound(Make(side, Red, s, near, far), h);
    assert BlackHeight(m, if pc.Black? then h + 1 else h);
    assert Sound(Blacken(m), h + 1);
    CtxForBlack(up, if pc.Black? then h + 2 else h + 1, pc);
  }

  /** A black sibling with only its near child red is rotated, so that its far child is red. */
  lemma SiblingNear(t: Tree, side: Side, pc: Color, p: Node, s: Node, n: Node, a: Tree, b: Tree, far: Tree, up: Ctx,
                    h: int)
    requires Short(t, F(side, pc, p, Make(side, Black, s, Make(side, Red, n, a, b), far), up), h) && ColorOf(far).Black?
    ensures Short(t, F(side, pc, p, Make(side, Black, n, a, Make(side, Red, s, b, far)), up), h)
  {
    assert Sound(Make(side, Red, n, a, b), h);
    assert Sound(a, h) && Sound(b, h) && Sound(far, h) && ColorOf(a).Black? && ColorOf(b).Black?;
    assert Sound(Make(side, Red, s, b, far), h);
    assert Sound(Make(side, Black, n, a, Make(side, Red, s, b, far)), h + 1);
  }

  /** A black sibling with its far child red takes the parent's place and colour, which settles the shortage. */
  lemma SiblingFar(t: Tree, side: Side, pc: Color, p: Node, s: Node, near: Tree, far: Tree, up: Ctx, h: int)
    requires Short(t, F(side, pc, p, Make(side, Black, s, near, far), up), h) && ColorOf(t).Black? && ColorOf(far).Red?
    ensures RedBlack(Plug(Make(side, pc, s, Make(side, Black, p, t, near), Blacken(far)), up))
  {
    var inner := Make(side, Black, p, t, near);
    assert Sound(t, h) && Sound(near, h) && Sound(far, h);
    assert Sound(inner, h + 1) && Sound(Blacken(far), h + 1);
    var m := Make(side, pc, s, inner, Blacken(far));
    var h' := if pc.Black? then h + 2 else h + 1;
    assert Sound(m, h');
    PlugSound(m, up, h');
  }

  /** The loop has ended at a red node or at the root; painting it black completes the tree. */
  lemma ShortDone(t: Tree, c: Ctx, h: int)
    requires Short(t, c, h) && (ColorOf(t).Red? || c.Top?)
    ensures RedBlack(Plug(Blacken(t), c))
  {
    PlugSound(Blacken(t), c, if ColorOf(t).Red? then h + 1 else h);
  }

  /** A black node with at most one child is taken out: its place is one black node short. */
  lemma SplicedShort(t: Tree, x: Tree, c: Ctx, h: int)
    requires t.T? && (x == t.left || x == t.right) && Sound(t, h) && CtxSound(c, h, Black) && RootBlack(c)
    requires t.color.Black?
    ensures Short(x, c, h - 1)
  {
    assert Sound(x, h - 1);
    assert ColorOf(x).Red? ==> Sound(Blacken(x), h);
  }

  /** A red one leaves the tree as it should be. */
  lemma SplicedRed(t: Tree, x: Tree, c: Ctx, h: int)
    requires t.T? && (x == t.left || x == t.right) && Sound(t, h) && CtxSound(c, h, Red) && RootBlack(c) && t.color.Red?
    ensures RedBlack(Plug(x, c))
  {
    CtxForBlack(c, h, Red);
    PlugSound(x, c, h);
  }
}
