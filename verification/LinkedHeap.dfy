/** The intrusive binary min-heap of src/container/heap.c, whose nodes are linked to children and parent.
    Node number k has children 2k and 2k + 1; `layout` lists the nodes by number. */
module LinkedHeap {
  import opened HeapOrder

  class Node {
    var left: Node?
    var right: Node?
    var parent: Node?
    /** What the comparator looks at, in the structure the node is embedded in. */
    var key: int

    constructor (key: int)
      ensures this.key == key
    {
      this.key := key;
    }
  }

  /** Node number k, or NULL outside the tree. */
  function At(layout: seq<Node>, k: int): Node? { if 1 <= k <= |layout| then layout[k - 1] else null }

  /** Every node's links are those of its number in a complete tree. */
  predicate LinkedAt(layout: seq<Node>, k: int)
    requires 1 <= k <= |layout|
    reads layout
  {
    && layout[k - 1].left == At(layout, 2 * k)
    && layout[k - 1].right == At(layout, 2 * k + 1)
    && layout[k - 1].parent == At(layout, k / 2)
  }

  predicate Linked(layout: seq<Node>)
    reads layout
  {
    forall k :: 1 <= k <= |layout| ==> LinkedAt(layout, k)
  }

  predicate Distinct(layout: seq<Node>) { forall i, j :: 0 <= i < j < |layout| ==> layout[i] != layout[j] }

  function Keys(layout: seq<Node>): (keys: seq<int>)
    reads layout
    ensures |keys| == |layout|
  {
    seq(|layout|, i requires 0 <= i < |layout| reads layout => layout[i].key)
  }

  lemma KeysAre(layout: seq<Node>, keys: seq<int>)
    requires |layout| == |keys| && forall i :: 0 <= i < |layout| ==> layout[i].key == keys[i]
    ensures Keys(layout) == keys
  {
  }

  /** The links of the node numbered k once nodes i and j = 2i or 2i + 1 have changed places, by its old number. */
  predicate TradedAt(layout: seq<Node>, i: nat, j: nat, k: nat)
    requires 1 <= i < j <= |layout| && 1 <= k <= |layout|
    reads layout
  {
    var n, parent, child := layout[k - 1], layout[i - 1], layout[j - 1];
    if k == i then
      n.left == At(layout, 2 * j) && n.right == At(layout, 2 * j + 1) && n.parent == child
    else if k == j then
      && n.left == (if j == 2 * i then parent else At(layout, 2 * i))
      && n.right == (if j == 2 * i then At(layout, 2 * i + 1) else parent)
      && n.parent == At(layout, i / 2)
    else
      && n.left == (if 2 * k == i then child else At(layout, 2 * k))
      && n.right == (if 2 * k + 1 == i then child else At(layout, 2 * k + 1))
      && n.parent == (if k / 2 == i then child else if k / 2 == j then parent else At(layout, k / 2))
  }

  /** The same for a node that is neither of the two, as the steps of the swap leave it. */
  predicate RewiredAt(layout: seq<Node>, i: nat, j: nat, k: nat)
    requires 1 <= i < j <= |layout| && 1 <= k <= |layout|
    reads layout
  {
    var n, parent, child, up := layout[k - 1], layout[i - 1], layout[j - 1], At(layout, i / 2);
    && n.left == (if n == up && At(layout, 2 * k) == parent then child else At(layout, 2 * k))
    && n.right == (if n == up && At(layout, 2 * k) != parent then child else At(layout, 2 * k + 1))
    && n.parent == (if n == At(layout, 2 * j) || n == At(layout, 2 * j + 1) then parent
                    else if n == At(layout, if j == 2 * i then j + 1 else j - 1) then child else At(layout, k / 2))
  }

  lemma RewiredTraded(layout: seq<Node>, i: nat, j: nat, k: nat)
    requires Distinct(layout) && 1 <= i < j <= |layout| && j / 2 == i && 1 <= k <= |layout| && k != i && k != j
    requires RewiredAt(layout, i, j, k)
    ensures TradedAt(layout, i, j, k)
  {
    SameNode(layout, i / 2, k);
    SameNode(layout, 2 * k, i);
    SameNode(layout, 2 * j, k);
    SameNode(layout, 2 * j + 1, k);
    SameNode(layout, if j == 2 * i then j + 1 else j - 1, k);
  }

  lemma TradedLinks(layout: seq<Node>, i: nat, j: nat, k: nat)
    requires 1 <= i < j <= |layout| && j / 2 == i && 1 <= k <= |layout|
    requires forall m :: 1 <= m <= |layout| ==> TradedAt(layout, i, j, m)
    ensures LinkedAt(Swapped(layout, i, j), k)
  {
    assert TradedAt(layout, i, j, if k == i then j else if k == j then i else k);
  }

  lemma TradeLinked(layout: seq<Node>, i: nat, j: nat)
    requires Distinct(layout) && 1 <= i < j <= |layout| && j / 2 == i && TradedAt(layout, i, j, i)
    requires TradedAt(layout, i, j, j)
    requires forall k :: 1 <= k <= |layout| && k != i && k != j ==> RewiredAt(layout, i, j, k)
    ensures Linked(Swapped(layout, i, j))
  {
    forall k | 1 <= k <= |layout| ensures TradedAt(layout, i, j, k) {
      if k != i && k != j { RewiredTraded(layout, i, j, k); }
    }
    forall k | 1 <= k <= |layout| ensures LinkedAt(Swapped(layout, i, j), k) {
      TradedLinks(layout, i, j, k);
    }
  }

  function With(layout: seq<Node>, pos: nat, child: Node): seq<Node>
    requires 1 <= pos <= |layout|
  {
    layout[pos - 1 := child]
  }

  /** The links of the node numbered k once `child` has been put in for the one numbered pos. */
  predicate ReplacedAt(layout: seq<Node>, child: Node, pos: nat, k: nat)
    requires 1 <= pos <= |layout| && 1 <= k <= |layout|
    reads layout
  {
    var n := layout[k - 1];
    && n.left == (if 2 * k == pos then child else At(layout, 2 * k))
    && n.right == (if 2 * k + 1 == pos then child else At(layout, 2 * k + 1))
    && n.parent == (if k / 2 == pos then child else At(layout, k / 2))
  }

  lemma ReplacedLinks(layout: seq<Node>, child: Node, pos: nat)
    requires 1 <= pos <= |layout| && child !in layout
    requires forall k :: 1 <= k <= |layout| && k != pos ==> ReplacedAt(layout, child, pos, k)
    requires child.left == At(layout, 2 * pos) && child.right == At(layout, 2 * pos + 1)
    requires child.parent == At(layout, pos / 2)
    ensures Linked(With(layout, pos, child))
  {
    forall k | 1 <= k <= |layout| ensures LinkedAt(With(layout, pos, child), k) {
      assert k != pos ==> ReplacedAt(layout, child, pos, k);
    }
  }

  lemma ReplacedDistinct(layout: seq<Node>, child: Node, pos: nat)
    requires 1 <= pos <= |layout| && child !in layout && Distinct(layout)
    ensures Distinct(With(layout, pos, child))
    ensures (set n | n in With(layout, pos, child)) == (set n | n in layout) - {layout[pos - 1]} + {child}
  {
    var s := With(layout, pos, child);
    forall n ensures n in s <==> n == child || (n in layout && n != layout[pos - 1]) {
      assert s[pos - 1] == child && forall k :: 0 <= k < |layout| && k != pos - 1 ==> s[k] == layout[k];
    }
  }

  lemma SwappedDistinct(layout: seq<Node>, i: nat, j: nat)
    requires 1 <= i < j <= |layout| && Distinct(layout)
    ensures Distinct(Swapped(layout, i, j)) && (set n | n in Swapped(layout, i, j)) == (set n | n in layout)
  {
    var traded := Swapped(layout, i, j);
    forall n ensures n in traded <==> n in layout {
      assert layout[i - 1] == traded[j - 1] && layout[j - 1] == traded[i - 1];
      assert forall k :: 0 <= k < |layout| && k != i - 1 && k != j - 1 ==> layout[k] == traded[k];
    }
  }

  lemma SameNode(layout: seq<Node>, a: int, k: nat)
    requires Distinct(layout) && 1 <= k <= |layout|
    ensures At(layout, a) == layout[k - 1] <==> a == k
  {
  }

  class Heap {
    var root: Node?
    var nelts: nat
    ghost var layout: seq<Node>
    ghost var nodes: set<Node>

    /** A complete tree over exactly `nodes`. */
    ghost predicate Shaped()
      reads this, nodes
    {
      && nodes == (set n | n in layout)
      && nelts == |layout| && root == At(layout, 1) && Distinct(layout) && Linked(layout)
    }

    /** The first half of `_heap_swap_node`: the two records trade places. */
    method TradeRecords(parent: Node, child: Node, ghost sibling: Node?)
      requires parent in nodes && child in nodes && parent != child
      requires child.parent == parent
      requires (parent.left == child && parent.right == sibling) || (parent.left == sibling && parent.right == child)
      requires sibling != null ==> sibling in nodes && sibling != child && sibling != parent
      modifies nodes`left, nodes`right, nodes`parent
      ensures parent.left == old(child.left) && parent.right == old(child.right) && parent.parent == child
      ensures child.left == (if old(parent.left) == child then parent else sibling)
      ensures child.right == (if old(parent.left) == child then sibling else parent)
      ensures child.parent == old(parent.parent)
      ensures forall n :: n in nodes && n != parent && n != child ==> n.left == old(n.left) && n.right == old(n.right)
      ensures forall n :: n in nodes && n != parent && n != child ==>
                n.parent == if n == sibling then child else old(n.parent)
    {
      var l, r, p := parent.left, parent.right, parent.parent;
      parent.left, parent.right, parent.parent := child.left, child.right, child.parent;
      child.left, child.right, child.parent := l, r, p;
      parent.parent := child;
      var other;
      if child.left == child {
        child.left := parent;
        other := child.right;
      } else {
        child.right := parent;
        other := child.left;
      }
      if other != null { other.parent := child; }
    }

    /** A node tells its children who their parent is. */
    method Adopt(n: Node)
      requires (n.left != null ==> n.left in nodes) && (n.right != null ==> n.right in nodes)
      modifies nodes`parent
      ensures forall m :: m in nodes ==> m.parent == if m == n.left || m == n.right then n else old(m.parent)
    {
      if n.left != null { n.left.parent := n; }
      if n.right != null { n.right.parent := n; }
    }

    /** The link that led to `from` leads to `to`. */
    method Redirect(up: Node?, from: Node, to: Node?)
      requires up != null ==> up in nodes
      modifies this`root, nodes`left, nodes`right
      ensures root == if up == null then to else old(root)
      ensures forall m :: m in nodes ==> m.left == if m == up && old(m.left) == from then to else old(m.left)
      ensures forall m :: m in nodes ==> m.right == if m == up && old(m.left) != from then to else old(m.right)
    {
      if up == null {
        root := to;
      } else if up.left == from {
        up.left := to;
      } else {
        up.right := to;
      }
    }

    /** What trading records, adopting and redirecting add up to, for one node that is neither of the two. */
    twostate predicate Rewired(n: Node, parent: Node, child: Node, sibling: Node?, up: Node?)
      reads n, parent
    {
      && n.left == (if n == up && old(n.left) == parent then child else old(n.left))
      && n.right == (if n == up && old(n.left) != parent then child else old(n.right))
      && n.parent == (if n == old(child.left)
                      || n == old(child.right) then parent else if n == sibling then child else old(n.parent))
    }

    method TradePlaces(parent: Node, child: Node, ghost sibling: Node?)
      requires parent in nodes && child in nodes && parent != child
      requires child.parent == parent
      requires (parent.left == child && parent.right == sibling) || (parent.left == sibling && parent.right == child)
      requires sibling != null ==> sibling in nodes && sibling != child && sibling != parent
      requires child.left != null ==>
                 child.left in nodes && child.left != parent && child.left != child && child.left != sibling
      requires child.right != null ==>
                 child.right in nodes && child.right != parent && child.right != child && child.right != sibling
      requires parent.parent != null ==> parent.parent in nodes && parent.parent != parent && parent.parent != child
      modifies this`root, nodes`left, nodes`right, nodes`parent
      ensures parent.left == old(child.left) && parent.right == old(child.right) && parent.parent == child
      ensures child.left == (if old(parent.left) == child then parent else sibling)
      ensures child.right == (if old(parent.left) == child then sibling else parent)
      ensures child.parent == old(parent.parent)
      ensures root == if old(parent.parent) == null then child else old(root)
      ensures forall n :: n in nodes && n != parent && n != child ==>
                Rewired(n, parent, child, sibling, old(parent.parent))
    {
      TradeRecords(parent, child, sibling);
      Adopt(parent);
      Redirect(child.parent, parent, child);
    }

    /** `_heap_swap_node`: the child takes its parent's place in the tree. */
    method SwapNode(parent: Node, child: Node, ghost i: nat, ghost j: nat)
      requires Shaped() && 1 <= i < j <= |layout| && j / 2 == i && parent == layout[i - 1] && child == layout[j - 1]
      modifies this`root, this`layout, nodes`left, nodes`right, nodes`parent
      ensures Shaped()
      ensures layout == Swapped(old(layout), i, j)
    {
      Relink(parent, child, i, j);
      TradeLinked(layout, i, j);
      SwappedDistinct(layout, i, j);
      layout := Swapped(layout, i, j);
    }

    /** The links of all nodes once the two have traded places. */
    method Relink(parent: Node, child: Node, ghost i: nat, ghost j: nat)
      requires Shaped() && 1 <= i < j <= |layout| && j / 2 == i && parent == layout[i - 1] && child == layout[j - 1]
      modifies this`root, nodes`left, nodes`right, nodes`parent
      ensures TradedAt(layout, i, j, i) && TradedAt(layout, i, j, j) && root == (if i == 1 then child else old(root))
      ensures forall k :: 1 <= k <= |layout| && k != i && k != j ==> RewiredAt(layout, i, j, k)
    {
      ghost var sibling := At(layout, if j == 2 * i then j + 1 else j - 1);
      assert LinkedAt(layout, i) && LinkedAt(layout, j);
      TradePlaces(parent, child, sibling);
      forall k | 1 <= k <= |layout| && k != i && k != j ensures RewiredAt(layout, i, j, k) {
        var n := layout[k - 1];
        assert n in nodes && n != parent && n != child;
        assert old(LinkedAt(layout, k)) && Rewired(n, parent, child, sibling, At(layout, i / 2));
      }
    }

    /** The swap of a node with its parent, and what it does to the keys. */
    method Rise(node: Node, ghost pos: nat)
      requires Shaped() && 2 <= pos <= |layout| && node == layout[pos - 1]
      modifies this`root, this`layout, nodes`left, nodes`right, nodes`parent
      ensures Shaped() && layout == Swapped(old(layout), pos / 2, pos)
      ensures Keys(layout) == Swapped(old(Keys(layout)), pos / 2, pos)
      ensures node == layout[pos / 2 - 1] && node.parent == At(layout, pos / 2 / 2)
    {
      assert LinkedAt(layout, pos);
      ghost var keys := Keys(layout);
      SwapNode(node.parent, node, pos / 2, pos);
      KeysAre(layout, Swapped(keys, pos / 2, pos));
      assert LinkedAt(layout, pos / 2);
    }

    /** The two loops that collect the path to number `target` and follow it: the node it hangs from, and on which
        side. */
    method Locate(target: nat) returns (parent: Node?, right: bool)
      requires Shaped() && 1 <= target <= nelts + 1
      ensures parent == At(layout, target / 2) && (target >= 2 ==> (right <==> target % 2 == 1))
    {
      var path, steps, n := 0, 0, target;
      while n >= 2
        invariant 1 <= n && Walk(n, path, steps) == target
      {
        WalkUnfolds(n, path, steps);
        path, steps, n := 2 * path + n % 2, steps + 1, n / 2;
      }
      var child := root;
      ghost var m := 1;
      parent, right := null, false;
      while steps > 0
        invariant 1 <= m && Walk(m, path, steps) == target
        invariant child == At(layout, m) && parent == At(layout, m / 2) && (m >= 2 ==> (right <==> m % 2 == 1))
      {
        WalkGrows(m, path, steps);
        assert LinkedAt(layout, m);
        parent, right := child, path % 2 == 1;
        child := if right then child.right else child.left;
        m := 2 * m + path % 2;
        path, steps := path / 2, steps - 1;
      }
    }

    /** The sift-up loop. */
    method SiftUp(node: Node, ghost at: nat)
      requires Shaped() && UpOk(Keys(layout), at) && node == layout[at - 1]
      modifies this`root, this`layout, nodes`left, nodes`right, nodes`parent
      ensures Shaped() && Ordered(Keys(layout))
    {
      ghost var pos := at;
      assert LinkedAt(layout, pos);
      while node.parent != null && node.key < node.parent.key
        invariant Shaped() && UpOk(Keys(layout), pos) && node == layout[pos - 1] && node.parent == At(layout, pos / 2)
        decreases pos
      {
        SwapUp(Keys(layout), pos);
        Rise(node, pos);
        pos := pos / 2;
      }
      UpDone(Keys(layout), pos);
    }

    /** The smallest of a node and its children, the node itself if none is smaller. */
    method Smallest(node: Node, ghost pos: nat) returns (smallest: Node, ghost c: nat)
      requires Shaped() && 1 <= pos <= |layout| && node == layout[pos - 1]
      ensures c == pos || (2 <= c && c / 2 == pos && smallest.key < node.key)
      ensures 1 <= c <= |layout| && smallest == layout[c - 1]
      ensures forall k :: 2 <= k <= |layout| && k / 2 == pos ==> Keys(layout)[c - 1] <= Keys(layout)[k - 1]
    {
      assert LinkedAt(layout, pos);
      smallest, c := node, pos;
      if node.left != null && node.left.key < smallest.key {
        smallest, c := node.left, 2 * pos;
      }
      if node.right != null && node.right.key < smallest.key {
        smallest, c := node.right, 2 * pos + 1;
      }
    }

    /** The sift-down loop, up to where the node is no larger than its children. */
    method SiftDown(node: Node, ghost at: nat) returns (ghost pos: nat)
      requires Shaped() && DownOk(Keys(layout), at) && node == layout[at - 1]
      modifies this`root, this`layout, nodes`left, nodes`right, nodes`parent
      ensures Shaped() && UpOk(Keys(layout), pos) && node == layout[pos - 1]
    {
      pos := at;
      var sinking := true;
      while sinking
        invariant Shaped() && 1 <= pos <= |layout| && node == layout[pos - 1]
        invariant if sinking then DownOk(Keys(layout), pos) else UpOk(Keys(layout), pos)
        decreases nelts - pos, sinking
      {
        sinking, pos := SinkOne(node, pos);
      }
    }

    /** One turn of the loop: the node changes places with its smallest child, or stays. */
    method SinkOne(node: Node, ghost at: nat) returns (moved: bool, ghost pos: nat)
      requires Shaped() && DownOk(Keys(layout), at) && node == layout[at - 1]
      modifies this`root, this`layout, nodes`left, nodes`right, nodes`parent
      ensures Shaped() && 1 <= pos <= |layout| && node == layout[pos - 1]
      ensures moved ==> DownOk(Keys(layout), pos) && at < pos
      ensures !moved ==> UpOk(Keys(layout), pos) && pos == at
    {
      var smallest;
      ghost var c;
      smallest, c := Smallest(node, at);
      moved, pos := smallest != node, c;
      if moved {
        SwapDown(Keys(layout), at, c);
        Rise(smallest, c);
      } else {
        SameNode(layout, c, at);
        DownDone(Keys(layout), at);
      }
    }

    /** Hanging a new node at the first free number. */
    method Append(node: Node)
      requires Shaped() && node !in nodes
      modifies this, nodes`left, nodes`right, node`left, node`right, node`parent
      ensures Shaped() && layout == old(layout) + [node]
    {
      node.left, node.right, node.parent := null, null, null;
      assert forall k :: 1 <= k <= |layout| ==> old(LinkedAt(layout, k));
      assert Shaped();
      var parent, right := Locate(1 + nelts);
      node.parent := parent;
      if parent == null {
        root := node;
      } else if right {
        parent.right := node;
      } else {
        parent.left := node;
      }
      nelts := nelts + 1;
      layout := layout + [node];
      nodes := nodes + {node};
      forall k | 1 <= k <= |layout| ensures LinkedAt(layout, k) {
        assert k < |layout| ==> old(LinkedAt(layout, k));
      }
    }

    /** Unlinking the last node. */
    method DropLast() returns (child: Node)
      requires Shaped() && nelts > 0
      modifies this, nodes`left, nodes`right
      ensures Shaped() && layout == old(layout)[..old(nelts) - 1] && child == old(layout)[old(nelts) - 1]
      ensures nodes == old(nodes) - {child}
    {
      var parent, right := Locate(nelts);
      assert LinkedAt(layout, nelts) && (nelts >= 2 ==> LinkedAt(layout, nelts / 2));
      if parent == null {
        child, root := root, null;
      } else if right {
        child, parent.right := parent.right, null;
      } else {
        child, parent.left := parent.left, null;
      }
      nelts := nelts - 1;
      layout := layout[..nelts];
      nodes := nodes - {child};
      forall k | 1 <= k <= |layout| ensures LinkedAt(layout, k) {
        assert old(LinkedAt(layout, k));
      }
    }

    /** Putting `child`, which is outside the tree, in the place of `node`. */
    method Replace(node: Node, child: Node, ghost pos: nat)
      requires Shaped() && child !in nodes && 1 <= pos <= |layout| && node == layout[pos - 1]
      modifies this`root, this`layout, this`nodes, nodes`left, nodes`right, nodes`parent, child`left, child`right,
          child`parent
      ensures Shaped() && layout == With(old(layout), pos, child) && nodes == old(nodes) - {node} + {child}
    {
      assert LinkedAt(layout, pos);
      child.left, child.right, child.parent := node.left, node.right, node.parent;
      Adopt(child);
      Redirect(node.parent, node, child);
      forall k | 1 <= k <= |layout| && k != pos ensures ReplacedAt(layout, child, pos, k) {
        assert old(LinkedAt(layout, k));
      }
      ReplacedLinks(layout, child, pos);
      ReplacedDistinct(layout, child, pos);
      layout := With(layout, pos, child);
      nodes := nodes - {node} + {child};
    }

    method TakeLast() returns (child: Node)
      requires Shaped() && nelts > 0
      modifies this, nodes`left, nodes`right
      ensures Shaped() && layout == old(layout)[..old(nelts) - 1] && child == old(layout)[old(nelts) - 1]
      ensures nodes == old(nodes) - {child}
      ensures child in old(nodes) && nelts == old(nelts) - 1
      ensures Keys(layout) == old(Keys(layout))[..old(nelts) - 1] && child.key == old(Keys(layout))[old(nelts) - 1]
    {
      ghost var keys := Keys(layout);
      child := DropLast();
      KeysAre(layout, keys[..nelts]);
    }

    method Substitute(node: Node, child: Node, ghost pos: nat)
      requires Shaped() && child !in nodes && 1 <= pos <= |layout| && node == layout[pos - 1]
      modifies this`root, this`layout, this`nodes, nodes`left, nodes`right, nodes`parent, child`left, child`right,
          child`parent
      ensures Shaped() && layout == With(old(layout), pos, child) && nodes == old(nodes) - {node} + {child}
      ensures Keys(layout) == old(Keys(layout))[pos - 1 := child.key]
    {
      ghost var keys := Keys(layout);
      Replace(node, child, pos);
      KeysAre(layout, keys[pos - 1 := child.key]);
    }

    /** A heap: a complete tree in order. */
    ghost predicate Valid()
      reads this, nodes
    {
      Shaped() && Ordered(Keys(layout))
    }

    constructor ()
      ensures Valid() && nodes == {}
    {
      root, nelts, layout, nodes := null, 0, [], {};
    }

    /** `heap_insert` */
    method Insert(node: Node)
      requires Valid() && node !in nodes
      modifies this, nodes`left, nodes`right, nodes`parent, node`left, node`right, node`parent
      ensures Valid() && nodes == old(nodes) + {node} && nelts == old(nelts) + 1
    {
      AppendedUp(Keys(layout), node.key);
      ghost var keys := Keys(layout);
      Append(node);
      KeysAre(layout, keys + [node.key]);
      SiftUp(node, nelts);
    }

    /** `heap_remove`: on an empty heap nothing happens; otherwise the node must be in it. */
    method Remove(node: Node)
      requires Valid() && (nelts > 0 ==> node in nodes)
      modifies this, nodes`left, nodes`right, nodes`parent
      ensures Valid() && nodes == old(nodes) - {node} && nelts == if old(nelts) == 0 then 0 else old(nelts) - 1
    {
      if nelts == 0 { return; }
      ghost var i :| 0 <= i < |layout| && layout[i] == node;
      RemoveAt(node, i + 1);
    }

    method RemoveAt(node: Node, ghost pos: nat)
      requires Valid() && 1 <= pos <= nelts && node == layout[pos - 1]
      modifies this, nodes`left, nodes`right, nodes`parent
      ensures Valid() && nodes == old(nodes) - {node} && nelts == old(nelts) - 1
    {
      ghost var keys, was := Keys(layout), layout;
      var child := TakeLast();
      if child == node {
        PrefixOrdered(keys);
      } else {
        assert pos - 1 < |layout| && layout[pos - 1] == was[pos - 1];
        ReplacedDown(keys, pos);
        FillIn(node, child, pos);
      }
    }

    /** The last node takes the removed one's place, and order is restored. */
    method FillIn(node: Node, child: Node, ghost pos: nat)
      requires Shaped() && child !in nodes && 1 <= pos <= |layout| && node == layout[pos - 1]
      requires DownOk(Keys(layout)[pos - 1 := child.key], pos)
      modifies this`root, this`layout, this`nodes, nodes`left, nodes`right, nodes`parent, child`left, child`right,
          child`parent
      ensures Valid() && nodes == old(nodes) - {node} + {child} && nelts == old(nelts)
    {
      Substitute(node, child, pos);
      Settle(child, pos);
    }

    /** The two loops at the end of `heap_remove`: down, and then up, as the moved node need not be the largest. */
    method Settle(node: Node, ghost pos: nat)
      requires Shaped() && DownOk(Keys(layout), pos) && node == layout[pos - 1]
      modifies this`root, this`layout, nodes`left, nodes`right, nodes`parent
      ensures Valid()
    {
      ghost var at := SiftDown(node, pos);
      SiftUp(node, at);
    }

    /** `heap_peek`: a node with the least key. */
    method Peek() returns (node: Node?)
      requires Valid()
      ensures node == null <==> nodes == {}
      ensures node != null ==> node in nodes && forall n :: n in nodes ==> node.key <= n.key
    {
      node := root;
      assert layout != [] ==> layout[0] in nodes;
      forall n | n in nodes && node != null ensures node.key <= n.key {
        var k :| 0 <= k < |layout| && layout[k] == n;
        RootIsLeast(Keys(layout), k + 1);
      }
    }
  }
}
