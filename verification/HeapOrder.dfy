/** Heap order of numbered keys, and what one swap along a sift does to it. */
module HeapOrder {
  function Swapped<T>(s: seq<T>, i: int, j: int): (r: seq<T>)
    requires 1 <= i <= |s| && 1 <= j <= |s|
    ensures |r| == |s|
  {
    s[i - 1 := s[j - 1]][j - 1 := s[i - 1]]
  }

  predicate ParentBelow(keys: seq<int>, k: int)
    requires 2 <= k <= |keys|
  {
    keys[k / 2 - 1] <= keys[k - 1]
  }

  predicate Ordered(keys: seq<int>) { forall k :: 2 <= k <= |keys| ==> ParentBelow(keys, k) }

  /** Pulling up a gap at `pos` would leave order: its parent is not above its children. */
  predicate Bridged(keys: seq<int>, pos: int)
    requires 1 <= pos <= |keys|
  {
    pos >= 2 ==> forall k :: 2 <= k <= |keys| && k / 2 == pos ==> keys[pos / 2 - 1] <= keys[k - 1]
  }

  /** Ordered, except perhaps between `pos` and its parent. */
  predicate UpOk(keys: seq<int>, pos: int) {
    1 <= pos <= |keys| && Bridged(keys, pos) && forall k :: 2 <= k <= |keys| && k != pos ==> ParentBelow(keys, k)
  }

  /** Ordered, except perhaps between `pos` and its parent or its children. */
  predicate DownOk(keys: seq<int>, pos: int) {
    1 <= pos <= |keys| && Bridged(keys, pos) && forall k :: 2 <= k <= |keys| && k != pos && k / 2 != pos ==>
      ParentBelow(keys, k)
  }

  lemma SwapUp(keys: seq<int>, pos: int)
    requires UpOk(keys, pos) && 2 <= pos && keys[pos - 1] < keys[pos / 2 - 1]
    ensures UpOk(Swapped(keys, pos / 2, pos), pos / 2)
  {
    var p, s := pos / 2, Swapped(keys, pos / 2, pos);
    forall k | 2 <= k <= |keys| && k != p ensures ParentBelow(s, k) {
      assert k != pos ==> ParentBelow(keys, k);
    }
    forall k | 2 <= k <= |keys| && k / 2 == p && p >= 2 ensures s[p / 2 - 1] <= s[k - 1] {
      assert ParentBelow(keys, p) && (k != pos ==> ParentBelow(keys, k));
    }
  }

  lemma SwapDown(keys: seq<int>, pos: int, c: int)
    requires DownOk(keys, pos) && 2 <= c <= |keys| && c / 2 == pos && keys[c - 1] < keys[pos - 1]
    requires forall k :: 2 <= k <= |keys| && k / 2 == pos ==> keys[c - 1] <= keys[k - 1]
    ensures DownOk(Swapped(keys, pos, c), c)
  {
    var s := Swapped(keys, pos, c);
    forall k | 2 <= k <= |keys| && k != c && k / 2 != c ensures ParentBelow(s, k) {
      assert k != pos && k / 2 != pos ==> ParentBelow(keys, k);
    }
    forall k | 2 <= k <= |keys| && k / 2 == c ensures s[c / 2 - 1] <= s[k - 1] {
      assert ParentBelow(keys, k);
    }
  }

  lemma UpDone(keys: seq<int>, pos: int)
    requires UpOk(keys, pos) && (pos >= 2 ==> ParentBelow(keys, pos))
    ensures Ordered(keys)
  {
  }

  lemma DownDone(keys: seq<int>, pos: int)
    requires DownOk(keys, pos) && forall k :: 2 <= k <= |keys| && k / 2 == pos ==> keys[pos - 1] <= keys[k - 1]
    ensures UpOk(keys, pos)
  {
  }

  lemma AppendedUp(keys: seq<int>, key: int)
    requires Ordered(keys)
    ensures UpOk(keys + [key], |keys| + 1)
  {
    forall k | 2 <= k <= |keys| ensures ParentBelow(keys + [key], k) { assert ParentBelow(keys, k); }
  }

  lemma PrefixOrdered(keys: seq<int>)
    requires Ordered(keys) && keys != []
    ensures Ordered(keys[..|keys| - 1])
  {
    var rest := keys[..|keys| - 1];
    forall k | 2 <= k <= |rest| ensures ParentBelow(rest, k) { assert ParentBelow(keys, k); }
  }

  /** Moving the last key to `pos`. */
  lemma ReplacedDown(keys: seq<int>, pos: int)
    requires Ordered(keys) && 1 <= pos < |keys|
    ensures DownOk(keys[..|keys| - 1][pos - 1 := keys[|keys| - 1]], pos)
  {
    var rest := keys[..|keys| - 1];
    var s := rest[pos - 1 := keys[|keys| - 1]];
    forall k | 2 <= k <= |s| && k != pos && k / 2 != pos ensures ParentBelow(s, k) { assert ParentBelow(keys, k); }
    forall k | 2 <= k <= |s| && k / 2 == pos && pos >= 2 ensures s[pos / 2 - 1] <= s[k - 1] {
      assert ParentBelow(keys, k) && ParentBelow(keys, pos);
    }
  }

  /** The key numbered 1 is a least one. */
  lemma {:induction false} RootIsLeast(keys: seq<int>, k: int)
    requires Ordered(keys) && 1 <= k <= |keys|
    ensures keys[0] <= keys[k - 1]
    decreases k
  {
    if k >= 2 {
      assert ParentBelow(keys, k);
      RootIsLeast(keys, k / 2);
    }
  }

  // ---- the path to a number ---------------------------------------------------------------------------------------

  /** Where `steps` turns from node m lead, taking the right child on each set bit of `path`, lowest bit first. */
  function Walk(m: nat, path: nat, steps: nat): nat
    decreases steps
  {
    if steps == 0 then m else Walk(2 * m + path % 2, path / 2, steps - 1)
  }

  lemma {:induction false} WalkGrows(m: nat, path: nat, steps: nat)
    ensures Walk(m, path, steps) >= m && (steps > 0 ==> Walk(m, path, steps) >= 2 * m)
    decreases steps
  {
    if steps > 0 { WalkGrows(2 * m + path % 2, path / 2, steps - 1); }
  }

  /** Halving n while collecting its low bits, last bit on top, keeps the walk's end. */
  lemma WalkUnfolds(n: nat, path: nat, steps: nat)
    ensures Walk(n / 2, 2 * path + n % 2, steps + 1) == Walk(n, path, steps)
  {
  }
}
