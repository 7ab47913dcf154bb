/** The sequential skiplist (src/map/unsafe_skiplist.c): a sorted linked list, whose nodes are also linked at
    higher levels as far as they are tall, with a head node that is taller than all of them.

    Keys are integers whose differences do not overflow; the random word is a parameter. */
module Skiplist {
  import opened Common

  type Key = int
  type Value = int

  const MAX_LEVELS: nat := 24

  /** The `expectation` of `sl_cas`. */
  datatype Expect = Whatever | DoesNotExist | Exists | Exactly(value: Value)

  // ----- the index, as heights and keys ----------------------------------------------------------

  /** The first place from i on that is taller than L. */
  function First(hs: seq<nat>, L: nat, i: nat): (r: nat)
    requires i <= |hs|
    ensures i <= r <= |hs| && (r < |hs| ==> hs[r] > L) && forall j :: i <= j < r ==> hs[j] <= L
    decreases |hs| - i
  {
    if i == |hs| || hs[i] > L then i else First(hs, L, i + 1)
  }

  /** The last place before m that is taller than L. */
  function Last(hs: seq<nat>, L: nat, m: nat): (r: nat)
    requires 0 < m <= |hs| && hs[0] > L
    ensures r < m && hs[r] > L && forall j :: r < j < m ==> hs[j] <= L
  {
    if hs[m - 1] > L then m - 1 else Last(hs, L, m - 1)
  }

  /** Where k belongs: place 0 is the head, and the others are sorted. */
  function Rank(keys: seq<Key>, k: Key, i: nat := 1): (r: nat)
    requires 0 < i <= |keys|
    ensures i <= r <= |keys| && (r < |keys| ==> keys[r] >= k) && forall j :: i <= j < r ==> keys[j] < k
    decreases |keys| - i
  {
    if i == |keys| || keys[i] >= k then i else Rank(keys, k, i + 1)
  }

  predicate Sorted(keys: seq<Key>) { forall i, j :: 0 < i < j < |keys| ==> keys[i] < keys[j] }

  lemma RankSplits(keys: seq<Key>, k: Key, i: nat)
    requires Sorted(keys) && 0 < i < |keys|
    ensures keys[i] < k <==> i < Rank(keys, k)
  {}

  predicate Distinct<T(==)>(xs: seq<T>) { forall i, j :: 0 <= i < j < |xs| ==> xs[i] != xs[j] }

  /** With nothing tall between p and m, p is the last before m and what follows p also follows m. */
  lemma Bracket(hs: seq<nat>, L: nat, p: nat, m: nat)
    requires p < m <= |hs| && hs[0] > L && hs[p] > L && First(hs, L, p + 1) >= m
    ensures Last(hs, L, m) == p && First(hs, L, m) == First(hs, L, p + 1)
  {}

  function InsertAt<T>(s: seq<T>, m: nat, x: T): (r: seq<T>)
    requires m <= |s|
    ensures |r| == |s| + 1 && r[m] == x
  {
    s[..m] + [x] + s[m..]
  }

  lemma Inserted<T>(s: seq<T>, m: nat, x: T, i: nat)
    requires m <= |s| && i < |s|
    ensures InsertAt(s, m, x)[Moved(i, m)] == s[i]
  {}

  function DeleteAt<T>(s: seq<T>, m: nat): (r: seq<T>)
    requires m < |s|
    ensures |r| == |s| - 1
  {
    s[..m] + s[m + 1..]
  }

  lemma {:induction false} FirstShifted(hs: seq<nat>, hs': seq<nat>, L: nat, i: nat)
    requires i <= |hs| && |hs'| == |hs| + 1 && forall j :: i <= j < |hs| ==> hs'[j + 1] == hs[j]
    ensures First(hs', L, i + 1) == First(hs, L, i) + 1
    decreases |hs| - i
  {
    if i < |hs| { FirstShifted(hs, hs', L, i + 1); }
  }

  /** What comes first from i on after x was inserted at m, and, read the other way, after it was deleted. */
  lemma {:induction false} FirstInserted(hs: seq<nat>, L: nat, m: nat, x: nat, i: nat)
    requires i <= m <= |hs|
    ensures var r := First(hs, L, i);
            First(InsertAt(hs, m, x), L, i) == if r < m then r else if x > L then m else r + 1
    decreases m - i
  {
    var hs' := InsertAt(hs, m, x);
    if i == m {
      forall j | i <= j < |hs| ensures hs'[j + 1] == hs[j] { Inserted(hs, m, x, j); }
      FirstShifted(hs, hs', L, m);
    } else {
      assert hs'[i] == hs[i];
      FirstInserted(hs, L, m, x, i + 1);
    }
  }

  lemma DeleteInsert<T>(s: seq<T>, m: nat)
    requires m < |s|
    ensures InsertAt(DeleteAt(s, m), m, s[m]) == s
  {}

  function At<T>(xs: seq<T>, i: nat): Option<T> { if i < |xs| then Some(xs[i]) else None }

  /** Where place q moves when something is inserted at m. */
  function Moved(q: nat, m: nat): nat { if q < m then q else q + 1 }

  /** After x was inserted at m: at the levels it reaches, what came last before m leads to it, and it leads on to what
      came first from m; all other links lead where they led. */
  lemma LinksBefore<T>(xs: seq<T>, hs: seq<nat>, m: nat, x: T, n: nat, q: nat, L: nat)
    requires |xs| == |hs| && q < m <= |hs| && L < hs[q] && L < hs[0]
    ensures At(InsertAt(xs, m, x), First(InsertAt(hs, m, n), L, q + 1))
            == if L < n && Last(hs, L, m) == q then Some(x) else At(xs, First(hs, L, q + 1))
  {
    hide *;
    if First(hs, L, q + 1) < m {
      LinksShort(xs, hs, m, x, n, q, L);
      NotLast(hs, L, q, m);
    } else {
      LinksCross(xs, hs, m, x, n, q, L);
      Bracket(hs, L, q, m);
    }
  }

  /** A link that ends before m, */
  lemma LinksShort<T>(xs: seq<T>, hs: seq<nat>, m: nat, x: T, n: nat, q: nat, L: nat)
    requires |xs| == |hs| && q < m <= |hs| && First(hs, L, q + 1) < m
    ensures At(InsertAt(xs, m, x), First(InsertAt(hs, m, n), L, q + 1)) == At(xs, First(hs, L, q + 1))
  {
    hide InsertAt, First;
    FirstInserted(hs, L, m, n, q + 1);
    Inserted(xs, m, x, First(hs, L, q + 1));
  }

  /** and one that crosses it. */
  lemma LinksCross<T>(xs: seq<T>, hs: seq<nat>, m: nat, x: T, n: nat, q: nat, L: nat)
    requires |xs| == |hs| && q < m <= |hs| && First(hs, L, q + 1) >= m
    ensures At(InsertAt(xs, m, x), First(InsertAt(hs, m, n), L, q + 1)) == if L < n then Some(x) else At(xs, First(hs, L, q + 1))
  {
    hide InsertAt, First;
    FirstInserted(hs, L, m, n, q + 1);
    var r := First(hs, L, q + 1);
    if r < |xs| { Inserted(xs, m, x, r); }
  }

  lemma NotLast(hs: seq<nat>, L: nat, q: nat, m: nat)
    requires q < m <= |hs| && L < hs[0] && First(hs, L, q + 1) < m
    ensures Last(hs, L, m) != q
  {}

  lemma LinksBehind<T>(xs: seq<T>, hs: seq<nat>, m: nat, x: T, n: nat, i: nat, L: nat)
    requires |xs| == |hs| && m <= i <= |hs|
    ensures At(InsertAt(xs, m, x), First(InsertAt(hs, m, n), L, i + 1)) == At(xs, First(hs, L, i))
  {
    forall j | i <= j < |hs| ensures InsertAt(hs, m, n)[j + 1] == hs[j] { Inserted(hs, m, n, j); }
    hide InsertAt, First;
    FirstShifted(hs, InsertAt(hs, m, n), L, i);
    var r := First(hs, L, i);
    if r < |xs| { Inserted(xs, m, x, r); }
  }

  /** And after x was deleted at m again, when its own link replaced the one that led to it. */
  lemma LinksDeleted<T>(xs: seq<T>, hs: seq<nat>, m: nat, x: T, n: nat, q: nat, L: nat)
    requires |xs| == |hs| && q < m <= |hs| && L < hs[q] && L < hs[0]
    ensures At(xs, First(hs, L, q + 1))
            == if L < n && Last(hs, L, m) == q then At(InsertAt(xs, m, x), First(InsertAt(hs, m, n), L, m + 1))
               else At(InsertAt(xs, m, x), First(InsertAt(hs, m, n), L, q + 1))
  {
    hide *;
    LinksBefore(xs, hs, m, x, n, q, L);
    LinksBehind(xs, hs, m, x, n, m, L);
    if L < n && Last(hs, L, m) == q {
      LastThenFirst(hs, L, m);
      assert First(hs, L, q + 1) == First(hs, L, m);
    }
  }

  lemma {:induction false} LastBefore(hs: seq<nat>, hs': seq<nat>, L: nat, m: nat)
    requires 0 < m <= |hs| && m <= |hs'| && hs[0] > L && forall i :: 0 <= i < m ==> hs[i] == hs'[i]
    ensures Last(hs, L, m) == Last(hs', L, m)
  {}

  lemma LastThenFirst(hs: seq<nat>, L: nat, m: nat)
    requires 0 < m <= |hs| && hs[0] > L
    ensures First(hs, L, Last(hs, L, m) + 1) == First(hs, L, m)
  {}

  // ----- nodes -----------------------------------------------------------------------------------

  class Node {
    const key: Key
    const levels: nat
    var val: Value
    var next: seq<Node?>

    constructor (levels: nat, key: Key, val: Value)
      ensures this.levels == levels && this.key == key && this.val == val && this.next == seq(levels, _ => null)
    {
      this.levels, this.key, this.val, this.next := levels, key, val, seq(levels, _ => null);
    }
  }

  /** What the nodes hold, in order and with the head first. */
  datatype Index = Index(nodes: seq<Node>, heights: seq<nat>, keys: seq<Key>, vals: seq<Value>, nexts: seq<seq<Node?>>)

  function NodeAt(x: Index, i: nat): Node? { if i < |x.nodes| then x.nodes[i] else null }

  ghost predicate Sound(x: Index) {
    && |x.nodes| == |x.heights| == |x.keys| == |x.vals| == |x.nexts| > 0
    && x.heights[0] == MAX_LEVELS && (forall i :: 0 <= i < |x.heights| ==> 0 < x.heights[i] <= MAX_LEVELS && |x.nexts[i]| == x.heights[i])
    && Distinct(x.nodes) && Sorted(x.keys)
  }

  /** The link of place q at level L leads to the next node that is tall enough. */
  ghost predicate LinkOk(x: Index, q: nat, L: nat)
    requires Sound(x) && q < |x.nodes| && L < x.heights[q]
  {
    x.nexts[q][L] == NodeAt(x, First(x.heights, L, q + 1))
  }

  ghost predicate LevelOk(x: Index, L: nat)
    requires Sound(x)
  {
    forall q: nat {:trigger LinkOk(x, q, L)} :: q < |x.nodes| && L < x.heights[q] ==> LinkOk(x, q, L)
  }

  /** Level by level, the links are the subsequence of the nodes tall enough for it. */
  ghost predicate LinksOk(x: Index)
    requires Sound(x)
  {
    forall L: nat {:trigger LevelOk(x, L)} :: LevelOk(x, L)
  }

  /** The map the list stands for. */
  ghost predicate Means(x: Index, model: map<Key, Value>)
    requires Sound(x)
  {
    && (forall i :: 0 < i < |x.keys| ==> x.keys[i] in model && model[x.keys[i]] == x.vals[i])
    && (forall k :: k in model ==> k in x.keys[1..])
  }

  lemma Follow(x: Index, q: nat, L: nat)
    requires Sound(x) && LevelOk(x, L) && q < |x.nodes| && L < x.heights[q]
    ensures x.nexts[q][L] == NodeAt(x, First(x.heights, L, q + 1))
  {
    assert LinkOk(x, q, L);
  }

  lemma OneLevel(x: Index, L: nat)
    requires Sound(x) && LinksOk(x)
    ensures LevelOk(x, L)
  {}

  ghost predicate Holds(x: Index, m: nat, k: Key) { m < |x.keys| && x.keys[m] == k }

  lemma HoldsIsIn(x: Index, model: map<Key, Value>, k: Key)
    requires Sound(x) && Means(x, model)
    ensures var m := Rank(x.keys, k);
            && (Holds(x, m, k) <==> k in model) && (Holds(x, m, k) ==> model[k] == x.vals[m])
  {}

  /** From `level` up, preds and succs enclose place m. */
  ghost predicate Enclose(x: Index, m: nat, level: nat, preds: seq<Node>, succs: seq<Node?>)
    requires Sound(x) && 0 < m <= |x.nodes|
  {
    && |preds| == |succs| <= MAX_LEVELS
    && forall L: nat :: level <= L < |preds| ==>
         preds[L] == x.nodes[Last(x.heights, L, m)] && succs[L] == NodeAt(x, First(x.heights, L, m))
  }

  lemma EncloseOne(x: Index, m: nat, level: nat, preds: seq<Node>, succs: seq<Node?>, pred: Node, succ: Node?)
    requires Sound(x) && 0 < m <= |x.nodes| && Enclose(x, m, level + 1, preds, succs) && level < |preds|
    requires pred == x.nodes[Last(x.heights, level, m)] && succ == NodeAt(x, First(x.heights, level, m))
    ensures Enclose(x, m, level, preds[level := pred], succs[level := succ])
  {}

  lemma EncloseNone(x: Index, m: nat, level: nat, preds: seq<Node>, succs: seq<Node?>)
    requires Sound(x) && 0 < m <= |x.nodes| && Enclose(x, m, level + 1, preds, succs) && level >= |preds|
    ensures Enclose(x, m, level, preds, succs)
  {}

  lemma NothingBehind(x: Index, p: nat, m: nat)
    requires Sound(x) && p < m <= |x.nodes| && NodeAt(x, First(x.heights, 0, p + 1)) == null
    ensures m == |x.nodes|
  {}

  lemma AtZero(x: Index, m: nat)
    requires Sound(x) && m <= |x.nodes|
    ensures First(x.heights, 0, m) == m
  {}

  // ----- inserting -------------------------------------------------------------------------------

  /** All links after the levels below `level` were linked to a node that is to come at m. */
  ghost function Relinked(x: Index, m: nat, level: nat, node: Node): (r: seq<seq<Node?>>)
    requires Sound(x) && 0 < m <= |x.nodes| && level <= MAX_LEVELS
    ensures |r| == |x.nexts| && forall i :: 0 <= i < |r| ==> |r[i]| == |x.nexts[i]|
  {
    if level == 0 then x.nexts
    else
      var r, q := Relinked(x, m, level - 1, node), Last(x.heights, level - 1, m);
      r[q := r[q][level - 1 := node]]
  }

  lemma RelinkedNone(x: Index, m: nat, node: Node)
    requires Sound(x) && 0 < m <= |x.nodes|
    ensures Relinked(x, m, 0, node) == x.nexts
  {}

  lemma RelinkedOne(x: Index, m: nat, level: nat, preds: seq<Node>, succs: seq<Node?>, node: Node)
    requires Sound(x) && 0 < m <= |x.nodes| && Enclose(x, m, 0, preds, succs) && level < |preds|
    ensures level < MAX_LEVELS && preds[level] in x.nodes && preds[level] == x.nodes[Last(x.heights, level, m)]
    ensures var r, q := Relinked(x, m, level, node), Last(x.heights, level, m);
            q < |r| && level < |r[q]| && level < x.heights[q] && Relinked(x, m, level + 1, node) == r[q := r[q][level := node]]
  {}

  lemma {:induction false} RelinkedAt(x: Index, m: nat, level: nat, node: Node, q: nat, L: nat)
    requires Sound(x) && 0 < m <= |x.nodes| && level <= MAX_LEVELS && q < |x.nodes| && L < x.heights[q]
    ensures Relinked(x, m, level, node)[q][L] == if L < level && Last(x.heights, L, m) == q then node else x.nexts[q][L]
  {
    hide Last;
    if level > 0 { RelinkedAt(x, m, level - 1, node, q, L); }
  }

  ghost function Grown(x: Index, m: nat, node: Node, n: nat, key: Key, val: Value, succs: seq<Node?>): Index
    requires Sound(x) && 0 < m <= |x.nodes| && n <= MAX_LEVELS
  {
    Index(InsertAt(x.nodes, m, node), InsertAt(x.heights, m, n), InsertAt(x.keys, m, key), InsertAt(x.vals, m, val),
          InsertAt(Relinked(x, m, n, node), m, succs))
  }

  lemma GrownHeights(x: Index, m: nat, node: Node, n: nat, key: Key, val: Value, succs: seq<Node?>)
    requires Sound(x) && 0 < m <= |x.nodes| && n <= MAX_LEVELS
    ensures Grown(x, m, node, n, key, val, succs).heights == InsertAt(x.heights, m, n)
  {}

  /** Every place of the grown list is the new one or an old one that moved. */
  lemma OldPlace(i: nat, m: nat) returns (j: nat)
    requires i != m
    ensures i == Moved(j, m) && (i < m ==> j == i) && (i > m ==> j + 1 == i)
  {
    j := if i < m then i else i - 1;
  }

  lemma GrownElement(x: Index, m: nat, node: Node, n: nat, key: Key, val: Value, succs: seq<Node?>, j: nat)
    requires Sound(x) && 0 < m <= |x.nodes| && n <= MAX_LEVELS && j < |x.nodes|
    ensures var x', i := Grown(x, m, node, n, key, val, succs), Moved(j, m);
            && x'.nodes[i] == x.nodes[j] && x'.heights[i] == x.heights[j] && x'.keys[i] == x.keys[j]
            && x'.vals[i] == x.vals[j] && x'.nexts[i] == Relinked(x, m, n, node)[j]
  {}

  lemma GrownSound(x: Index, m: nat, node: Node, n: nat, key: Key, val: Value, succs: seq<Node?>)
    requires Sound(x) && m == Rank(x.keys, key) && !Holds(x, m, key) && 0 < n <= MAX_LEVELS && |succs| == n && node !in x.nodes
    ensures Sound(Grown(x, m, node, n, key, val, succs))
  {
    hide Relinked, Rank, InsertAt;
    var x' := Grown(x, m, node, n, key, val, succs);
    forall i: nat | i < |x'.heights| ensures 0 < x'.heights[i] <= MAX_LEVELS && |x'.nexts[i]| == x'.heights[i] {
      if i != m {
        var j := OldPlace(i, m);
        GrownElement(x, m, node, n, key, val, succs, j);
      }
    }
    GrownElement(x, m, node, n, key, val, succs, 0);
    forall a: nat, b: nat | a < b < |x'.nodes| ensures x'.nodes[a] != x'.nodes[b] && (0 < a ==> x'.keys[a] < x'.keys[b]) {
      if a != m {
        var j := OldPlace(a, m);
        GrownElement(x, m, node, n, key, val, succs, j);
        if j > 0 { RankSplits(x.keys, key, j); }
      }
      if b != m {
        var j := OldPlace(b, m);
        GrownElement(x, m, node, n, key, val, succs, j);
        if j > 0 { RankSplits(x.keys, key, j); }
      }
    }
  }

  lemma GrownLink(x: Index, m: nat, node: Node, n: nat, key: Key, val: Value, preds: seq<Node>, succs: seq<Node?>, i: nat, L: nat)
    requires Sound(x) && LinksOk(x) && 0 < m <= |x.nodes| && |preds| == n <= MAX_LEVELS && Enclose(x, m, 0, preds, succs)
    requires Sound(Grown(x, m, node, n, key, val, succs)) && i < |x.nodes| + 1
    requires L < Grown(x, m, node, n, key, val, succs).heights[i]
    ensures LinkOk(Grown(x, m, node, n, key, val, succs), i, L)
  {
    hide First, Last, InsertAt, Relinked, LinksOk, LevelOk, Sorted, Distinct;
    if i == m {
      LinksBehind(x.nodes, x.heights, m, node, n, m, L);
    } else {
      var j := OldPlace(i, m);
      GrownElement(x, m, node, n, key, val, succs, j);
      RelinkedAt(x, m, n, node, j, L);
      OneLevel(x, L);
      Follow(x, j, L);
      if j < m { LinksBefore(x.nodes, x.heights, m, node, n, j, L); } else { LinksBehind(x.nodes, x.heights, m, node, n, j + 1, L); }
    }
  }

  lemma GrownLinks(x: Index, m: nat, node: Node, n: nat, key: Key, val: Value, preds: seq<Node>, succs: seq<Node?>)
    requires Sound(x) && LinksOk(x) && 0 < m <= |x.nodes| && |preds| == n <= MAX_LEVELS && Enclose(x, m, 0, preds, succs)
    requires Sound(Grown(x, m, node, n, key, val, succs))
    ensures LinksOk(Grown(x, m, node, n, key, val, succs))
  {
    hide Grown, Enclose, LinkOk, Sound;
    var x' := Grown(x, m, node, n, key, val, succs);
    assert |x'.nodes| == |x.nodes| + 1 && |x'.heights| == |x'.nodes| by { GrownSizes(x, m, node, n, key, val, succs); }
    forall L: nat ensures LevelOk(x', L) {
      forall q: nat | q < |x'.nodes| && L < x'.heights[q] ensures LinkOk(x', q, L) {
        GrownLink(x, m, node, n, key, val, preds, succs, q, L);
      }
    }
  }

  lemma GrownSizes(x: Index, m: nat, node: Node, n: nat, key: Key, val: Value, succs: seq<Node?>)
    requires Sound(x) && 0 < m <= |x.nodes| && n <= MAX_LEVELS
    ensures var x' := Grown(x, m, node, n, key, val, succs);
            |x'.nodes| == |x'.heights| == |x'.keys| == |x'.vals| == |x'.nexts| == |x.nodes| + 1
  {}

  lemma GrownMeans(x: Index, m: nat, node: Node, n: nat, key: Key, val: Value, succs: seq<Node?>, model: map<Key, Value>)
    requires Sound(x) && Means(x, model) && 0 < m <= |x.nodes| && n <= MAX_LEVELS && key !in model
    requires Sound(Grown(x, m, node, n, key, val, succs))
    ensures Means(Grown(x, m, node, n, key, val, succs), model[key := val])
  {
    hide InsertAt, Relinked, Sorted, Distinct;
    var x', model' := Grown(x, m, node, n, key, val, succs), model[key := val];
    forall i: nat | 0 < i < |x'.keys| ensures x'.keys[i] in model' && model'[x'.keys[i]] == x'.vals[i] {
      if i != m {
        var j := OldPlace(i, m);
        GrownElement(x, m, node, n, key, val, succs, j);
      }
    }
    forall k | k in model' ensures k in x'.keys[1..] {
      var i := if k == key then m else Moved(PlaceOf(x, model, k), m);
      if k != key { GrownElement(x, m, node, n, key, val, succs, PlaceOf(x, model, k)); }
      assert x'.keys[1..][i - 1] == k;
    }
  }

  /** Inserting keeps everything and adds the entry. */
  lemma Grows(x: Index, m: nat, node: Node, n: nat, key: Key, val: Value, preds: seq<Node>, succs: seq<Node?>, model: map<Key, Value>)
    requires Sound(x) && LinksOk(x) && Means(x, model) && m == Rank(x.keys, key) && key !in model && node !in x.nodes
    requires 0 < n <= MAX_LEVELS && |preds| == |succs| == n && Enclose(x, m, 0, preds, succs)
    ensures var x' := Grown(x, m, node, n, key, val, succs);
            Sound(x') && LinksOk(x') && Means(x', model[key := val])
  {
    hide Rank, Sorted, Distinct, Enclose, LinksOk, Means, Grown;
    HoldsIsIn(x, model, key);
    GrownSound(x, m, node, n, key, val, succs);
    GrownLinks(x, m, node, n, key, val, preds, succs);
    GrownMeans(x, m, node, n, key, val, succs, model);
  }

  ghost function PlaceOf(x: Index, model: map<Key, Value>, k: Key): (i: nat)
    requires Sound(x) && Means(x, model) && k in model
    ensures 0 < i < |x.keys| && x.keys[i] == k
  {
    var j :| 0 <= j < |x.keys| - 1 && x.keys[1..][j] == k;
    j + 1
  }

  // ----- removing --------------------------------------------------------------------------------

  /** All links after the levels from `level` up were led past place m. */
  ghost function Bypassed(x: Index, m: nat, level: nat): (r: seq<seq<Node?>>)
    requires Sound(x) && 0 < m < |x.nodes| && level <= MAX_LEVELS
    ensures |r| == |x.nexts| && forall i :: 0 <= i < |r| ==> |r[i]| == |x.nexts[i]|
    decreases MAX_LEVELS - level
  {
    if level == MAX_LEVELS then x.nexts
    else
      var r, q := Bypassed(x, m, level + 1), Last(x.heights, level, m);
      if level < x.heights[m] then r[q := r[q][level := x.nexts[m][level]]] else r
  }

  lemma {:induction false} BypassedAt(x: Index, m: nat, level: nat, q: nat, L: nat)
    requires Sound(x) && 0 < m < |x.nodes| && level <= MAX_LEVELS && q < |x.nodes| && L < x.heights[q]
    ensures Bypassed(x, m, level)[q][L]
            == if level <= L < x.heights[m] && Last(x.heights, L, m) == q then x.nexts[m][L] else x.nexts[q][L]
    decreases MAX_LEVELS - level
  {
    hide Last;
    if level < MAX_LEVELS { BypassedAt(x, m, level + 1, q, L); }
  }

  /** Above the tallest node there is nothing to lead past. */
  lemma {:induction false} BypassedAbove(x: Index, m: nat, level: nat)
    requires Sound(x) && 0 < m < |x.nodes| && x.heights[m] <= level <= MAX_LEVELS
    ensures Bypassed(x, m, level) == x.nexts
    decreases MAX_LEVELS - level
  {
    if level < MAX_LEVELS { BypassedAbove(x, m, level + 1); }
  }

  /** The levels below stay as they were. */
  lemma BypassedBelow(x: Index, m: nat, level: nat, L: nat)
    requires Sound(x) && LinksOk(x) && 0 < m < |x.nodes| && L < level <= MAX_LEVELS
    ensures Sound(x.(nexts := Bypassed(x, m, level))) && LevelOk(x.(nexts := Bypassed(x, m, level)), L)
  {
    hide Bypassed, Sorted, Distinct, LevelOk, First;
    var x' := x.(nexts := Bypassed(x, m, level));
    OneLevel(x, L);
    forall q: nat | q < |x.nodes| && L < x.heights[q] ensures LinkOk(x', q, L) {
      Follow(x, q, L);
      BypassedAt(x, m, level, q, L);
    }
    LevelFrom(x', L);
  }

  lemma LevelFrom(x: Index, L: nat)
    requires Sound(x) && forall q: nat {:trigger LinkOk(x, q, L)} :: q < |x.nodes| && L < x.heights[q] ==> LinkOk(x, q, L)
    ensures LevelOk(x, L)
  {}

  ghost function Shrunk(x: Index, m: nat): Index
    requires Sound(x) && 0 < m < |x.nodes|
  {
    Index(DeleteAt(x.nodes, m), DeleteAt(x.heights, m), DeleteAt(x.keys, m), DeleteAt(x.vals, m), DeleteAt(Bypassed(x, m, 0), m))
  }

  lemma Deleted<T>(s: seq<T>, m: nat, j: nat)
    requires m < |s| && j < |s| - 1
    ensures Moved(j, m) < |s| && DeleteAt(s, m)[j] == s[Moved(j, m)]
  {}

  lemma ShrunkElement(x: Index, m: nat, j: nat)
    requires Sound(x) && 0 < m < |x.nodes| && j < |x.nodes| - 1
    ensures var x', i := Shrunk(x, m), Moved(j, m);
            && i < |x.nodes| && x'.nodes[j] == x.nodes[i] && x'.heights[j] == x.heights[i] && x'.keys[j] == x.keys[i]
            && x'.vals[j] == x.vals[i] && x'.nexts[j] == Bypassed(x, m, 0)[i]
  {
    hide DeleteAt, Bypassed, Moved;
    Deleted(x.nodes, m, j);
    Deleted(x.heights, m, j);
    Deleted(x.keys, m, j);
    Deleted(x.vals, m, j);
    Deleted(Bypassed(x, m, 0), m, j);
  }

  lemma ShrunkSound(x: Index, m: nat)
    requires Sound(x) && 0 < m < |x.nodes|
    ensures Sound(Shrunk(x, m))
  {
    hide DeleteAt, Bypassed;
    var x' := Shrunk(x, m);
    forall i: nat | i < |x'.heights| ensures 0 < x'.heights[i] <= MAX_LEVELS && |x'.nexts[i]| == x'.heights[i] { ShrunkElement(x, m, i); }
    ShrunkElement(x, m, 0);
    forall a: nat, b: nat | a < b < |x'.nodes| ensures x'.nodes[a] != x'.nodes[b] && (0 < a ==> x'.keys[a] < x'.keys[b]) {
      ShrunkElement(x, m, a);
      ShrunkElement(x, m, b);
    }
  }

  /** Where the links of the shrunk list lead. */
  lemma ShrunkTarget<T>(xs: seq<T>, hs: seq<nat>, xs': seq<T>, hs': seq<nat>, m: nat, j: nat, L: nat)
    requires |xs| == |hs| == |xs'| + 1 == |hs'| + 1 && 0 < m < |hs| && j < |hs'| && L < hs'[j] && L < hs[0] && L < hs'[0]
    requires InsertAt(xs', m, xs[m]) == xs && InsertAt(hs', m, hs[m]) == hs && Last(hs', L, m) == Last(hs, L, m)
    ensures At(xs', First(hs', L, j + 1))
            == if j < m && L < hs[m] && Last(hs, L, m) == j then At(xs, First(hs, L, m + 1))
               else At(xs, First(hs, L, if j < m then j + 1 else j + 2))
  {
    hide *;
    if j < m { LinksDeleted(xs', hs', m, xs[m], hs[m], j, L); } else { LinksBehind(xs', hs', m, xs[m], hs[m], j + 1, L); }
  }

  lemma LastDeleted(hs: seq<nat>, m: nat, L: nat)
    requires 0 < m < |hs| && L < hs[0]
    ensures DeleteAt(hs, m)[0] > L && Last(DeleteAt(hs, m), L, m) == Last(hs, L, m)
  {
    LastBefore(hs, DeleteAt(hs, m), L, m);
  }

  lemma ShrunkNext(x: Index, m: nat, j: nat, L: nat)
    requires Sound(x) && LinksOk(x) && 0 < m < |x.nodes| && Sound(Shrunk(x, m)) && j < |x.nodes| - 1 && L < Shrunk(x, m).heights[j]
    ensures Shrunk(x, m).nexts[j][L]
            == if j < m && L < x.heights[m] && Last(x.heights, L, m) == j then NodeAt(x, First(x.heights, L, m + 1))
               else NodeAt(x, First(x.heights, L, if j < m then j + 1 else j + 2))
  {
    hide First, Last, DeleteAt, Bypassed, LinksOk, LevelOk, Distinct, Sorted;
    var i := Moved(j, m);
    ShrunkElement(x, m, j);
    BypassedAt(x, m, 0, i, L);
    OneLevel(x, L);
    Follow(x, i, L);
    if L < x.heights[m] { Follow(x, m, L); }
  }

  lemma ShrunkLink(x: Index, m: nat, j: nat, L: nat)
    requires Sound(x) && LinksOk(x) && 0 < m < |x.nodes| && Sound(Shrunk(x, m)) && j < |x.nodes| - 1 && L < Shrunk(x, m).heights[j]
    ensures LinkOk(Shrunk(x, m), j, L)
  {
    hide First, Last, DeleteAt, InsertAt, Bypassed, LinksOk, Distinct, Sorted;
    ShrunkNext(x, m, j, L);
    ShrunkElement(x, m, j);
    DeleteInsert(x.nodes, m);
    DeleteInsert(x.heights, m);
    LastDeleted(x.heights, m, L);
    ShrunkTarget(x.nodes, x.heights, Shrunk(x, m).nodes, Shrunk(x, m).heights, m, j, L);
  }

  lemma ShrunkParts(x: Index, m: nat)
    requires Sound(x) && 0 < m < |x.nodes|
    ensures Shrunk(x, m).nodes == DeleteAt(x.nodes, m) && Shrunk(x, m).heights == DeleteAt(x.heights, m)
    ensures |DeleteAt(x.nodes, m)| == |DeleteAt(x.heights, m)|
  {}

  lemma ShrunkLinks(x: Index, m: nat)
    requires Sound(x) && LinksOk(x) && 0 < m < |x.nodes| && Sound(Shrunk(x, m))
    ensures LinksOk(Shrunk(x, m))
  {
    var x' := Shrunk(x, m);
    assert |x'.nodes| == |x.nodes| - 1;
    hide Shrunk, LinkOk, Sound;
    assert |x'.heights| == |x'.nodes| by { ShrunkParts(x, m); }
    forall L: nat ensures LevelOk(x', L) {
      forall q: nat | q < |x'.nodes| && L < x'.heights[q] ensures LinkOk(x', q, L) { ShrunkLink(x, m, q, L); }
    }
  }

  lemma ShrunkMeans(x: Index, m: nat, key: Key, model: map<Key, Value>)
    requires Sound(x) && Means(x, model) && 0 < m < |x.nodes| && x.keys[m] == key && Sound(Shrunk(x, m))
    ensures Means(Shrunk(x, m), model - {key})
  {
    hide DeleteAt, Bypassed, Distinct;
    var x', model' := Shrunk(x, m), model - {key};
    forall i: nat | 0 < i < |x'.keys| ensures x'.keys[i] in model' && model'[x'.keys[i]] == x'.vals[i] { ShrunkElement(x, m, i); }
    forall k | k in model' ensures k in x'.keys[1..] {
      var i := PlaceOf(x, model, k);
      var j := OldPlace(i, m);
      ShrunkElement(x, m, j);
      assert x'.keys[1..][j - 1] == k;
    }
  }

  /** The items from place i on. */
  ghost function Pairs(x: Index, i: nat): seq<(Key, Value)>
    requires Sound(x) && 0 < i <= |x.keys|
  {
    seq(|x.keys| - i, j requires 0 <= j < |x.keys| - i => (x.keys[i + j], x.vals[i + j]))
  }

  /** They are the entries of the map with keys not below k, each once and in ascending order. */
  lemma PairsAreMap(x: Index, model: map<Key, Value>, k: Key, entry: (Key, Value))
    requires Sound(x) && Means(x, model)
    ensures entry in Pairs(x, Rank(x.keys, k)) <==> entry.0 in model && model[entry.0] == entry.1 && entry.0 >= k
  {
    hide Sorted, Distinct, Means, Rank;
    var m := Rank(x.keys, k);
    if entry in Pairs(x, m) {
      var j :| 0 <= j < |Pairs(x, m)| && Pairs(x, m)[j] == entry;
      PairIn(x, model, k, m + j);
    }
    if entry.0 in model && model[entry.0] == entry.1 && entry.0 >= k {
      var i := PlaceOf(x, model, entry.0);
      PairIn(x, model, k, i);
      assert Pairs(x, m)[i - m] == entry;
    }
  }

  /** All of them are the whole map, and as many. */
  lemma AllPairsAreMap(x: Index, model: map<Key, Value>, entry: (Key, Value))
    requires Sound(x) && Means(x, model)
    ensures entry in Pairs(x, 1) <==> entry.0 in model && model[entry.0] == entry.1
    ensures |Pairs(x, 1)| == |model|
  {
    hide Sorted, Distinct, Means, Rank;
    if entry in Pairs(x, 1) {
      var j :| 0 <= j < |Pairs(x, 1)| && Pairs(x, 1)[j] == entry;
      PairIn(x, model, entry.0, 1 + j);
    }
    if entry.0 in model && model[entry.0] == entry.1 {
      var i := PlaceOf(x, model, entry.0);
      PairIn(x, model, entry.0, i);
      assert Pairs(x, 1)[i - 1] == entry;
    }
    SizeOfModel(x, model);
  }

  lemma SizeOfModel(x: Index, model: map<Key, Value>)
    requires Sound(x) && Means(x, model)
    ensures |model| == |x.keys| - 1
  {
    var ks := x.keys[1..];
    Elements(ks);
    forall k | k in ks ensures k in model {
      var i :| 0 <= i < |ks| && ks[i] == k;
      assert x.keys[i + 1] == k;
    }
    var all := set k | k in ks;
    assert forall k :: k in model.Keys <==> k in all;
    assert model.Keys == all;
    assert |model| == |model.Keys|;
  }

  lemma {:induction false} Elements(ks: seq<Key>)
    requires forall i, j :: 0 <= i < j < |ks| ==> ks[i] < ks[j]
    ensures |set k | k in ks| == |ks|
  {
    if ks != [] {
      var n := |ks| - 1;
      Elements(ks[..n]);
      assert ks == ks[..n] + [ks[n]];
      assert (set k | k in ks) == (set k | k in ks[..n]) + {ks[n]};
    }
  }

  lemma PairIn(x: Index, model: map<Key, Value>, k: Key, i: nat)
    requires Sound(x) && Means(x, model) && 0 < i < |x.keys|
    ensures x.keys[i] in model && model[x.keys[i]] == x.vals[i] && (x.keys[i] >= k <==> i >= Rank(x.keys, k))
  {}

  lemma PairsAscend(x: Index, i: nat, a: nat, b: nat)
    requires Sound(x) && 0 < i <= |x.keys| && a < b < |Pairs(x, i)|
    ensures Pairs(x, i)[a].0 < Pairs(x, i)[b].0
  {}

  /** Whether the expectation of `sl_cas` is met when the key has the value r, or none. */
  predicate Met(expectation: Expect, r: Option<Value>) {
    match expectation
    case Whatever => true
    case DoesNotExist => r.None?
    case Exists => r.Some?
    case Exactly(v) => r == Some(v)
  }

  /** Links do not depend on values. */
  lemma ValuesAside(x: Index, x': Index)
    requires Sound(x) && Sound(x') && LinksOk(x) && x'.nodes == x.nodes && x'.heights == x.heights && x'.nexts == x.nexts
    ensures LinksOk(x')
  {
    hide First, Sorted, Distinct;
    forall L: nat ensures LevelOk(x', L) {
      OneLevel(x, L);
      forall q: nat | q < |x'.nodes| && L < x'.heights[q] ensures LinkOk(x', q, L) { Follow(x, q, L); }
    }
  }

  /** One more level led past place m. */
  lemma BypassedOne(x: Index, m: nat, level: nat, p: nat)
    requires Sound(x) && 0 < m < |x.nodes| && level < MAX_LEVELS && p < m && level < x.heights[p]
    ensures var r, q := Bypassed(x, m, level + 1), Last(x.heights, level, m);
            && (level < x.heights[m] ==> q < |r| && level < |r[q]| && level < |r[m]| && r[m][level] == x.nexts[m][level]
                                         && Bypassed(x, m, level) == r[q := r[q][level := x.nexts[m][level]]])
            && (level >= x.heights[m] ==> Bypassed(x, m, level) == r)
            && (First(x.heights, level, p + 1) == |x.nodes| ==> level >= x.heights[m])
  {
    hide Last, Sorted, Distinct;
    if level < x.heights[m] { BypassedAt(x, m, level + 1, m, level); }
  }

  /** The first node not below the key is the one of the key exactly at the levels it reaches. */
  lemma UnlinkHere(x: Index, m: nat, level: nat, key: Key)
    requires Sound(x) && m == Rank(x.keys, key) && Holds(x, m, key)
    ensures var i := First(x.heights, level, m);
            && (level < x.heights[m] <==> i == m) && (m < i < |x.keys| ==> x.keys[i] > key)
  {}

  // ----- the list --------------------------------------------------------------------------------

  /** How tall a new node is: two thirds of the trailing zeros of the random word, at least 1, and at most one more than any
      node has been so far. */
  function Levels(z: nat, highest: nat): (n: nat)
    ensures 1 <= n <= highest + 1 && (n > 1 ==> 3 * n <= 2 * z) && (2 * z >= 3 * n + 3 ==> n == highest + 1)
  {
    if 2 * z / 3 > highest then highest + 1 else if 2 * z / 3 == 0 then 1 else 2 * z / 3
  }

  class SkipList {
    const head: Node
    var high_water: nat
    ghost var x: Index
    ghost var model: map<Key, Value>

    ghost function Repr(): set<Node>
      reads this
    {
      set n | n in x.nodes
    }

    /** The nodes hold what the index says. */
    ghost predicate Mirrors()
      reads this, Repr()
    {
      && Sound(x) && x.nodes[0] == head && 1 <= high_water <= 20
      && (forall i :: 0 < i < |x.heights| ==> x.heights[i] <= high_water)
      && (forall i :: 0 <= i < |x.nodes| ==> NodeHolds(x.nodes[i], x.heights[i], x.keys[i], x.vals[i], x.nexts[i]))
    }

    ghost predicate Valid()
      reads this, Repr()
    {
      Mirrors() && LinksOk(x) && Means(x, model)
    }

    constructor ()
      ensures Valid() && fresh(Repr()) && model == map[]
    {
      head := new Node(MAX_LEVELS, 0, 0);
      high_water := 1;
      new;
      x, model := Index([head], [MAX_LEVELS], [0], [0], [head.next]), map[];
      assert forall L: nat :: L < MAX_LEVELS ==> LinkOk(x, 0, L);
    }

    lemma HeldAt(i: nat)
      requires Mirrors() && i < |x.nodes|
      ensures x.nodes[i].val == x.vals[i] && x.nodes[i].key == x.keys[i] && x.nodes[i].next == x.nexts[i]
    {}

    /** What the search sees at place i. */
    lemma WalkOn(i: nat, level: nat, key: Key)
      requires Mirrors() && LevelOk(x, level) && i < |x.nodes| && level < x.heights[i]
      ensures var item := x.nodes[i];
              && level < |item.next| && item.next[level] == NodeAt(x, First(x.heights, level, i + 1))
              && level < x.heights[0] && (i > 0 ==> (item.key - key < 0 <==> i < Rank(x.keys, key)))
    {
      hide First, Rank, Sorted, Distinct, LevelOk, NodeHolds;
      Follow(x, i, level);
      HeldAt(i);
      if i > 0 { RankSplits(x.keys, key, i); }
    }

    lemma Lengths()
      requires Mirrors()
      ensures Sound(x) && |x.nodes| == |x.heights| == |x.keys|
    {}

    /** One level of `find_preds`: from place p on to the last node below the key. */
    method Walk(level: nat, start: Node, ghost p0: nat, key: Key, d0: int)
      returns (pred: Node, item: Node?, d: int, ghost p: nat)
      requires Mirrors() && LevelOk(x, level) && p0 < Rank(x.keys, key) && start == x.nodes[p0] && level < x.heights[p0]
      ensures p < Rank(x.keys, key) && pred == x.nodes[p] && level < x.heights[p] && item == NodeAt(x, First(x.heights, level, p + 1))
      ensures Last(x.heights, level, Rank(x.keys, key)) == p
      ensures First(x.heights, level, Rank(x.keys, key)) == First(x.heights, level, p + 1)
      ensures item != null ==> d == item.key - key
      ensures Mirrors()
    {
      ghost var m := Rank(x.keys, key);
      hide First, Rank, Last, LevelOk, Mirrors, Sound;
      Lengths();
      WalkOn(p0, level, key);
      pred, p, d := start, p0, d0;
      item := pred.next[level];
      while item != null
        invariant p < m && pred == x.nodes[p] && level < x.heights[p] && item == NodeAt(x, First(x.heights, level, p + 1))
        decreases |x.nodes| - p
      {
        ghost var i := First(x.heights, level, p + 1);
        WalkOn(i, level, key);
        var next := item.next[level];
        d := item.key - key;
        if d >= 0 { break; }
        pred, p := item, i;
        item := next;
      }
      Bracket(x.heights, level, p, m);
    }

    /** One level of `find_preds` with the predecessor and successor it records. */
    method FindLevel(level: nat, start: Node, ghost p0: nat, key: Key, d0: int, preds0: seq<Node>, succs0: seq<Node?>)
      returns (pred: Node, item: Node?, d: int, ghost p: nat, preds: seq<Node>, succs: seq<Node?>)
      requires Mirrors() && LevelOk(x, level) && p0 < Rank(x.keys, key) && start == x.nodes[p0] && level < x.heights[p0]
      requires Enclose(x, Rank(x.keys, key), level + 1, preds0, succs0)
      ensures Mirrors() && p < Rank(x.keys, key) && pred == x.nodes[p] && level < x.heights[p]
      ensures item == NodeAt(x, First(x.heights, level, Rank(x.keys, key))) && (item != null ==> d == item.key - key)
      ensures |preds| == |succs| == |preds0| && Enclose(x, Rank(x.keys, key), level, preds, succs)
    {
      hide First, Last, Rank, Sorted, Distinct, LevelOk, NodeHolds;
      pred, item, d, p := Walk(level, start, p0, key, d0);
      preds, succs := preds0, succs0;
      if level < |preds| {
        EncloseOne(x, Rank(x.keys, key), level, preds, succs, pred, item);
        preds, succs := preds[level := pred], succs[level := item];
      } else {
        EncloseNone(x, Rank(x.keys, key), level, preds, succs);
      }
    }

    /** `find_preds` without unlinking: at each requested level the last node below the key and its successor. */
    method FindPreds(n: nat, key: Key) returns (preds: seq<Node>, succs: seq<Node?>, found: Node?)
      requires Mirrors() && LinksOk(x) && n <= high_water
      ensures |preds| == |succs| == n
      ensures var m := Rank(x.keys, key);
              Enclose(x, m, 0, preds, succs) && found == if Holds(x, m, key) then x.nodes[m] else null
      ensures Mirrors()
    {
      ghost var m := Rank(x.keys, key);
      hide First, Last, Rank, Sorted, Distinct, LinksOk, LevelOk, NodeHolds;
      ghost var p: nat, at: nat := 0, |x.nodes|;
      var pred, item: Node?, d := head, null, 0;
      preds, succs := seq(n, _ => head), seq(n, _ => null);
      var level: nat := high_water;
      assert Enclose(x, m, level, preds, succs);
      hide Enclose;
      while level > 0
        invariant Mirrors() && |preds| == |succs| == n && level <= high_water
        invariant p < m && pred == x.nodes[p] && level <= x.heights[p] && Enclose(x, m, level, preds, succs)
        invariant at >= m && item == NodeAt(x, at) && (item != null ==> d == item.key - key)
        invariant level == 0 ==> item == NodeAt(x, m)
      {
        level := level - 1;
        OneLevel(x, level);
        Follow(x, p, level);
        HeldAt(p);
        if pred.next[level] == null && level >= n {
          EncloseNone(x, m, level, preds, succs);
          if level == 0 { NothingBehind(x, p, m); }
        } else {
          pred, item, d, p, preds, succs := FindLevel(level, pred, p, key, d, preds, succs);
          at := First(x.heights, level, m);
          if level == 0 { AtZero(x, m); }
        }
      }
      if item != null { HeldAt(at); }
      found := if d == 0 then item else null;
    }

    /** `sl_lookup`. */
    method Lookup(key: Key) returns (r: Option<Value>)
      requires Valid()
      ensures r == if key in model then Some(model[key]) else None
    {
      hide Rank, Means, Sorted, Distinct;
      HoldsIsIn(x, model, key);
      var _, _, item := FindPreds(0, key);
      r := if item != null then Some(item.val) else None;
    }

    /** `random_levels` with z trailing zeros in the 32 low bits of the random word.  The result is within
        `high_water`, which never passes 20, so the clamp to MAX_LEVELS is not needed. */
    method RandomLevels(z: nat) returns (n: nat)
      requires z < 32 && Mirrors()
      modifies this`high_water
      ensures Mirrors() && 1 <= n <= high_water <= 20
      ensures n == Levels(z, old(high_water)) && high_water == if n > old(high_water) then n else old(high_water)
    {
      hide Sorted, Distinct;
      var levels := 2 * z / 3;
      if levels == 0 { return 1; }
      if levels > high_water {
        high_water := high_water + 1;
        levels := high_water;
      }
      if levels > MAX_LEVELS { levels := MAX_LEVELS; }
      return levels;
    }

    /** One store to a link. */
    method SetNext(pred: Node, ghost q: nat, level: nat, target: Node?)
      requires Mirrors() && q < |x.nodes| && pred == x.nodes[q] && level < x.heights[q]
      modifies this`x, pred`next
      ensures x == old(x).(nexts := old(x.nexts)[q := old(x.nexts)[q][level := target]]) && Mirrors()
    {
      hide Sorted;
      pred.next := pred.next[level := target];
      x := x.(nexts := x.nexts[q := x.nexts[q][level := target]]);
    }

    /** The second loop of an insertion: linking the new node in behind its predecessors, level by level. */
    method LinkIn(node: Node, ghost m: nat, preds: seq<Node>, ghost succs: seq<Node?>)
      requires Mirrors() && 0 < m <= |x.nodes| && node !in x.nodes && Enclose(x, m, 0, preds, succs)
      modifies this`x, Repr()
      ensures x == old(x).(nexts := Relinked(old(x), m, |preds|, node)) && Mirrors()
      ensures node.next == old(node.next) && node.val == old(node.val)
    {
      hide First, Last, Sorted, Distinct, NodeHolds, Relinked;
      ghost var x0 := x;
      assert Relinked(x0, m, 0, node) == x0.nexts by { RelinkedNone(x0, m, node); }
      for level: nat := 0 to |preds|
        invariant x == x0.(nexts := Relinked(x0, m, level, node)) && Mirrors()
        invariant node.next == old(node.next) && node.val == old(node.val)
      {
        RelinkedOne(x0, m, level, preds, succs, node);
        hide Enclose, Sound;
        SetNext(preds[level], Last(x0.heights, level, m), level, node);
      }
    }

    method NewNode(n: nat, key: Key, val: Value, succs: seq<Node?>) returns (node: Node)
      requires |succs| == n
      ensures fresh(node) && NodeHolds(node, n, key, val, succs)
    {
      node := new Node(n, key, val);
      for level := 0 to n
        invariant fresh(node) && node.levels == n && node.key == key && node.val == val
        invariant |node.next| == n && forall i :: 0 <= i < level ==> node.next[i] == succs[i]
      {
        node.next := node.next[level := succs[level]];
      }
      assert node.next == succs;
    }

    /** The nodes hold what the grown, or shrunk, index says. */
    lemma GrownHeld(x0: Index, m: nat, node: Node, n: nat, key: Key, val: Value, succs: seq<Node?>)
      requires Sound(x0) && 0 < m <= |x0.nodes| && 0 < n <= MAX_LEVELS && NodeHolds(node, n, key, val, succs)
      requires forall i :: 0 <= i < |x0.nodes| ==>
                 NodeHolds(x0.nodes[i], x0.heights[i], x0.keys[i], x0.vals[i], Relinked(x0, m, n, node)[i])
      ensures var x' := Grown(x0, m, node, n, key, val, succs);
              && |x'.nodes| == |x'.heights| == |x'.keys| == |x'.vals| == |x'.nexts|
              && forall i :: 0 <= i < |x'.nodes| ==> NodeHolds(x'.nodes[i], x'.heights[i], x'.keys[i], x'.vals[i], x'.nexts[i])
      ensures var x' := Grown(x0, m, node, n, key, val, succs);
              && x'.nodes[0] == x0.nodes[0] && (forall b :: b in x'.nodes <==> b == node || b in x0.nodes)
              && forall i :: 0 < i < |x'.heights| ==> x'.heights[i] == n || x'.heights[i] in x0.heights[1..]
    {}

    /** The insertion of `sl_cas`. */
    method Insert(key: Key, val: Value, n: nat, preds: seq<Node>, succs: seq<Node?>)
      requires Valid() && 0 < n <= high_water && |preds| == |succs| == n && key !in model
      requires Enclose(x, Rank(x.keys, key), 0, preds, succs)
      modifies this`x, this`model, Repr()
      ensures Valid() && model == old(model)[key := val] && fresh(Repr() - old(Repr()))
      ensures x.heights == InsertAt(old(x).heights, Rank(old(x).keys, key), n)
    {
      hide Rank, Sorted, Distinct, NodeHolds, Enclose, LinksOk, Means, Grown, Relinked;
      ghost var x0 := x;
      var node := NewNode(n, key, val, succs);
      LinkIn(node, Rank(x.keys, key), preds, succs);
      Adopt(x0, node, n, key, val, preds, succs);
    }

    /** With all its links in place, the node belongs to the list. */
    ghost method Adopt(x0: Index, node: Node, n: nat, key: Key, val: Value, preds: seq<Node>, succs: seq<Node?>)
      requires Sound(x0) && LinksOk(x0) && Means(x0, model) && key !in model && node !in x0.nodes
      requires 0 < n <= high_water && |preds| == |succs| == n && Enclose(x0, Rank(x0.keys, key), 0, preds, succs)
      requires Mirrors() && x == x0.(nexts := Relinked(x0, Rank(x0.keys, key), n, node)) && NodeHolds(node, n, key, val, succs)
      modifies this`x, this`model
      ensures Valid() && model == old(model)[key := val] && Repr() == old(Repr()) + {node}
      ensures x.heights == InsertAt(x0.heights, Rank(x0.keys, key), n)
    {
      hide Rank, Sorted, Distinct, NodeHolds, Enclose, LinksOk, Means, Grown, Relinked;
      var m := Rank(x0.keys, key);
      GrownHeights(x0, m, node, n, key, val, succs);
      Grows(x0, m, node, n, key, val, preds, succs, model);
      GrownHeld(x0, m, node, n, key, val, succs);
      x, model := Grown(x0, m, node, n, key, val, succs), model[key := val];
    }

    /** The update of `sl_cas`. */
    method SetValue(item: Node, ghost m: nat, val: Value)
      requires Valid() && 0 < m < |x.nodes| && item == x.nodes[m]
      modifies this`x, this`model, item`val
      ensures Valid() && model == old(model)[old(x.keys[m]) := val] && Repr() == old(Repr()) && x.heights == old(x).heights
    {
      item.val := val;
      ghost var x0 := x;
      assert forall i :: 0 < i < |x.keys| && i != m ==> x.keys[i] != x.keys[m];
      hide Sorted, First;
      x, model := x.(vals := x.vals[m := val]), model[x.keys[m] := val];
      ValuesAside(x0, x);
    }

    /** `sl_cas` acts and answers as on the map, for every expectation and every random word. */
    method Cas(key: Key, expectation: Expect, newVal: Value, z: nat) returns (r: Option<Value>)
      requires Valid() && z < 32
      modifies this, Repr()
      ensures Valid() && fresh(Repr() - old(Repr()))
      ensures r == if key in old(model) then Some(old(model)[key]) else None
      ensures model == if Met(expectation, r) then old(model)[key := newVal] else old(model)
      ensures var n := Levels(z, old(high_water));
              && x.heights == (if key !in old(model) && Met(expectation, r) then InsertAt(old(x).heights, Rank(old(x).keys, key), n)
                               else old(x).heights)
              && high_water == if n > old(high_water) then n else old(high_water)
    {
      hide Rank, Sorted, Distinct, LinksOk, Means, Enclose, NodeHolds;
      var n := RandomLevels(z);
      HoldsIsIn(x, model, key);
      var preds, succs, item := FindPreds(n, key);
      if item != null {
        r := Some(item.val);
        HeldAt(Rank(x.keys, key));
        if expectation == DoesNotExist || (expectation.Exactly? && expectation.value != item.val) { return; }
        SetValue(item, Rank(x.keys, key), newVal);
      } else {
        r := None;
        if expectation != DoesNotExist && expectation != Whatever { return; }
        Insert(key, newVal, n, preds, succs);
      }
    }

    /** One level of `find_preds` with unlinking: a link that leads to the node of the key is led past it. */
    method UnlinkLevel(level: nat, start: Node, key: Key, d0: int, ghost x0: Index, ghost p0: nat)
      returns (pred: Node, d: int, ghost p: nat)
      requires Sound(x0) && LinksOk(x0) && level < MAX_LEVELS && Holds(x0, Rank(x0.keys, key), key)
      requires Mirrors() && x == x0.(nexts := Bypassed(x0, Rank(x0.keys, key), level + 1))
      requires p0 < Rank(x0.keys, key) && start == x.nodes[p0] && level < x.heights[p0]
      modifies this`x, Repr()
      ensures x == x0.(nexts := Bypassed(x0, Rank(x0.keys, key), level)) && Mirrors()
      ensures p < Rank(x0.keys, key) && pred == x.nodes[p] && level < x.heights[p]
    {
      ghost var m := Rank(x0.keys, key);
      hide First, Last, Rank, Sorted, Distinct, LinksOk, LevelOk, Bypassed, NodeHolds;
      BypassedBelow(x0, m, level + 1, level);
      HeldAt(p0);
      Follow(x, p0, level);
      pred, d, p := start, d0, p0;
      if pred.next[level] != null {
        var item: Node?;
        pred, item, d, p := Walk(level, pred, p, key, d);
        BypassHere(level, pred, item, key, d, x0, p);
      } else {
        BypassedOne(x0, m, level, p0);
      }
    }

    /** The end of the walk at one level. */
    method BypassHere(level: nat, pred: Node, item: Node?, key: Key, d: int, ghost x0: Index, ghost p: nat)
      requires Sound(x0) && level < MAX_LEVELS && Holds(x0, Rank(x0.keys, key), key)
      requires Mirrors() && x == x0.(nexts := Bypassed(x0, Rank(x0.keys, key), level + 1))
      requires p < Rank(x0.keys, key) && pred == x.nodes[p] && level < x.heights[p]
      requires Last(x0.heights, level, Rank(x0.keys, key)) == p && item == NodeAt(x, First(x0.heights, level, Rank(x0.keys, key)))
      requires item != null ==> d == item.key - key
      modifies this`x, Repr()
      ensures x == x0.(nexts := Bypassed(x0, Rank(x0.keys, key), level)) && Mirrors()
    {
      ghost var m := Rank(x0.keys, key);
      hide First, Last, Rank, Sorted, Distinct, Bypassed, NodeHolds;
      BypassedOne(x0, m, level, p);
      UnlinkHere(x0, m, level, key);
      if item != null {
        HeldAt(First(x0.heights, level, m));
        if d == 0 { SetNext(pred, p, level, item.next[level]); }
      }
    }

    /** `find_preds` with unlinking, of a key the list holds. */
    method Unlink(key: Key)
      requires Mirrors() && LinksOk(x) && Holds(x, Rank(x.keys, key), key)
      modifies this`x, Repr()
      ensures x == old(x).(nexts := Bypassed(old(x), Rank(old(x).keys, key), 0)) && Mirrors()
    {
      ghost var m, x0 := Rank(x.keys, key), x;
      hide Rank, Sorted, Distinct, LinksOk, Bypassed, NodeHolds;
      var pred, d, level: nat := head, 0, high_water;
      ghost var p: nat := 0;
      BypassedAbove(x, m, level);
      while level > 0
        invariant x == x0.(nexts := Bypassed(x0, m, level)) && Mirrors() && level <= high_water
        invariant p < m && pred == x.nodes[p] && level <= x.heights[p]
      {
        level := level - 1;
        pred, d, p := UnlinkLevel(level, pred, key, d, x0, p);
      }
    }

    lemma ShrunkHeld(x0: Index, m: nat)
      requires Sound(x0) && 0 < m < |x0.nodes|
      requires forall i :: 0 <= i < |x0.nodes| ==>
                 NodeHolds(x0.nodes[i], x0.heights[i], x0.keys[i], x0.vals[i], Bypassed(x0, m, 0)[i])
      ensures var x' := Shrunk(x0, m);
              && |x'.nodes| == |x'.heights| == |x'.keys| == |x'.vals| == |x'.nexts| > 0
              && (forall i :: 0 <= i < |x'.nodes| ==> NodeHolds(x'.nodes[i], x'.heights[i], x'.keys[i], x'.vals[i], x'.nexts[i]))
              && x'.nodes[0] == x0.nodes[0] && (forall b :: b in x'.nodes ==> b in x0.nodes)
              && forall i :: 0 < i < |x'.heights| ==> x'.heights[i] in x0.heights[1..]
    {
      hide Sorted, Distinct, NodeHolds, Bypassed, DeleteAt;
      var x' := Shrunk(x0, m);
      forall i: nat | i < |x'.nodes|
        ensures NodeHolds(x'.nodes[i], x'.heights[i], x'.keys[i], x'.vals[i], x'.nexts[i]) && x'.nodes[i] in x0.nodes
        ensures i > 0 ==> x'.heights[i] in x0.heights[1..]
      {
        ShrunkElement(x0, m, i);
        assert i > 0 ==> x0.heights[1..][Moved(i, m) - 1] == x0.heights[Moved(i, m)];
      }
      ShrunkElement(x0, m, 0);
    }

    /** `sl_remove` acts and answers as on the map. */
    method Remove(key: Key) returns (r: Option<Value>)
      requires Valid()
      modifies this`x, this`model, Repr()
      ensures Valid() && Repr() <= old(Repr())
      ensures r == if key in old(model) then Some(old(model)[key]) else None
      ensures model == old(model) - {key}
      ensures x.heights == if key in old(model) then DeleteAt(old(x).heights, Rank(old(x).keys, key)) else old(x).heights
    {
      hide Rank, Sorted, Distinct, LinksOk, Means, Enclose, NodeHolds, Bypassed, Shrunk;
      HoldsIsIn(x, model, key);
      var _, _, item := FindPreds(high_water, key);
      if item == null { return None; }
      ghost var x0, m := x, Rank(x.keys, key);
      HeldAt(m);
      r := Some(item.val);
      Unlink(key);
      ShrunkSound(x0, m);
      ShrunkLinks(x0, m);
      ShrunkMeans(x0, m, key, model);
      ShrunkHeld(x0, m);
      ShrunkParts(x0, m);
      x, model := Shrunk(x0, m), model - {key};
    }

    /** `sl_iter_begin`: the first item, or the first not below the key. */
    method IterBegin(key: Option<Key>) returns (item: Node?)
      requires Valid()
      ensures item == NodeAt(x, if key.None? then 1 else Rank(x.keys, key.value)) && Valid()
    {
      hide Sorted, Distinct, First, Rank, LinksOk, LevelOk, NodeHolds, Means;
      if key.Some? {
        AtZero(x, Rank(x.keys, key.value));
        var _, succs, _ := FindPreds(1, key.value);
        item := succs[0];
      } else {
        OneLevel(x, 0);
        AtZero(x, 1);
        Follow(x, 0, 0);
        HeldAt(0);
        item := head.next[0];
      }
    }

    /** `sl_iter_next` until it answers DOES_NOT_EXIST: the items from place i0 on, in order. */
    method IterRest(start: Node?, ghost i0: nat) returns (out: seq<(Key, Value)>)
      requires Valid() && 0 < i0 <= |x.nodes| && start == NodeAt(x, i0)
      ensures out == Pairs(x, i0)
    {
      hide Sorted, Distinct, First, LinksOk, LevelOk, NodeHolds, Means;
      OneLevel(x, 0);
      ghost var i := i0;
      var item := start;
      out := [];
      while item != null
        invariant Mirrors() && LevelOk(x, 0) && i0 <= i <= |x.nodes| && item == NodeAt(x, i)
        invariant out == Pairs(x, i0)[..i - i0]
        decreases |x.nodes| - i
      {
        HeldAt(i);
        Follow(x, i, 0);
        AtZero(x, i + 1);
        out := out + [(item.key, item.val)];
        item := item.next[0];
        i := i + 1;
      }
    }

    /** `sl_count`: the size of the map. */
    method Count() returns (n: nat)
      requires Valid()
      ensures n == |model|
    {
      hide LinksOk, Means, Sorted, Distinct;
      SizeOfModel(x, model);
      var first := IterBegin(None);
      var all := IterRest(first, 1);
      n := |all|;
    }
  }

  ghost predicate NodeHolds(n: Node, levels: nat, key: Key, val: Value, next: seq<Node?>)
    reads n
  {
    n.levels == levels && n.key == key && n.val == val && n.next == next
  }
}
