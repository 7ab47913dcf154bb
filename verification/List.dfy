/** The Harris-Michael lock-free list (src/map/list.c, the build without hazard pointers).

    Every load, swap and compare-and-swap of a shared field is a step; the calls of any number of threads
    interleave freely.  Nodes live in an arena: the index is the address, 0 is the head sentinel as a node
    and NULL as a link.  A node is allocated and linked by its successful insert CAS, and is never reused
    while anybody may look at it. */
module HarrisList {
  import opened Common

  type Key = int
  type Value = int

  /** The `next` field is split into the link and its mark bit; `val` is None once it was swapped out. */
  datatype Node = Node(key: Key, val: Option<Value>, next: nat, marked: bool)

  /** What a caller of `ll_cas` expects: any of the three constants, or a specific value. */
  datatype Expect = Whatever | DoesNotExist | Exists | Equals(v: Value)

  datatype Op = Cas(key: Key, expected: Expect, new_: Value) | Remove(key: Key)

  datatype Pc =
    | Idle
    | Start(op: Op)                                       // find_pred: about to read head->next
    | Read(op: Op, pred: nat, item: nat)                  // find_pred: about to read item->next
    | Visit(op: Op, pred: nat, item: nat, next: nat, marked: bool)
    | Insert(op: Op, pred: nat, item: nat)                // ll_cas: about to link a new node
    | Value(op: Op, item: nat)                            // ll_cas: about to read the value
    | Swap(op: Op, item: nat, old_: Option<Value>)        // ll_cas: about to CAS the value
    | Look(op: Op, pred: nat, item: nat)                  // ll_remove: about to read item->next
    | Mark(op: Op, pred: nat, item: nat, next: nat, marked: bool)
    | Take(op: Op, pred: nat, item: nat, next: nat)       // ll_remove: marked, about to swap the value out
    | Unlink(op: Op, pred: nat, item: nat, next: nat, val: Option<Value>)
    | Done(op: Op, res: Option<Value>)

  /** History: `linked` is the nodes in the list, `retired` the nodes handed to deferred free, `hist` all values
      a node had, and `absent[t]` whether the key of t's call was absent at some moment since the call began. */
  datatype State = State(nodes: seq<Node>, pc: seq<Pc>, linked: set<nat>, retired: seq<nat>, hist: seq<seq<Value>>,
                         absent: seq<bool>)

  // ----- the set ---------------------------------------------------------------------------------

  /** p is reached from the head by following `next`. */
  ghost predicate Reaches(nodes: seq<Node>, path: seq<nat>, p: nat) {
    && |path| > 0 && path[0] == 0 && path[|path| - 1] == p
    && (forall i :: 0 <= i < |path| ==> path[i] < |nodes|)
    && (forall i :: 0 < i < |path| ==> path[i] != 0 && nodes[path[i - 1]].next == path[i])
  }

  ghost predicate Reachable(nodes: seq<Node>, p: nat) { exists path :: Reaches(nodes, path, p) }

  /** The abstract set: keys of unmarked nodes in the list. */
  ghost predicate HasKey(s: State, k: Key) {
    exists p: nat :: Present(s, p, k)
  }

  ghost predicate Present(s: State, p: nat, k: Key) {
    p in s.linked && 0 < p < |s.nodes| && !s.nodes[p].marked && s.nodes[p].key == k
  }

  ghost predicate Below(s: State, p: nat, k: Key) {
    p < |s.nodes| && (p == 0 || s.nodes[p].key < k)
  }

  /** A link that is NULL or leads beyond k. */
  ghost predicate Beyond(s: State, p: nat, k: Key) {
    p == 0 || (p < |s.nodes| && s.nodes[p].key > k)
  }

  ghost predicate IsLink(s: State, p: nat) { p == 0 || p < |s.nodes| }

  // ----- steps -----------------------------------------------------------------------------------

  /** The links a thread holds are addresses of nodes, and its call is of the right kind. */
  predicate PcShaped(pc: Pc, n: nat) {
    match pc
    case Read(_, pred, item) => pred < n && item < n
    case Visit(_, pred, item, next, _) => pred < n && 0 < item < n && next < n
    case Insert(op, pred, item) => op.Cas? && pred < n && item < n
    case Value(op, item) => op.Cas? && 0 < item < n
    case Swap(op, item, _) => op.Cas? && 0 < item < n
    case Look(op, pred, item) => op.Remove? && pred < n && 0 < item < n
    case Mark(op, pred, item, next, _) => op.Remove? && pred < n && 0 < item < n && next < n
    case Take(op, pred, item, next) => op.Remove? && pred < n && 0 < item < n && next < n
    case Unlink(op, pred, item, next, _) => op.Remove? && pred < n && 0 < item < n && next < n
    case _ => true
  }

  predicate Shaped(s: State) {
    && |s.nodes| > 0 && |s.hist| == |s.nodes| && |s.absent| == |s.pc|
    && forall t :: 0 <= t < |s.pc| ==> PcShaped(s.pc[t], |s.nodes|)
  }

  predicate Finding(pc: Pc) { pc.Start? || pc.Read? || pc.Visit? }

  predicate Casing(pc: Pc) { pc.Insert? || pc.Value? || pc.Swap? }

  predicate Removing(pc: Pc) { pc.Look? || pc.Mark? || pc.Take? || pc.Unlink? }

  predicate Pending(pc: Pc) { Finding(pc) || Casing(pc) || Removing(pc) }

  function Goto(s: State, t: nat, pc: Pc): State
    requires t < |s.pc|
  {
    s.(pc := s.pc[t := pc])
  }

  /** The unlink CAS: pred->next from item to next.  The thread that succeeds retires the node. */
  ghost function Unlinked(s: State, pred: nat, item: nat, next: nat): State
    requires pred < |s.nodes|
  {
    s.(nodes := s.nodes[pred := s.nodes[pred].(next := next)], linked := s.linked - {item}, retired := s.retired + [item])
  }

  predicate LinkIs(s: State, pred: nat, item: nat)
    requires pred < |s.nodes|
  {
    s.nodes[pred].next == item && !s.nodes[pred].marked
  }

  /** What follows when find_pred returns: found or not, with pred and item. */
  function Found(s: State, t: nat, op: Op, pred: nat, item: nat): State
    requires t < |s.pc|
  {
    match op
    case Cas(_, _, _) => Goto(s, t, Value(op, item))
    case Remove(_) => Goto(s, t, Look(op, pred, item))
  }

  function NotFound(s: State, t: nat, op: Op, pred: nat, item: nat): State
    requires t < |s.pc|
  {
    match op
    case Cas(_, expected, _) =>
      Goto(s, t, if expected != DoesNotExist && expected != Whatever then Done(op, None) else Insert(op, pred, item))
    case Remove(_) => Goto(s, t, Done(op, None))
  }

  ghost function FindStep(s: State, t: nat): State
    requires Shaped(s) && t < |s.pc| && Finding(s.pc[t])
  {
    match s.pc[t]
    case Start(op) => Goto(s, t, Read(op, 0, s.nodes[0].next))
    case Read(op, pred, item) =>
      if item == 0 then NotFound(s, t, op, pred, 0)
      else Goto(s, t, Visit(op, pred, item, s.nodes[item].next, s.nodes[item].marked))
    case Visit(op, pred, item, next, marked) =>
      if marked then
        if LinkIs(s, pred, item) then Goto(Unlinked(s, pred, item, next), t, Read(op, pred, next))
        else if s.nodes[pred].marked then Goto(s, t, Start(op))
        else Goto(s, t, Read(op, pred, s.nodes[pred].next))
      else if s.nodes[item].key == op.key then Found(s, t, op, pred, item)
      else if s.nodes[item].key > op.key then NotFound(s, t, op, pred, item)
      else Goto(s, t, Read(op, item, next))
  }

  ghost function CasStep(s: State, t: nat): State
    requires Shaped(s) && t < |s.pc| && Casing(s.pc[t])
  {
    match s.pc[t]
    case Insert(op, pred, item) =>
      if LinkIs(s, pred, item) then
        Goto(s, t, Done(op, None)).(
          nodes := s.nodes[pred := s.nodes[pred].(next := |s.nodes|)] + [Node(op.key, Some(op.new_), item, false)],
          linked := s.linked + {|s.nodes|},
          hist := s.hist + [[op.new_]])
      else Goto(s, t, Start(op))
    case Value(op, item) => Goto(s, t, Swap(op, item, s.nodes[item].val))
    case Swap(op, item, old_) =>
      if old_ == None then Goto(s, t, Start(op))
      else if op.expected == DoesNotExist then Goto(s, t, Done(op, old_))
      else if s.nodes[item].val == old_ then
        Goto(s, t, Done(op, old_)).(nodes := s.nodes[item := s.nodes[item].(val := Some(op.new_))],
                                    hist := s.hist[item := s.hist[item] + [op.new_]])
      else Goto(s, t, Swap(op, item, s.nodes[item].val))
  }

  ghost function RemoveStep(s: State, t: nat): State
    requires Shaped(s) && t < |s.pc| && Removing(s.pc[t])
  {
    match s.pc[t]
    case Look(op, pred, item) => Goto(s, t, Mark(op, pred, item, s.nodes[item].next, s.nodes[item].marked))
    case Mark(op, pred, item, next, marked) =>
      if s.nodes[item].marked then Goto(s, t, Done(op, None))
      else if s.nodes[item].next == next && !marked then
        Goto(s, t, Take(op, pred, item, next)).(nodes := s.nodes[item := s.nodes[item].(marked := true)])
      else Goto(s, t, Mark(op, pred, item, s.nodes[item].next, false))
    case Take(op, pred, item, next) =>
      Goto(s, t, Unlink(op, pred, item, next, s.nodes[item].val)).(nodes := s.nodes[item := s.nodes[item].(val := None)])
    case Unlink(op, pred, item, next, val) =>
      if LinkIs(s, pred, item) then Goto(Unlinked(s, pred, item, next), t, Done(op, val))
      else Goto(s, t, Done(op, val))
  }


  ghost function RawStep(s: State, t: nat): State
    requires Shaped(s) && t < |s.pc| && Pending(s.pc[t])
  {
    if Finding(s.pc[t]) then FindStep(s, t) else if Casing(s.pc[t]) then CasStep(s, t) else RemoveStep(s, t)
  }

  /** Every state in which a pending call's key is absent is noted for that call. */
  ghost function Note(s: State): State
    requires |s.absent| == |s.pc|
  {
    s.(absent := seq(|s.pc|, u requires 0 <= u < |s.pc| =>
                   s.absent[u] || (!s.pc[u].Idle? && !HasKey(s, s.pc[u].op.key))))
  }

  ghost function Step(s: State, t: nat): State
    requires Shaped(s) && t < |s.pc| && Pending(s.pc[t])
  {
    var s1 := RawStep(s, t);
    if |s1.absent| == |s1.pc| then Note(s1) else s1
  }

  ghost function Call(s: State, t: nat, op: Op): State
    requires Shaped(s) && t < |s.pc| && s.pc[t].Idle?
  {
    Note(s.(pc := s.pc[t := Start(op)], absent := s.absent[t := false]))
  }

  ghost function Return(s: State, t: nat): State
    requires t < |s.pc|
  {
    Goto(s, t, Idle)
  }

  datatype Action = Invoke(t: nat, op: Op) | Run(t: nat) | Finish(t: nat)

  ghost predicate NextBy(s: State, a: Action, s': State) {
    && Shaped(s) && a.t < |s.pc|
    && match a
       case Invoke(t, op) => s.pc[t].Idle? && s' == Call(s, t, op)
       case Run(t) => Pending(s.pc[t]) && s' == Step(s, t)
       case Finish(t) => s.pc[t].Done? && s' == Return(s, t)
  }

  ghost predicate Init(s: State) {
    && s.nodes == [Node(0, None, 0, false)] && s.linked == {0} && s.retired == [] && s.hist == [[]]
    && |s.absent| == |s.pc| && forall t :: 0 <= t < |s.pc| ==> s.pc[t] == Idle
  }

  ghost predicate IsRun(run: seq<State>, actions: seq<Action>) {
    && |run| == |actions| + 1 && Init(run[0])
    && forall i :: 0 <= i < |actions| ==> NextBy(run[i], actions[i], run[i + 1])
  }

  // ----- invariant -------------------------------------------------------------------------------

  /** The link of a list node leads to the list node with the next larger key. */
  ghost predicate NextOk(nodes: seq<Node>, linked: set<nat>, p: nat) {
    && p < |nodes| && (nodes[p].next != 0 ==> nodes[p].next in linked && nodes[p].next < |nodes|)
    && forall q: nat :: q in linked && 0 < q < |nodes| && (p == 0 || nodes[p].key < nodes[q].key)
         ==> 0 < nodes[p].next < |nodes| && nodes[nodes[p].next].key <= nodes[q].key
  }

  ghost predicate ListOk(nodes: seq<Node>, linked: set<nat>) {
    && 0 in linked && (forall p :: p in linked ==> p < |nodes|)
    && (forall p: nat {:trigger NextOk(nodes, linked, p)} :: p in linked ==> NextOk(nodes, linked, p))
    && (forall p: nat, q: nat :: p in linked && q in linked && 0 < p < |nodes| && 0 < q < |nodes| && p != q
          ==> nodes[p].key != nodes[q].key)
  }

  /** Of all nodes: a successor is strictly greater, an unmarked node is in the list, and a node is in the list or
      was retired, never both; retired ones are marked and were retired once. */
  ghost predicate NodesOk(s: State) {
    && |s.nodes| > 0 && !s.nodes[0].marked
    && (forall p :: 0 <= p < |s.nodes| ==> IsLink(s, s.nodes[p].next))
    && (forall p :: 0 < p < |s.nodes| ==> Ascends(s.nodes, p))
    && (forall p :: 0 <= p < |s.nodes| && !s.nodes[p].marked ==> p in s.linked)
    && (forall p :: 0 <= p < |s.nodes| ==> (p in s.linked <==> p !in s.retired))
    && (forall i :: 0 <= i < |s.retired| ==> s.retired[i] < |s.nodes| && s.nodes[s.retired[i]].marked)
    && (forall i, j :: 0 <= i < j < |s.retired| ==> s.retired[i] != s.retired[j])
  }

  ghost predicate Ascends(nodes: seq<Node>, p: nat) {
    p < |nodes| && (0 < nodes[p].next < |nodes| ==> nodes[p].key < nodes[nodes[p].next].key)
  }

  /** A node's value is the last one of its history until a remover swaps it out. */
  ghost predicate ValuesOk(s: State) {
    && |s.hist| == |s.nodes|
    && (forall p :: 0 < p < |s.nodes| ==> |s.hist[p]| > 0)
    && (forall p :: 0 < p < |s.nodes| && s.nodes[p].val.Some? ==> s.nodes[p].val.value == s.hist[p][|s.hist[p]| - 1])
    && (forall p :: 0 < p < |s.nodes| && !s.nodes[p].marked ==> s.nodes[p].val.Some?)
  }

  /** What a thread in the middle of a call may rely on. */
  ghost predicate ThreadOk(s: State, t: nat)
    requires Shaped(s) && t < |s.pc|
  {
    match s.pc[t]
    case Idle => true
    case Start(_) => true
    case Read(op, pred, item) => Below(s, pred, op.key) && (Beyond(s, item, op.key) ==> s.absent[t])
    case Visit(op, pred, item, next, marked) =>
      && Below(s, pred, op.key) && (s.nodes[item].key > op.key ==> s.absent[t])
      && (marked ==> s.nodes[item].marked && s.nodes[item].next == next)
      && (!marked && s.nodes[item].key < op.key && Beyond(s, next, op.key) ==> s.absent[t])
      && (!marked && s.nodes[item].key == op.key && s.nodes[item].marked ==> s.absent[t])
    case Insert(op, pred, item) =>
      && Below(s, pred, op.key) && Beyond(s, item, op.key) && s.absent[t]
      && (op.expected == DoesNotExist || op.expected == Whatever)
    case Value(op, item) => s.nodes[item].key == op.key
    case Swap(op, item, old_) => s.nodes[item].key == op.key
    case Look(op, pred, item) =>
      Below(s, pred, op.key) && s.nodes[item].key == op.key && (s.nodes[item].marked ==> s.absent[t])
    case Mark(op, pred, item, next, marked) =>
      Below(s, pred, op.key) && s.nodes[item].key == op.key && (s.nodes[item].marked ==> s.absent[t])
    case Take(op, pred, item, next) =>
      && Below(s, pred, op.key) && s.nodes[item].key == op.key && s.nodes[item].marked && s.nodes[item].next == next
      && s.nodes[item].val.Some?
    case Unlink(op, pred, item, next, val) =>
      && Below(s, pred, op.key) && s.nodes[item].key == op.key && s.nodes[item].marked && s.nodes[item].next == next
      && val.Some?
    case Done(op, res) => res == None ==> s.absent[t]
  }

  ghost predicate ThreadsOk(s: State)
    requires Shaped(s)
  {
    && (forall t: nat :: t < |s.pc| ==> ThreadOk(s, t))
    && (forall t, u :: 0 <= t < u < |s.pc| && s.pc[t].Take? && s.pc[u].Take? ==> s.pc[t].item != s.pc[u].item)
  }

  ghost predicate Inv(s: State) {
    Shaped(s) && ListOk(s.nodes, s.linked) && NodesOk(s) && ValuesOk(s) && ThreadsOk(s)
  }

  // ----- the four writes -------------------------------------------------------------------------

  ghost predicate MemoryOk(s: State) { ListOk(s.nodes, s.linked) && NodesOk(s) && ValuesOk(s) }

  /** What no write undoes: keys, marks, and the link of a marked node. */
  ghost predicate Evolves(s: State, s': State) {
    && |s.nodes| <= |s'.nodes|
    && forall p :: 0 <= p < |s.nodes| ==>
         && s'.nodes[p].key == s.nodes[p].key
         && (s.nodes[p].marked ==> s'.nodes[p].marked && s'.nodes[p].next == s.nodes[p].next)
  }

  /** An unmarked link from pred to item. */
  ghost predicate Edge(s: State, pred: nat, item: nat) { pred < |s.nodes| && LinkIs(s, pred, item) }

  /** A key that falls strictly between the two ends of an unmarked link is absent. */
  lemma BetweenIsAbsent(s: State, pred: nat, item: nat, k: Key)
    requires ListOk(s.nodes, s.linked) && NodesOk(s) && Edge(s, pred, item) && Below(s, pred, k) && Beyond(s, item, k)
    ensures !HasKey(s, k)
  {
    assert NextOk(s.nodes, s.linked, pred);
  }

  // The list after each kind of write.

  lemma ListInsert(nodes: seq<Node>, linked: set<nat>, pred: nat, x: Node)
    requires ListOk(nodes, linked) && pred in linked && pred < |nodes| && (pred == 0 || nodes[pred].key < x.key)
    requires nodes[pred].next == x.next && (x.next == 0 || (x.next < |nodes| && x.key < nodes[x.next].key))
    ensures ListOk(nodes[pred := nodes[pred].(next := |nodes|)] + [x], linked + {|nodes|})
  {
    var nodes', linked' := nodes[pred := nodes[pred].(next := |nodes|)] + [x], linked + {|nodes|};
    InsertNew(nodes, linked, pred, x);
    assert forall p :: p in linked ==> p < |nodes|;
    InsertDistinct(nodes, linked, pred, x);
    hide NextOk;
    forall p: nat | p in linked' ensures NextOk(nodes', linked', p) { if p != |nodes| { InsertOld(nodes, linked, pred, x, p); } }
  }

  lemma InsertDistinct(nodes: seq<Node>, linked: set<nat>, pred: nat, x: Node)
    requires ListOk(nodes, linked) && pred < |nodes| && forall q: nat :: q in linked && 0 < q < |nodes| ==> nodes[q].key != x.key
    ensures var nodes', linked' := nodes[pred := nodes[pred].(next := |nodes|)] + [x], linked + {|nodes|};
            forall p: nat, q: nat :: p in linked' && q in linked' && 0 < p < |nodes'| && 0 < q < |nodes'| && p != q
              ==> nodes'[p].key != nodes'[q].key
  {
    hide NextOk;
  }

  /** The new node leads to what pred led to, and its key is new. */
  lemma InsertNew(nodes: seq<Node>, linked: set<nat>, pred: nat, x: Node)
    requires ListOk(nodes, linked) && pred in linked && pred < |nodes| && (pred == 0 || nodes[pred].key < x.key)
    requires nodes[pred].next == x.next && (x.next == 0 || (x.next < |nodes| && x.key < nodes[x.next].key))
    ensures NextOk(nodes[pred := nodes[pred].(next := |nodes|)] + [x], linked + {|nodes|}, |nodes|)
    ensures forall q: nat :: q in linked && 0 < q < |nodes| ==> nodes[q].key != x.key
  {
    assert NextOk(nodes, linked, pred);
  }

  lemma InsertOld(nodes: seq<Node>, linked: set<nat>, pred: nat, x: Node, p: nat)
    requires ListOk(nodes, linked) && pred in linked && pred < |nodes| && (pred == 0 || nodes[pred].key < x.key)
    requires nodes[pred].next == x.next && (x.next == 0 || (x.next < |nodes| && x.key < nodes[x.next].key)) && p in linked
    ensures NextOk(nodes[pred := nodes[pred].(next := |nodes|)] + [x], linked + {|nodes|}, p)
  {
    assert NextOk(nodes, linked, pred) && NextOk(nodes, linked, p);
  }

  lemma ListUnlink(nodes: seq<Node>, linked: set<nat>, pred: nat, item: nat)
    requires ListOk(nodes, linked) && pred in linked && 0 < item < |nodes| && pred < |nodes| && nodes[pred].next == item
    requires forall p :: 0 < p < |nodes| ==> Ascends(nodes, p)
    ensures item in linked && pred != item && ListOk(nodes[pred := nodes[pred].(next := nodes[item].next)], linked - {item})
  {
    var nodes', linked' := nodes[pred := nodes[pred].(next := nodes[item].next)], linked - {item};
    assert NextOk(nodes, linked, pred) && NextOk(nodes, linked, item) && Ascends(nodes, item);
    assert pred != item by { assert pred != 0 ==> Ascends(nodes, pred); }
    forall p: nat | p in linked' ensures NextOk(nodes', linked', p) {
      assert NextOk(nodes, linked, p);
      if p != pred && p != 0 { assert Ascends(nodes, p); }
      assert pred != 0 ==> Ascends(nodes, pred);
    }
  }

  lemma ListFrame(nodes: seq<Node>, nodes': seq<Node>, linked: set<nat>)
    requires ListOk(nodes, linked) && |nodes'| == |nodes|
    requires forall p :: 0 <= p < |nodes| ==> nodes'[p].key == nodes[p].key && nodes'[p].next == nodes[p].next
    ensures ListOk(nodes', linked)
  {
    forall p: nat | p in linked ensures NextOk(nodes', linked, p) { assert NextOk(nodes, linked, p); }
  }

  // The set after each kind of write: only the nodes that changed matter.

  lemma KeysFrame(s: State, s': State, item: nat, k: Key)
    requires forall p: nat :: p != item ==> (Present(s', p, k) <==> Present(s, p, k))
    ensures HasKey(s', k) <==> Present(s', item, k) || (exists p: nat :: p != item && Present(s, p, k))
  {}

  /** A successful insert CAS adds exactly its key, which was absent. */
  lemma InsertWrite(s: State, op: Op, pred: nat, item: nat, s': State)
    requires MemoryOk(s) && op.Cas? && Edge(s, pred, item) && Below(s, pred, op.key) && Beyond(s, item, op.key)
    requires s'.nodes == s.nodes[pred := s.nodes[pred].(next := |s.nodes|)] + [Node(op.key, Some(op.new_), item, false)]
    requires s'.linked == s.linked + {|s.nodes|} && s'.retired == s.retired && s'.hist == s.hist + [[op.new_]]
    ensures MemoryOk(s') && Evolves(s, s')
    ensures !HasKey(s, op.key) && forall k :: HasKey(s', k) <==> k == op.key || HasKey(s, k)
  {
    hide ListOk, HasKey;
    var n := |s.nodes|;
    assert forall p :: p in s.linked ==> p < n by { LinkedBound(s); }
    BetweenIsAbsent(s, pred, item, op.key);
    ListInsert(s.nodes, s.linked, pred, s'.nodes[n]);
    forall p | 0 < p < |s'.nodes| ensures Ascends(s'.nodes, p) { if p < n { assert Ascends(s.nodes, p); } }
    forall k ensures HasKey(s', k) <==> k == op.key || HasKey(s, k) {
      forall p: nat | p != n ensures Present(s', p, k) <==> Present(s, p, k) {}
      KeysFrame(s, s', n, k);
      KeysFrame(s, s, n, k);
    }
  }

  lemma LinkedBound(s: State)
    requires ListOk(s.nodes, s.linked)
    ensures forall p :: p in s.linked ==> p < |s.nodes|
  {}

  /** A mark CAS removes exactly the key of its node. */
  lemma MarkWrite(s: State, item: nat, s': State)
    requires MemoryOk(s) && 0 < item < |s.nodes| && !s.nodes[item].marked
    requires s'.nodes == s.nodes[item := s.nodes[item].(marked := true)]
    requires s'.linked == s.linked && s'.retired == s.retired && s'.hist == s.hist
    ensures MemoryOk(s') && Evolves(s, s')
    ensures HasKey(s, s.nodes[item].key)
    ensures forall k :: HasKey(s', k) <==> k != s.nodes[item].key && HasKey(s, k)
  {
    hide HasKey, NextOk;
    ListFrame(s.nodes, s'.nodes, s.linked);
    forall p | 0 < p < |s'.nodes| ensures Ascends(s'.nodes, p) { assert Ascends(s.nodes, p); }
    assert Present(s, item, s.nodes[item].key);
    forall k ensures HasKey(s', k) <==> k != s.nodes[item].key && HasKey(s, k) {
      KeysFrame(s, s', item, k);
      KeysFrame(s, s, item, k);
    }
    KeysFrame(s, s, item, s.nodes[item].key);
  }

  /** Writing a value changes neither the list nor the set. */
  lemma ValueWrite(s: State, item: nat, val: Option<Value>, hist: seq<Value>, s': State)
    requires MemoryOk(s) && 0 < item < |s.nodes| && |hist| > 0
    requires if val == None then s.nodes[item].marked else val.value == hist[|hist| - 1]
    requires s'.nodes == s.nodes[item := s.nodes[item].(val := val)] && s'.hist == s.hist[item := hist]
    requires s'.linked == s.linked && s'.retired == s.retired
    ensures MemoryOk(s') && Evolves(s, s')
    ensures forall k :: HasKey(s', k) <==> HasKey(s, k)
  {
    hide HasKey, NextOk, ListOk;
    ListFrame(s.nodes, s'.nodes, s.linked);
    forall p | 0 < p < |s'.nodes| ensures Ascends(s'.nodes, p) { assert Ascends(s.nodes, p); }
    forall k ensures HasKey(s', k) <==> HasKey(s, k) {
      KeysFrame(s, s', item, k);
      KeysFrame(s, s, item, k);
    }
  }

  /** An unlink CAS takes a marked node out of the list, once, and leaves the set alone. */
  lemma UnlinkWrite(s: State, pred: nat, item: nat, next: nat, s': State)
    requires MemoryOk(s) && Edge(s, pred, item) && 0 < item < |s.nodes| && s.nodes[item].marked && s.nodes[item].next == next
    requires s'.nodes == s.nodes[pred := s.nodes[pred].(next := next)] && s'.hist == s.hist
    requires s'.linked == s.linked - {item} && s'.retired == s.retired + [item]
    ensures MemoryOk(s') && Evolves(s, s') && item !in s.retired
    ensures forall k :: HasKey(s', k) <==> HasKey(s, k)
  {
    hide HasKey, NextOk, ListOk;
    ListUnlink(s.nodes, s.linked, pred, item);
    forall p | 0 < p < |s'.nodes| ensures Ascends(s'.nodes, p) { assert Ascends(s.nodes, p) && Ascends(s.nodes, item); }
    forall k ensures HasKey(s', k) <==> HasKey(s, k) {
      KeysFrame(s, s', item, k);
      KeysFrame(s, s, item, k);
    }
  }

  // ----- every step keeps the invariant ----------------------------------------------------------

  /** A step writes at most one of the four ways; a node it marks was the only one with its key. */
  lemma FindMemory(s: State, t: nat)
    requires Inv(s) && t < |s.pc| && Finding(s.pc[t])
    ensures var s1 := FindStep(s, t);
            MemoryOk(s1) && Evolves(s, s1) && (forall p :: 0 <= p < |s.nodes| ==> s1.nodes[p].val == s.nodes[p].val)
            && (forall p :: 0 <= p < |s.nodes| ==> s1.nodes[p].marked == s.nodes[p].marked)
            && forall k :: HasKey(s1, k) <==> HasKey(s, k)
  {
    hide ListOk, NodesOk, ValuesOk, HasKey;
    assert ThreadOk(s, t);
    var s1, pc := FindStep(s, t), s.pc[t];
    if pc.Visit? && pc.marked && LinkIs(s, pc.pred, pc.item) {
      UnlinkWrite(s, pc.pred, pc.item, pc.next, s1);
    } else {
      SameMemory(s, s1);
    }
  }

  lemma SameMemory(s: State, s': State)
    requires MemoryOk(s) && s'.nodes == s.nodes && s'.linked == s.linked && s'.retired == s.retired && s'.hist == s.hist
    ensures MemoryOk(s') && Evolves(s, s') && forall k :: HasKey(s', k) <==> HasKey(s, k)
  {
    forall k ensures HasKey(s', k) <==> HasKey(s, k) { assert forall p: nat :: Present(s', p, k) <==> Present(s, p, k); }
  }

  lemma CasMemory(s: State, t: nat)
    requires Inv(s) && t < |s.pc| && Casing(s.pc[t])
    ensures var s1 := CasStep(s, t);
            MemoryOk(s1) && Evolves(s, s1) && (forall p :: 0 <= p < |s.nodes| && s.nodes[p].val.Some? ==> s1.nodes[p].val.Some?)
            && (forall p :: 0 <= p < |s.nodes| ==> s1.nodes[p].marked == s.nodes[p].marked)
  {
    hide ListOk, NodesOk, HasKey;
    assert ThreadOk(s, t);
    var s1 := CasStep(s, t);
    match s.pc[t] {
      case Insert(op, pred, item) =>
        if LinkIs(s, pred, item) { InsertWrite(s, op, pred, item, s1); } else { SameMemory(s, s1); }
      case Swap(op, item, old_) =>
        if old_ != None && op.expected != DoesNotExist && s.nodes[item].val == old_ {
          ValueWrite(s, item, Some(op.new_), s.hist[item] + [op.new_], s1);
        } else {
          SameMemory(s, s1);
        }
      case Value(_, _) => SameMemory(s, s1);
    }
  }

  lemma RemoveMemory(s: State, t: nat)
    requires Inv(s) && t < |s.pc| && Removing(s.pc[t])
    ensures var s1 := RemoveStep(s, t);
            MemoryOk(s1) && Evolves(s, s1) && |s1.nodes| == |s.nodes|
            && (forall p :: 0 <= p < |s.nodes| && s1.nodes[p].marked && !s.nodes[p].marked ==> !HasKey(s1, s.nodes[p].key))
            && (forall p :: 0 <= p < |s.nodes| ==> s1.nodes[p].val == s.nodes[p].val
                                                   || (s.pc[t].Take? && p == s.pc[t].item))
  {
    hide ListOk, NodesOk, HasKey;
    assert ThreadOk(s, t);
    var s1 := RemoveStep(s, t);
    match s.pc[t] {
      case Mark(op, pred, item, next, marked) =>
        if !s.nodes[item].marked && s.nodes[item].next == next && !marked { MarkWrite(s, item, s1); } else { SameMemory(s, s1); }
      case Take(op, pred, item, next) =>
        assert s.hist == s.hist[item := s.hist[item]];
        ValueWrite(s, item, None, s.hist[item], s1);
      case Unlink(op, pred, item, next, val) =>
        if LinkIs(s, pred, item) { UnlinkWrite(s, pred, item, next, s1); } else { SameMemory(s, s1); }
      case _ => SameMemory(s, s1);
    }
  }

  /** What the writes of one thread do to all of them. */
  ghost predicate Wrote(s: State, t: nat, s1: State) {
    && MemoryOk(s1) && Evolves(s, s1) && |s1.pc| == |s.pc| && s1.absent == s.absent && t < |s.pc|
    && (forall u :: 0 <= u < |s.pc| && u != t ==> s1.pc[u] == s.pc[u])
    && (forall p :: 0 <= p < |s.nodes| && s1.nodes[p].marked && !s.nodes[p].marked ==> !HasKey(s1, s.nodes[p].key))
    && (forall p :: 0 <= p < |s.nodes| && s.nodes[p].val.Some? ==> s1.nodes[p].val.Some? || (s.pc[t].Take? && p == s.pc[t].item))
  }

  lemma RawWrote(s: State, t: nat)
    requires Inv(s) && t < |s.pc| && Pending(s.pc[t])
    ensures Wrote(s, t, RawStep(s, t))
  {
    hide MemoryOk, Inv, HasKey, ThreadsOk;
    if Finding(s.pc[t]) { FindMemory(s, t); }
    else if Casing(s.pc[t]) { CasMemory(s, t); }
    else { RemoveMemory(s, t); }
  }

  lemma OtherThread(s: State, t: nat, s1: State, u: nat)
    requires Inv(s) && Wrote(s, t, s1) && Shaped(s1) && u < |s.pc| && u != t
    ensures ThreadOk(Note(s1), u)
  {
    hide MemoryOk, HasKey, ListOk, NodesOk, ValuesOk;
    assert ThreadOk(s, u);
  }

  /** A link just read from an unmarked node: when it leads beyond the key, the key is absent right now. */
  lemma JustRead(s: State, t: nat, pred: nat, item: nat, k: Key)
    requires MemoryOk(s) && t < |s.pc| && |s.absent| == |s.pc| && Edge(s, pred, item) && Below(s, pred, k)
    requires !s.pc[t].Idle? && s.pc[t].op.key == k
    ensures Beyond(s, item, k) ==> Note(s).absent[t]
  {
    if Beyond(s, item, k) { BetweenIsAbsent(s, pred, item, k); }
  }

  lemma OwnFind(s: State, t: nat)
    requires Inv(s) && t < |s.pc| && Finding(s.pc[t]) && Shaped(FindStep(s, t)) && Wrote(s, t, FindStep(s, t))
    ensures ThreadOk(Note(FindStep(s, t)), t)
  {
    hide MemoryOk, HasKey, ListOk, ValuesOk, NodesOk;
    HeadUnmarked(s);
    if s.pc[t].Visit? {
      OwnVisit(s, t);
    } else {
      assert ThreadOk(s, t);
      var s1 := FindStep(s, t);
      match s.pc[t] {
        case Start(op) => JustRead(s1, t, 0, s.nodes[0].next, op.key);
        case Read(op, pred, item) =>
          if item != 0 && !s.nodes[item].marked && s.nodes[item].key < op.key {
            JustRead(s1, t, item, s.nodes[item].next, op.key);
          }
      }
    }
  }

  lemma OwnVisit(s: State, t: nat)
    requires Shaped(s) && t < |s.pc| && s.pc[t].Visit? && ThreadOk(s, t)
    requires Shaped(FindStep(s, t)) && Wrote(s, t, FindStep(s, t))
    ensures ThreadOk(Note(FindStep(s, t)), t)
  {
    hide MemoryOk, HasKey;
    var Visit(op, pred, item, next, marked) := s.pc[t];
    var s1 := FindStep(s, t);
    if marked && LinkIs(s, pred, item) {
      JustRead(s1, t, pred, next, op.key);
    } else if marked && !s.nodes[pred].marked {
      JustRead(s1, t, pred, s.nodes[pred].next, op.key);
    }
  }

  lemma HeadUnmarked(s: State)
    requires Inv(s)
    ensures MemoryOk(s) && !s.nodes[0].marked
  {}

  lemma OwnCas(s: State, t: nat)
    requires Inv(s) && t < |s.pc| && Casing(s.pc[t]) && Shaped(CasStep(s, t))
    ensures ThreadOk(Note(CasStep(s, t)), t)
  {
    hide HasKey, ListOk, NodesOk, ValuesOk;
    assert ThreadOk(s, t);
  }

  lemma OwnRemove(s: State, t: nat)
    requires Inv(s) && t < |s.pc| && Removing(s.pc[t]) && Shaped(RemoveStep(s, t))
    ensures ThreadOk(Note(RemoveStep(s, t)), t)
  {
    hide HasKey, ListOk, NodesOk;
    assert ThreadOk(s, t);
  }

  lemma StepShaped(s: State, t: nat)
    requires Inv(s) && t < |s.pc| && Pending(s.pc[t])
    ensures Shaped(RawStep(s, t))
  {
    hide FindStep, CasStep, RemoveStep, Inv;
    if Finding(s.pc[t]) { FindShaped(s, t); } else { WriteShaped(s, t); }
  }

  lemma FindShaped(s: State, t: nat)
    requires Inv(s) && t < |s.pc| && Finding(s.pc[t])
    ensures Shaped(FindStep(s, t))
  {
    hide HasKey, ListOk, ValuesOk;
    assert ThreadOk(s, t);
    var s1 := FindStep(s, t);
    assert forall u :: 0 <= u < |s.pc| && u != t ==> s1.pc[u] == s.pc[u];
  }

  lemma WriteShaped(s: State, t: nat)
    requires Inv(s) && t < |s.pc| && Pending(s.pc[t]) && !Finding(s.pc[t])
    ensures Shaped(RawStep(s, t))
  {
    hide HasKey, ListOk, ValuesOk;
    assert ThreadOk(s, t);
    var s1 := RawStep(s, t);
    assert forall u :: 0 <= u < |s.pc| && u != t ==> s1.pc[u] == s.pc[u];
  }

  lemma TakersDiffer(s: State, t: nat, s1: State)
    requires Inv(s) && Wrote(s, t, s1) && Pending(s.pc[t]) && s1 == RawStep(s, t)
    ensures forall u, v :: 0 <= u < v < |s1.pc| && s1.pc[u].Take? && s1.pc[v].Take? ==> s1.pc[u].item != s1.pc[v].item
  {
    if s.pc[t].Mark? { TakerMarked(s, t); } else { NoNewTaker(s, t); }
    hide HasKey, ListOk, NodesOk, ValuesOk, MemoryOk, RawStep;
    forall u, v | 0 <= u < v < |s1.pc| && s1.pc[u].Take? && s1.pc[v].Take? ensures s1.pc[u].item != s1.pc[v].item {
      assert ThreadOk(s, u) && ThreadOk(s, v);
    }
  }

  /** Only the winner of the mark CAS goes on to take the value, of a node that was not marked. */
  lemma TakerMarked(s: State, t: nat)
    requires Shaped(s) && t < |s.pc| && s.pc[t].Mark?
    ensures var s1 := RawStep(s, t);
            s1.pc[t].Take? ==> s1.pc[t].item == s.pc[t].item && !s.nodes[s.pc[t].item].marked
  {}

  lemma NoNewTaker(s: State, t: nat)
    requires Shaped(s) && t < |s.pc| && Pending(s.pc[t]) && !s.pc[t].Mark?
    ensures !RawStep(s, t).pc[t].Take?
  {}

  lemma StepKeeps(s: State, t: nat)
    requires Inv(s) && t < |s.pc| && Pending(s.pc[t])
    ensures Inv(Step(s, t))
  {
    hide HasKey, ListOk, NodesOk, ValuesOk, ThreadOk, RawStep;
    StepShaped(s, t);
    RawWrote(s, t);
    var s1 := RawStep(s, t);
    TakersDiffer(s, t, s1);
    forall u: nat | u < |s1.pc| ensures ThreadOk(Note(s1), u) {
      if u != t { OtherThread(s, t, s1, u); } else { OwnThread(s, t); }
    }
    NoteMemory(s1);
  }

  lemma OwnThread(s: State, t: nat)
    requires Inv(s) && t < |s.pc| && Pending(s.pc[t]) && Shaped(RawStep(s, t)) && Wrote(s, t, RawStep(s, t))
    ensures ThreadOk(Note(RawStep(s, t)), t)
  {
    hide HasKey, ListOk, NodesOk, ValuesOk, ThreadOk, FindStep, CasStep, RemoveStep, Inv;
    if Finding(s.pc[t]) { OwnFind(s, t); } else if Casing(s.pc[t]) { OwnCas(s, t); } else { OwnRemove(s, t); }
  }

  lemma NoteMemory(s: State)
    requires MemoryOk(s) && |s.absent| == |s.pc|
    ensures MemoryOk(Note(s))
  {}

  lemma {:induction false} RunKeeps(run: seq<State>, actions: seq<Action>, i: nat)
    requires IsRun(run, actions) && i < |run|
    ensures Inv(run[i])
  {
    hide Inv;
    if i == 0 {
      InitInv(run[0]);
    } else {
      RunKeeps(run, actions, i - 1);
      NextKeeps(run[i - 1], actions[i - 1], run[i]);
    }
  }

  lemma InitInv(s: State)
    requires Init(s)
    ensures Inv(s)
  {}

  lemma NextKeeps(s: State, a: Action, s': State)
    requires Inv(s) && NextBy(s, a, s')
    ensures Inv(s')
  {
    hide HasKey, ListOk, NodesOk, ValuesOk;
    match a {
      case Run(t) => StepKeeps(s, t);
      case Invoke(t, op) => SameMemory(s, s');
        forall u: nat | u < |s'.pc| ensures ThreadOk(s', u) { assert ThreadOk(s, u); }
      case Finish(t) => SameMemory(s, s');
        forall u: nat | u < |s'.pc| ensures ThreadOk(s', u) { assert ThreadOk(s, u); }
    }
  }

  // ----- results ---------------------------------------------------------------------------------

  lemma OpStays(s: State, a: Action, s': State, t: nat)
    requires Inv(s) && NextBy(s, a, s') && t < |s.pc| && |s'.pc| == |s.pc| && !s'.pc[t].Idle?
    ensures s.pc[t].Idle? || s'.pc[t].op == s.pc[t].op
    ensures s.pc[t].Idle? ==> a.Invoke? && a.t == t
  {
    hide HasKey, ListOk, NodesOk, ValuesOk, ThreadsOk;
  }

  /** A moment between the start of t's pending call and state i at which the key of the call was absent. */
  ghost predicate AbsentBetween(run: seq<State>, j: nat, i: nat, t: nat) {
    && j <= i < |run| && t < |run[i].pc| && !run[i].pc[t].Idle? && !HasKey(run[j], run[i].pc[t].op.key)
    && forall x :: j <= x <= i ==> t < |run[x].pc| && !run[x].pc[t].Idle? && run[x].pc[t].op == run[i].pc[t].op
  }

  lemma NoteSays(s: State, t: nat)
    requires t < |s.pc| && |s.absent| == |s.pc|
    ensures Note(s).absent[t] ==> s.absent[t] || (!s.pc[t].Idle? && !HasKey(Note(s), s.pc[t].op.key))
  {
    if !s.pc[t].Idle? { SameKeys(s, Note(s), s.pc[t].op.key); }
  }

  lemma AbsentStep(s: State, a: Action, s': State, t: nat)
    requires Inv(s) && NextBy(s, a, s') && t < |s.pc| && |s'.pc| == |s.pc| && |s'.absent| == |s.pc|
    requires !s'.pc[t].Idle? && s'.absent[t]
    ensures !HasKey(s', s'.pc[t].op.key) || (!s.pc[t].Idle? && s.absent[t])
  {
    hide HasKey, ListOk, NodesOk, ValuesOk, ThreadsOk;
    match a {
      case Invoke(u, op) => NoteSays(s.(pc := s.pc[u := Start(op)], absent := s.absent[u := false]), t);
      case Run(u) => NoteSays(RawStep(s, u), t);
      case Finish(u) =>
    }
  }

  lemma {:induction false} AbsentMoment(run: seq<State>, actions: seq<Action>, i: nat, t: nat)
    requires IsRun(run, actions) && i < |run| && t < |run[i].pc| == |run[i].absent|
    requires !run[i].pc[t].Idle? && run[i].absent[t]
    ensures exists j: nat :: AbsentBetween(run, j, i, t)
  {
    hide HasKey, Inv, NextBy;
    if !HasKey(run[i], run[i].pc[t].op.key) {
      assert AbsentBetween(run, i, i, t);
    } else if i > 0 {
      assert NextBy(run[i - 1], actions[i - 1], run[i]);
      RunKeeps(run, actions, i - 1);
      ThreadsStay(run[i - 1], actions[i - 1], run[i]);
      AbsentStep(run[i - 1], actions[i - 1], run[i], t);
      OpStays(run[i - 1], actions[i - 1], run[i], t);
      AbsentMoment(run, actions, i - 1, t);
      var j: nat :| AbsentBetween(run, j, i - 1, t);
      assert AbsentBetween(run, j, i, t);
    }
  }

  lemma ThreadsStay(s: State, a: Action, s': State)
    requires Inv(s) && NextBy(s, a, s')
    ensures |s'.pc| == |s.pc| == |s'.absent| == |s.absent|
  {
    hide HasKey, ListOk, NodesOk, ValuesOk, ThreadsOk;
  }

  /** Linearisation of the negative answer, over all runs: whenever `ll_remove` or `ll_cas` returns DOES_NOT_EXIST, the
      key was absent at some moment inside the call. */
  lemma NotFoundWasAbsent(run: seq<State>, actions: seq<Action>, i: nat, t: nat)
    requires IsRun(run, actions) && i < |run| && t < |run[i].pc|
    requires run[i].pc[t].Done? && run[i].pc[t].res == None
    ensures exists j: nat :: AbsentBetween(run, j, i, t)
  {
    RunKeeps(run, actions, i);
    assert ThreadOk(run[i], t);
    AbsentMoment(run, actions, i, t);
  }

  /** How the steps of a run change the set: an insert CAS adds its absent key, a mark CAS takes its key out, and no
      other step of any thread changes it. */
  lemma SetChanges(s: State, t: nat, k: Key)
    requires Inv(s) && t < |s.pc| && Pending(s.pc[t])
    ensures var pc, s' := s.pc[t], Step(s, t);
            if pc.Insert? && LinkIs(s, pc.pred, pc.item) then
              !HasKey(s, pc.op.key) && (HasKey(s', k) <==> k == pc.op.key || HasKey(s, k))
            else if s'.pc[t].Take? then
              HasKey(s, pc.op.key) && (HasKey(s', k) <==> k != pc.op.key && HasKey(s, k))
            else
              HasKey(s', k) <==> HasKey(s, k)
  {
    hide ListOk, NodesOk, ValuesOk, HasKey;
    assert ThreadOk(s, t);
    var pc, s1 := s.pc[t], RawStep(s, t);
    StepShaped(s, t);
    SameKeys(s1, Note(s1), k);
    if Finding(pc) { FindMemory(s, t); }
    else if pc.Insert? && LinkIs(s, pc.pred, pc.item) { InsertWrite(s, pc.op, pc.pred, pc.item, s1); }
    else if Casing(pc) { SameKeys(s, s1, k); }
    else if s1.pc[t].Take? { MarkWrite(s, pc.item, s1); }
    else if pc.Unlink? && LinkIs(s, pc.pred, pc.item) { UnlinkWrite(s, pc.pred, pc.item, pc.next, s1); }
    else { SameKeys(s, s1, k); }
  }

  /** The same over all runs: of all actions only an insert CAS and a mark CAS change the set. */
  lemma RunSetChanges(run: seq<State>, actions: seq<Action>, i: nat, k: Key)
    requires IsRun(run, actions) && i < |actions|
    ensures var s, a, s' := run[i], actions[i], run[i + 1];
            && a.t < |s.pc| && a.t < |s'.pc| && |s.nodes| > 0
            && var pc := s.pc[a.t];
               if a.Run? && pc.Insert? && pc.pred < |s.nodes| && LinkIs(s, pc.pred, pc.item) then
                 !HasKey(s, pc.op.key) && (HasKey(s', k) <==> k == pc.op.key || HasKey(s, k))
               else if a.Run? && s'.pc[a.t].Take? then
                 !pc.Idle? && HasKey(s, pc.op.key) && (HasKey(s', k) <==> k != pc.op.key && HasKey(s, k))
               else
                 HasKey(s', k) <==> HasKey(s, k)
  {
    hide HasKey, ListOk, NodesOk, ValuesOk, ThreadsOk, RawStep;
    RunKeeps(run, actions, i);
    var s, a := run[i], actions[i];
    assert NextBy(s, a, run[i + 1]) && PcShaped(s.pc[a.t], |s.nodes|);
    ThreadsStay(s, a, run[i + 1]);
    if a.Run? { SetChanges(s, a.t, k); } else { SameKeys(s, run[i + 1], k); }
  }

  lemma SameKeys(s: State, s': State, k: Key)
    requires |s'.nodes| == |s.nodes| && s'.linked == s.linked
    requires forall p :: 0 <= p < |s.nodes| ==> s'.nodes[p].key == s.nodes[p].key && s'.nodes[p].marked == s.nodes[p].marked
    ensures HasKey(s', k) <==> HasKey(s, k)
  {
    assert forall p: nat :: Present(s', p, k) <==> Present(s, p, k);
  }

  /** A node's values form one chain: an update returns the value it replaces and adds its own, the remover takes the
      last one, and from then on the node has no value and its chain does not change. */
  lemma ValueChain(s: State, t: nat)
    requires Inv(s) && t < |s.pc| && Pending(s.pc[t])
    ensures var pc, s' := s.pc[t], Step(s, t);
            && |s.nodes| <= |s'.nodes| == |s'.hist|
            && (pc.Take? ==> s'.pc[t].Unlink? && s'.pc[t].val == Some(s.hist[pc.item][|s.hist[pc.item]| - 1])
                             && s'.pc[t].item == pc.item && s'.nodes[pc.item].val == None && s'.hist == s.hist)
            && (forall p :: 0 < p < |s.nodes| && s'.hist[p] != s.hist[p] ==>
                  && pc.Swap? && pc.item == p && s'.pc[t].Done? && s.nodes[p].val.Some?
                  && s'.pc[t].res == Some(s.hist[p][|s.hist[p]| - 1]) && s'.hist[p] == s.hist[p] + [pc.op.new_])
            && (forall p :: 0 < p < |s.nodes| && s.nodes[p].val == None ==> s'.nodes[p].val == None && s'.hist[p] == s.hist[p])
  {
    hide ListOk, NodesOk, HasKey;
    assert ThreadOk(s, t);
    var pc := s.pc[t];
    if pc.Swap? || pc.Insert? { CasHistory(s, t); } else { QuietHistory(s, t); }
    hide RawStep;
  }

  lemma QuietHistory(s: State, t: nat)
    requires Shaped(s) && t < |s.pc| && Pending(s.pc[t]) && !s.pc[t].Swap? && !s.pc[t].Insert?
    ensures var pc, s' := s.pc[t], RawStep(s, t);
            && |s'.nodes| == |s.nodes| && s'.hist == s.hist && |s'.pc| == |s.pc|
            && (forall p :: 0 <= p < |s.nodes| && s.nodes[p].val == None ==> s'.nodes[p].val == None)
            && (pc.Take? ==> s'.pc[t].Unlink? && s'.pc[t].val == s.nodes[pc.item].val
                             && s'.pc[t].item == pc.item && s'.nodes[pc.item].val == None)
  {}

  lemma CasHistory(s: State, t: nat)
    requires Shaped(s) && t < |s.pc| && (s.pc[t].Swap? || s.pc[t].Insert?)
    ensures var pc, s' := s.pc[t], RawStep(s, t);
            && |s.nodes| <= |s'.nodes| == |s'.hist| && |s'.pc| == |s.pc|
            && (forall p :: 0 < p < |s.nodes| && s'.hist[p] != s.hist[p] ==>
                  && pc.Swap? && pc.item == p && s'.pc[t].Done? && s.nodes[p].val.Some?
                  && s'.pc[t].res == s.nodes[p].val && s'.hist[p] == s.hist[p] + [pc.op.new_])
            && (forall p :: 0 < p < |s.nodes| && s.nodes[p].val == None ==> s'.nodes[p].val == None && s'.hist[p] == s.hist[p])
  {}

  lemma FinalStep(s: State, a: Action, s': State, p: nat)
    requires Inv(s) && NextBy(s, a, s') && 0 < p < |s.nodes| && s.nodes[p].val == None
    ensures p < |s'.nodes| == |s'.hist| && p < |s.hist| && s'.nodes[p].val == None && s'.hist[p] == s.hist[p]
  {
    hide ListOk, NodesOk, HasKey, ThreadsOk, RawStep;
    if a.Run? { ValueChain(s, a.t); }
  }

  /** Over all runs: once a node's value was swapped out, it has none again and its history is final. */
  lemma {:induction false} HistoryFinal(run: seq<State>, actions: seq<Action>, i: nat, j: nat, p: nat)
    requires IsRun(run, actions) && i <= j < |run| && 0 < p < |run[i].nodes| && run[i].nodes[p].val == None
    ensures p < |run[j].nodes| && p < |run[i].hist| && p < |run[j].hist|
    ensures run[j].nodes[p].val == None && run[j].hist[p] == run[i].hist[p]
  {
    hide Inv, NextBy;
    if i < j {
      HistoryFinal(run, actions, i, j - 1, p);
      RunKeeps(run, actions, j - 1);
      FinalStep(run[j - 1], actions[j - 1], run[j], p);
    } else {
      RunKeeps(run, actions, i);
      HistoryShape(run[i]);
    }
  }

  lemma HistoryShape(s: State)
    requires Inv(s)
    ensures |s.hist| == |s.nodes|
  {}

  /** The step at i of thread t swaps the value of node p out. */
  ghost predicate Takes(run: seq<State>, actions: seq<Action>, i: nat, t: nat, p: nat) {
    i < |actions| && i + 1 < |run| && actions[i] == Run(t) && t < |run[i].pc| && run[i].pc[t].Take? && run[i].pc[t].item == p
  }

  lemma TakeStep(run: seq<State>, actions: seq<Action>, i: nat, t: nat, p: nat)
    requires IsRun(run, actions) && Takes(run, actions, i, t, p)
    ensures 0 < p < |run[i].nodes| == |run[i].hist| && p < |run[i + 1].nodes| && |run[i].hist[p]| > 0 && t < |run[i + 1].pc|
    ensures run[i].nodes[p].val.Some? && run[i + 1].nodes[p].val == None && run[i + 1].hist == run[i].hist
    ensures var v := Some(run[i].hist[p][|run[i].hist[p]| - 1]);
            run[i + 1].pc[t].Unlink? && run[i + 1].pc[t].item == p && run[i + 1].pc[t].val == v
  {
    hide ListOk, NodesOk, HasKey, RawStep;
    RunKeeps(run, actions, i);
    assert NextBy(run[i], actions[i], run[i + 1]) && ThreadOk(run[i], t);
    ValueChain(run[i], t);
    ThreadsStay(run[i], actions[i], run[i + 1]);
  }

  /** Over all runs: a node has at most one remover. */
  lemma OneRemover(run: seq<State>, actions: seq<Action>, i: nat, j: nat, t: nat, u: nat, p: nat, q: nat)
    requires IsRun(run, actions) && i < j && Takes(run, actions, i, t, p) && Takes(run, actions, j, u, q)
    ensures p != q
  {
    TakeStep(run, actions, i, t, p);
    TakeStep(run, actions, j, u, q);
    HistoryFinal(run, actions, i + 1, j, p);
  }

  /** t is on its way to return v from node p. */
  ghost predicate Returning(s: State, t: nat, p: nat, v: Option<Value>) {
    t < |s.pc| && ((s.pc[t].Unlink? && s.pc[t].item == p && s.pc[t].val == v) || (s.pc[t].Done? && s.pc[t].res == v))
  }

  lemma ReturningStep(s: State, a: Action, s': State, t: nat, p: nat, v: Option<Value>)
    requires Inv(s) && NextBy(s, a, s') && Returning(s, t, p, v) && a != Finish(t)
    ensures Returning(s', t, p, v)
  {
    hide HasKey, ListOk, NodesOk, ValuesOk, ThreadsOk, FindStep, CasStep;
    if a.t != t { OtherPc(s, a, s', t); }
  }

  /** Over all runs: the remover of a node returns the last value the node ever has. */
  lemma {:induction false} RemoverReturnsLast(run: seq<State>, actions: seq<Action>, i: nat, j: nat, t: nat, p: nat)
    requires IsRun(run, actions) && i < j < |run| && Takes(run, actions, i, t, p)
    requires forall x :: i < x < j ==> actions[x] != Finish(t)
    ensures p < |run[i].hist| && p < |run[j].hist| && |run[j].hist[p]| > 0 && run[j].hist[p] == run[i].hist[p]
    ensures Returning(run[j], t, p, Some(run[j].hist[p][|run[j].hist[p]| - 1]))
  {
    hide Inv, NextBy, Returning;
    TakeStep(run, actions, i, t, p);
    HistoryFinal(run, actions, i + 1, j, p);
    var v := Some(run[i].hist[p][|run[i].hist[p]| - 1]);
    if j == i + 1 {
      ReturningStarts(run[j], t, p, v);
    } else {
      RemoverReturnsLast(run, actions, i, j - 1, t, p);
      RunKeeps(run, actions, j - 1);
      ReturningStep(run[j - 1], actions[j - 1], run[j], t, p, v);
    }
  }

  lemma ReturningStarts(s: State, t: nat, p: nat, v: Option<Value>)
    requires t < |s.pc| && s.pc[t].Unlink? && s.pc[t].item == p && s.pc[t].val == v
    ensures Returning(s, t, p, v)
  {}

  // ----- what ll_cas does with its expectation ---------------------------------------------------

  /** Whether a compare-and-set may write when the key has the value r, or none. */
  predicate Allowed(expected: Expect, r: Option<Value>) {
    match expected
    case Whatever => true
    case DoesNotExist => r.None?
    case Exists => r.Some?
    case Equals(v) => r == Some(v)
  }

  /** A call of `ll_cas` that ends with this step wrote exactly when its answer allowed it to: that is so if and only if
      it does not meet, in the node it found, another value than the specific one it expects.  And what it answers when
      it overwrites is the value it overwrites. */
  lemma CasStepHonours(s: State, t: nat)
    requires Inv(s) && t < |s.pc| && Pending(s.pc[t]) && s.pc[t].op.Cas? && t < |Step(s, t).pc| && Step(s, t).pc[t].Done?
    ensures var pc, s' := s.pc[t], Step(s, t);
            var expected, res, wrote := pc.op.expected, s'.pc[t].res, s'.hist != s.hist;
            && ((wrote <==> Allowed(expected, res))
                <==> !(expected.Equals? && pc.Swap? && s.nodes[pc.item].val != Some(expected.v)))
            && (wrote && res.Some? ==> Overwrites(s, t, s'))
  {
    hide ListOk, NodesOk, HasKey;
    assert ThreadOk(s, t);
    if s.pc[t].Swap? && Step(s, t).hist != s.hist { assert |Step(s, t).hist[s.pc[t].item]| == |s.hist[s.pc[t].item]| + 1; }
  }

  /** t replaces the value of the node it found, which has its key, and answers the value it replaces. */
  ghost predicate Overwrites(s: State, t: nat, s': State) {
    && t < |s.pc| && t < |s'.pc| && s.pc[t].Swap? && s.pc[t].op.Cas? && s'.pc[t].Done?
    && var p := s.pc[t].item;
       && p < |s.nodes| && p < |s'.nodes| && s.nodes[p].key == s.pc[t].op.key
       && s.nodes[p].val == s'.pc[t].res && s'.nodes[p].val == Some(s.pc[t].op.new_)
  }

  /** The same over all runs: the expectation of a call is ignored exactly when it is a specific value and the node of its
      key has another one at the moment of the write. */
  lemma CasHonours(run: seq<State>, actions: seq<Action>, i: nat, t: nat)
    requires IsRun(run, actions) && i < |actions| && actions[i] == Run(t) && t < |run[i].pc| && t < |run[i + 1].pc|
    requires !run[i].pc[t].Idle? && run[i].pc[t].op.Cas? && run[i + 1].pc[t].Done?
    ensures var pc, expected, res := run[i].pc[t], run[i].pc[t].op.expected, run[i + 1].pc[t].res;
            && (pc.Swap? ==> 0 < pc.item < |run[i].nodes| && run[i].nodes[pc.item].key == pc.op.key)
            && ((run[i + 1].hist != run[i].hist <==> Allowed(expected, res))
                <==> !(expected.Equals? && pc.Swap? && run[i].nodes[pc.item].val != Some(expected.v)))
            && (run[i + 1].hist != run[i].hist && res.Some? ==> Overwrites(run[i], t, run[i + 1]))
  {
    hide HasKey, ListOk, NodesOk, ValuesOk, RawStep;
    RunKeeps(run, actions, i);
    assert NextBy(run[i], actions[i], run[i + 1]) && ThreadOk(run[i], t);
    CasStepHonours(run[i], t);
  }

  // ----- what ll_cas answers ---------------------------------------------------------------------

  /** From state j to state i thread t is in the same call. */
  ghost predicate SameCall(run: seq<State>, j: nat, i: nat, t: nat) {
    && j <= i < |run| && t < |run[i].pc| && !run[i].pc[t].Idle?
    && forall x :: j <= x <= i ==> t < |run[x].pc| && !run[x].pc[t].Idle? && run[x].pc[t].op == run[i].pc[t].op
  }

  /** In state j node p has the key of t's call and the value v. */
  ghost predicate HadValue(run: seq<State>, j: nat, i: nat, t: nat, p: nat, v: Option<Value>) {
    SameCall(run, j, i, t) && 0 < p < |run[j].nodes| && run[j].nodes[p].key == run[i].pc[t].op.key && run[j].nodes[p].val == v
  }

  /** In state j node p is in the set with the key of t's call. */
  ghost predicate WasPresent(run: seq<State>, j: nat, i: nat, t: nat, p: nat) {
    SameCall(run, j, i, t) && Present(run[j], p, run[i].pc[t].op.key)
  }

  lemma SameCallOn(run: seq<State>, actions: seq<Action>, j: nat, i: nat, t: nat)
    requires IsRun(run, actions) && 0 < i < |run| && SameCall(run, j, i - 1, t) && t < |run[i].pc| && !run[i].pc[t].Idle?
    ensures SameCall(run, j, i, t)
  {
    hide Inv, NextBy;
    RunKeeps(run, actions, i - 1);
    ThreadsStay(run[i - 1], actions[i - 1], run[i]);
    OpStays(run[i - 1], actions[i - 1], run[i], t);
  }

  /** t found node p: it is about to read or to change its value, or has just seen it unmarked. */
  ghost predicate HasFound(s: State, t: nat, p: nat) {
    && t < |s.pc| && 0 < p < |s.nodes|
    && match s.pc[t]
       case Visit(op, _, item, _, marked) => item == p && !marked && s.nodes[p].key == op.key
       case Value(op, item) => item == p && s.nodes[p].key == op.key
       case Swap(op, item, _) => item == p && s.nodes[p].key == op.key
       case _ => false
  }

  /** What a step of another thread leaves alone. */
  lemma OtherPc(s: State, a: Action, s': State, t: nat)
    requires NextBy(s, a, s') && a.t != t && t < |s.pc|
    ensures |s'.pc| == |s.pc| && s'.pc[t] == s.pc[t]
  {
    hide HasKey, RawStep;
    if a.Run? { RawOthers(s, a.t, t); }
  }

  lemma RawOthers(s: State, u: nat, t: nat)
    requires Shaped(s) && u < |s.pc| && Pending(s.pc[u]) && t != u && t < |s.pc|
    ensures |RawStep(s, u).pc| == |s.pc| && RawStep(s, u).pc[t] == s.pc[t]
  {}

  lemma KeysStay(s: State, a: Action, s': State, p: nat)
    requires NextBy(s, a, s') && p < |s.nodes|
    ensures p < |s'.nodes| && s'.nodes[p].key == s.nodes[p].key
  {
    hide HasKey;
  }

  /** A node is found only by seeing it unmarked, that is, in the set. */
  lemma FoundStep(s: State, a: Action, s': State, t: nat, p: nat)
    requires Inv(s) && NextBy(s, a, s') && HasFound(s', t, p) && t < |s.pc|
    ensures !s.pc[t].Idle? && (HasFound(s, t, p) || Present(s, p, s'.pc[t].op.key))
  {
    if a.t != t {
      OtherPc(s, a, s', t);
      hide NextBy, HasKey, ListOk, NodesOk, ValuesOk, ThreadsOk;
      assert PcShaped(s.pc[t], |s.nodes|);
      KeysStay(s, a, s', p);
    } else if a.Run? {
      hide Step;
      FoundOwn(s, t, p);
    }
  }

  lemma FoundOwn(s: State, t: nat, p: nat)
    requires Inv(s) && t < |s.pc| && Pending(s.pc[t]) && HasFound(Step(s, t), t, p)
    ensures HasFound(s, t, p) || Present(s, p, Step(s, t).pc[t].op.key)
  {
    hide HasKey, ListOk, ValuesOk;
    assert ThreadOk(s, t);
  }

  lemma {:induction false} FoundWasPresent(run: seq<State>, actions: seq<Action>, i: nat, t: nat, p: nat)
    requires IsRun(run, actions) && i < |run| && HasFound(run[i], t, p)
    ensures exists j: nat :: WasPresent(run, j, i, t, p)
  {
    hide Inv, NextBy, HasFound, Present, SameCall;
    FoundIsBusy(run[i], t, p);
    if i > 0 {
      RunKeeps(run, actions, i - 1);
      ThreadsStay(run[i - 1], actions[i - 1], run[i]);
      FoundStep(run[i - 1], actions[i - 1], run[i], t, p);
      OpStays(run[i - 1], actions[i - 1], run[i], t);
      if HasFound(run[i - 1], t, p) {
        FoundWasPresent(run, actions, i - 1, t, p);
        var j: nat :| WasPresent(run, j, i - 1, t, p);
        SameCallOn(run, actions, j, i, t);
        assert WasPresent(run, j, i, t, p);
      } else {
        SameCallOne(run, i - 1, t);
        SameCallOn(run, actions, i - 1, i, t);
        assert WasPresent(run, i - 1, i, t, p);
      }
    }
  }

  lemma FoundIsBusy(s: State, t: nat, p: nat)
    requires HasFound(s, t, p)
    ensures t < |s.pc| && !s.pc[t].Idle? && (Init(s) ==> s.pc[t] == Idle)
  {}

  lemma SameCallOne(run: seq<State>, i: nat, t: nat)
    requires i < |run| && t < |run[i].pc| && !run[i].pc[t].Idle?
    ensures SameCall(run, i, i, t)
  {}

  /** The value a thread is about to compare with was read from the node, or answered by its failed CAS, just before. */
  lemma SwapStep(s: State, a: Action, s': State, t: nat)
    requires Inv(s) && NextBy(s, a, s') && t < |s.pc| && t < |s'.pc| && s'.pc[t].Swap?
    ensures !s.pc[t].Idle? && HasFound(s', t, s'.pc[t].item)
    ensures s.pc[t] == s'.pc[t] || s'.nodes[s'.pc[t].item].val == s'.pc[t].old_
  {
    if a.t != t {
      OtherPc(s, a, s', t);
      hide NextBy, HasKey, ListOk, NodesOk, ValuesOk;
      assert ThreadOk(s, t) && PcShaped(s.pc[t], |s.nodes|);
      KeysStay(s, a, s', s.pc[t].item);
    } else if a.Run? {
      hide Step;
      SwapOwn(s, t);
    }
  }

  lemma SwapOwn(s: State, t: nat)
    requires Inv(s) && t < |s.pc| && Pending(s.pc[t]) && t < |Step(s, t).pc| && Step(s, t).pc[t].Swap?
    ensures var s' := Step(s, t);
            HasFound(s', t, s'.pc[t].item) && s'.nodes[s'.pc[t].item].val == s'.pc[t].old_
  {
    hide HasKey, ListOk, NodesOk, ValuesOk;
    assert ThreadOk(s, t);
  }

  lemma {:induction false} SwapHadValue(run: seq<State>, actions: seq<Action>, i: nat, t: nat)
    requires IsRun(run, actions) && i < |run| && t < |run[i].pc| && run[i].pc[t].Swap?
    ensures HasFound(run[i], t, run[i].pc[t].item)
    ensures exists j: nat :: HadValue(run, j, i, t, run[i].pc[t].item, run[i].pc[t].old_)
  {
    hide Inv, NextBy, SameCall;
    var p, v := run[i].pc[t].item, run[i].pc[t].old_;
    if i > 0 {
      RunKeeps(run, actions, i - 1);
      ThreadsStay(run[i - 1], actions[i - 1], run[i]);
      SwapStep(run[i - 1], actions[i - 1], run[i], t);
      if run[i - 1].pc[t] == run[i].pc[t] {
        SwapHadValue(run, actions, i - 1, t);
        var j: nat :| HadValue(run, j, i - 1, t, p, v);
        SameCallOn(run, actions, j, i, t);
        assert HadValue(run, j, i, t, p, v);
      } else {
        SameCallOne(run, i, t);
        assert HadValue(run, i, i, t, p, v);
      }
    }
  }

  /** An answer with a value comes from the value that was compared. */
  lemma AnswerStep(s: State, a: Action, s': State, t: nat)
    requires Inv(s) && NextBy(s, a, s') && t < |s.pc| && t < |s'.pc| && s'.pc[t].Done? && s'.pc[t].op.Cas? && s'.pc[t].res.Some?
    ensures s.pc[t] == s'.pc[t] || (s.pc[t].Swap? && s.pc[t].old_ == s'.pc[t].res)
  {
    hide HasKey, ListOk, NodesOk, ValuesOk, ThreadsOk;
  }

  /** Linearisation of the positive answer, over all runs: whenever `ll_cas` returns a value, a node was in the set with
      its key at a moment inside the call, and had that value at a moment inside the call. */
  lemma {:induction false} AnswerWasCurrent(run: seq<State>, actions: seq<Action>, i: nat, t: nat)
    requires IsRun(run, actions) && i < |run| && t < |run[i].pc|
    requires run[i].pc[t].Done? && run[i].pc[t].op.Cas? && run[i].pc[t].res.Some?
    ensures exists p: nat, j: nat, h: nat :: HadValue(run, j, i, t, p, run[i].pc[t].res) && WasPresent(run, h, i, t, p)
  {
    hide Inv, NextBy, SameCall, HasFound;
    var res := run[i].pc[t].res;
    if i > 0 {
      RunKeeps(run, actions, i - 1);
      ThreadsStay(run[i - 1], actions[i - 1], run[i]);
      AnswerStep(run[i - 1], actions[i - 1], run[i], t);
      var p: nat, j: nat, h: nat;
      if run[i - 1].pc[t] == run[i].pc[t] {
        AnswerWasCurrent(run, actions, i - 1, t);
        p, j, h :| HadValue(run, j, i - 1, t, p, res) && WasPresent(run, h, i - 1, t, p);
      } else {
        SwapHadValue(run, actions, i - 1, t);
        p := run[i - 1].pc[t].item;
        j :| HadValue(run, j, i - 1, t, p, res);
        FoundWasPresent(run, actions, i - 1, t, p);
        h :| WasPresent(run, h, i - 1, t, p);
      }
      OpStays(run[i - 1], actions[i - 1], run[i], t);
      SameCallOn(run, actions, j, i, t);
      SameCallOn(run, actions, h, i, t);
      assert HadValue(run, j, i, t, p, res) && WasPresent(run, h, i, t, p);
    }
  }

  /** At its end the answer need not be current: it is, unless the call expected no value and the one it had read was
      replaced or swapped out since. */
  lemma AnswerIsCurrent(s: State, t: nat)
    requires Inv(s) && t < |s.pc| && s.pc[t].Swap? && t < |Step(s, t).pc| && Step(s, t).pc[t].Done?
    ensures Step(s, t).pc[t].res == s.nodes[s.pc[t].item].val
            <==> s.pc[t].op.expected != DoesNotExist || s.nodes[s.pc[t].item].val == s.pc[t].old_
  {
    hide ListOk, NodesOk, HasKey;
    assert ThreadOk(s, t);
  }

  // Two runs in which the expectation does not decide.

  /** The head and, after it, node 1 with key 5 and a value. */
  function OneNode(val: Option<Value>, marked: bool): seq<Node> {
    [Node(0, None, 1, false), Node(5, val, 0, marked)]
  }

  ghost predicate Shows(run: seq<State>, actions: seq<Action>, nodes: seq<Node>, pc: seq<Pc>) {
    IsRun(run, actions) && |run| > 0 && run[|run| - 1].nodes == nodes && run[|run| - 1].pc == pc
  }

  /** One more step of thread t. */
  lemma Go(run: seq<State>, actions: seq<Action>, t: nat, nodes: seq<Node>, pc: seq<Pc>) returns (run': seq<State>, actions': seq<Action>)
    requires Shows(run, actions, nodes, pc) && t < |pc| && Pending(pc[t])
    ensures Shaped(run[|run| - 1]) && Shows(run', actions', RawStep(run[|run| - 1], t).nodes, RawStep(run[|run| - 1], t).pc)
    ensures |run'| == |run| + 1 && run'[|run| - 1] == run[|run| - 1]
  {
    hide RawStep, HasKey, ListOk, NodesOk, ValuesOk, ThreadsOk;
    RunKeeps(run, actions, |run| - 1);
    var s := run[|run| - 1];
    StepShaped(s, t);
    run', actions' := run + [Step(s, t)], actions + [Run(t)];
  }

  lemma Begin(run: seq<State>, actions: seq<Action>, t: nat, op: Op, nodes: seq<Node>, pc: seq<Pc>)
    returns (run': seq<State>, actions': seq<Action>)
    requires Shows(run, actions, nodes, pc) && t < |pc| && pc[t] == Idle
    ensures Shows(run', actions', nodes, pc[t := Start(op)])
  {
    hide HasKey, ListOk, NodesOk, ValuesOk, ThreadsOk;
    RunKeeps(run, actions, |run| - 1);
    run', actions' := run + [Call(run[|run| - 1], t, op)], actions + [Invoke(t, op)];
  }

  lemma Fresh() returns (run: seq<State>, actions: seq<Action>)
    ensures Shows(run, actions, [Node(0, None, 0, false)], [Idle, Idle])
  {
    run, actions := [State([Node(0, None, 0, false)], [Idle, Idle], {0}, [], [[]], [false, false])], [];
  }

  /** Thread 0 inserts key 5 with value 1 and returns. */
  lemma Inserted() returns (run: seq<State>, actions: seq<Action>)
    ensures Shows(run, actions, OneNode(Some(1), false), [Idle, Idle])
  {
    var op := Cas(5, Whatever, 1);
    var nodes := [Node(0, None, 0, false)];
    hide Shows, HasKey;
    run, actions := Fresh();
    run, actions := Begin(run, actions, 0, op, nodes, [Idle, Idle]);
    assert [Idle, Idle][0 := Start(op)] == [Start(op), Idle];
    run, actions := GoTo(run, actions, 0, nodes, [Start(op), Idle], nodes, [Read(op, 0, 0), Idle]);
    run, actions := GoTo(run, actions, 0, nodes, [Read(op, 0, 0), Idle], nodes, [Insert(op, 0, 0), Idle]);
    run, actions := InsertedNow(op, run, actions);
  }

  lemma InsertedNow(op: Op, run0: seq<State>, actions0: seq<Action>) returns (run: seq<State>, actions: seq<Action>)
    requires op == Cas(5, Whatever, 1) && Shows(run0, actions0, [Node(0, None, 0, false)], [Insert(op, 0, 0), Idle])
    ensures Shows(run, actions, OneNode(Some(1), false), [Idle, Idle])
  {
    hide Shows, HasKey;
    run, actions := GoTo(run0, actions0, 0, [Node(0, None, 0, false)], [Insert(op, 0, 0), Idle],
                         OneNode(Some(1), false), [Done(op, None), Idle]);
    run, actions := End(run, actions, OneNode(Some(1), false), [Done(op, None), Idle]);
  }

  lemma End(run: seq<State>, actions: seq<Action>, nodes: seq<Node>, pc: seq<Pc>) returns (run': seq<State>, actions': seq<Action>)
    requires Shows(run, actions, nodes, pc) && |pc| == 2 && pc[0].Done?
    ensures Shows(run', actions', nodes, [Idle, pc[1]])
  {
    hide HasKey, ListOk, NodesOk, ValuesOk, ThreadsOk;
    RunKeeps(run, actions, |run| - 1);
    run', actions' := run + [Return(run[|run| - 1], 0)], actions + [Finish(0)];
  }

  /** One more step of thread t, with its outcome written out. */
  lemma GoTo(run: seq<State>, actions: seq<Action>, t: nat, nodes: seq<Node>, pc: seq<Pc>, nodes': seq<Node>, pc': seq<Pc>)
    returns (run': seq<State>, actions': seq<Action>)
    requires Shows(run, actions, nodes, pc) && t < |pc| && Pending(pc[t])
    requires forall s :: Shaped(s) && s.nodes == nodes && s.pc == pc ==> RawStep(s, t).nodes == nodes' && RawStep(s, t).pc == pc'
    ensures |run'| > 1 && Shows(run', actions', nodes', pc') && run'[|run'| - 2].nodes == nodes
  {
    hide RawStep, HasKey;
    run', actions' := Go(run, actions, t, nodes, pc);
  }

  /** Thread t calls `ll_cas` and has found node 1 and read its value. */
  lemma ValueRead(op: Op, t: nat) returns (run: seq<State>, actions: seq<Action>)
    requires op.Cas? && op.key == 5 && t < 2
    ensures Shows(run, actions, OneNode(Some(1), false), [Idle, Idle][t := Swap(op, 1, Some(1))])
  {
    var nodes := OneNode(Some(1), false);
    run, actions := Inserted();
    hide Shows, HasKey;
    var pc := [Idle, Idle];
    run, actions := Begin(run, actions, t, op, nodes, pc);
    run, actions := GoTo(run, actions, t, nodes, pc[t := Start(op)], nodes, pc[t := Read(op, 0, 1)]);
    run, actions := GoTo(run, actions, t, nodes, pc[t := Read(op, 0, 1)], nodes, pc[t := Visit(op, 0, 1, 0, false)]);
    run, actions := GoTo(run, actions, t, nodes, pc[t := Visit(op, 0, 1, 0, false)], nodes, pc[t := Value(op, 1)]);
    run, actions := GoTo(run, actions, t, nodes, pc[t := Value(op, 1)], nodes, pc[t := Swap(op, 1, Some(1))]);
  }

  /** `ll_cas` replaces a value although it was told to expect another one. */
  lemma ExpectationIgnored() returns (run: seq<State>, actions: seq<Action>)
    ensures |run| > 1 && Shows(run, actions, OneNode(Some(2), false), [Done(Cas(5, Equals(7), 2), Some(1)), Idle])
    ensures run[|run| - 2].nodes == OneNode(Some(1), false)
  {
    var op := Cas(5, Equals(7), 2);
    run, actions := ValueRead(op, 0);
    hide Shows, HasKey;
    assert [Idle, Idle][0 := Swap(op, 1, Some(1))] == [Swap(op, 1, Some(1)), Idle];
    run, actions := GoTo(run, actions, 0, OneNode(Some(1), false), [Swap(op, 1, Some(1)), Idle],
                         OneNode(Some(2), false), [Done(op, Some(1)), Idle]);
  }

  /** Meanwhile thread 0 begins to remove the key and finds it, */
  lemma Looking(wait: Pc, run0: seq<State>, actions0: seq<Action>) returns (run: seq<State>, actions: seq<Action>)
    requires Shows(run0, actions0, OneNode(Some(1), false), [Idle, wait])
    ensures Shows(run, actions, OneNode(Some(1), false), [Look(Remove(5), 0, 1), wait])
  {
    var op, nodes := Remove(5), OneNode(Some(1), false);
    hide Shows, HasKey;
    run, actions := Begin(run0, actions0, 0, op, nodes, [Idle, wait]);
    assert [Idle, wait][0 := Start(op)] == [Start(op), wait];
    run, actions := GoTo(run, actions, 0, nodes, [Start(op), wait], nodes, [Read(op, 0, 1), wait]);
    run, actions := GoTo(run, actions, 0, nodes, [Read(op, 0, 1), wait], nodes, [Visit(op, 0, 1, 0, false), wait]);
    run, actions := GoTo(run, actions, 0, nodes, [Visit(op, 0, 1, 0, false), wait], nodes, [Look(op, 0, 1), wait]);
  }

  /** marks it and swaps the value out. */
  lemma SwappedOut(wait: Pc, run0: seq<State>, actions0: seq<Action>) returns (run: seq<State>, actions: seq<Action>)
    requires Shows(run0, actions0, OneNode(Some(1), false), [Look(Remove(5), 0, 1), wait])
    ensures Shows(run, actions, OneNode(None, true), [Unlink(Remove(5), 0, 1, 0, Some(1)), wait])
  {
    var op, nodes := Remove(5), OneNode(Some(1), false);
    hide Shows, HasKey;
    run, actions := GoTo(run0, actions0, 0, nodes, [Look(op, 0, 1), wait], nodes, [Mark(op, 0, 1, 0, false), wait]);
    run, actions := GoTo(run, actions, 0, nodes, [Mark(op, 0, 1, 0, false), wait], OneNode(Some(1), true), [Take(op, 0, 1, 0), wait]);
    run, actions := GoTo(run, actions, 0, OneNode(Some(1), true), [Take(op, 0, 1, 0), wait],
                         OneNode(None, true), [Unlink(op, 0, 1, 0, Some(1)), wait]);
  }

  /** A call that expects no value answers with one after it was swapped out. */
  lemma AnswerIsStale() returns (run: seq<State>, actions: seq<Action>)
    ensures var remover := Unlink(Remove(5), 0, 1, 0, Some(1));
            |run| > 1 && Shows(run, actions, OneNode(None, true), [remover, Done(Cas(5, DoesNotExist, 9), Some(1))])
    ensures run[|run| - 2].nodes == OneNode(None, true)
  {
    var op := Cas(5, DoesNotExist, 9);
    run, actions := ValueRead(op, 1);
    hide Shows, HasKey;
    var wait := Swap(op, 1, Some(1));
    assert [Idle, Idle][1 := wait] == [Idle, wait];
    run, actions := Looking(wait, run, actions);
    run, actions := SwappedOut(wait, run, actions);
    var remover := Unlink(Remove(5), 0, 1, 0, Some(1));
    run, actions := GoTo(run, actions, 1, OneNode(None, true), [remover, wait], OneNode(None, true), [remover, Done(op, Some(1))]);
  }

  // ----- the list is what the head reaches -------------------------------------------------------

  lemma {:induction false} ReachedIsLinked(s: State, path: seq<nat>, p: nat)
    requires ListOk(s.nodes, s.linked) && Reaches(s.nodes, path, p)
    ensures p in s.linked
  {
    if |path| > 1 {
      var q := path[|path| - 2];
      assert Reaches(s.nodes, path[..|path| - 1], q);
      ReachedIsLinked(s, path[..|path| - 1], q);
      assert NextOk(s.nodes, s.linked, q);
    }
  }

  ghost function Between(s: State, q: nat, p: nat): set<nat> {
    set x | x in s.linked && 0 < x < |s.nodes| && p < |s.nodes| && q < |s.nodes|
            && (q == 0 || s.nodes[q].key < s.nodes[x].key) && s.nodes[x].key <= s.nodes[p].key
  }

  lemma {:induction false} LinkedIsReached(s: State, path: seq<nat>, q: nat, p: nat)
    requires ListOk(s.nodes, s.linked) && NodesOk(s) && Reaches(s.nodes, path, q)
    requires p in s.linked && q in s.linked && (q == p || (p != 0 && (q == 0 || s.nodes[q].key < s.nodes[p].key)))
    ensures Reachable(s.nodes, p)
    decreases |Between(s, q, p)|
  {
    if q != p {
      assert NextOk(s.nodes, s.linked, q);
      var n := s.nodes[q].next;
      assert q != 0 ==> Ascends(s.nodes, q);
      assert Reaches(s.nodes, path + [n], n);
      assert n in Between(s, q, p) && n !in Between(s, n, p);
      assert Between(s, n, p) < Between(s, q, p);
      CardinalityLess(Between(s, n, p), Between(s, q, p));
      LinkedIsReached(s, path + [n], n, p);
    }
  }

  lemma CardinalityLess(a: set<nat>, b: set<nat>)
    requires a < b
    ensures |a| < |b|
  {
    assert |b - a| > 0;
    assert b == a + (b - a);
  }

  /** In every reachable state the nodes of the list are exactly those reached from the head, and every unmarked
      node is one of them. */
  lemma ListIsReachable(s: State, p: nat)
    requires ListOk(s.nodes, s.linked) && NodesOk(s) && p < |s.nodes|
    ensures p in s.linked <==> Reachable(s.nodes, p)
    ensures !s.nodes[p].marked ==> Reachable(s.nodes, p)
  {
    if p in s.linked {
      assert Reaches(s.nodes, [0], 0);
      LinkedIsReached(s, [0], 0, p);
    }
    if Reachable(s.nodes, p) {
      var path :| Reaches(s.nodes, path, p);
      ReachedIsLinked(s, path, p);
    }
  }

  // ----- what a call does with its arguments -----------------------------------------------------

  /** The call that t is in, in state i, is the one it began with action h. */
  ghost predicate CalledAt(run: seq<State>, actions: seq<Action>, h: nat, i: nat, t: nat) {
    h < |actions| && SameCall(run, h + 1, i, t) && actions[h] == Invoke(t, run[i].pc[t].op)
  }

  lemma CallStarts(s: State, a: Action, s': State, t: nat)
    requires NextBy(s, a, s') && t < |s.pc| && t < |s'.pc| && s.pc[t].Idle? && !s'.pc[t].Idle?
    ensures a.Invoke? && a.t == t && s'.pc[t] == Start(a.op)
  {
    hide HasKey, RawStep;
    if a.t != t { OtherPc(s, a, s', t); }
  }

  lemma {:induction false} CallHasOp(run: seq<State>, actions: seq<Action>, i: nat, t: nat)
    requires IsRun(run, actions) && i < |run| && t < |run[i].pc| && !run[i].pc[t].Idle?
    ensures exists h: nat :: CalledAt(run, actions, h, i, t)
  {
    hide Inv, NextBy, SameCall;
    if i > 0 {
      assert NextBy(run[i - 1], actions[i - 1], run[i]);
      RunKeeps(run, actions, i - 1);
      ThreadsStay(run[i - 1], actions[i - 1], run[i]);
      if run[i - 1].pc[t].Idle? {
        CallStarts(run[i - 1], actions[i - 1], run[i], t);
        SameCallOne(run, i, t);
        assert CalledAt(run, actions, i - 1, i, t);
      } else {
        CallHasOp(run, actions, i - 1, t);
        var h: nat :| CalledAt(run, actions, h, i - 1, t);
        OpStays(run[i - 1], actions[i - 1], run[i], t);
        SameCallOn(run, actions, h + 1, i, t);
        assert CalledAt(run, actions, h, i, t);
      }
    }
  }

  /** Only a successful insert CAS makes a node: with the key and the value of its call, between pred and item. */
  lemma InsertAdds(s: State, t: nat)
    requires Inv(s) && t < |s.pc| && Pending(s.pc[t])
    ensures var pc, s' := s.pc[t], Step(s, t);
            if pc.Insert? && LinkIs(s, pc.pred, pc.item) then
              && s'.nodes == s.nodes[pc.pred := s.nodes[pc.pred].(next := |s.nodes|)] + [s'.nodes[|s.nodes|]]
              && s'.nodes[|s.nodes|] == Node(pc.op.key, Some(pc.op.new_), pc.item, false)
              && s'.hist == s.hist + [[pc.op.new_]] && t < |s'.pc| && s'.pc[t] == Done(pc.op, None)
            else |s'.nodes| == |s.nodes|
  {
    hide HasKey, ListOk, NodesOk, ValuesOk, ThreadsOk;
  }

  /** Over all runs: a node that appears has the key and the value of a call of `ll_cas`, which ends with the same step. */
  lemma RunInserts(run: seq<State>, actions: seq<Action>, i: nat)
    requires IsRun(run, actions) && i < |actions| && |run[i + 1].nodes| != |run[i].nodes|
    ensures var t, n := actions[i].t, |run[i].nodes|;
            && actions[i] == Run(t) && t < |run[i].pc| && t < |run[i + 1].pc| && run[i].pc[t].Insert?
            && |run[i + 1].nodes| == n + 1 == |run[i + 1].hist|
            && var op := run[i].pc[t].op;
               && op.Cas? && (exists h: nat :: CalledAt(run, actions, h, i, t)) && run[i + 1].pc[t] == Done(op, None)
               && run[i + 1].nodes[n].key == op.key && run[i + 1].nodes[n].val == Some(op.new_) && run[i + 1].hist[n] == [op.new_]
  {
    RunKeeps(run, actions, i);
    var s, a := run[i], actions[i];
    assert NextBy(s, a, run[i + 1]) && PcShaped(s.pc[a.t], |s.nodes|);
    if a.Run? {
      InsertAdds(s, a.t);
      HistoryShape(s);
      CallHasOp(run, actions, i, a.t);
    }
  }

  /** The value at place x of p's history was there before, or is the one of the call that this step belongs to. */
  lemma HistoryFrom(s: State, a: Action, s': State, p: nat, x: nat)
    requires Inv(s) && NextBy(s, a, s') && 0 < p < |s'.nodes| == |s'.hist| && x < |s'.hist[p]|
    ensures |s.nodes| == |s.hist|
    ensures if p < |s.nodes| && x < |s.hist[p]| then
              s'.nodes[p].key == s.nodes[p].key && s'.hist[p][x] == s.hist[p][x]
            else
              && a.Run? && a.t < |s.pc| && !s.pc[a.t].Idle? && s.pc[a.t].op.Cas?
              && s.pc[a.t].op.key == s'.nodes[p].key && s.pc[a.t].op.new_ == s'.hist[p][x]
  {
    hide HasKey, ListOk, NodesOk, ValuesOk, RawStep;
    if p < |s.nodes| { KeysStay(s, a, s', p); }
    if a.Run? {
      assert ThreadOk(s, a.t);
      InsertAdds(s, a.t);
      ValueChain(s, a.t);
    }
  }

  /** A call of `ll_cas` for k with the value v, before state i. */
  ghost predicate Given(actions: seq<Action>, i: nat, h: nat, k: Key, v: Value) {
    h < i <= |actions| && actions[h].Invoke? && actions[h].op.Cas? && actions[h].op.key == k && actions[h].op.new_ == v
  }

  /** Over all runs: every value a node ever had was given for its key to an earlier call of `ll_cas`. */
  lemma {:induction false} ValuesWereGiven(run: seq<State>, actions: seq<Action>, i: nat, p: nat, x: nat)
    requires IsRun(run, actions) && i < |run| && 0 < p < |run[i].nodes| == |run[i].hist| && x < |run[i].hist[p]|
    ensures exists h: nat :: Given(actions, i, h, run[i].nodes[p].key, run[i].hist[p][x])
  {
    hide Inv, NextBy, SameCall;
    if i > 0 {
      var s, a := run[i - 1], actions[i - 1];
      RunKeeps(run, actions, i - 1);
      assert NextBy(s, a, run[i]);
      HistoryFrom(s, a, run[i], p, x);
      var h: nat;
      if p < |s.nodes| && x < |s.hist[p]| {
        ValuesWereGiven(run, actions, i - 1, p, x);
        h :| Given(actions, i - 1, h, s.nodes[p].key, s.hist[p][x]);
      } else {
        CallHasOp(run, actions, i - 1, a.t);
        h :| CalledAt(run, actions, h, i - 1, a.t);
        CalledBefore(run, actions, h, i - 1, a.t);
      }
      assert Given(actions, i, h, run[i].nodes[p].key, run[i].hist[p][x]);
    }
  }

  lemma CalledBefore(run: seq<State>, actions: seq<Action>, h: nat, i: nat, t: nat)
    requires CalledAt(run, actions, h, i, t)
    ensures h < i
  {}

  /** In the call t is in, in state i, the step at h swapped v out of node p, which has the key of the call. */
  ghost predicate TookAt(run: seq<State>, actions: seq<Action>, h: nat, i: nat, t: nat, p: nat, v: Option<Value>) {
    Takes(run, actions, h, t, p) && HadValue(run, h, i, t, p, v)
  }

  ghost predicate Bears(pc: Pc, v: Option<Value>) {
    (pc.Unlink? && pc.val == v) || (pc.Done? && pc.op.Remove? && pc.res == v && v.Some?)
  }

  /** A remover comes by the value it returns only by swapping it out of the node it marked. */
  lemma BearsStep(s: State, a: Action, s': State, t: nat, v: Option<Value>)
    requires Inv(s) && NextBy(s, a, s') && t < |s.pc| && t < |s'.pc| && Bears(s'.pc[t], v)
    ensures !s.pc[t].Idle?
    ensures Bears(s.pc[t], v) || (a == Run(t) && s.pc[t].Take? && 0 < s.pc[t].item < |s.nodes|
                                  && s.nodes[s.pc[t].item].key == s.pc[t].op.key && s.nodes[s.pc[t].item].val == v)
  {
    if a.t != t {
      OtherPc(s, a, s', t);
    } else if a.Run? {
      hide Inv, Step;
      BearsOwn(s, t, v);
    }
  }

  lemma BearsOwn(s: State, t: nat, v: Option<Value>)
    requires Inv(s) && t < |s.pc| && Pending(s.pc[t]) && t < |Step(s, t).pc| && Bears(Step(s, t).pc[t], v)
    ensures Bears(s.pc[t], v) || (s.pc[t].Take? && 0 < s.pc[t].item < |s.nodes|
                                  && s.nodes[s.pc[t].item].key == s.pc[t].op.key && s.nodes[s.pc[t].item].val == v)
  {
    hide HasKey, ListOk, NodesOk, ValuesOk;
    assert ThreadOk(s, t) && PcShaped(s.pc[t], |s.nodes|);
  }

  /** Over all runs: what `ll_remove` returns is what this very call swapped out of a node with its key. */
  lemma {:induction false} RemoverTook(run: seq<State>, actions: seq<Action>, i: nat, t: nat, v: Option<Value>)
    requires IsRun(run, actions) && i < |run| && t < |run[i].pc| && Bears(run[i].pc[t], v)
    ensures exists h: nat, p: nat :: TookAt(run, actions, h, i, t, p, v)
  {
    hide Inv, NextBy, SameCall;
    if i > 0 {
      var s, a := run[i - 1], actions[i - 1];
      RunKeeps(run, actions, i - 1);
      assert NextBy(s, a, run[i]);
      ThreadsStay(s, a, run[i]);
      BearsStep(s, a, run[i], t, v);
      OpStays(s, a, run[i], t);
      var h: nat, p: nat;
      if Bears(s.pc[t], v) {
        RemoverTook(run, actions, i - 1, t, v);
        h, p :| TookAt(run, actions, h, i - 1, t, p, v);
      } else {
        h, p := i - 1, s.pc[t].item;
        SameCallOne(run, i - 1, t);
      }
      SameCallOn(run, actions, h, i, t);
      assert TookAt(run, actions, h, i, t, p, v);
    }
  }

  lemma StepFrame(s: State, t: nat)
    requires Inv(s) && t < |s.pc| && Pending(s.pc[t])
    ensures var s' := Step(s, t);
            && |s'.pc| == |s.pc| && !s'.pc[t].Idle? && s'.pc[t].op == s.pc[t].op
            && forall u :: 0 <= u < |s.pc| && u != t ==> s'.pc[u] == s.pc[u]
  {
    hide HasKey, ListOk, NodesOk, ValuesOk, ThreadsOk;
  }

  /** The node that a thread is about to unlink, and from where. */
  ghost predicate Unlinking(pc: Pc) { pc.Unlink? || (pc.Visit? && pc.marked) }

  /** A node is retired exactly by a successful unlink CAS, and then the head does not reach it. */
  lemma RetireStep(s: State, t: nat)
    requires Inv(s) && t < |s.pc| && Pending(s.pc[t])
    ensures var pc, s' := s.pc[t], Step(s, t);
            if Unlinking(pc) && LinkIs(s, pc.pred, pc.item) then
              s'.retired == s.retired + [pc.item] && pc.item < |s'.nodes| && !Reachable(s'.nodes, pc.item)
            else s'.retired == s.retired
  {
    StepKeeps(s, t);
    hide HasKey, ListOk, NodesOk, ValuesOk, ThreadsOk, Reachable;
    var pc, s' := s.pc[t], Step(s, t);
    if Unlinking(pc) && LinkIs(s, pc.pred, pc.item) {
      ListIsReachable(s', pc.item);
    }
  }

  // ----- a thread that runs alone ends its call --------------------------------------------------

  /** 0 when what t holds is current, so that it need not start over; otherwise how far it is from noticing. */
  ghost function Stale(s: State, t: nat): nat
    requires t < |s.pc|
  {
    match s.pc[t]
    case Read(_, pred, item) => if Edge(s, pred, item) then 0 else 4
    case Visit(_, pred, item, next, marked) =>
      if item < |s.nodes| && s.nodes[item].marked == marked && s.nodes[item].next == next then if Edge(s, pred, item) then 0 else 3
      else 5
    case Insert(_, pred, item) => if Edge(s, pred, item) then 0 else 1
    case Value(_, item) => if item < |s.nodes| && s.nodes[item].val == None then 2 else 0
    case Swap(_, item, old_) => if old_ == None then 1 else if item < |s.nodes| && s.nodes[item].val == None then 2 else 0
    case _ => 0
  }

  /** How many nodes lie behind the place where t searches. */
  ghost function Ahead(s: State, t: nat): nat
    requires t < |s.pc|
  {
    match s.pc[t]
    case Start(_) => |s.nodes| + 1
    case Read(_, pred, _) => |Behind(s.nodes, pred)|
    case Visit(_, pred, _, _, _) => |Behind(s.nodes, pred)|
    case _ => 0
  }

  ghost function Behind(nodes: seq<Node>, p: nat): set<nat> {
    set q | 0 < q < |nodes| && (p == 0 || p >= |nodes| || nodes[p].key < nodes[q].key)
  }

  ghost function InList(s: State, t: nat): nat
    requires t < |s.pc|
  {
    if Finding(s.pc[t]) then |s.linked| + 1 else 0
  }

  ghost function Left(s: State, t: nat): nat
    requires t < |s.pc|
  {
    match s.pc[t]
    case Read(_, _, _) => 1
    case Insert(_, _, _) => 1
    case Value(_, _) => 3
    case Swap(_, item, old_) => if item < |s.nodes| && s.nodes[item].val == old_ then 1 else 2
    case Look(_, _, _) => 5
    case Mark(_, _, item, next, marked) => if item < |s.nodes| && s.nodes[item].next == next && !marked then 3 else 4
    case Take(_, _, _, _) => 2
    case Unlink(_, _, _, _, _) => 1
    case _ => 0
  }

  /** s' is nearer to the end of t's call than s. */
  ghost predicate Nearer(s: State, t: nat, s': State) {
    && t < |s.pc| && t < |s'.pc|
    && (|| Stale(s', t) < Stale(s, t)
        || (&& Stale(s', t) == Stale(s, t)
            && (|| InList(s', t) < InList(s, t)
                || (&& InList(s', t) == InList(s, t)
                    && (Ahead(s', t) < Ahead(s, t) || (Ahead(s', t) == Ahead(s, t) && Left(s', t) < Left(s, t)))))))
  }

  lemma BehindShrinks(nodes: seq<Node>, p: nat, q: nat)
    requires p < |nodes| && 0 < q < |nodes| && (p == 0 || nodes[p].key < nodes[q].key)
    ensures |Behind(nodes, q)| < |Behind(nodes, p)|
  {
    assert q in Behind(nodes, p) && q !in Behind(nodes, q);
    assert Behind(nodes, q) < Behind(nodes, p);
    CardinalityLess(Behind(nodes, q), Behind(nodes, p));
  }

  lemma {:induction false} BehindHead(nodes: seq<Node>)
    ensures |Behind(nodes, 0)| <= |nodes|
  {
    if |nodes| > 0 {
      var n := |nodes| - 1;
      BehindHead(nodes[..n]);
      assert Behind(nodes, 0) == Behind(nodes[..n], 0) + (if n > 0 then {n} else {});
    } else {
      assert Behind(nodes, 0) == {};
    }
  }

  /** An unmarked link leads to a list node behind. */
  lemma EdgeAscends(s: State, pred: nat, item: nat)
    requires ListOk(s.nodes, s.linked) && NodesOk(s) && Edge(s, pred, item) && 0 < item < |s.nodes|
    ensures item in s.linked && (pred == 0 || s.nodes[pred].key < s.nodes[item].key)
  {
    assert NextOk(s.nodes, s.linked, pred) && (pred != 0 ==> Ascends(s.nodes, pred));
  }

  lemma VisitNears(s: State, t: nat)
    requires Inv(s) && t < |s.pc| && s.pc[t].Visit?
    ensures Nearer(s, t, FindStep(s, t))
  {
    hide ListOk, NodesOk, HasKey, Behind;
    assert ThreadOk(s, t);
    var Visit(op, pred, item, next, marked) := s.pc[t];
    if Edge(s, pred, item) {
      EdgeAscends(s, pred, item);
      BehindShrinks(s.nodes, pred, item);
      if marked { LessLinked(s.linked, item); }
    }
  }

  lemma LessLinked(linked: set<nat>, p: nat)
    requires p in linked
    ensures |linked - {p}| < |linked|
  {}

  lemma FindNears(s: State, t: nat)
    requires Inv(s) && t < |s.pc| && Finding(s.pc[t])
    ensures Nearer(s, t, FindStep(s, t))
  {
    hide ListOk, NodesOk, ValuesOk, HasKey, Behind;
    if s.pc[t].Visit? {
      VisitNears(s, t);
    } else {
      HeadUnmarked(s);
      BehindHead(s.nodes);
    }
  }

  lemma CasNears(s: State, t: nat)
    requires Inv(s) && t < |s.pc| && Casing(s.pc[t])
    ensures Nearer(s, t, CasStep(s, t))
  {
    hide ListOk, NodesOk, ValuesOk, ThreadsOk, HasKey;
  }

  lemma RemoveNears(s: State, t: nat)
    requires Inv(s) && t < |s.pc| && Removing(s.pc[t])
    ensures Nearer(s, t, RemoveStep(s, t))
  {
    hide ListOk, NodesOk, ValuesOk, ThreadsOk, HasKey;
  }

  /** In every reachable state, whatever the other threads are in the middle of, a step of t alone brings its call nearer
      to its end: the list is obstruction-free. */
  lemma Nears(s: State, t: nat)
    requires Inv(s) && t < |s.pc| && Pending(s.pc[t])
    ensures Nearer(s, t, Step(s, t))
  {
    hide Inv, HasKey, FindStep, CasStep, RemoveStep, Behind;
    if Finding(s.pc[t]) { FindNears(s, t); } else if Casing(s.pc[t]) { CasNears(s, t); } else { RemoveNears(s, t); }
  }

  // ----- the list as the threads change it -------------------------------------------------------

  class LockFreeList {
    var nodes: seq<Node>
    var pc: seq<Pc>
    ghost var linked: set<nat>
    ghost var retired: seq<nat>
    ghost var hist: seq<seq<Value>>
    ghost var absent: seq<bool>

    ghost function St(): State
      reads this
    {
      State(nodes, pc, linked, retired, hist, absent)
    }

    constructor (threads: nat)
      ensures Init(St()) && Inv(St()) && |pc| == threads
    {
      nodes, linked, retired, hist := [Node(0, None, 0, false)], {0}, [], [[]];
      pc, absent := seq(threads, _ => Idle), seq(threads, _ => false);
      new;
      InitInv(St());
    }

    /** The unlink CAS and, when it succeeds, the deferred free. */
    method TryUnlink(pred: nat, item: nat, next: nat) returns (ok: bool)
      requires pred < |nodes|
      modifies this`nodes, this`linked, this`retired
      ensures ok == old(LinkIs(St(), pred, item))
      ensures St() == if ok then old(Unlinked(St(), pred, item, next)) else old(St())
    {
      ok := nodes[pred].next == item && !nodes[pred].marked;
      if ok {
        nodes := nodes[pred := nodes[pred].(next := next)];
        linked, retired := linked - {item}, retired + [item];
      }
    }

    method Find(t: nat)
      requires Shaped(St()) && t < |pc| && Finding(pc[t])
      modifies this
      ensures St() == old(FindStep(St(), t))
    {
      match pc[t] {
        case Start(op) => pc := pc[t := Read(op, 0, nodes[0].next)];
        case Read(op, pred, item) =>
          if item == 0 {
            AfterFind(t, op, false, pred, 0);
          } else {
            pc := pc[t := Visit(op, pred, item, nodes[item].next, nodes[item].marked)];
          }
        case Visit(op, pred, item, next, marked) =>
          if marked {
            var ok := TryUnlink(pred, item, next);
            pc := pc[t := if ok then Read(op, pred, next)
                          else if nodes[pred].marked then Start(op)
                          else Read(op, pred, nodes[pred].next)];
          } else if nodes[item].key < op.key {
            pc := pc[t := Read(op, item, next)];
          } else {
            AfterFind(t, op, nodes[item].key == op.key, pred, item);
          }
      }
    }

    method AfterFind(t: nat, op: Op, found: bool, pred: nat, item: nat)
      requires t < |pc|
      modifies this`pc
      ensures St() == if found then old(Found(St(), t, op, pred, item)) else old(NotFound(St(), t, op, pred, item))
    {
      match op {
        case Cas(_, expected, _) =>
          pc := pc[t := if found then Value(op, item)
                        else if expected != DoesNotExist && expected != Whatever then Done(op, None)
                        else Insert(op, pred, item)];
        case Remove(_) => pc := pc[t := if found then Look(op, pred, item) else Done(op, None)];
      }
    }

    method CasNode(t: nat)
      requires Shaped(St()) && t < |pc| && Casing(pc[t])
      modifies this
      ensures St() == old(CasStep(St(), t))
    {
      match pc[t] {
        case Insert(op, pred, item) =>
          if nodes[pred].next == item && !nodes[pred].marked {
            linked, hist := linked + {|nodes|}, hist + [[op.new_]];
            nodes := nodes[pred := nodes[pred].(next := |nodes|)] + [Node(op.key, Some(op.new_), item, false)];
            pc := pc[t := Done(op, None)];
          } else {
            pc := pc[t := Start(op)];
          }
        case Value(op, item) => pc := pc[t := Swap(op, item, nodes[item].val)];
        case Swap(op, item, old_) =>
          if old_ == None {
            pc := pc[t := Start(op)];
          } else if op.expected == DoesNotExist {
            pc := pc[t := Done(op, old_)];
          } else if nodes[item].val == old_ {
            nodes := nodes[item := nodes[item].(val := Some(op.new_))];
            hist := hist[item := hist[item] + [op.new_]];
            pc := pc[t := Done(op, old_)];
          } else {
            pc := pc[t := Swap(op, item, nodes[item].val)];
          }
      }
    }

    method RemoveNode(t: nat)
      requires Shaped(St()) && t < |pc| && Removing(pc[t])
      modifies this
      ensures St() == old(RemoveStep(St(), t))
    {
      match pc[t] {
        case Look(op, pred, item) => pc := pc[t := Mark(op, pred, item, nodes[item].next, nodes[item].marked)];
        case Mark(op, pred, item, next, marked) =>
          if nodes[item].marked {
            pc := pc[t := Done(op, None)];
          } else if nodes[item].next == next && !marked {
            nodes := nodes[item := nodes[item].(marked := true)];
            pc := pc[t := Take(op, pred, item, next)];
          } else {
            pc := pc[t := Mark(op, pred, item, nodes[item].next, false)];
          }
        case Take(op, pred, item, next) =>
          pc := pc[t := Unlink(op, pred, item, next, nodes[item].val)];
          nodes := nodes[item := nodes[item].(val := None)];
        case Unlink(op, pred, item, next, val) =>
          var _ := TryUnlink(pred, item, next);
          pc := pc[t := Done(op, val)];
      }
    }

    /** Thread t calls `ll_cas` or `ll_remove`. */
    method Invoke(t: nat, op: Op)
      requires Inv(St()) && t < |pc| && pc[t].Idle?
      modifies this`pc, this`absent
      ensures St() == Call(old(St()), t, op) && Inv(St())
    {
      hide ListOk, NodesOk, ValuesOk, ThreadsOk, HasKey;
      ghost var s := St();
      pc := pc[t := Start(op)];
      absent := absent[t := false];
      absent := Note(St()).absent;
      NextKeeps(s, Action.Invoke(t, op), St());
    }

    method Finish(t: nat) returns (res: Option<Value>)
      requires Inv(St()) && t < |pc| && pc[t].Done?
      modifies this`pc
      ensures St() == Return(old(St()), t) && Inv(St()) && res == old(pc[t]).res
    {
      hide ListOk, NodesOk, ValuesOk, ThreadsOk, HasKey;
      ghost var s := St();
      res := pc[t].res;
      pc := pc[t := Idle];
      NextKeeps(s, Action.Finish(t), St());
    }

    /** One step of a pending call, whichever thread is scheduled. */
    method Advance(t: nat)
      requires Inv(St()) && t < |pc| && Pending(pc[t])
      modifies this
      ensures St() == old(Step(St(), t)) && Inv(St())
      ensures old(|nodes|) < |nodes| ==>
                var x, op := nodes[old(|nodes|)], old(pc[t].op);
                op.Cas? && x.key == op.key && x.val == Some(op.new_) && !x.marked
    {
      hide ListOk, NodesOk, ValuesOk, ThreadsOk, FindStep, CasStep, RemoveStep;
      InsertAdds(St(), t);
      StepShaped(St(), t);
      StepKeeps(St(), t);
      if Finding(pc[t]) { Find(t); } else if Casing(pc[t]) { CasNode(t); } else { RemoveNode(t); }
      if |absent| == |pc| { absent := Note(St()).absent; }
    }

    /** Thread t runs alone, from wherever it and the others are, until its call is done. */
    method Complete(t: nat)
      requires Inv(St()) && t < |pc| && !pc[t].Idle?
      modifies this
      ensures Inv(St()) && |pc| == old(|pc|) && pc[t].Done? && pc[t].op == old(pc[t].op)
      ensures forall u :: 0 <= u < |pc| && u != t ==> pc[u] == old(pc[u])
    {
      hide Inv, Step;
      while !pc[t].Done?
        invariant Inv(St()) && |pc| == old(|pc|) && !pc[t].Idle? && pc[t].op == old(pc[t].op)
        invariant forall u :: 0 <= u < |pc| && u != t ==> pc[u] == old(pc[u])
        decreases Stale(St(), t), InList(St(), t), Ahead(St(), t), Left(St(), t)
      {
        Nears(St(), t);
        StepFrame(St(), t);
        Advance(t);
      }
    }
  }
}
