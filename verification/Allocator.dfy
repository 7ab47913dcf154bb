/** The multi-threaded allocator (src/runtime/mem.c without RECYCLE_PAGES).

    Each thread has free lists, one per block size, and one queue from every other thread on which that
    thread returns blocks.  The stores to a queue by its producer and its consumer are steps of their own; what a
    thread does on its own lists is one step.  The operating system hands out fresh regions. */
module Allocator {
  import opened Common

  /** Addresses; 0 is NULL. */
  type Addr = nat

  const MIN_SCALE: nat := 3
  const MAX_SCALE: nat := 36
  const PAGE_SCALE: nat := 21
  const PAGE_SIZE: nat := 0x20_0000

  /** Where a link is stored: in a block, or in the queue cell of a consumer for a producer. */
  datatype Loc = Block(b: Addr) | Cell(consumer: nat, producer: nat)

  datatype Header = Header(owner: nat, scale: nat)

  datatype Pc =
    | Idle
    | Pop(k: nat, again: bool)                        // nbd_malloc: about to look at the free list
    | Load(k: nat, p: nat)                            // process_incoming_blocks: about to read the queue from p
    | Look(k: nat, p: nat, b: Addr)                   // about to read b->next
    | Move(k: nat, p: nat, b: Addr, next: Addr)       // about to put b on a free list
    | Leave(k: nat, p: nat, b: Addr)                  // about to leave b as the only block on the queue
    | NewPage(k: nat)
    | Clear(b: Addr)                                  // nbd_free of a foreign block: about to clear b->next
    | Append(b: Addr)                                 // about to link b behind the last block
    | Advance(b: Addr)                                // about to remember b as the last block
    | Got(b: Addr)

  datatype Place = Held | Free | InHand(t: nat) | Queued(p: nat)

  /** `free[t][k]`, `from[c][p]` and `to[p][c]` are the thread-local heads, cells and ends.  History: the pages the
      system has mapped, what each free list and queue holds, and where every block is. */
  datatype State = State(n: nat, headers: map<nat, Header>, next: map<Addr, Addr>, free: seq<seq<Addr>>,
                         from: seq<seq<Addr>>, to: seq<seq<Loc>>, pc: seq<Pc>,
                         mapped: set<nat>, lists: seq<seq<seq<Addr>>>, queues: seq<seq<seq<Addr>>>, place: map<Addr, Place>)

  function Page(x: Addr): nat { x / PAGE_SIZE }

  /** The header of the page a block starts on. */
  predicate HasHeader(s: State, b: Addr) { Page(b) in s.headers }

  function HeaderOf(s: State, b: Addr): Header
    requires HasHeader(s, b)
  {
    s.headers[Page(b)]
  }

  predicate Shaped(s: State) {
    && |s.free| == |s.from| == |s.to| == |s.pc| == |s.lists| == |s.queues| == s.n
    && (forall t :: 0 <= t < s.n ==> |s.free[t]| == |s.lists[t]| == MAX_SCALE + 1)
    && (forall t :: 0 <= t < s.n ==> |s.from[t]| == |s.to[t]| == |s.queues[t]| == s.n)
  }

  predicate At(s: State, b: Addr, place: Place) { b in s.place && s.place[b] == place }

  /** A block with its header and its link field. */
  predicate IsBlock(s: State, b: Addr) {
    && b in s.place && b in s.next && HasHeader(s, b) && b != 0
    && HeaderOf(s, b).owner < s.n && MIN_SCALE <= HeaderOf(s, b).scale <= MAX_SCALE
  }

  // ----- lists -----------------------------------------------------------------------------------

  /** From h the links lead through l and end in NULL. */
  predicate Chain(next: map<Addr, Addr>, h: Addr, l: seq<Addr>)
    decreases |l|
  {
    if l == [] then h == 0 else h == l[0] && h != 0 && h in next && Chain(next, next[h], l[1..])
  }

  predicate Distinct(l: seq<Addr>) { forall i, j :: 0 <= i < j < |l| ==> l[i] != l[j] }

  lemma {:induction false} ChainFrame(next: map<Addr, Addr>, next': map<Addr, Addr>, h: Addr, l: seq<Addr>)
    requires Chain(next, h, l) && forall b :: b in l && b in next ==> b in next' && next'[b] == next[b]
    ensures Chain(next', h, l)
    decreases |l|
  {
    if l != [] {
      assert l[0] in l;
      ChainFrame(next, next', next[h], l[1..]);
    }
  }

  /** Linking b behind the last block. */
  lemma {:induction false} ChainAppend(next: map<Addr, Addr>, h: Addr, l: seq<Addr>, b: Addr)
    requires Chain(next, h, l) && Distinct(l) && b !in l && b != 0 && b in next && next[b] == 0 && l != []
    ensures Chain(next[l[|l| - 1] := b], h, l + [b])
    decreases |l|
  {
    var next' := next[l[|l| - 1] := b];
    assert (l + [b])[1..] == l[1..] + [b];
    if |l| == 1 {
      assert Chain(next', 0, []);
      assert l[1..] + [b] == [b];
      assert Chain(next', b, [b]);
    } else {
      ChainAppend(next, next[h], l[1..], b);
      assert l[1..][|l| - 2] == l[|l| - 1];
    }
  }

  lemma {:induction false} ChainMember(next: map<Addr, Addr>, h: Addr, l: seq<Addr>, i: nat)
    requires Chain(next, h, l) && i < |l|
    ensures l[i] in next && next[l[i]] == if i + 1 < |l| then l[i + 1] else 0
    decreases |l|
  {
    if i > 0 { ChainMember(next, next[h], l[1..], i - 1); }
  }

  // ----- steps -----------------------------------------------------------------------------------

  function Goto(s: State, t: nat, pc: Pc): State
    requires t < |s.pc|
  {
    s.(pc := s.pc[t := pc])
  }

  /** b goes to the front of t's free list of its size. */
  function PushFree(s: State, t: nat, b: Addr): State
    requires Shaped(s) && t < s.n && IsBlock(s, b)
  {
    var k := HeaderOf(s, b).scale;
    s.(next := s.next[b := s.free[t][k]], free := Put(s.free, t, k, b), lists := Put(s.lists, t, k, [b] + s.lists[t][k]),
       place := s.place[b := Free])
  }

  /** What the next step of t looks at exists. */
  predicate Ready(s: State, t: nat) {
    && Shaped(s) && t < s.n
    && match s.pc[t]
       case Pop(k, _) => k <= MAX_SCALE && (s.free[t][k] != 0 ==> IsBlock(s, s.free[t][k]) && s.lists[t][k] != [])
       case Load(k, p) => p <= s.n
       case Look(k, p, b) => p < s.n && IsBlock(s, b)
       case Move(k, p, b, next) => p < s.n && IsBlock(s, b) && s.queues[p][t] != []
       case Leave(k, p, b) => p < s.n
       case Clear(b) => IsBlock(s, b)
       case Append(b) =>
         && IsBlock(s, b)
         && var e := s.to[t][HeaderOf(s, b).owner]; e.Cell? ==> e.consumer < s.n && e.producer < s.n
       case Advance(b) => IsBlock(s, b)
       case _ => true
  }

  predicate Pending(pc: Pc) { !pc.Idle? && !pc.Got? && !pc.NewPage? }

  predicate Freeing(pc: Pc) { pc.Clear? || pc.Append? || pc.Advance? }

  function MallocStep(s: State, t: nat): State
    requires Ready(s, t) && Pending(s.pc[t]) && !Freeing(s.pc[t])
  {
    match s.pc[t]
    case Pop(k, again) =>
      var b := s.free[t][k];
      if b != 0 then
        Goto(s, t, Got(b)).(free := Put(s.free, t, k, s.next[b]), lists := Put(s.lists, t, k, s.lists[t][k][1..]),
                            place := s.place[b := Held])
      else Goto(s, t, if again then NewPage(k) else Load(k, 0))
    case Load(k, p) =>
      Goto(s, t, if p == s.n then Pop(k, true) else if s.from[t][p] == 0 then Load(k, p + 1) else Look(k, p, s.from[t][p]))
    case Look(k, p, b) => Goto(s, t, if s.next[b] == 0 then Leave(k, p, b) else Move(k, p, b, s.next[b]))
    case Move(k, p, b, next) =>
      Goto(PushFree(s, t, b), t, Look(k, p, next)).(queues := Put(s.queues, p, t, s.queues[p][t][1..]))
    case Leave(k, p, b) => Goto(s, t, Load(k, p + 1)).(from := Put(s.from, t, p, b))
  }

  function FreeStep(s: State, t: nat): State
    requires Ready(s, t) && Freeing(s.pc[t])
  {
    var b := s.pc[t].b;
    var c := HeaderOf(s, b).owner;
    match s.pc[t]
    case Clear(_) => Goto(s, t, Append(b)).(next := s.next[b := 0])
    case Append(_) =>
      var s1 := Goto(s, t, Advance(b)).(queues := Put(s.queues, t, c, s.queues[t][c] + [b]), place := s.place[b := Queued(t)]);
      (match s.to[t][c]
       case Cell(consumer, producer) => s1.(from := Put(s.from, consumer, producer, b))
       case Block(x) => s1.(next := s.next[x := b]))
    case Advance(_) => Goto(s, t, Idle).(to := Put(s.to, t, c, Block(b)))
  }

  // ----- invariant -------------------------------------------------------------------------------

  predicate IsFree(s: State, b: Addr, t: nat, k: nat) {
    At(s, b, Free) && HasHeader(s, b) && HeaderOf(s, b) == Header(t, k)
  }

  predicate IsQueued(s: State, b: Addr, p: nat, c: nat) {
    At(s, b, Queued(p)) && HasHeader(s, b) && HeaderOf(s, b).owner == c
  }

  ghost predicate FreeOk(s: State, t: nat, k: nat)
    requires Shaped(s) && t < s.n && k <= MAX_SCALE
  {
    var l := s.lists[t][k];
    && Chain(s.next, s.free[t][k], l) && Distinct(l) && forall b :: b in l <==> IsFree(s, b, t, k)
  }

  predicate Draining(pc: Pc, p: nat) { (pc.Look? || pc.Move? || pc.Leave?) && pc.p == p }

  /** The first block of the queue from p to c: the consumer may be ahead of its cell. */
  function HeadOf(s: State, p: nat, c: nat): Addr
    requires Shaped(s) && p < s.n && c < s.n
  {
    if Draining(s.pc[c], p) then s.pc[c].b else s.from[c][p]
  }

  function EndOf(q: seq<Addr>, p: nat, c: nat): Loc { if q == [] then Cell(c, p) else Block(q[|q| - 1]) }

  predicate Advancing(s: State, p: nat, c: nat)
    requires Shaped(s) && p < s.n
  {
    s.pc[p].Advance? && HasHeader(s, s.pc[p].b) && HeaderOf(s, s.pc[p].b).owner == c
  }

  ghost predicate QueueOk(s: State, p: nat, c: nat)
    requires Shaped(s) && p < s.n && c < s.n
  {
    var q := s.queues[p][c];
    && Chain(s.next, HeadOf(s, p, c), q) && Distinct(q) && (forall b :: b in q <==> IsQueued(s, b, p, c))
    && (p == c ==> q == [])
    && (p != c ==> if Advancing(s, p, c) then q != [] && s.pc[p].b == q[|q| - 1] else s.to[p][c] == EndOf(q, p, c))
    && (s.pc[c].Move? && s.pc[c].p == p ==> |q| >= 2 && s.pc[c].next == q[1])
  }

  ghost predicate PcOk(s: State, t: nat)
    requires Shaped(s) && t < s.n
  {
    match s.pc[t]
    case Pop(k, _) => MIN_SCALE <= k <= MAX_SCALE
    case Load(k, p) => MIN_SCALE <= k <= MAX_SCALE && p <= s.n
    case Look(k, p, b) => MIN_SCALE <= k <= MAX_SCALE && p < s.n && b != 0
    case Move(k, p, b, _) => MIN_SCALE <= k <= MAX_SCALE && p < s.n && b != 0
    case Leave(k, p, b) => MIN_SCALE <= k <= MAX_SCALE && p < s.n && b != 0
    case NewPage(k) => MIN_SCALE <= k <= MAX_SCALE && s.lists[t][k] == []
    case Clear(b) => IsBlock(s, b) && At(s, b, InHand(t)) && HeaderOf(s, b).owner != t
    case Append(b) => IsBlock(s, b) && At(s, b, InHand(t)) && HeaderOf(s, b).owner != t && s.next[b] == 0
    case Advance(b) => IsBlock(s, b) && HeaderOf(s, b).owner != t
    case _ => true
  }

  /** The bytes of a block lie on mapped pages. */
  ghost predicate OnMapped(s: State, b: Addr)
    requires HasHeader(s, b)
  {
    forall x: nat {:trigger Page(x)} :: b <= x < b + Pow2(HeaderOf(s, b).scale) ==> Page(x) in s.mapped
  }

  ghost predicate BlockOk(s: State, b: Addr) { IsBlock(s, b) && OnMapped(s, b) }

  /** Two blocks do not overlap. */
  predicate Apart(s: State, b: Addr, c: Addr)
    requires HasHeader(s, b) && HasHeader(s, c)
  {
    b + Pow2(HeaderOf(s, b).scale) <= c || c + Pow2(HeaderOf(s, c).scale) <= b
  }

  ghost predicate MemoryOk(s: State) {
    && (forall b :: b in s.place ==> BlockOk(s, b))
    && (forall b, c :: b in s.place && c in s.place && b != c ==> Apart(s, b, c))
    && (forall g :: g in s.headers ==> g in s.mapped)
  }

  /** A block in hand is in the hands of the thread that is freeing it, and a queued one on a queue there is. */
  ghost predicate PlaceOk(s: State, b: Addr)
    requires Shaped(s) && b in s.place
  {
    match s.place[b]
    case InHand(t) => t < s.n && (s.pc[t].Clear? || s.pc[t].Append?) && s.pc[t].b == b
    case Queued(p) => p < s.n
    case _ => true
  }

  ghost predicate Inv(s: State) {
    && Shaped(s) && MemoryOk(s)
    && (forall b {:trigger PlaceOk(s, b)} :: b in s.place ==> PlaceOk(s, b))
    && (forall t: nat :: t < s.n ==> PcOk(s, t))
    && (forall t: nat, k: nat :: t < s.n && k <= MAX_SCALE ==> FreeOk(s, t, k))
    && (forall p: nat, c: nat :: p < s.n && c < s.n ==> QueueOk(s, p, c))
  }

  /** What the next step of a thread looks at is always there. */
  lemma IsReady(s: State, t: nat)
    requires Inv(s) && t < s.n
    ensures Ready(s, t)
  {
    hide OnMapped, Apart;
    assert PcOk(s, t);
    match s.pc[t] {
      case Pop(k, _) =>
        assert FreeOk(s, t, k);
        if s.free[t][k] != 0 {
          assert s.lists[t][k] != [];
          assert s.free[t][k] in s.lists[t][k] && IsFree(s, s.free[t][k], t, k);
          assert BlockOk(s, s.free[t][k]);
        }
      case Look(k, p, b) => FirstQueued(s, p, t);
      case Move(k, p, b, _) => FirstQueued(s, p, t);
      case Append(b) => assert QueueOk(s, t, HeaderOf(s, b).owner);
      case _ =>
    }
  }

  lemma FirstQueued(s: State, p: nat, c: nat)
    requires Inv(s) && p < s.n && c < s.n && HeadOf(s, p, c) != 0
    ensures var b := HeadOf(s, p, c);
            IsBlock(s, b) && IsQueued(s, b, p, c) && s.queues[p][c] != [] && s.queues[p][c][0] == b
  {
    hide OnMapped, Apart, PcOk, FreeOk;
    var b, q := HeadOf(s, p, c), s.queues[p][c];
    assert QueueOk(s, p, c);
    assert q != [] && b in q;
    assert IsQueued(s, b, p, c) && BlockOk(s, b);
  }

  // ----- every step keeps it ---------------------------------------------------------------------

  /** A step moves at most the block b to another place, and keeps the memory layout. */
  ghost predicate Moves(s: State, s': State, b: Addr) {
    && Shaped(s) && Shaped(s') && s'.n == s.n && s'.headers == s.headers && s'.mapped == s.mapped
    && s'.place.Keys == s.place.Keys && (forall x :: x in s.place && x != b ==> s'.place[x] == s.place[x])
    && (forall x :: x in s.next ==> x in s'.next)
  }

  lemma MemoryFrame(s: State, s': State, b: Addr)
    requires MemoryOk(s) && Moves(s, s', b)
    ensures MemoryOk(s')
  {
    hide Page, Pow2;
    forall x | x in s'.place ensures BlockOk(s', x) { assert BlockOk(s, x) && HeaderOf(s', x) == HeaderOf(s, x); }
    forall x, y | x in s'.place && y in s'.place && x != y ensures Apart(s', x, y) { assert Apart(s, x, y); }
  }

  lemma FreeFrame(s: State, s': State, t: nat, k: nat)
    requires Shaped(s) && Shaped(s') && s'.n == s.n && t < s.n && k <= MAX_SCALE && FreeOk(s, t, k)
    requires s'.lists[t][k] == s.lists[t][k] && s'.free[t][k] == s.free[t][k]
    requires forall b :: IsFree(s', b, t, k) <==> IsFree(s, b, t, k)
    requires forall b :: IsFree(s, b, t, k) && b in s.next ==> b in s'.next && s'.next[b] == s.next[b]
    ensures FreeOk(s', t, k)
  {
    ChainFrame(s.next, s'.next, s.free[t][k], s.lists[t][k]);
  }

  lemma QueueFrame(s: State, s': State, p: nat, c: nat)
    requires Shaped(s) && Shaped(s') && s'.n == s.n && p < s.n && c < s.n && QueueOk(s, p, c)
    requires s'.queues[p][c] == s.queues[p][c] && HeadOf(s', p, c) == HeadOf(s, p, c)
    requires p != c && !Advancing(s', p, c) ==> s'.to[p][c] == EndOf(s.queues[p][c], p, c)
    requires Advancing(s', p, c) ==> Advancing(s, p, c) && s'.pc[p] == s.pc[p]
    requires s'.pc[c].Move? && s'.pc[c].p == p ==> s'.pc[c] == s.pc[c]
    requires forall b :: IsQueued(s', b, p, c) <==> IsQueued(s, b, p, c)
    requires forall b :: IsQueued(s, b, p, c) && b in s.next ==> b in s'.next && s'.next[b] == s.next[b]
    ensures QueueOk(s', p, c)
  {
    ChainFrame(s.next, s'.next, HeadOf(s, p, c), s.queues[p][c]);
  }

  /** Taking the first block of a list out. */
  lemma FirstOut(next: map<Addr, Addr>, h: Addr, l: seq<Addr>)
    requires Chain(next, h, l) && Distinct(l) && l != []
    ensures h == l[0] && h in next && Chain(next, next[h], l[1..]) && Distinct(l[1..])
    ensures forall b :: b in l[1..] <==> b in l && b != h
  {}

  /** Putting a block in front, whose link then leads to the old first one. */
  lemma FirstIn(next: map<Addr, Addr>, h: Addr, l: seq<Addr>, b: Addr)
    requires Chain(next, h, l) && Distinct(l) && b !in l && b != 0
    ensures Chain(next[b := h], b, [b] + l) && Distinct([b] + l)
  {
    ChainFrame(next, next[b := h], h, l);
    assert ([b] + l)[1..] == l;
  }

  // The free list gives a block to the client.

  lemma PopFree(s: State, t: nat, u: nat, k: nat)
    requires Inv(s) && Ready(s, t) && s.pc[t].Pop? && s.free[t][s.pc[t].k] != 0 && u < s.n && k <= MAX_SCALE
    ensures FreeOk(MallocStep(s, t), u, k)
  {
    hide Chain, Put, MemoryOk, PcOk, QueueOk, Distinct;
    var s', b := MallocStep(s, t), s.free[t][s.pc[t].k];
    assert FreeOk(s, t, s.pc[t].k) && FreeOk(s, u, k);
    FirstOut(s.next, b, s.lists[t][s.pc[t].k]);
    assert b in s.lists[t][s.pc[t].k];
    assert IsFree(s, b, t, s.pc[t].k);
    assert forall x :: IsFree(s', x, u, k) <==> IsFree(s, x, u, k) && x != b;
    if u != t || k != s.pc[t].k { FreeFrame(s, s', u, k); }
  }

  lemma PopQueue(s: State, t: nat, p: nat, c: nat)
    requires Inv(s) && Ready(s, t) && s.pc[t].Pop? && s.free[t][s.pc[t].k] != 0 && p < s.n && c < s.n
    ensures QueueOk(MallocStep(s, t), p, c)
  {
    hide Chain, Put, MemoryOk, PcOk, Distinct;
    var s', b := MallocStep(s, t), s.free[t][s.pc[t].k];
    assert FreeOk(s, t, s.pc[t].k) && QueueOk(s, p, c);
    FirstOut(s.next, b, s.lists[t][s.pc[t].k]);
    assert b in s.lists[t][s.pc[t].k];
    assert IsFree(s, b, t, s.pc[t].k);
    assert forall x :: IsQueued(s', x, p, c) <==> IsQueued(s, x, p, c);
    QueueFrame(s, s', p, c);
  }

  // A block moves from a queue to the consumer's free list.

  lemma MoveFree(s: State, t: nat, u: nat, k: nat)
    requires Inv(s) && Ready(s, t) && s.pc[t].Move? && u < s.n && k <= MAX_SCALE
    ensures FreeOk(MallocStep(s, t), u, k)
  {
    hide Chain, Put, MemoryOk, PcOk, QueueOk, Distinct;
    var s', b := MallocStep(s, t), s.pc[t].b;
    FirstQueued(s, s.pc[t].p, t);
    assert FreeOk(s, u, k) && IsQueued(s, b, s.pc[t].p, t) && !IsFree(s, b, u, k);
    var mine := u == t && k == HeaderOf(s, b).scale;
    assert forall x :: IsFree(s', x, u, k) <==> IsFree(s, x, u, k) || (mine && x == b);
    if mine { FirstIn(s.next, s.free[t][k], s.lists[t][k], b); } else { FreeFrame(s, s', u, k); }
  }

  lemma MoveQueue(s: State, t: nat, p: nat, c: nat)
    requires Inv(s) && Ready(s, t) && s.pc[t].Move? && p < s.n && c < s.n
    ensures QueueOk(MallocStep(s, t), p, c)
  {
    hide Chain, Put, MemoryOk, PcOk, FreeOk, Distinct;
    var s', b := MallocStep(s, t), s.pc[t].b;
    FirstQueued(s, s.pc[t].p, t);
    assert QueueOk(s, p, c) && IsQueued(s, b, s.pc[t].p, t);
    var mine := c == t && p == s.pc[t].p;
    assert forall x :: IsQueued(s', x, p, c) <==> IsQueued(s, x, p, c) && !(mine && x == b);
    if mine {
      var q := s.queues[p][t];
      FirstOut(s.next, b, q);
      ChainMember(s.next, b, q, 0);
      ChainFrame(s.next, s'.next, s.next[b], q[1..]);
    } else {
      QueueFrame(s, s', p, c);
    }
  }

  // A block joins the queue to its owner.

  lemma AppendFree(s: State, t: nat, u: nat, k: nat)
    requires Inv(s) && Ready(s, t) && s.pc[t].Append? && u < s.n && k <= MAX_SCALE
    ensures FreeOk(FreeStep(s, t), u, k)
  {
    hide Chain, Put, MemoryOk, Distinct;
    var s', b := FreeStep(s, t), s.pc[t].b;
    var c := HeaderOf(s, b).owner;
    assert FreeOk(s, u, k) && PcOk(s, t) && QueueOk(s, t, c);
    assert forall x :: IsFree(s', x, u, k) <==> IsFree(s, x, u, k);
    if s.queues[t][c] != [] { assert IsQueued(s, s.queues[t][c][|s.queues[t][c]| - 1], t, c); }
    FreeFrame(s, s', u, k);
  }

  lemma AppendQueue(s: State, t: nat, p: nat, c: nat)
    requires Inv(s) && Ready(s, t) && s.pc[t].Append? && p < s.n && c < s.n
    ensures QueueOk(FreeStep(s, t), p, c)
  {
    hide Chain, Put, MemoryOk, FreeOk, Distinct;
    var s', b := FreeStep(s, t), s.pc[t].b;
    var o := HeaderOf(s, b).owner;
    if p == t && c == o {
      AppendOwn(s, t);
    } else {
      AppendOther(s, t, p, c);
    }
  }

  lemma AppendFacts(s: State, t: nat, p: nat, c: nat)
    requires Inv(s) && Ready(s, t) && s.pc[t].Append? && p < s.n && c < s.n
    ensures Shaped(s) && IsBlock(s, s.pc[t].b) && PcOk(s, t) && QueueOk(s, p, c) && QueueOk(s, t, HeaderOf(s, s.pc[t].b).owner)
  {
    hide FreeOk, MemoryOk;
    assert PcOk(s, t) && QueueOk(s, p, c);
  }

  /** What linking a block behind the last one writes. */
  lemma AppendEffect(s: State, t: nat)
    requires Ready(s, t) && s.pc[t].Append?
    ensures var s', b := FreeStep(s, t), s.pc[t].b;
            var o := HeaderOf(s, b).owner;
            && Shaped(s') && s'.n == s.n && s'.headers == s.headers && s'.to == s.to && s'.pc == s.pc[t := Advance(b)]
            && s'.place == s.place[b := Queued(t)] && s'.queues == Put(s.queues, t, o, s.queues[t][o] + [b])
            && match s.to[t][o]
               case Cell(consumer, producer) => consumer < s.n && producer < s.n && s'.next == s.next && s'.from == Put(s.from, consumer, producer, b)
               case Block(x) => s'.from == s.from && s'.next == s.next[x := b]
  {
    hide Put;
  }

  lemma AppendOther(s: State, t: nat, p: nat, c: nat)
    requires Inv(s) && Ready(s, t) && s.pc[t].Append? && p < s.n && c < s.n && !(p == t && c == HeaderOf(s, s.pc[t].b).owner)
    ensures QueueOk(FreeStep(s, t), p, c)
  {
    hide Inv, Chain, Put, Distinct, FreeStep;
    AppendFacts(s, t, p, c);
    AppendEffect(s, t);
    var s', o := FreeStep(s, t), HeaderOf(s, s.pc[t].b).owner;
    var q := s.queues[t][o];
    if q != [] { assert q[|q| - 1] in q && IsQueued(s, q[|q| - 1], t, o); }
    QueuedApart(s, s', t, p, c);
    hide PcOk;
    QueueFrame(s, s', p, c);
  }

  lemma QueuedApart(s: State, s': State, t: nat, p: nat, c: nat)
    requires Shaped(s) && t < s.n && s.pc[t].Append? && s'.headers == s.headers && s'.place == s.place[s.pc[t].b := Queued(t)]
    requires HasHeader(s, s.pc[t].b) && At(s, s.pc[t].b, InHand(t)) && !(p == t && c == HeaderOf(s, s.pc[t].b).owner)
    ensures forall x :: IsQueued(s', x, p, c) <==> IsQueued(s, x, p, c)
  {}

  lemma AppendOwn(s: State, t: nat)
    requires Inv(s) && Ready(s, t) && s.pc[t].Append?
    ensures QueueOk(FreeStep(s, t), t, HeaderOf(s, s.pc[t].b).owner)
  {
    hide Chain, Put, MemoryOk, FreeOk, Distinct;
    var s', b := FreeStep(s, t), s.pc[t].b;
    var o := HeaderOf(s, b).owner;
    assert PcOk(s, t) && PcOk(s, o) && QueueOk(s, t, o);
    assert forall x :: IsQueued(s', x, t, o) <==> IsQueued(s, x, t, o) || x == b;
    assert !IsQueued(s, b, t, o);
    var q := s.queues[t][o];
    Appended(s.next, HeadOf(s, t, o), q, b);
    assert s'.queues[t][o] == q + [b] && (q == [] ==> q + [b] == [b]);
  }

  lemma Appended(next: map<Addr, Addr>, h: Addr, q: seq<Addr>, b: Addr)
    requires Chain(next, h, q) && Distinct(q) && b !in q && b != 0 && b in next && next[b] == 0
    ensures Distinct(q + [b])
    ensures if q == [] then h == 0 && Chain(next, b, [b]) else h != 0 && Chain(next[q[|q| - 1] := b], h, q + [b])
  {
    if q == [] {
      assert Chain(next, 0, []) && [b][1..] == [];
      assert Chain(next, b, [b]);
    } else {
      ChainAppend(next, h, q, b);
    }
  }

  // The other steps leave all blocks in their places.

  function Step(s: State, t: nat): State
    requires Ready(s, t) && Pending(s.pc[t])
  {
    if Freeing(s.pc[t]) then FreeStep(s, t) else MallocStep(s, t)
  }

  predicate Quiet(s: State, t: nat)
    requires Ready(s, t)
  {
    match s.pc[t]
    case Pop(k, _) => s.free[t][k] == 0
    case Move(_, _, _, _) => false
    case Append(_) => false
    case _ => true
  }

  lemma QuietFree(s: State, t: nat, u: nat, k: nat)
    requires Inv(s) && Ready(s, t) && Pending(s.pc[t]) && Quiet(s, t) && u < s.n && k <= MAX_SCALE
    ensures FreeOk(Step(s, t), u, k)
  {
    hide Chain, Put, MemoryOk, QueueOk, Distinct;
    if s.pc[t].Clear? {
      ClearFree(s, t, u, k);
    } else {
      hide Step;
      QuietKeeps(s, t);
      var s' := Step(s, t);
      assert forall x :: IsFree(s', x, u, k) <==> IsFree(s, x, u, k);
      assert FreeOk(s, u, k);
      FreeFrame(s, s', u, k);
    }
  }

  lemma QuietKeeps(s: State, t: nat)
    requires Ready(s, t) && Pending(s.pc[t]) && Quiet(s, t) && !s.pc[t].Clear?
    ensures var s' := Step(s, t);
            && Shaped(s') && s'.n == s.n && s'.next == s.next && s'.place == s.place && s'.headers == s.headers
            && s'.lists == s.lists && s'.free == s.free
  {
    hide Put;
  }

  lemma ClearFree(s: State, t: nat, u: nat, k: nat)
    requires Inv(s) && Ready(s, t) && s.pc[t].Clear? && u < s.n && k <= MAX_SCALE
    ensures FreeOk(Step(s, t), u, k)
  {
    hide Chain, Put, MemoryOk, QueueOk, Distinct;
    var s' := Step(s, t);
    assert FreeOk(s, u, k) && PcOk(s, t);
    assert forall x :: IsFree(s', x, u, k) <==> IsFree(s, x, u, k);
    FreeFrame(s, s', u, k);
  }

  lemma ClearQueue(s: State, t: nat, p: nat, c: nat)
    requires Inv(s) && Ready(s, t) && s.pc[t].Clear? && p < s.n && c < s.n
    ensures QueueOk(Step(s, t), p, c)
  {
    hide Chain, Put, MemoryOk, FreeOk, Distinct;
    var s' := Step(s, t);
    assert QueueOk(s, p, c) && PcOk(s, t);
    assert forall x :: IsQueued(s', x, p, c) <==> IsQueued(s, x, p, c);
    QueueFrame(s, s', p, c);
  }

  lemma QuietQueue(s: State, t: nat, p: nat, c: nat)
    requires Inv(s) && Ready(s, t) && (s.pc[t].Pop? || s.pc[t].Load? || s.pc[t].Leave?) && Quiet(s, t) && p < s.n && c < s.n
    ensures QueueOk(Step(s, t), p, c)
  {
    hide Chain, Put, MemoryOk, FreeOk, Distinct;
    var s' := Step(s, t);
    assert QueueOk(s, p, c) && PcOk(s, t);
    assert s'.next == s.next && s'.place == s.place && s'.headers == s.headers && s'.queues == s.queues && s'.to == s.to;
    assert HeadOf(s', p, c) == HeadOf(s, p, c);
    assert forall x :: IsQueued(s', x, p, c) <==> IsQueued(s, x, p, c);
    QueueFrame(s, s', p, c);
  }

  lemma LookQueue(s: State, t: nat, p: nat, c: nat)
    requires Inv(s) && Ready(s, t) && s.pc[t].Look? && p < s.n && c < s.n
    ensures QueueOk(Step(s, t), p, c)
  {
    hide Chain, Put, MemoryOk, FreeOk, Distinct;
    var s' := Step(s, t);
    assert QueueOk(s, p, c) && PcOk(s, t);
    assert forall x :: IsQueued(s', x, p, c) <==> IsQueued(s, x, p, c);
    if c == t && p == s.pc[t].p {
      FirstQueued(s, p, t);
      ChainMember(s.next, s.pc[t].b, s.queues[p][t], 0);
    } else {
      QueueFrame(s, s', p, c);
    }
  }

  lemma AdvanceQueue(s: State, t: nat, p: nat, c: nat)
    requires Inv(s) && Ready(s, t) && s.pc[t].Advance? && p < s.n && c < s.n
    ensures QueueOk(Step(s, t), p, c)
  {
    hide Chain, Put, MemoryOk, FreeOk, Distinct;
    var s' := Step(s, t);
    assert QueueOk(s, p, c) && PcOk(s, t);
    assert forall x :: IsQueued(s', x, p, c) <==> IsQueued(s, x, p, c);
    QueueFrame(s, s', p, c);
  }

  lemma StepMoves(s: State, t: nat)
    requires Inv(s) && Ready(s, t) && Pending(s.pc[t])
    ensures exists b :: Moves(s, Step(s, t), b)
  {
    hide Put, MemoryOk, FreeOk, QueueOk, PcOk;
    if Freeing(s.pc[t]) {
      assert Moves(s, Step(s, t), s.pc[t].b);
    } else {
      MallocMoves(s, t);
    }
  }

  lemma MallocMoves(s: State, t: nat)
    requires Ready(s, t) && Pending(s.pc[t]) && !Freeing(s.pc[t])
    ensures exists b :: Moves(s, Step(s, t), b)
  {
    hide Put;
    var b := if s.pc[t].Pop? then s.free[t][s.pc[t].k] else if s.pc[t].Move? then s.pc[t].b else 0;
    assert Moves(s, Step(s, t), b);
  }

  lemma StepOwnPc(s: State, t: nat)
    requires Inv(s) && Ready(s, t) && Pending(s.pc[t]) && Shaped(Step(s, t)) && Step(s, t).n == s.n
    ensures PcOk(Step(s, t), t)
  {
    hide Put, MemoryOk, Distinct, QueueOk;
    assert PcOk(s, t);
    if Freeing(s.pc[t]) {
      FreeOwnPc(s, t);
    } else {
      if s.pc[t].Pop? { assert FreeOk(s, t, s.pc[t].k); }
      if s.pc[t].Move? { MoveLeads(s, t); }
    }
  }

  lemma FreeOwnPc(s: State, t: nat)
    requires Ready(s, t) && Freeing(s.pc[t]) && Shaped(Step(s, t)) && Step(s, t).n == s.n && PcOk(s, t)
    ensures PcOk(Step(s, t), t)
  {
    hide Put;
  }

  lemma MoveLeads(s: State, t: nat)
    requires Inv(s) && Ready(s, t) && s.pc[t].Move?
    ensures s.pc[t].next != 0
  {
    hide Put, MemoryOk, FreeOk;
    var p := s.pc[t].p;
    assert QueueOk(s, p, t) && PcOk(s, t);
    var q := s.queues[p][t];
    FirstOut(s.next, s.pc[t].b, q);
  }

  /** A step does not touch what another thread has in hand. */
  ghost predicate Spares(s: State, s': State, u: nat) {
    forall x :: At(s, x, InHand(u)) && x in s.next ==> At(s', x, InHand(u)) && x in s'.next && s'.next[x] == s.next[x]
  }

  lemma MallocSpares(s: State, t: nat, u: nat)
    requires Inv(s) && Ready(s, t) && Pending(s.pc[t]) && !Freeing(s.pc[t]) && u < s.n && u != t
    ensures Spares(s, Step(s, t), u)
  {
    hide Chain, MemoryOk, Distinct, Put, PcOk;
    if s.pc[t].Pop? { assert FreeOk(s, t, s.pc[t].k); }
    if s.pc[t].Pop? && s.free[t][s.pc[t].k] != 0 {
      FirstOut(s.next, s.free[t][s.pc[t].k], s.lists[t][s.pc[t].k]);
      assert s.free[t][s.pc[t].k] in s.lists[t][s.pc[t].k];
      assert IsFree(s, s.free[t][s.pc[t].k], t, s.pc[t].k);
    }
    if s.pc[t].Move? { FirstQueued(s, s.pc[t].p, t); }
  }

  lemma FreeSpares(s: State, t: nat, u: nat)
    requires Inv(s) && Ready(s, t) && Freeing(s.pc[t]) && u < s.n && u != t
    ensures Spares(s, Step(s, t), u)
  {
    hide Chain, MemoryOk, Distinct, Put;
    assert PcOk(s, t);
    if s.pc[t].Append? {
      var c := HeaderOf(s, s.pc[t].b).owner;
      assert QueueOk(s, t, c);
      if s.queues[t][c] != [] { assert IsQueued(s, s.queues[t][c][|s.queues[t][c]| - 1], t, c); }
    }
  }

  lemma StepOtherPc(s: State, t: nat, u: nat)
    requires Inv(s) && Ready(s, t) && Pending(s.pc[t]) && u < s.n && u != t
    ensures Shaped(Step(s, t)) && Step(s, t).n == s.n && PcOk(Step(s, t), u)
  {
    hide Chain, MemoryOk, Distinct, FreeOk, QueueOk;
    StepMoves(s, t);
    if Freeing(s.pc[t]) { FreeSpares(s, t, u); } else { MallocSpares(s, t, u); }
    OtherLists(s, t, u);
    assert PcOk(s, u);
    PcFrame(s, Step(s, t), u);
  }

  lemma OtherLists(s: State, t: nat, u: nat)
    requires Ready(s, t) && Pending(s.pc[t]) && u < s.n && u != t
    ensures |Step(s, t).pc| == |s.pc| && Step(s, t).pc[u] == s.pc[u] && Step(s, t).lists[u] == s.lists[u]
  {
    hide Chain;
    var s' := Step(s, t);
    assert |s'.lists[u]| == |s.lists[u]| && forall k :: 0 <= k < |s.lists[u]| ==> s'.lists[u][k] == s.lists[u][k];
  }

  lemma PcFrame(s: State, s': State, u: nat)
    requires Shaped(s) && u < s.n && PcOk(s, u) && (exists b :: Moves(s, s', b)) && Spares(s, s', u)
    requires s'.pc[u] == s.pc[u] && s'.lists[u] == s.lists[u]
    ensures PcOk(s', u)
  {}

  lemma StepKeeps(s: State, t: nat)
    requires Inv(s) && Ready(s, t) && Pending(s.pc[t])
    ensures Inv(Step(s, t))
  {
    hide FreeOk, QueueOk, PcOk, MemoryOk, Put, IsBlock, Chain;
    StepMoves(s, t);
    var s' := Step(s, t);
    var b :| Moves(s, s', b);
    MemoryFrame(s, s', b);
    forall u: nat | u < s.n ensures PcOk(s', u) { if u == t { StepOwnPc(s, t); } else { StepOtherPc(s, t, u); } }
    forall u: nat, k: nat | u < s.n && k <= MAX_SCALE ensures FreeOk(s', u, k) { StepFree(s, t, u, k); }
    forall p: nat, c: nat | p < s.n && c < s.n ensures QueueOk(s', p, c) { StepQueue(s, t, p, c); }
    forall x | x in s'.place ensures PlaceOk(s', x) { StepPlace(s, t, x); }
  }

  lemma StepPlace(s: State, t: nat, b: Addr)
    requires Inv(s) && Ready(s, t) && Pending(s.pc[t]) && b in s.place && Shaped(Step(s, t)) && b in Step(s, t).place
    ensures PlaceOk(Step(s, t), b)
  {
    hide FreeOk, QueueOk, MemoryOk, MallocStep, FreeStep;
    assert PlaceOk(s, b) && PcOk(s, t);
    if Freeing(s.pc[t]) { FreePlace(s, t, b); } else { MallocPlace(s, t, b); }
  }

  lemma FreePlace(s: State, t: nat, b: Addr)
    requires Ready(s, t) && Freeing(s.pc[t]) && b in s.place && Shaped(Step(s, t)) && b in Step(s, t).place && PlaceOk(s, b) && PcOk(s, t)
    ensures PlaceOk(Step(s, t), b)
  {
    hide Put;
  }

  lemma MallocPlace(s: State, t: nat, b: Addr)
    requires Ready(s, t) && Pending(s.pc[t]) && !Freeing(s.pc[t]) && b in s.place && Shaped(Step(s, t)) && b in Step(s, t).place
    requires PlaceOk(s, b)
    ensures PlaceOk(Step(s, t), b)
  {
    hide Put;
  }

  lemma StepFree(s: State, t: nat, u: nat, k: nat)
    requires Inv(s) && Ready(s, t) && Pending(s.pc[t]) && u < s.n && k <= MAX_SCALE
    ensures Shaped(Step(s, t)) && FreeOk(Step(s, t), u, k)
  {
    hide FreeOk, QueueOk, PcOk, MemoryOk, Put, Chain;
    StepMoves(s, t);
    if s.pc[t].Move? { MoveFree(s, t, u, k); }
    else if s.pc[t].Append? { AppendFree(s, t, u, k); }
    else if Quiet(s, t) { QuietFree(s, t, u, k); }
    else { PopFree(s, t, u, k); }
  }

  lemma StepQueue(s: State, t: nat, p: nat, c: nat)
    requires Inv(s) && Ready(s, t) && Pending(s.pc[t]) && p < s.n && c < s.n
    ensures Shaped(Step(s, t)) && QueueOk(Step(s, t), p, c)
  {
    hide FreeOk, QueueOk, PcOk, MemoryOk, Put, Chain;
    StepMoves(s, t);
    if s.pc[t].Move? { MoveQueue(s, t, p, c); }
    else if s.pc[t].Append? { AppendQueue(s, t, p, c); }
    else if s.pc[t].Look? { LookQueue(s, t, p, c); }
    else if s.pc[t].Advance? { AdvanceQueue(s, t, p, c); }
    else if s.pc[t].Clear? { ClearQueue(s, t, p, c); }
    else if Quiet(s, t) { QuietQueue(s, t, p, c); }
    else { PopQueue(s, t, p, c); }
  }

  // ----- sizes -----------------------------------------------------------------------------------

  /** Number of significant bits: the word size minus the leading zeros. */
  function BitLength(x: nat): nat { if x == 0 then 0 else 1 + BitLength(x / 2) }

  /** The scale `nbd_malloc` chooses.  For n == 0 the subtraction wraps to the largest word; for n == 1 the count of
      leading zeros of 0 is undefined. */
  function ScaleFor(n: nat): nat
    requires n != 1
  {
    var k := if n == 0 then 64 else BitLength(n - 1);
    if k < MIN_SCALE then MIN_SCALE else k
  }

  lemma {:induction false} BitLengthBounds(x: nat)
    ensures x < Pow2(BitLength(x))
    ensures x > 0 ==> BitLength(x) > 0 && Pow2(BitLength(x) - 1) <= x
  {
    if x > 0 { BitLengthBounds(x / 2); }
  }

  /** A request gets a block that is large enough, and the smallest such above the minimum. */
  lemma BlockLargeEnough(n: nat)
    requires n >= 2
    ensures Pow2(ScaleFor(n)) >= n
    ensures ScaleFor(n) > MIN_SCALE ==> Pow2(ScaleFor(n) - 1) < n
  {
    BitLengthBounds(n - 1);
    assert BitLength(n - 1) < MIN_SCALE ==> Pow2(BitLength(n - 1)) <= Pow2(MIN_SCALE) by {
      if BitLength(n - 1) < MIN_SCALE { Pow2Grows(BitLength(n - 1), MIN_SCALE); }
    }
  }

  lemma {:induction false} Pow2Grows(a: nat, b: nat)
    requires a <= b
    ensures Pow2(a) <= Pow2(b)
  {
    if a < b { Pow2Grows(a, b - 1); }
  }

  lemma {:induction false} Pow2Adds(a: nat, b: nat)
    ensures Pow2(a + b) == Pow2(a) * Pow2(b)
  {
    if b > 0 { Pow2Adds(a, b - 1); }
  }

  // ----- regions ---------------------------------------------------------------------------------

  function RegionSize(k: nat): nat { if Pow2(k) < PAGE_SIZE then PAGE_SIZE else Pow2(k) }

  /** A multiple of the region size inside a mapping of twice that size. */
  function Aligned(region: Addr, size: nat): Addr
    requires size > 0
  {
    (region + size) - (region + size) % size
  }

  /** The aligned region lies in the double mapping, and the two parts that are unmapped are exactly the rest. */
  lemma AlignedInside(region: Addr, size: nat)
    requires size > 0
    ensures var a := Aligned(region, size);
            && a == size * ((region + size) / size) && region < a <= region + size
            && var before, after := a - region, region + size - a;
               before + size + after == 2 * size && a + size + after == region + 2 * size
  {}

  /** How many blocks of a scale fill a region, and where they start. */
  function BlockCount(k: nat): (m: nat)
    ensures m > 0
  {
    if k < PAGE_SCALE then Pow2(PAGE_SCALE - k) else 1
  }

  function Times(j: nat, size: nat): nat { if j == 0 then 0 else Times(j - 1, size) + size }

  function Blocks(k: nat, base: Addr): (l: seq<Addr>)
    ensures |l| == BlockCount(k)
    ensures forall j :: 0 <= j < |l| ==> l[j] == base + Times(j, Pow2(k))
  {
    seq(BlockCount(k), (j: nat) requires j < BlockCount(k) => base + Times(j, Pow2(k)))
  }

  lemma {:induction false} TimesIsProduct(j: nat, size: nat)
    ensures Times(j, size) == j * size
  {
    if j > 0 {
      TimesIsProduct(j - 1, size);
      assert j * size == (j - 1) * size + size;
    }
  }

  lemma PageScale()
    ensures Pow2(PAGE_SCALE) == PAGE_SIZE && Pow2(PAGE_SCALE - 1) < PAGE_SIZE
  {
    assert Pow2(10) == 0x400;
    Pow2Adds(10, 10);
    assert Pow2(21) == 2 * Pow2(20);
  }

  lemma Smaller(k: nat)
    requires k < PAGE_SCALE
    ensures Pow2(k) < PAGE_SIZE && RegionSize(k) == PAGE_SIZE
  {
    PageScale();
    Pow2Grows(k, PAGE_SCALE - 1);
  }

  lemma BlocksFill(k: nat)
    ensures Times(BlockCount(k), Pow2(k)) == RegionSize(k)
  {
    TimesIsProduct(BlockCount(k), Pow2(k));
    PageScale();
    if k < PAGE_SCALE {
      Pow2Adds(PAGE_SCALE - k, k);
      Smaller(k);
    } else {
      Pow2Grows(PAGE_SCALE, k);
    }
  }

  lemma {:induction false} TimesGrows(i: nat, j: nat, size: nat)
    requires i < j
    ensures Times(i, size) + size <= Times(j, size)
  {
    if i < j - 1 { TimesGrows(i, j - 1, size); }
  }

  /** Blocks of a region lie in it, one after the other. */
  lemma BlocksApart(k: nat, base: Addr, i: nat, j: nat)
    requires i < j < BlockCount(k)
    ensures Blocks(k, base)[i] + Pow2(k) <= Blocks(k, base)[j]
  {
    TimesGrows(i, j, Pow2(k));
  }

  lemma BlocksInside(k: nat, base: Addr, i: nat)
    requires i < BlockCount(k)
    ensures base <= Blocks(k, base)[i] && Blocks(k, base)[i] + Pow2(k) <= base + RegionSize(k)
  {
    BlocksFill(k);
    TimesGrows(i, BlockCount(k), Pow2(k));
  }

  /** The links of a list built from its end. */
  function LinkAll(next: map<Addr, Addr>, l: seq<Addr>): map<Addr, Addr>
    decreases |l|
  {
    if l == [] then next else LinkAll(next, l[1..])[l[0] := if |l| > 1 then l[1] else 0]
  }

  lemma {:induction false} LinkAllElsewhere(next: map<Addr, Addr>, l: seq<Addr>, b: Addr)
    ensures b in LinkAll(next, l) <==> b in next || b in l
    ensures b in next && b !in l ==> LinkAll(next, l)[b] == next[b]
    decreases |l|
  {
    if l != [] { LinkAllElsewhere(next, l[1..], b); }
  }

  lemma {:induction false} LinkAllChain(next: map<Addr, Addr>, l: seq<Addr>)
    requires Distinct(l) && 0 !in l
    ensures Chain(LinkAll(next, l), if l == [] then 0 else l[0], l)
    decreases |l|
  {
    if l != [] {
      var r := LinkAll(next, l[1..]);
      LinkAllChain(next, l[1..]);
      ChainFrame(r, LinkAll(next, l), if |l| > 1 then l[1] else 0, l[1..]);
    }
  }

  /** Breaking up a page: from its end, every block but the first goes to the front of the list. */
  method SplitPage(next: map<Addr, Addr>, page: Addr, k: nat) returns (next': map<Addr, Addr>, head: Addr)
    requires k < PAGE_SCALE
    ensures var rest := Blocks(k, page)[1..];
            next' == LinkAll(next, rest) && head == if rest == [] then 0 else rest[0]
  {
    hide Pow2, LinkAll, BlockCount, Blocks;
    ghost var rest := Blocks(k, page)[1..];
    var size := Power(k);
    ghost var j: nat := |rest|;
    BlocksFill(k);
    Smaller(k);
    var offset: int := PAGE_SIZE - size;
    next', head := next, 0;
    Unlinked(next);
    assert rest[j..] == [];
    while offset > 0
      invariant 0 <= j <= |rest| && offset == Times(j, size)
      invariant next' == LinkAll(next, rest[j..]) && head == if j == |rest| then 0 else rest[j]
      decreases j
    {
      j := j - 1;
      var x := page + offset;
      Linked(next, rest, j);
      next', head := next'[x := head], x;
      offset := offset - size;
    }
    assert rest[0..] == rest;
  }

  lemma Unlinked(next: map<Addr, Addr>)
    ensures LinkAll(next, []) == next
  {}

  lemma Linked(next: map<Addr, Addr>, l: seq<Addr>, j: nat)
    requires j < |l|
    ensures LinkAll(next, l[j..]) == LinkAll(next, l[j + 1..])[l[j] := if j + 1 < |l| then l[j + 1] else 0]
  {}

  /** 1 << k. */
  method Power(k: nat) returns (r: nat)
    ensures r == Pow2(k)
  {
    r := 1;
    for i := 0 to k
      invariant r == Pow2(i)
    {
      r := 2 * r;
    }
  }

  // ----- a new page ------------------------------------------------------------------------------

  /** What `get_new_region` may return for blocks of scale k: aligned, and on pages that were never mapped. */
  ghost predicate FreshRegion(s: State, k: nat, base: Addr) {
    && base > 0 && (exists q: nat :: base == Times(q, RegionSize(k)))
    && forall x: nat {:trigger Page(x)} :: base <= x < base + RegionSize(k) ==> Page(x) !in s.mapped
  }

  ghost function Pages(base: Addr, size: nat): set<nat> { set x | base <= x < base + size :: Page(x) }

  /** The first block goes to the client, the others to the free list, which was empty. */
  ghost function TakePage(s: State, t: nat, base: Addr): State
    requires Shaped(s) && t < s.n && s.pc[t].NewPage? && s.pc[t].k <= MAX_SCALE
  {
    var k := s.pc[t].k;
    var rest := Blocks(k, base)[1..];
    Goto(s, t, Got(base)).(
      headers := s.headers[Page(base) := Header(t, k)],
      next := LinkAll(s.next[base := 0], rest),
      free := Put(s.free, t, k, if rest == [] then 0 else rest[0]),
      mapped := s.mapped + Pages(base, RegionSize(k)),
      lists := Put(s.lists, t, k, rest),
      place := (map b | b in s.place.Keys + (set b | b in rest) :: if b in rest then Free else s.place[b])[base := Held])
  }

  lemma {:induction false} OnPage(q: nat, k: nat)
    ensures Times(q, RegionSize(k)) % PAGE_SIZE == 0
  {
    hide Pow2, RegionSize;
    if q > 0 {
      OnPage(q - 1, k);
      RegionOnPage(k);
      SumOnPage(Times(q - 1, RegionSize(k)), RegionSize(k));
    }
  }

  lemma SumOnPage(a: nat, b: nat)
    requires a % PAGE_SIZE == b % PAGE_SIZE == 0
    ensures (a + b) % PAGE_SIZE == 0
  {}

  lemma RegionOnPage(k: nat)
    ensures RegionSize(k) % PAGE_SIZE == 0
  {
    PageScale();
    if k >= PAGE_SCALE {
      Pow2Adds(PAGE_SCALE, k - PAGE_SCALE);
      Pow2Grows(PAGE_SCALE, k);
      ProductOnPage(Pow2(k - PAGE_SCALE));
    } else {
      Smaller(k);
    }
  }

  lemma ProductOnPage(m: nat)
    ensures (PAGE_SIZE * m) % PAGE_SIZE == 0
  {}

  /** All blocks of the page share its header, and no other block lies there. */
  lemma NewBlock(s: State, k: nat, base: Addr, j: nat)
    requires FreshRegion(s, k, base) && j < BlockCount(k)
    ensures var b := Blocks(k, base)[j];
            && b > 0 && Page(b) == Page(base) && Page(b) !in s.mapped
            && forall x: nat {:trigger Page(x)} :: b <= x < b + Pow2(k) ==> Page(x) !in s.mapped && base <= x < base + RegionSize(k)
  {
    hide Pow2, Blocks;
    var q: nat :| base == Times(q, RegionSize(k));
    OnPage(q, k);
    BlocksInside(k, base, j);
    var b := Blocks(k, base)[j];
    if k < PAGE_SCALE {
      Smaller(k);
      SamePage(base, b - base);
    } else {
      assert BlockCount(k) == 1 && j == 0;
      assert Times(0, Pow2(k)) == 0;
    }
    assert Page(b) !in s.mapped;
  }

  lemma SamePage(base: Addr, offset: nat)
    requires base % PAGE_SIZE == 0 && offset < PAGE_SIZE
    ensures Page(base + offset) == Page(base)
  {}

  /** A block of old pages and a block of new ones do not overlap. */
  lemma OldNewApart(s: State, o: Addr, b: Addr, k: nat)
    requires HasHeader(s, o) && OnMapped(s, o)
    requires forall x: nat {:trigger Page(x)} :: b <= x < b + Pow2(k) ==> Page(x) !in s.mapped
    ensures o + Pow2(HeaderOf(s, o).scale) <= b || b + Pow2(k) <= o
  {
    var x := if o < b then b else o;
    assert Page(x) in s.mapped || Page(x) !in s.mapped;
  }

  lemma OldBlock(s: State, t: nat, base: Addr, o: Addr)
    requires Inv(s) && t < s.n && s.pc[t].NewPage? && s.pc[t].k <= MAX_SCALE && FreshRegion(s, s.pc[t].k, base) && o in s.place
    ensures var s' := TakePage(s, t, base);
            && HasHeader(s, o) && HasHeader(s', o) && HeaderOf(s', o) == HeaderOf(s, o)
            && o !in Blocks(s.pc[t].k, base) && o in s'.place && s'.place[o] == s.place[o]
            && o in s.next && o in s'.next && s'.next[o] == s.next[o]
  {
    hide FreeOk, QueueOk, PcOk, Put, Pow2, Chain;
    assert BlockOk(s, o);
    PageOfBlock(s, o);
    var k := s.pc[t].k;
    forall j | 0 <= j < BlockCount(k) ensures Blocks(k, base)[j] != o { NewBlock(s, k, base, j); }
    NewBlock(s, k, base, 0);
    assert Blocks(k, base)[0] == base;
    LinkAllElsewhere(s.next[base := 0], Blocks(k, base)[1..], o);
  }

  lemma PageOfBlock(s: State, o: Addr)
    requires MemoryOk(s) && o in s.place
    ensures HasHeader(s, o) && Page(o) in s.mapped
  {}

  lemma PageBlock(s: State, t: nat, base: Addr, b: Addr)
    requires Inv(s) && t < s.n && s.pc[t].NewPage? && MIN_SCALE <= s.pc[t].k <= MAX_SCALE && FreshRegion(s, s.pc[t].k, base)
    requires b in s.place || b in Blocks(s.pc[t].k, base)
    ensures BlockOk(TakePage(s, t, base), b)
  {
    hide FreeOk, QueueOk, PcOk, Put, Pow2, Chain, LinkAll, Page, BlockCount, FreshRegion, Apart;
    if b in s.place {
      OldBlock(s, t, base, b);
      assert BlockOk(s, b);
    } else {
      NewBlockOk(s, t, base, b);
    }
  }

  lemma NewBlockOk(s: State, t: nat, base: Addr, b: Addr)
    requires Shaped(s) && t < s.n && s.pc[t].NewPage? && MIN_SCALE <= s.pc[t].k <= MAX_SCALE
    requires FreshRegion(s, s.pc[t].k, base) && b in Blocks(s.pc[t].k, base)
    ensures BlockOk(TakePage(s, t, base), b)
  {
    var k := s.pc[t].k;
    var j := IndexOf(Blocks(k, base), b);
    NewBlock(s, k, base, j);
    hide FreshRegion, Pow2, Page, BlockCount, Blocks, Pages, RegionSize, TakePage;
    NewBlockPlaced(s, t, base, b);
    forall x: nat | base <= x < base + RegionSize(k) ensures Page(x) in Pages(base, RegionSize(k)) { InPages(base, RegionSize(k), x); }
  }

  lemma NewBlockPlaced(s: State, t: nat, base: Addr, b: Addr)
    requires Shaped(s) && t < s.n && s.pc[t].NewPage? && s.pc[t].k <= MAX_SCALE
    requires b in Blocks(s.pc[t].k, base) && Page(b) == Page(base)
    ensures var s' := TakePage(s, t, base);
            && b in s'.place && b in s'.next && HasHeader(s', b) && HeaderOf(s', b) == Header(t, s.pc[t].k)
            && s'.n == s.n && s'.mapped == s.mapped + Pages(base, RegionSize(s.pc[t].k))
  {
    hide Put, Pow2, LinkAll, Page, BlockCount, Blocks, Pages, RegionSize;
    var k := s.pc[t].k;
    LinkAllElsewhere(s.next[base := 0], Blocks(k, base)[1..], b);
    FirstBlock(k, base);
  }

  lemma InPages(base: Addr, size: nat, x: nat)
    requires base <= x < base + size
    ensures Page(x) in Pages(base, size)
  {}

  lemma PagePlaces(s: State, t: nat, base: Addr)
    requires Shaped(s) && MemoryOk(s) && t < s.n && s.pc[t].NewPage? && s.pc[t].k <= MAX_SCALE
    ensures var s' := TakePage(s, t, base);
            && (forall b :: b in s'.place <==> b in s.place || b in Blocks(s.pc[t].k, base))
            && (forall g :: g in s'.headers ==> g in s'.mapped)
            && Shaped(s') && s'.n == s.n
  {
    hide LinkAll, Pow2, BlockCount, Page, BlockOk;
    var k := s.pc[t].k;
    assert Blocks(k, base)[0] == base by { assert Times(0, Pow2(k)) == 0; }
    assert Page(base) in Pages(base, RegionSize(k));
  }

  lemma PageApart(s: State, t: nat, base: Addr, b: Addr, c: Addr)
    requires Inv(s) && t < s.n && s.pc[t].NewPage? && MIN_SCALE <= s.pc[t].k <= MAX_SCALE && FreshRegion(s, s.pc[t].k, base)
    requires (b in s.place || b in Blocks(s.pc[t].k, base)) && (c in s.place || c in Blocks(s.pc[t].k, base)) && b != c
    ensures var s' := TakePage(s, t, base); HasHeader(s', b) && HasHeader(s', c) && Apart(s', b, c)
  {
    hide FreeOk, QueueOk, PcOk, FreshRegion, BlockOk, TakePage;
    if b in s.place && c in s.place {
      OldBlock(s, t, base, b);
      OldBlock(s, t, base, c);
      assert Apart(s, b, c);
    } else if b in s.place {
      OldAndNew(s, t, base, b, c);
    } else if c in s.place {
      OldAndNew(s, t, base, c, b);
    } else {
      NewAndNew(s, t, base, b, c);
    }
  }

  lemma PageMemory(s: State, t: nat, base: Addr)
    requires Inv(s) && t < s.n && s.pc[t].NewPage? && MIN_SCALE <= s.pc[t].k <= MAX_SCALE && FreshRegion(s, s.pc[t].k, base)
    ensures MemoryOk(TakePage(s, t, base))
  {
    hide FreeOk, QueueOk, PcOk, FreshRegion, BlockOk, TakePage, Apart, HasHeader;
    var s' := TakePage(s, t, base);
    PagePlaces(s, t, base);
    forall b | b in s'.place ensures BlockOk(s', b) { PageBlock(s, t, base, b); }
    forall b, c | b in s'.place && c in s'.place && b != c ensures HasHeader(s', b) && HasHeader(s', c) && Apart(s', b, c) {
      PageApart(s, t, base, b, c);
    }
  }

  lemma IndexOf(l: seq<Addr>, b: Addr) returns (j: nat)
    requires b in l
    ensures j < |l| && l[j] == b
  {
    j :| j < |l| && l[j] == b;
  }

  lemma OldAndNew(s: State, t: nat, base: Addr, o: Addr, b: Addr)
    requires Inv(s) && t < s.n && s.pc[t].NewPage? && s.pc[t].k <= MAX_SCALE && FreshRegion(s, s.pc[t].k, base)
    requires o in s.place && b in Blocks(s.pc[t].k, base)
    ensures var s' := TakePage(s, t, base);
            HasHeader(s', o) && HasHeader(s', b) && Apart(s', o, b) && Apart(s', b, o)
  {
    hide FreeOk, QueueOk, PcOk, Put, Pow2, Chain, LinkAll, BlockCount;
    var k := s.pc[t].k;
    var j := IndexOf(Blocks(k, base), b);
    NewBlock(s, k, base, j);
    OldBlock(s, t, base, o);
    assert BlockOk(s, o);
    OldNewApart(s, o, b, k);
  }

  lemma NewAndNew(s: State, t: nat, base: Addr, b: Addr, c: Addr)
    requires Shaped(s) && t < s.n && s.pc[t].NewPage? && s.pc[t].k <= MAX_SCALE && FreshRegion(s, s.pc[t].k, base)
    requires b in Blocks(s.pc[t].k, base) && c in Blocks(s.pc[t].k, base) && b != c
    ensures var s' := TakePage(s, t, base);
            HasHeader(s', b) && HasHeader(s', c) && Apart(s', b, c)
  {
    hide Put, Pow2, Chain, LinkAll, BlockCount;
    var k := s.pc[t].k;
    var i := IndexOf(Blocks(k, base), b);
    var j := IndexOf(Blocks(k, base), c);
    NewBlock(s, k, base, i);
    NewBlock(s, k, base, j);
    if i < j { BlocksApart(k, base, i, j); } else { BlocksApart(k, base, j, i); }
  }

  lemma PageListed(s: State, t: nat, base: Addr, x: Addr)
    requires Inv(s) && t < s.n && s.pc[t].NewPage? && MIN_SCALE <= s.pc[t].k <= MAX_SCALE && FreshRegion(s, s.pc[t].k, base)
    ensures var s', rest := TakePage(s, t, base), Blocks(s.pc[t].k, base)[1..];
            && (forall u, k :: IsFree(s', x, u, k) <==> IsFree(s, x, u, k) || (x in rest && u == t && k == s.pc[t].k))
            && (forall p, c :: IsQueued(s', x, p, c) <==> IsQueued(s, x, p, c))
            && base !in rest
  {
    hide FreeOk, QueueOk, PcOk, Put, Pow2, Chain, LinkAll, BlockCount, FreshRegion, BlockOk, Page;
    var s', k := TakePage(s, t, base), s.pc[t].k;
    var all := Blocks(k, base);
    FirstBlock(k, base);
    PagePlaces(s, t, base);
    if x in s.place {
      OldBlock(s, t, base, x);
    } else if x in all {
      var j := IndexOf(all, x);
      NewBlock(s, k, base, j);
    }
  }

  lemma FirstBlock(k: nat, base: Addr)
    ensures var all := Blocks(k, base);
            all[0] == base && base !in all[1..] && Distinct(all[1..]) && (forall x :: x in all <==> x == base || x in all[1..])
  {
    hide Pow2, BlockCount, Blocks;
    var all := Blocks(k, base);
    assert all[0] == base by { assert Times(0, Pow2(k)) == 0; }
    forall i: nat, j: nat | i < j < |all| ensures all[i] < all[j] {
      BlocksApart(k, base, i, j);
      Positive(k);
    }
    assert all == [base] + all[1..];
  }

  lemma Positive(k: nat)
    ensures Pow2(k) > 0
  {}

  lemma PageFree(s: State, t: nat, base: Addr, u: nat, k: nat)
    requires Inv(s) && t < s.n && s.pc[t].NewPage? && MIN_SCALE <= s.pc[t].k <= MAX_SCALE && FreshRegion(s, s.pc[t].k, base)
    requires u < s.n && k <= MAX_SCALE
    ensures Shaped(TakePage(s, t, base)) && FreeOk(TakePage(s, t, base), u, k)
  {
    hide QueueOk, Pow2, Chain, LinkAll, BlockCount, FreshRegion, BlockOk, Page, Distinct, IsFree, MemoryOk;
    var s', rest := TakePage(s, t, base), Blocks(s.pc[t].k, base)[1..];
    PagePlaces(s, t, base);
    forall x ensures IsFree(s', x, u, k) <==> IsFree(s, x, u, k) || (x in rest && u == t && k == s.pc[t].k) {
      PageListed(s, t, base, x);
    }
    assert FreeOk(s, u, k) && PcOk(s, t);
    if u == t && k == s.pc[t].k {
      FirstBlock(k, base);
      assert 0 !in rest by { forall j | 0 <= j < |rest| ensures rest[j] != 0 { NewBlock(s, k, base, j + 1); } }
      LinkAllChain(s.next[base := 0], rest);
    } else {
      forall x | IsFree(s, x, u, k) ensures x in s.next && x in s'.next && s'.next[x] == s.next[x] { PlacedOld(s, x, u, k); OldBlock(s, t, base, x); }
      FreeFrame(s, s', u, k);
    }
  }

  lemma PlacedOld(s: State, x: Addr, u: nat, k: nat)
    requires IsFree(s, x, u, k) || IsQueued(s, x, u, k)
    ensures x in s.place
  {}

  lemma PageQueue(s: State, t: nat, base: Addr, p: nat, c: nat)
    requires Inv(s) && t < s.n && s.pc[t].NewPage? && MIN_SCALE <= s.pc[t].k <= MAX_SCALE && FreshRegion(s, s.pc[t].k, base)
    requires p < s.n && c < s.n
    ensures Shaped(TakePage(s, t, base)) && QueueOk(TakePage(s, t, base), p, c)
  {
    hide FreeOk, Pow2, Chain, LinkAll, BlockCount, FreshRegion, BlockOk, Distinct, IsQueued, MemoryOk, Blocks;
    var s' := TakePage(s, t, base);
    PagePlaces(s, t, base);
    forall x ensures IsQueued(s', x, p, c) <==> IsQueued(s, x, p, c) { PageListed(s, t, base, x); }
    assert QueueOk(s, p, c) && PcOk(s, p);
    forall x | IsQueued(s, x, p, c) ensures x in s.next && x in s'.next && s'.next[x] == s.next[x] { PlacedOld(s, x, p, c); OldBlock(s, t, base, x); }
    if s.pc[p].Advance? { OldBlock(s, t, base, s.pc[p].b); }
    QueueFrame(s, s', p, c);
  }

  lemma PagePc(s: State, t: nat, base: Addr, u: nat)
    requires Inv(s) && t < s.n && s.pc[t].NewPage? && MIN_SCALE <= s.pc[t].k <= MAX_SCALE && FreshRegion(s, s.pc[t].k, base)
    requires u < s.n
    ensures Shaped(TakePage(s, t, base)) && PcOk(TakePage(s, t, base), u)
  {
    hide FreeOk, QueueOk, Pow2, Chain, LinkAll, BlockCount, FreshRegion, MemoryOk, Blocks, Put;
    PagePlaces(s, t, base);
    assert PcOk(s, u);
    if Freeing(s.pc[u]) { OldBlock(s, t, base, s.pc[u].b); }
    if u != t { assert TakePage(s, t, base).lists[u] == s.lists[u]; }
  }

  lemma PageKeeps(s: State, t: nat, base: Addr)
    requires Inv(s) && t < s.n && s.pc[t].NewPage? && s.pc[t].k <= MAX_SCALE && FreshRegion(s, s.pc[t].k, base)
    ensures Inv(TakePage(s, t, base))
  {
    hide FreeOk, QueueOk, MemoryOk, TakePage, FreshRegion;
    assert PcOk(s, t);
    hide PcOk;
    var s' := TakePage(s, t, base);
    PagePlaces(s, t, base);
    PageMemory(s, t, base);
    forall u: nat | u < s.n ensures PcOk(s', u) { PagePc(s, t, base, u); }
    forall u: nat, k: nat | u < s.n && k <= MAX_SCALE ensures FreeOk(s', u, k) { PageFree(s, t, base, u, k); }
    forall p: nat, c: nat | p < s.n && c < s.n ensures QueueOk(s', p, c) { PageQueue(s, t, base, p, c); }
    forall x | x in s'.place ensures PlaceOk(s', x) { PagePlace(s, t, base, x); }
  }

  lemma PagePlace(s: State, t: nat, base: Addr, b: Addr)
    requires Inv(s) && t < s.n && s.pc[t].NewPage? && s.pc[t].k <= MAX_SCALE && FreshRegion(s, s.pc[t].k, base)
    requires b in TakePage(s, t, base).place && Shaped(TakePage(s, t, base))
    ensures PlaceOk(TakePage(s, t, base), b)
  {
    hide FreeOk, QueueOk, PcOk, Put, Pow2, Chain, LinkAll, BlockCount, FreshRegion, BlockOk, Page, Blocks;
    if b in s.place {
      OldBlock(s, t, base, b);
      assert PlaceOk(s, b);
    }
  }

  // ----- calls and runs --------------------------------------------------------------------------

  /** `nbd_malloc(size)` begins; a request above the largest scale is refused at once. */
  function CallMalloc(s: State, t: nat, size: nat): State
    requires t < |s.pc| && size != 1
  {
    Goto(s, t, if ScaleFor(size) > MAX_SCALE then Idle else Pop(ScaleFor(size), false))
  }

  /** `nbd_free(b)` of a block the client holds: an own block goes to the free list, a foreign one to its owner. */
  function CallFree(s: State, t: nat, b: Addr): State
    requires Shaped(s) && t < s.n && IsBlock(s, b)
  {
    if HeaderOf(s, b).owner == t then PushFree(s, t, b) else Goto(s, t, Clear(b)).(place := s.place[b := InHand(t)])
  }

  datatype Action =
    | Malloc(t: nat, size: nat)
    | FreeBlock(t: nat, b: Addr)
    | Run(t: nat)
    | Region(t: nat, base: Addr)
    | Return(t: nat)

  ghost predicate NextBy(s: State, a: Action, s': State) {
    && Shaped(s) && a.t < s.n
    && match a
       case Malloc(t, size) => s.pc[t].Idle? && size != 1 && s' == CallMalloc(s, t, size)
       case FreeBlock(t, b) => s.pc[t].Idle? && At(s, b, Held) && IsBlock(s, b) && s' == CallFree(s, t, b)
       case Run(t) => Pending(s.pc[t]) && Ready(s, t) && s' == Step(s, t)
       case Region(t, base) =>
         s.pc[t].NewPage? && s.pc[t].k <= MAX_SCALE && FreshRegion(s, s.pc[t].k, base) && s' == TakePage(s, t, base)
       case Return(t) => s.pc[t].Got? && s' == Goto(s, t, Idle)
  }

  ghost predicate Init(s: State) {
    && Shaped(s) && s.headers == map[] && s.next == map[] && s.place == map[] && s.mapped == {}
    && (forall t, k :: 0 <= t < s.n && 0 <= k <= MAX_SCALE ==> s.free[t][k] == 0 && s.lists[t][k] == [])
    && (forall p, c :: 0 <= p < s.n && 0 <= c < s.n ==> s.from[c][p] == 0 && s.queues[p][c] == [] && s.to[p][c] == Cell(c, p))
    && (forall t :: 0 <= t < s.n ==> s.pc[t] == Idle)
  }

  ghost predicate IsRun(run: seq<State>, actions: seq<Action>) {
    && |run| == |actions| + 1 && Init(run[0])
    && forall i :: 0 <= i < |actions| ==> NextBy(run[i], actions[i], run[i + 1])
  }

  lemma InitInv(s: State)
    requires Init(s)
    ensures Inv(s)
  {}

  /** A call or return that only moves the thread. */
  lemma GotoKeeps(s: State, t: nat, pc: Pc)
    requires Inv(s) && t < s.n && (s.pc[t].Idle? || s.pc[t].Got?)
    requires pc.Idle? || (pc.Pop? && MIN_SCALE <= pc.k <= MAX_SCALE)
    ensures Inv(Goto(s, t, pc))
  {
    hide Chain, Distinct;
    var s' := Goto(s, t, pc);
    MemoryFrame(s, s', 0);
    hide MemoryOk;
    forall u: nat | u < s.n ensures PcOk(s', u) { assert PcOk(s, u); }
    forall u: nat, k: nat | u < s.n && k <= MAX_SCALE ensures FreeOk(s', u, k) {
      assert FreeOk(s, u, k);
      assert forall x :: IsFree(s', x, u, k) <==> IsFree(s, x, u, k);
    }
    forall p: nat, c: nat | p < s.n && c < s.n ensures QueueOk(s', p, c) {
      assert QueueOk(s, p, c);
      assert forall x :: IsQueued(s', x, p, c) <==> IsQueued(s, x, p, c);
    }
    forall x | x in s'.place ensures PlaceOk(s', x) { assert PlaceOk(s, x); }
  }

  lemma FreeCallFree(s: State, t: nat, b: Addr, u: nat, k: nat)
    requires Inv(s) && t < s.n && s.pc[t].Idle? && At(s, b, Held) && IsBlock(s, b) && u < s.n && k <= MAX_SCALE
    ensures Shaped(CallFree(s, t, b)) && FreeOk(CallFree(s, t, b), u, k)
  {
    hide Chain, Put, MemoryOk, PcOk, QueueOk, Distinct;
    var s' := CallFree(s, t, b);
    assert FreeOk(s, u, k) && !IsFree(s, b, u, k);
    var mine := HeaderOf(s, b) == Header(t, k) && u == t;
    assert forall x :: IsFree(s', x, u, k) <==> IsFree(s, x, u, k) || (mine && x == b);
    if mine { FirstIn(s.next, s.free[t][k], s.lists[t][k], b); } else { FreeFrame(s, s', u, k); }
  }

  lemma FreeCallQueue(s: State, t: nat, b: Addr, p: nat, c: nat)
    requires Inv(s) && t < s.n && s.pc[t].Idle? && At(s, b, Held) && IsBlock(s, b) && p < s.n && c < s.n
    ensures Shaped(CallFree(s, t, b)) && QueueOk(CallFree(s, t, b), p, c)
  {
    hide Chain, Put, MemoryOk, PcOk, FreeOk, Distinct;
    var s' := CallFree(s, t, b);
    assert QueueOk(s, p, c);
    assert forall x :: IsQueued(s', x, p, c) <==> IsQueued(s, x, p, c);
    QueueFrame(s, s', p, c);
  }

  lemma FreeCallPc(s: State, t: nat, b: Addr, u: nat)
    requires Inv(s) && t < s.n && s.pc[t].Idle? && At(s, b, Held) && IsBlock(s, b) && u < s.n
    ensures Shaped(CallFree(s, t, b)) && PcOk(CallFree(s, t, b), u)
  {
    hide Chain, MemoryOk, FreeOk, QueueOk, Distinct;
    assert PcOk(s, u);
    var s' := CallFree(s, t, b);
    assert |s'.lists[u]| == |s.lists[u]| && (u != t ==> s'.lists[u] == s.lists[u]);
  }

  lemma FreeCallKeeps(s: State, t: nat, b: Addr)
    requires Inv(s) && t < s.n && s.pc[t].Idle? && At(s, b, Held) && IsBlock(s, b)
    ensures Inv(CallFree(s, t, b))
  {
    hide FreeOk, QueueOk, PcOk, MemoryOk, Put;
    var s' := CallFree(s, t, b);
    assert Moves(s, s', b);
    MemoryFrame(s, s', b);
    forall u: nat | u < s.n ensures PcOk(s', u) { FreeCallPc(s, t, b, u); }
    forall u: nat, k: nat | u < s.n && k <= MAX_SCALE ensures FreeOk(s', u, k) { FreeCallFree(s, t, b, u, k); }
    forall p: nat, c: nat | p < s.n && c < s.n ensures QueueOk(s', p, c) { FreeCallQueue(s, t, b, p, c); }
    forall x | x in s'.place ensures PlaceOk(s', x) { assert PlaceOk(s, x); }
  }

  lemma NextKeeps(s: State, a: Action, s': State)
    requires Inv(s) && NextBy(s, a, s')
    ensures Inv(s')
  {
    hide Inv, Step, TakePage, Ready, CallFree;
    match a {
      case Malloc(t, size) => GotoKeeps(s, t, if ScaleFor(size) > MAX_SCALE then Idle else Pop(ScaleFor(size), false));
      case FreeBlock(t, b) => FreeCallKeeps(s, t, b);
      case Run(t) => StepKeeps(s, t);
      case Region(t, base) => PageKeeps(s, t, base);
      case Return(t) => GotoKeeps(s, t, Idle);
    }
  }

  lemma {:induction false} RunKeeps(run: seq<State>, actions: seq<Action>, i: nat)
    requires IsRun(run, actions) && i < |run|
    ensures Inv(run[i])
  {
    hide Inv, NextBy;
    if i == 0 {
      InitInv(run[0]);
    } else {
      RunKeeps(run, actions, i - 1);
      NextKeeps(run[i - 1], actions[i - 1], run[i]);
    }
  }

  // ----- results ---------------------------------------------------------------------------------

  /** Conservation, over all runs: a block is with a client, on its owner's free list of its size, on one queue to its
      owner, or in the hands of the thread that is freeing it; always in one of these and never in two. */
  lemma OnePlace(run: seq<State>, actions: seq<Action>, i: nat, b: Addr, t: nat, k: nat, p: nat)
    requires IsRun(run, actions) && i < |run| && b in run[i].place && t < run[i].n && k <= MAX_SCALE && p < run[i].n && Shaped(run[i])
    ensures var s := run[i];
            && HasHeader(s, b)
            && Distinct(s.lists[t][k]) && (b in s.lists[t][k] <==> s.place[b] == Free && HeaderOf(s, b) == Header(t, k))
            && Distinct(s.queues[p][t]) && (b in s.queues[p][t] <==> s.place[b] == Queued(p) && HeaderOf(s, b).owner == t)
            && Chain(s.next, s.free[t][k], s.lists[t][k]) && Chain(s.next, HeadOf(s, p, t), s.queues[p][t])
            && ((s.pc[t].Clear? || s.pc[t].Append?) && s.pc[t].b == b <==> s.place[b] == InHand(t))
    ensures var s := run[i];
            var h := HeaderOf(s, b);
            && h.owner < s.n && h.scale <= MAX_SCALE
            && match s.place[b]
               case Held => true
               case Free => b in s.lists[h.owner][h.scale]
               case Queued(q) => q < s.n && b in s.queues[q][h.owner]
               case InHand(u) => u < s.n && (s.pc[u].Clear? || s.pc[u].Append?) && s.pc[u].b == b
  {
    RunKeeps(run, actions, i);
    var s := run[i];
    hide Chain, Distinct, OnMapped, Apart;
    assert BlockOk(s, b) && FreeOk(s, t, k) && QueueOk(s, p, t) && PlaceOk(s, b) && PcOk(s, t);
    var h := HeaderOf(s, b);
    assert s.place[b] == Free ==> IsFree(s, b, h.owner, h.scale) && FreeOk(s, h.owner, h.scale);
    assert s.place[b].Queued? ==> IsQueued(s, b, s.place[b].p, h.owner) && QueueOk(s, s.place[b].p, h.owner);
    assert IsFree(s, b, t, k) <==> s.place[b] == Free && HeaderOf(s, b) == Header(t, k);
    assert IsQueued(s, b, p, t) <==> s.place[b] == Queued(p) && HeaderOf(s, b).owner == t;
  }

  /** Over all runs: no two live blocks share a byte. */
  lemma LiveBlocksApart(run: seq<State>, actions: seq<Action>, i: nat, b: Addr, c: Addr, x: nat)
    requires IsRun(run, actions) && i < |run| && b in run[i].place && c in run[i].place && b != c
    ensures var s := run[i];
            && HasHeader(s, b) && HasHeader(s, c)
            && !(b <= x < b + Pow2(HeaderOf(s, b).scale) && c <= x < c + Pow2(HeaderOf(s, c).scale))
  {
    RunKeeps(run, actions, i);
    assert BlockOk(run[i], b) && BlockOk(run[i], c) && Apart(run[i], b, c);
  }

  /** `nbd_malloc` hands out a block of the scale that was asked for which no client held, and takes none away. */
  lemma HandsOutUnheld(s: State, a: Action, s': State, x: Addr)
    requires Inv(s) && NextBy(s, a, s') && (a.Run? || a.Region?) && s'.pc[a.t].Got?
    ensures var b := s'.pc[a.t].b;
            && (s.pc[a.t].Pop? || s.pc[a.t].NewPage?) && HasHeader(s', b) && HeaderOf(s', b) == Header(a.t, s.pc[a.t].k)
            && !At(s, b, Held) && (At(s', x, Held) <==> At(s, x, Held) || x == b)
  {
    hide Chain, Distinct, QueueOk;
    var t, b := a.t, s'.pc[a.t].b;
    if a.Region? {
      NewPageUnheld(s, t, a.base, x);
    } else {
      var k := s.pc[t].k;
      assert FreeOk(s, t, k);
      FirstOut(s.next, b, s.lists[t][k]);
      assert b in s.lists[t][k];
      assert IsFree(s, b, t, k);
    }
  }

  lemma NewPageUnheld(s: State, t: nat, base: Addr, x: Addr)
    requires Inv(s) && t < s.n && s.pc[t].NewPage? && s.pc[t].k <= MAX_SCALE && FreshRegion(s, s.pc[t].k, base)
    ensures var s' := TakePage(s, t, base);
            && HasHeader(s', base) && HeaderOf(s', base) == Header(t, s.pc[t].k) && base !in s.place
            && (At(s', x, Held) <==> At(s, x, Held) || x == base)
  {
    hide FreeOk, QueueOk, Put, Pow2, Chain, LinkAll, BlockCount, BlockOk, Page, FreshRegion;
    assert PcOk(s, t);
    FirstBlock(s.pc[t].k, base);
    PagePlaces(s, t, base);
    if base in s.place { OldBlock(s, t, base, base); }
    if x in s.place { OldBlock(s, t, base, x); }
  }

  /** The same over all runs. */
  lemma RunHandsOutUnheld(run: seq<State>, actions: seq<Action>, i: nat, x: Addr)
    requires IsRun(run, actions) && i < |actions| && (actions[i].Run? || actions[i].Region?)
    requires actions[i].t < |run[i + 1].pc| && run[i + 1].pc[actions[i].t].Got?
    ensures var s, t, s' := run[i], actions[i].t, run[i + 1];
            var b := s'.pc[t].b;
            && t < |s.pc| && (s.pc[t].Pop? || s.pc[t].NewPage?) && HasHeader(s', b) && HeaderOf(s', b) == Header(t, s.pc[t].k)
            && !At(s, b, Held) && (At(s', x, Held) <==> At(s, x, Held) || x == b)
  {
    hide Inv, Step, TakePage, Ready;
    RunKeeps(run, actions, i);
    assert NextBy(run[i], actions[i], run[i + 1]);
    HandsOutUnheld(run[i], actions[i], run[i + 1], x);
  }

  /** A pending call is never stuck: in every state of every run its next step is possible. */
  lemma PendingCanStep(run: seq<State>, actions: seq<Action>, i: nat, t: nat)
    requires IsRun(run, actions) && i < |run| && t < |run[i].pc| && Pending(run[i].pc[t])
    ensures Ready(run[i], t) && NextBy(run[i], Run(t), Step(run[i], t))
  {
    hide Step;
    RunKeeps(run, actions, i);
    IsReady(run[i], t);
  }

  /** t is serving a request for blocks of scale k, or has just got one. */
  ghost predicate Serves(s: State, t: nat, k: nat) {
    && t < |s.pc|
    && match s.pc[t]
       case Pop(x, _) => x == k
       case Load(x, _) => x == k
       case Look(x, _, _) => x == k
       case Move(x, _, _, _) => x == k
       case Leave(x, _, _) => x == k
       case NewPage(x) => x == k
       case Got(b) => HasHeader(s, b) && HeaderOf(s, b) == Header(t, k)
       case _ => false
  }

  /** A header that was written stays. */
  lemma HeadersStay(s: State, a: Action, s': State, b: Addr)
    requires Inv(s) && NextBy(s, a, s') && HasHeader(s, b)
    ensures HasHeader(s', b) && HeaderOf(s', b) == HeaderOf(s, b)
  {
    hide FreeOk, QueueOk, PcOk, Put, Pow2, Chain, LinkAll, BlockOk, Apart;
    if a.Region? { RegionIsNew(s, s.pc[a.t].k, a.base); }
  }

  lemma RegionIsNew(s: State, k: nat, base: Addr)
    requires FreshRegion(s, k, base)
    ensures Page(base) !in s.mapped
  {
    hide Pow2;
    Positive(k);
  }

  lemma OthersServe(s: State, a: Action, s': State, t: nat, k: nat)
    requires Inv(s) && NextBy(s, a, s') && Serves(s, t, k) && a.t != t
    ensures Serves(s', t, k)
  {
    hide Inv, NextBy;
    OtherPcStays(s, a, s', t);
    if s.pc[t].Got? { HeadersStay(s, a, s', s.pc[t].b); }
  }

  lemma OtherPcStays(s: State, a: Action, s': State, t: nat)
    requires NextBy(s, a, s') && a.t != t && t < |s.pc|
    ensures |s'.pc| == |s.pc| && s'.pc[t] == s.pc[t]
  {
    hide Put, Step, TakePage, Chain, IsBlock, HeaderOf, HasHeader;
    match a {
      case Run(u) => OtherLists(s, u, t);
      case Region(u, base) => PagePcs(s, u, base);
      case _ =>
    }
  }

  lemma PagePcs(s: State, t: nat, base: Addr)
    requires Shaped(s) && t < s.n && s.pc[t].NewPage? && s.pc[t].k <= MAX_SCALE
    ensures TakePage(s, t, base).pc == s.pc[t := Got(base)]
  {
    hide Put, LinkAll, Pow2, Blocks, Pages, BlockCount;
  }

  lemma OwnServes(s: State, a: Action, s': State, k: nat)
    requires Inv(s) && NextBy(s, a, s') && Serves(s, a.t, k) && a.t < |s'.pc| && !s'.pc[a.t].Idle?
    ensures Serves(s', a.t, k)
  {
    hide Inv, Step, TakePage, CallFree, Ready;
    match a {
      case Run(t) => if s'.pc[t].Got? { HandsOutUnheld(s, a, s', 0); } else { RunServes(s, t, k); }
      case Region(t, base) =>
        PagePcs(s, t, base);
        HandsOutUnheld(s, a, s', 0);
      case _ =>
    }
  }

  lemma RunServes(s: State, t: nat, k: nat)
    requires Ready(s, t) && Pending(s.pc[t]) && Serves(s, t, k) && t < |Step(s, t).pc| && !Step(s, t).pc[t].Got?
    ensures Serves(Step(s, t), t, k)
  {
    hide Put, HasHeader, HeaderOf;
  }

  lemma {:induction false} ServesOn(run: seq<State>, actions: seq<Action>, i: nat, j: nat, t: nat, size: nat)
    requires IsRun(run, actions) && i < j < |run| && actions[i] == Malloc(t, size) && size >= 2
    requires forall x :: i < x <= j ==> t < |run[x].pc| && !run[x].pc[t].Idle?
    ensures Serves(run[j], t, ScaleFor(size))
  {
    hide Inv, Serves, Step, TakePage, CallFree;
    if j == i + 1 {
      assert NextBy(run[i], actions[i], run[j]);
      CallServes(run[i], t, size);
    } else {
      ServesOn(run, actions, i, j - 1, t, size);
      RunKeeps(run, actions, j - 1);
      var a := actions[j - 1];
      assert NextBy(run[j - 1], a, run[j]);
      hide NextBy;
      if a.t == t { OwnServes(run[j - 1], a, run[j], ScaleFor(size)); }
      else { OthersServe(run[j - 1], a, run[j], t, ScaleFor(size)); }
    }
  }

  lemma CallServes(s: State, t: nat, size: nat)
    requires t < |s.pc| && size != 1 && !CallMalloc(s, t, size).pc[t].Idle?
    ensures Serves(CallMalloc(s, t, size), t, ScaleFor(size))
  {}

  /** Over all runs: the block a request of at least 2 bytes gets is large enough, whatever happens meanwhile. */
  lemma RequestsAreMet(run: seq<State>, actions: seq<Action>, i: nat, j: nat, t: nat, size: nat)
    requires IsRun(run, actions) && i < j < |run| && actions[i] == Malloc(t, size) && size >= 2
    requires forall x :: i < x <= j ==> t < |run[x].pc| && !run[x].pc[t].Idle?
    requires run[j].pc[t].Got?
    ensures var b := run[j].pc[t].b;
            HasHeader(run[j], b) && HeaderOf(run[j], b).owner == t && Pow2(HeaderOf(run[j], b).scale) >= size
  {
    hide Pow2;
    ServesOn(run, actions, i, j, t, size);
    BlockLargeEnough(size);
  }

  /** Which requests `nbd_malloc` serves. */
  lemma ServedSizes(size: nat)
    requires size != 1
    ensures ScaleFor(size) <= MAX_SCALE <==> 2 <= size <= Pow2(MAX_SCALE)
  {
    hide Pow2;
    if size >= 2 {
      BlockLargeEnough(size);
      if ScaleFor(size) <= MAX_SCALE { Pow2Grows(ScaleFor(size), MAX_SCALE); } else { Pow2Grows(MAX_SCALE, ScaleFor(size) - 1); }
    }
  }

  /** A request is served, and until its block is returned the thread is busy with it, with a block large enough once it has
      one: from 2 bytes to the largest block, over all runs. */
  lemma {:induction false} RequestIsServed(run: seq<State>, actions: seq<Action>, i: nat, j: nat, t: nat, size: nat)
    requires IsRun(run, actions) && i < j < |run| && actions[i] == Malloc(t, size) && 2 <= size <= Pow2(MAX_SCALE)
    ensures Pow2(ScaleFor(size)) >= size
    ensures Serves(run[j], t, ScaleFor(size))
            || exists x :: i < x < j && actions[x] == Return(t) && t < |run[x].pc| && run[x].pc[t].Got?
  {
    hide Inv, Serves, Step, TakePage, CallFree, Pow2;
    ServedSizes(size);
    BlockLargeEnough(size);
    var k := ScaleFor(size);
    if j == i + 1 {
      assert NextBy(run[i], actions[i], run[j]);
      CallServes(run[i], t, size);
    } else {
      RequestIsServed(run, actions, i, j - 1, t, size);
      RunKeeps(run, actions, j - 1);
      var a := actions[j - 1];
      assert NextBy(run[j - 1], a, run[j]);
      hide NextBy;
      if Serves(run[j - 1], t, k) {
        if a.t != t { OthersServe(run[j - 1], a, run[j], t, k); } else { ServesOrReturns(run[j - 1], a, run[j], k); }
      }
    }
  }

  lemma ServesOrReturns(s: State, a: Action, s': State, k: nat)
    requires Inv(s) && NextBy(s, a, s') && Serves(s, a.t, k)
    ensures Serves(s', a.t, k) || (a.Return? && a.t < |s.pc| && s.pc[a.t].Got?)
  {
    hide Inv, Step, TakePage, CallFree, Ready;
    match a {
      case Run(t) =>
        StepPcs(s, t);
        if s'.pc[t].Got? { OwnServes(s, a, s', k); } else { RunServes(s, t, k); }
      case Region(t, base) =>
        PagePcs(s, t, base);
        OwnServes(s, a, s', k);
      case _ =>
    }
  }

  lemma StepPcs(s: State, t: nat)
    requires Ready(s, t) && Pending(s.pc[t])
    ensures |Step(s, t).pc| == |s.pc|
  {
    hide Put, HasHeader, HeaderOf;
  }

  /** Any other request, of 0 bytes or above the largest block, is refused at once and changes nothing. */
  lemma RequestIsRefused(run: seq<State>, actions: seq<Action>, i: nat, t: nat, size: nat)
    requires IsRun(run, actions) && i < |actions| && actions[i] == Malloc(t, size) && !(2 <= size <= Pow2(MAX_SCALE))
    ensures t < |run[i].pc| && run[i].pc[t].Idle? && run[i + 1] == run[i]
  {
    hide Pow2, ScaleFor;
    assert NextBy(run[i], actions[i], run[i + 1]);
    ServedSizes(size);
    assert run[i].pc[t := Idle] == run[i].pc;
  }

  /** Where a step leaves a block: the client gives it up with `nbd_free`, to the free list of its owner or into its own
      hand; from there it goes on the queue to the owner, who moves it to its free list and hands it out again. */
  ghost function PlaceAfter(s: State, a: Action, b: Addr): Place
    requires b in s.place && a.t < |s.pc| && HasHeader(s, b)
  {
    var pc := s.pc[a.t];
    if a == FreeBlock(a.t, b) then if HeaderOf(s, b).owner == a.t then Free else InHand(a.t)
    else if a.Run? && pc == Append(b) then Queued(a.t)
    else if a.Run? && pc.Move? && pc.b == b then Free
    else if a.Run? && pc.Pop? && HeaderOf(s, b) == Header(a.t, pc.k) && FirstFree(s, a.t, pc.k) == b then Held
    else s.place[b]
  }

  ghost function FirstFree(s: State, t: nat, k: nat): Addr {
    if t < |s.free| && k < |s.free[t]| then s.free[t][k] else 0
  }

  lemma LifeCycle(s: State, a: Action, s': State, b: Addr)
    requires Inv(s) && NextBy(s, a, s') && b in s.place
    ensures HasHeader(s, b) && a.t < |s.pc| && b in s'.place && s'.place[b] == PlaceAfter(s, a, b)
  {
    hide Chain, Distinct, QueueOk, PcOk, Put, OnMapped, Apart;
    assert BlockOk(s, b);
    if a.Region? {
      hide Inv, TakePage;
      OldBlock(s, a.t, a.base, b);
    } else if a.Run? {
      hide Step;
      RunPlace(s, a.t, b);
    }
  }

  lemma RunPlace(s: State, t: nat, b: Addr)
    requires Inv(s) && Ready(s, t) && Pending(s.pc[t]) && b in s.place && HasHeader(s, b)
    ensures b in Step(s, t).place && Step(s, t).place[b] == PlaceAfter(s, Run(t), b)
  {
    hide Chain, Distinct, QueueOk, PcOk, Put, OnMapped, Apart;
    assert BlockOk(s, b);
    if s.pc[t].Pop? && s.free[t][s.pc[t].k] == b {
      assert FreeOk(s, t, s.pc[t].k);
      FirstListed(s.next, b, s.lists[t][s.pc[t].k]);
      assert IsFree(s, b, t, s.pc[t].k);
    }
  }

  lemma FirstListed(next: map<Addr, Addr>, h: Addr, l: seq<Addr>)
    requires Chain(next, h, l) && h != 0
    ensures h in l
  {}

  /** The same over all runs, with the blocks that appear: those of a new region, the first one handed out. */
  lemma RunLifeCycle(run: seq<State>, actions: seq<Action>, i: nat, b: Addr)
    requires IsRun(run, actions) && i < |actions|
    ensures var s, a, s' := run[i], actions[i], run[i + 1];
            && a.t < |s.pc|
            && if b in s.place then HasHeader(s, b) && b in s'.place && s'.place[b] == PlaceAfter(s, a, b)
               else if a.Region? && s.pc[a.t].NewPage? && b in Blocks(s.pc[a.t].k, a.base) then
                 b in s'.place && s'.place[b] == (if b == a.base then Held else Free)
               else b !in s'.place
  {
    hide Inv, Step, TakePage, Ready, Blocks, FreshRegion;
    RunKeeps(run, actions, i);
    var s, a := run[i], actions[i];
    assert NextBy(s, a, run[i + 1]);
    if b in s.place { LifeCycle(s, a, run[i + 1], b); }
    else if a.Region? { RegionPlaces(s, a.t, a.base, b); }
    else { NoNewBlock(s, a, run[i + 1]); }
  }

  lemma NoNewBlock(s: State, a: Action, s': State)
    requires Inv(s) && NextBy(s, a, s') && !a.Region?
    ensures s'.place.Keys == s.place.Keys
  {
    hide Chain, Distinct, FreeOk, QueueOk, PcOk, Put, MemoryOk;
    if a.Run? {
      IsReady(s, a.t);
      StepMoves(s, a.t);
    }
  }

  lemma RegionPlaces(s: State, t: nat, base: Addr, b: Addr)
    requires Shaped(s) && t < s.n && s.pc[t].NewPage? && s.pc[t].k <= MAX_SCALE && b !in s.place
    ensures var s', all := TakePage(s, t, base), Blocks(s.pc[t].k, base);
            if b in all then b in s'.place && s'.place[b] == (if b == base then Held else Free) else b !in s'.place
  {
    hide Put, LinkAll, Pow2, Blocks, Pages, BlockCount, Page;
    FirstBlock(s.pc[t].k, base);
  }

  // A new page is taken only after the queues were drained.

  /** From which producers a call of `nbd_malloc` has taken the blocks that came in. */
  function DrainedTo(pc: Pc, n: nat): nat {
    match pc
    case Pop(_, again) => if again then n else 0
    case Load(_, p) => p
    case Look(_, p, _) => p
    case Move(_, p, _, _) => p
    case Leave(_, p, _) => p + 1
    case NewPage(_) => n
    case _ => 0
  }

  lemma LoadFoundNone(s: State, t: nat)
    requires Inv(s) && t < s.n && s.pc[t].Load? && s.pc[t].p < s.n && s.from[t][s.pc[t].p] == 0
    ensures s.queues[s.pc[t].p][t] == []
  {
    hide MemoryOk, FreeOk, PcOk, Distinct;
    assert QueueOk(s, s.pc[t].p, t);
  }

  lemma LookFoundLast(s: State, t: nat)
    requires Inv(s) && t < s.n && s.pc[t].Look? && s.pc[t].p < s.n && s.pc[t].b in s.next && s.next[s.pc[t].b] == 0
    ensures |s.queues[s.pc[t].p][t]| <= 1
  {
    hide MemoryOk, FreeOk, PcOk;
    var q := s.queues[s.pc[t].p][t];
    assert QueueOk(s, s.pc[t].p, t);
    if |q| >= 1 { FirstOut(s.next, s.pc[t].b, q); }
  }

  lemma DrainStep(s: State, t: nat, p: nat)
    requires Inv(s) && Ready(s, t) && Pending(s.pc[t]) && t < |Step(s, t).pc|
    requires DrainedTo(s.pc[t], s.n) <= p < DrainedTo(Step(s, t).pc[t], s.n) && p < s.n
    ensures |s.queues[p][t]| <= 1
  {
    if s.pc[t].Load? {
      hide Inv, Put;
      LoadFoundNone(s, t);
    } else if s.pc[t].Look? {
      hide Inv, Put;
      LookFoundLast(s, t);
    } else {
      hide Inv, Step, DrainedTo;
      DrainsNothing(s, t);
    }
  }

  lemma DrainsNothing(s: State, t: nat)
    requires Ready(s, t) && Pending(s.pc[t]) && !s.pc[t].Load? && !s.pc[t].Look? && t < |Step(s, t).pc|
    ensures DrainedTo(Step(s, t).pc[t], s.n) <= DrainedTo(s.pc[t], s.n)
  {
    hide Put, HasHeader, HeaderOf;
  }

  /** In state x at most the block that is always left behind was on the queue from p to t. */
  ghost predicate WasDrained(run: seq<State>, i: nat, j: nat, x: nat, p: nat, t: nat) {
    i < x < j <= |run| && p < |run[x].queues| && t < |run[x].queues[p]| && |run[x].queues[p][t]| <= 1
  }

  /** Over all runs: when a call of `nbd_malloc` is about to map a new page, its free list is empty and each of the queues to
      it was down to one block at some moment inside the call. */
  lemma {:induction false} DrainedBeforeNewPage(run: seq<State>, actions: seq<Action>, i: nat, j: nat, t: nat, size: nat, p: nat)
    requires IsRun(run, actions) && i < j < |run| && actions[i] == Malloc(t, size)
    requires forall x :: i < x <= j ==> t < |run[x].pc| && !run[x].pc[t].Idle?
    requires p < run[j].n && p < DrainedTo(run[j].pc[t], run[j].n)
    ensures run[j].pc[t].NewPage? ==> Shaped(run[j]) && run[j].pc[t].k <= MAX_SCALE && run[j].lists[t][run[j].pc[t].k] == []
    ensures exists x: nat :: WasDrained(run, i, j, x, p, t)
  {
    hide Inv, NextBy, DrainedTo, Shaped;
    RunKeeps(run, actions, j);
    PageIsNeeded(run[j], t);
    if j == i + 1 {
      assert NextBy(run[i], actions[i], run[j]);
      BeginsUndrained(run[i], t, size, run[j]);
    } else {
      RunKeeps(run, actions, j - 1);
      var s, a := run[j - 1], actions[j - 1];
      assert NextBy(s, a, run[j]);
      DrainNext(s, a, run[j], t, p);
      if p < DrainedTo(s.pc[t], s.n) {
        DrainedBeforeNewPage(run, actions, i, j - 1, t, size, p);
        var x: nat :| WasDrained(run, i, j - 1, x, p, t);
        assert WasDrained(run, i, j, x, p, t);
      } else {
        assert WasDrained(run, i, j, j - 1, p, t);
      }
    }
  }

  lemma PageIsNeeded(s: State, t: nat)
    requires Inv(s) && t < |s.pc|
    ensures Shaped(s) && (s.pc[t].NewPage? ==> s.pc[t].k <= MAX_SCALE && s.lists[t][s.pc[t].k] == [])
  {
    assert PcOk(s, t);
  }

  lemma BeginsUndrained(s: State, t: nat, size: nat, s': State)
    requires NextBy(s, Malloc(t, size), s')
    ensures s'.n == s.n && t < |s'.pc| && DrainedTo(s'.pc[t], s'.n) == 0
  {}

  lemma DrainNext(s: State, a: Action, s': State, t: nat, p: nat)
    requires Inv(s) && NextBy(s, a, s') && t < |s.pc| && t < |s'.pc| && p < s'.n && p < DrainedTo(s'.pc[t], s'.n)
    requires !s.pc[t].Idle?
    ensures s'.n == s.n && p < |s.queues| && t < |s.queues[p]| && (p < DrainedTo(s.pc[t], s.n) || |s.queues[p][t]| <= 1)
  {
    hide Inv, Step, TakePage, Ready;
    CountStays(s, a, s');
    if a.t != t {
      OtherPcStays(s, a, s', t);
    } else if a.Run? {
      if p >= DrainedTo(s.pc[t], s.n) { DrainStep(s, t, p); }
    } else if a.Region? {
      PagePcs(s, t, a.base);
    }
  }

  lemma CountStays(s: State, a: Action, s': State)
    requires NextBy(s, a, s')
    ensures s'.n == s.n && Shaped(s)
  {
    hide Put, Chain, LinkAll, FreshRegion, Pow2;
  }

  // A call that runs alone ends.

  /** How far a call is from its end: the stage, the queues left, the blocks left on the current one, and the statement. */
  function Left(s: State, t: nat): (nat, nat, nat, nat)
    requires Shaped(s) && t < s.n
  {
    match s.pc[t]
    case Pop(_, again) => (if again then 1 else 3, 0, 0, 0)
    case Load(_, p) => (2, if p <= s.n then 2 * (s.n - p) + 1 else 0, 0, 0)
    case Look(_, p, _) => (2, if p < s.n then 2 * (s.n - p) else 0, if p < s.n then |s.queues[p][t]| else 0, 2)
    case Move(_, p, _, _) => (2, if p < s.n then 2 * (s.n - p) else 0, if p < s.n then |s.queues[p][t]| else 0, 1)
    case Leave(_, p, _) => (2, if p < s.n then 2 * (s.n - p) else 0, if p < s.n then |s.queues[p][t]| else 0, 0)
    case Clear(_) => (3, 0, 0, 0)
    case Append(_) => (2, 0, 0, 0)
    case Advance(_) => (1, 0, 0, 0)
    case _ => (0, 0, 0, 0)
  }

  predicate Less(a: (nat, nat, nat, nat), b: (nat, nat, nat, nat)) {
    a.0 < b.0 || (a.0 == b.0 && (a.1 < b.1 || (a.1 == b.1 && (a.2 < b.2 || (a.2 == b.2 && a.3 < b.3)))))
  }

  lemma StepLeft(s: State, t: nat)
    requires Ready(s, t) && Pending(s.pc[t]) && Shaped(Step(s, t)) && Step(s, t).n == s.n
    ensures Less(Left(Step(s, t), t), Left(s, t))
  {
    hide Step, Left, Less;
    if Freeing(s.pc[t]) { FreeLeft(s, t); }
    else if s.pc[t].Move? { MoveLeft(s, t); }
    else if s.pc[t].Load? { LoadLeft(s, t); }
    else { DrainLeft(s, t); }
  }

  lemma LoadLeft(s: State, t: nat)
    requires Ready(s, t) && s.pc[t].Load? && Shaped(Step(s, t)) && Step(s, t).n == s.n
    ensures Less(Left(Step(s, t), t), Left(s, t))
  {
    hide HasHeader, HeaderOf, Put;
  }

  lemma FreeLeft(s: State, t: nat)
    requires Ready(s, t) && Freeing(s.pc[t]) && Shaped(Step(s, t)) && Step(s, t).n == s.n
    ensures Less(Left(Step(s, t), t), Left(s, t))
  {
    hide HasHeader, HeaderOf, Put;
  }

  lemma MoveLeft(s: State, t: nat)
    requires Ready(s, t) && s.pc[t].Move? && Shaped(Step(s, t)) && Step(s, t).n == s.n
    ensures Less(Left(Step(s, t), t), Left(s, t))
  {
    hide HasHeader, HeaderOf;
  }

  lemma DrainLeft(s: State, t: nat)
    requires Ready(s, t) && (s.pc[t].Pop? || s.pc[t].Look? || s.pc[t].Leave?) && Shaped(Step(s, t)) && Step(s, t).n == s.n
    ensures Less(Left(Step(s, t), t), Left(s, t))
  {
    hide HasHeader, HeaderOf, Put;
  }

  /** In every reachable state a step of t alone brings its call nearer to its end, or to asking the system for a region. */
  lemma Nears(s: State, t: nat)
    requires Inv(s) && t < s.n && Pending(s.pc[t])
    ensures Ready(s, t) && Shaped(Step(s, t)) && Step(s, t).n == s.n && Less(Left(Step(s, t), t), Left(s, t))
  {
    hide Inv, Step, Left, Less;
    IsReady(s, t);
    StepMoves(s, t);
    StepLeft(s, t);
  }

  /** No block ever disappears. */
  lemma {:induction false} BlocksStay(run: seq<State>, actions: seq<Action>, i: nat, j: nat)
    requires IsRun(run, actions) && i <= j < |run|
    ensures run[i].place.Keys <= run[j].place.Keys
  {
    hide NextBy;
    if i < j {
      BlocksStay(run, actions, i, j - 1);
      PlacesGrow(run[j - 1], actions[j - 1], run[j]);
    }
  }

  lemma PlacesGrow(s: State, a: Action, s': State)
    requires NextBy(s, a, s')
    ensures s.place.Keys <= s'.place.Keys
  {
    hide Put, Chain, LinkAll, FreshRegion, Pow2;
  }

  /** The link the next step of t writes, if any. */
  function Writes(s: State, t: nat): (l: seq<Loc>)
    requires Ready(s, t)
  {
    match s.pc[t]
    case Clear(b) => [Block(b)]
    case Append(b) => [s.to[t][HeaderOf(s, b).owner]]
    case Move(_, _, b, _) => [Block(b)]
    case Leave(_, p, _) => [Cell(t, p)]
    case _ => []
  }

  /** Producers and consumers never write the same link: the block left behind keeps them apart. */
  lemma NoCommonLink(s: State, t: nat, u: nat)
    requires Inv(s) && Ready(s, t) && Ready(s, u) && t != u && Writes(s, t) != []
    ensures Writes(s, t) != Writes(s, u)
  {
    hide Chain, MemoryOk, FreeOk;
    assert PcOk(s, t) && PcOk(s, u);
    WhatIsWritten(s, t);
    WhatIsWritten(s, u);
    if Writes(s, u) != [] && s.pc[t].Append? && s.pc[u].Move? { LastIsNotFirst(s, t, u); }
    if Writes(s, u) != [] && s.pc[u].Append? && s.pc[t].Move? { LastIsNotFirst(s, u, t); }
    if s.pc[t].Append? && s.pc[u].Leave? { CellIsPassed(s, t, u); }
    if s.pc[u].Append? && s.pc[t].Leave? { CellIsPassed(s, u, t); }
  }

  /** The same over all runs. */
  lemma RunNoCommonLink(run: seq<State>, actions: seq<Action>, i: nat, t: nat, u: nat)
    requires IsRun(run, actions) && i < |run| && t < |run[i].pc| && u < |run[i].pc| && t != u
    ensures Ready(run[i], t) && Ready(run[i], u) && (Writes(run[i], t) != [] ==> Writes(run[i], t) != Writes(run[i], u))
  {
    hide FreeOk, QueueOk, PcOk, MemoryOk, Writes;
    RunKeeps(run, actions, i);
    IsReady(run[i], t);
    IsReady(run[i], u);
    if Writes(run[i], t) != [] { NoCommonLink(run[i], t, u); }
  }

  /** The written link belongs to a block whose place and owner tell who writes it, or to the cell of a queue. */
  lemma WhatIsWritten(s: State, t: nat)
    requires Inv(s) && Ready(s, t)
    ensures match s.pc[t]
            case Clear(b) => At(s, b, InHand(t))
            case Append(b) =>
              var c := HeaderOf(s, b).owner;
              var q := s.queues[t][c];
              c != t && s.to[t][c] == EndOf(q, t, c) && (q != [] ==> IsQueued(s, q[|q| - 1], t, c))
            case Move(_, p, b, _) => IsQueued(s, b, p, t)
            case _ => true
  {
    hide Chain, MemoryOk, FreeOk;
    assert PcOk(s, t);
    match s.pc[t] {
      case Append(b) =>
        var c := HeaderOf(s, b).owner;
        assert QueueOk(s, t, c);
        if s.queues[t][c] != [] { assert s.queues[t][c][|s.queues[t][c]| - 1] in s.queues[t][c]; }
      case Move(_, p, b, _) => FirstQueued(s, p, t);
      case _ =>
    }
  }

  lemma LastIsNotFirst(s: State, t: nat, u: nat)
    requires Inv(s) && Ready(s, t) && Ready(s, u) && s.pc[t].Append? && s.pc[u].Move?
    ensures s.to[t][HeaderOf(s, s.pc[t].b).owner] != Block(s.pc[u].b)
  {
    hide Chain, MemoryOk, FreeOk;
    assert PcOk(s, t) && PcOk(s, u);
    var c := HeaderOf(s, s.pc[t].b).owner;
    WhatIsWritten(s, t);
    WhatIsWritten(s, u);
    assert QueueOk(s, s.pc[u].p, u);
    FirstQueued(s, s.pc[u].p, u);
  }

  lemma CellIsPassed(s: State, t: nat, u: nat)
    requires Inv(s) && Ready(s, t) && Ready(s, u) && s.pc[t].Append? && s.pc[u].Leave?
    ensures s.to[t][HeaderOf(s, s.pc[t].b).owner] != Cell(u, s.pc[u].p)
  {
    hide Chain, MemoryOk, FreeOk;
    assert PcOk(s, t) && PcOk(s, u);
    WhatIsWritten(s, t);
    FirstQueued(s, s.pc[u].p, u);
  }

  // ----- the allocator as the threads change it --------------------------------------------------

  class Heap {
    const n: nat
    var headers: map<nat, Header>
    var next: map<Addr, Addr>
    var free: seq<seq<Addr>>
    var from: seq<seq<Addr>>
    var to: seq<seq<Loc>>
    var pc: seq<Pc>
    ghost var mapped: set<nat>
    ghost var lists: seq<seq<seq<Addr>>>
    ghost var queues: seq<seq<seq<Addr>>>
    ghost var place: map<Addr, Place>

    ghost function St(): State
      reads this
    {
      State(n, headers, next, free, from, to, pc, mapped, lists, queues, place)
    }

    /** `mem_init`: every producer's end of a queue is the consumer's cell. */
    constructor (threads: nat)
      ensures n == threads && Init(St()) && Inv(St())
    {
      n := threads;
      headers, next, place, mapped := map[], map[], map[], {};
      free, lists := seq(threads, _ => seq(MAX_SCALE + 1, _ => 0)), seq(threads, _ => seq(MAX_SCALE + 1, _ => []));
      from, queues := seq(threads, _ => seq(threads, _ => 0)), seq(threads, _ => seq(threads, _ => []));
      to := seq(threads, p => seq(threads, c => if p >= 0 && c >= 0 then Cell(c, p) else Cell(0, 0)));
      pc := seq(threads, _ => Idle);
      new;
      InitInv(St());
    }

    method PushOnFreeList(t: nat, b: Addr)
      requires Shaped(St()) && t < n && IsBlock(St(), b)
      modifies this
      ensures St() == PushFree(old(St()), t, b)
    {
      hide Put;
      var k := headers[Page(b)].scale;
      next := next[b := free[t][k]];
      free, lists := Put(free, t, k, b), Put(lists, t, k, [b] + lists[t][k]);
      place := place[b := Free];
    }

    /** The next statement of thread t inside `nbd_malloc`. */
    method AdvanceMalloc(t: nat)
      requires Ready(St(), t) && Pending(pc[t]) && !Freeing(pc[t])
      modifies this
      ensures St() == MallocStep(old(St()), t)
    {
      hide Put;
      match pc[t] {
        case Pop(k, again) =>
          var b := free[t][k];
          if b != 0 {
            free, lists, place := Put(free, t, k, next[b]), Put(lists, t, k, lists[t][k][1..]), place[b := Held];
            pc := pc[t := Got(b)];
          } else {
            pc := pc[t := if again then NewPage(k) else Load(k, 0)];
          }
        case Load(k, p) =>
          pc := pc[t := if p == n then Pop(k, true) else if from[t][p] == 0 then Load(k, p + 1) else Look(k, p, from[t][p])];
        case Look(k, p, b) => pc := pc[t := if next[b] == 0 then Leave(k, p, b) else Move(k, p, b, next[b])];
        case Move(k, p, b, nx) =>
          PushOnFreeList(t, b);
          queues := Put(queues, p, t, queues[p][t][1..]);
          pc := pc[t := Look(k, p, nx)];
        case Leave(k, p, b) =>
          from := Put(from, t, p, b);
          pc := pc[t := Load(k, p + 1)];
      }
    }

    /** One store to a link, in a block or in a cell. */
    method StoreLink(at: Loc, b: Addr)
      requires at.Cell? ==> at.consumer < |from| && at.producer < |from[at.consumer]|
      modifies this`from, this`next
      ensures from == if at.Cell? then Put(old(from), at.consumer, at.producer, b) else old(from)
      ensures next == if at.Cell? then old(next) else old(next)[at.b := b]
    {
      match at {
        case Cell(consumer, producer) => from := Put(from, consumer, producer, b);
        case Block(x) => next := next[x := b];
      }
    }

    method AppendBlock(t: nat)
      requires Ready(St(), t) && pc[t].Append?
      modifies this
      ensures St() == FreeStep(old(St()), t)
    {
      hide Put;
      var b := pc[t].b;
      var c := headers[Page(b)].owner;
      StoreLink(to[t][c], b);
      queues, place := Put(queues, t, c, queues[t][c] + [b]), place[b := Queued(t)];
      pc := pc[t := Advance(b)];
    }

    /** The next statement of thread t inside `nbd_free` of a foreign block. */
    method AdvanceFree(t: nat)
      requires Ready(St(), t) && Freeing(pc[t])
      modifies this
      ensures St() == FreeStep(old(St()), t)
    {
      hide Put;
      var b := pc[t].b;
      var c := headers[Page(b)].owner;
      match pc[t] {
        case Clear(_) =>
          next := next[b := 0];
          pc := pc[t := Append(b)];
        case Append(_) => AppendBlock(t);
        case Advance(_) =>
          to := Put(to, t, c, Block(b));
          pc := pc[t := Idle];
      }
    }

    /** `nbd_malloc` begins. */
    method Malloc(t: nat, size: nat)
      requires Inv(St()) && Shaped(St()) && t < n && pc[t].Idle? && size != 1
      modifies this`pc
      ensures St() == CallMalloc(old(St()), t, size) && Inv(St())
      ensures pc[t].Idle? <==> !(2 <= size <= Pow2(MAX_SCALE))
      ensures !pc[t].Idle? ==> pc[t].Pop? && Pow2(pc[t].k) >= size
    {
      hide Inv, Pow2;
      ServedSizes(size);
      if size >= 2 { BlockLargeEnough(size); }
      var k := ScaleFor(size);
      GotoKeeps(St(), t, if k > MAX_SCALE then Idle else Pop(k, false));
      pc := pc[t := if k > MAX_SCALE then Idle else Pop(k, false)];
    }

    /** `nbd_malloc` returns its block. */
    method Return(t: nat) returns (b: Addr)
      requires Inv(St()) && Shaped(St()) && t < n && pc[t].Got?
      modifies this`pc
      ensures St() == Goto(old(St()), t, Idle) && Inv(St()) && b == old(pc[t]).b
    {
      hide Inv;
      GotoKeeps(St(), t, Idle);
      b := pc[t].b;
      pc := pc[t := Idle];
    }

    /** Any other statement of thread t's pending call. */
    method RunStep(t: nat)
      requires Inv(St()) && t < n && t < |pc| && Pending(pc[t])
      modifies this
      ensures Ready(old(St()), t) && St() == Step(old(St()), t) && Inv(St())
    {
      hide Inv, MallocStep, FreeStep;
      IsReady(St(), t);
      StepKeeps(St(), t);
      if Freeing(pc[t]) { AdvanceFree(t); } else { AdvanceMalloc(t); }
    }

    /** `nbd_free` of a block the client holds, up to the first store to a foreign queue. */
    method FreeBlock(t: nat, b: Addr)
      requires Inv(St()) && Shaped(St()) && t < n && pc[t].Idle? && At(St(), b, Held) && IsBlock(St(), b)
      modifies this
      ensures St() == CallFree(old(St()), t, b) && Inv(St())
    {
      hide Inv;
      FreeCallKeeps(St(), t, b);
      if headers[Page(b)].owner == t {
        PushOnFreeList(t, b);
      } else {
        pc, place := pc[t := Clear(b)], place[b := InHand(t)];
      }
    }

    /** The end of `nbd_malloc` with a region the system provided. */
    method TakeRegion(t: nat, base: Addr)
      requires Inv(St()) && Shaped(St()) && t < n && pc[t].NewPage? && pc[t].k <= MAX_SCALE && FreshRegion(St(), pc[t].k, base)
      modifies this
      ensures St() == TakePage(old(St()), t, base) && Inv(St())
    {
      hide Inv, FreshRegion, LinkAll, Put, Pow2, Blocks, RegionSize, Pages;
      ghost var after := TakePage(St(), t, base);
      PageKeeps(St(), t, base);
      var k := pc[t].k;
      var links, head := next[base := 0], 0;
      if k < PAGE_SCALE {
        links, head := SplitPage(links, base, k);
      } else {
        Unlinked(links);
        assert Blocks(k, base)[1..] == [];
      }
      headers := headers[Page(base) := Header(t, k)];
      next, free, pc := links, Put(free, t, k, head), pc[t := Got(base)];
      mapped, lists, place := after.mapped, after.lists, after.place;
    }
  }
}
