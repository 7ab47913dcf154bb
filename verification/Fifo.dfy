/** The array queue (src/fifo/cfifo.c): producers reserve a position with a compare-and-swap on `tail`, fill
    the slot and publish it through `sentinel` in order; the consumer advances `head`.

    Every load, store, CAS and add is a step.  There are any number of producers and one consumer.  The positions
    count up without wrapping; `used` is an integer here and a wrapping size_t in the program. */
module Fifo {
  import opened Common

  type Value = int

  datatype Producer =
    | Idle
    | LoadTail(v: Value)
    | LoadHead(v: Value, p: nat)
    | CasTail(v: Value, p: nat, h: nat)
    | Fill(v: Value, p: nat)             // position p is reserved
    | Publish(v: Value, p: nat)          // filled; spinning until sentinel == p
    | Count                              // published, about to add to `used`
    | Done(ok: bool)

  datatype Consumer =
    | Resting
    | LoadSentinel
    | LoadFront(p: nat)
    | Fetch(h: nat)                      // about to read the value at h
    | CasHead(h: nat, v: Value)
    | Uncount(v: Value)                  // about to subtract from `used`
    | Taken(res: Option<Value>)

  /** History: the values in the order of their reservations, who reserved each position, and the values popped. */
  datatype State = State(buffer: seq<Value>, head: nat, tail: nat, sentinel: nat, used: int,
                         pc: seq<Producer>, consumer: Consumer,
                         reserved: seq<Value>, owner: seq<nat>, popped: seq<Value>)

  /** Where position p lies in a buffer of n slots. */
  function Slot(p: nat, n: nat): (i: nat)
    requires n > 0
    ensures i < n
  {
    p % n
  }

  // ----- steps -----------------------------------------------------------------------------------

  function Goto(s: State, t: nat, pc: Producer): State
    requires t < |s.pc|
  {
    s.(pc := s.pc[t := pc])
  }

  predicate Pending(pc: Producer) { !pc.Idle? && !pc.Done? }

  function PushStep(s: State, t: nat): State
    requires |s.buffer| > 0 && t < |s.pc| && Pending(s.pc[t])
  {
    match s.pc[t]
    case LoadTail(v) => Goto(s, t, LoadHead(v, s.tail))
    case LoadHead(v, p) => Goto(s, t, if Slot(p + 1, |s.buffer|) == Slot(s.head, |s.buffer|) then Done(false) else CasTail(v, p, s.head))
    case CasTail(v, p, h) =>
      if s.tail == p then
        Goto(s, t, Fill(v, p)).(tail := p + 1, reserved := s.reserved + [v], owner := s.owner + [t])
      else Goto(s, t, LoadTail(v))
    case Fill(v, p) => Goto(s, t, Publish(v, p)).(buffer := s.buffer[Slot(p, |s.buffer|) := v])
    case Publish(v, p) => if s.sentinel == p then Goto(s, t, Count).(sentinel := p + 1) else s
    case Count => Goto(s, t, Done(true)).(used := s.used + 1)
  }

  predicate Popping(c: Consumer) { !c.Resting? && !c.Taken? }

  function PopStep(s: State): State
    requires |s.buffer| > 0 && Popping(s.consumer)
  {
    match s.consumer
    case LoadSentinel => s.(consumer := LoadFront(s.sentinel))
    case LoadFront(p) => s.(consumer := if Slot(s.head, |s.buffer|) == Slot(p, |s.buffer|) then Taken(None) else Fetch(s.head))
    case Fetch(h) => s.(consumer := CasHead(h, s.buffer[Slot(h, |s.buffer|)]))
    case CasHead(h, v) =>
      if s.head == h then s.(consumer := Uncount(v), head := h + 1, popped := s.popped + [v])
      else s.(consumer := LoadSentinel)
    case Uncount(v) => s.(consumer := Taken(Some(v)), used := s.used - 1)
  }

  datatype Action = Push(t: nat, v: Value) | Run(t: nat) | Return(t: nat) | Pop | RunPop | ReturnPop

  predicate NextBy(s: State, a: Action, s': State) {
    && |s.buffer| > 0
    && match a
       case Push(t, v) => t < |s.pc| && s.pc[t].Idle? && s' == Goto(s, t, LoadTail(v))
       case Run(t) => t < |s.pc| && Pending(s.pc[t]) && s' == PushStep(s, t)
       case Return(t) => t < |s.pc| && s.pc[t].Done? && s' == Goto(s, t, Idle)
       case Pop => s.consumer.Resting? && s' == s.(consumer := LoadSentinel)
       case RunPop => Popping(s.consumer) && s' == PopStep(s)
       case ReturnPop => s.consumer.Taken? && s' == s.(consumer := Resting)
  }

  predicate Init(s: State) {
    && |s.buffer| > 0 && s.head == s.tail == s.sentinel == 0 && s.used == 0 && s.consumer == Resting
    && s.reserved == s.popped == [] && s.owner == []
    && forall t :: 0 <= t < |s.pc| ==> s.pc[t] == Idle
  }

  predicate IsRun(run: seq<State>, actions: seq<Action>) {
    && |run| == |actions| + 1 && Init(run[0])
    && forall i :: 0 <= i < |actions| ==> NextBy(run[i], actions[i], run[i + 1])
  }

  // ----- invariant -------------------------------------------------------------------------------

  predicate HasPosition(pc: Producer) { pc.Fill? || pc.Publish? }

  predicate CountersOk(s: State) {
    && |s.buffer| > 0 && s.head <= s.sentinel <= s.tail < s.head + |s.buffer|
    && |s.reserved| == |s.owner| == s.tail && s.popped == s.reserved[..s.head]
  }

  /** A published position that was not popped holds its value; an unpublished one has its producer at it. */
  ghost predicate PositionOk(s: State, p: nat)
    requires CountersOk(s)
  {
    && (s.head <= p < s.sentinel ==> s.buffer[Slot(p, |s.buffer|)] == s.reserved[p])
    && (s.sentinel <= p < s.tail ==> s.owner[p] < |s.pc| && HasPosition(s.pc[s.owner[p]]) && s.pc[s.owner[p]].p == p)
  }

  ghost predicate ProducerOk(s: State, t: nat)
    requires CountersOk(s) && t < |s.pc|
  {
    match s.pc[t]
    case LoadHead(v, p) => p <= s.tail
    case CasTail(v, p, h) => h <= s.head && p <= s.tail && (s.tail == p ==> p + 1 < h + |s.buffer|)
    case Fill(v, p) => s.sentinel <= p < s.tail && s.owner[p] == t && s.reserved[p] == v
    case Publish(v, p) =>
      s.sentinel <= p < s.tail && s.owner[p] == t && s.reserved[p] == v && s.buffer[Slot(p, |s.buffer|)] == v
    case _ => true
  }

  ghost predicate ConsumerOk(s: State)
    requires CountersOk(s)
  {
    match s.consumer
    case LoadFront(p) => s.head <= p <= s.sentinel
    case Fetch(h) => h == s.head < s.sentinel
    case CasHead(h, v) => h == s.head < s.sentinel && v == s.reserved[h]
    case Uncount(v) => s.head > 0 && v == s.reserved[s.head - 1]
    case Taken(Some(v)) => s.head > 0 && v == s.reserved[s.head - 1]
    case _ => true
  }

  /** Producers that published and did not count yet. */
  function Uncounted(pc: seq<Producer>): nat {
    if pc == [] then 0 else Uncounted(pc[..|pc| - 1]) + if pc[|pc| - 1].Count? then 1 else 0
  }

  predicate UsedOk(s: State) {
    s.used == s.sentinel - s.head - Uncounted(s.pc) + if s.consumer.Uncount? then 1 else 0
  }

  ghost predicate Inv(s: State) {
    && CountersOk(s) && ConsumerOk(s) && UsedOk(s)
    && (forall p: nat :: PositionOk(s, p))
    && (forall t: nat :: t < |s.pc| ==> ProducerOk(s, t))
  }

  lemma {:induction false} UncountedUpdate(pc: seq<Producer>, t: nat, x: Producer)
    requires t < |pc|
    ensures Uncounted(pc[t := x]) + (if pc[t].Count? then 1 else 0) == Uncounted(pc) + if x.Count? then 1 else 0
  {
    var n := |pc| - 1;
    if t < n {
      UncountedUpdate(pc[..n], t, x);
      assert pc[t := x][..n] == pc[..n][t := x];
    } else {
      assert pc[t := x][..n] == pc[..n];
    }
  }

  lemma {:induction false} NoneUncounted(pc: seq<Producer>)
    requires forall t :: 0 <= t < |pc| ==> !pc[t].Count?
    ensures Uncounted(pc) == 0
  {
    if pc != [] { NoneUncounted(pc[..|pc| - 1]); }
  }

  lemma InitInv(s: State)
    requires Init(s)
    ensures Inv(s)
  {
    NoneUncounted(s.pc);
  }

  lemma Product(n: nat, d: int)
    ensures d >= 1 ==> n * d >= n
    ensures d <= 0 ==> n * d <= 0
  {}

  /** Positions less than one buffer apart lie in different slots. */
  lemma SlotsDiffer(n: nat, p: nat, q: nat)
    requires p < q < p + n
    ensures Slot(p, n) != Slot(q, n)
  {
    var d := q / n - p / n;
    assert q - p == n * d + (q % n - p % n) by {
      assert p == n * (p / n) + p % n && q == n * (q / n) + q % n;
    }
    Product(n, d);
  }

  // ----- every step keeps it ---------------------------------------------------------------------

  lemma PushCounters(s: State, t: nat)
    requires Inv(s) && t < |s.pc| && Pending(s.pc[t])
    ensures CountersOk(PushStep(s, t))
  {
    hide PositionOk, Uncounted;
    assert ProducerOk(s, t);
  }

  lemma PushPosition(s: State, t: nat, p: nat)
    requires Inv(s) && t < |s.pc| && Pending(s.pc[t]) && CountersOk(PushStep(s, t))
    ensures PositionOk(PushStep(s, t), p)
  {
    hide Slot, Uncounted;
    assert ProducerOk(s, t) && PositionOk(s, p);
    if s.pc[t].Fill? && s.head <= p < s.sentinel { OtherSlot(s, p, s.pc[t].p); }
  }

  lemma OtherSlot(s: State, p: nat, q: nat)
    requires CountersOk(s) && s.head <= p < s.tail && s.head <= q < s.tail
    ensures p != q ==> Slot(p, |s.buffer|) != Slot(q, |s.buffer|)
  {
    if p < q { SlotsDiffer(|s.buffer|, p, q); } else if q < p { SlotsDiffer(|s.buffer|, q, p); }
  }

  lemma PushProducer(s: State, t: nat, u: nat)
    requires Inv(s) && t < |s.pc| && Pending(s.pc[t]) && CountersOk(PushStep(s, t)) && u < |s.pc|
    ensures |PushStep(s, t).pc| == |s.pc| && ProducerOk(PushStep(s, t), u)
  {
    hide PositionOk, Uncounted, Slot;
    assert ProducerOk(s, t) && ProducerOk(s, u);
    if s.pc[t].Fill? && s.pc[u].Publish? { OtherSlot(s, s.pc[t].p, s.pc[u].p); }
    if s.pc[t].LoadHead? { NotFull(s, s.pc[t].p); }
  }

  /** The full test of a producer whose tail is up to date leaves room for one more. */
  lemma NotFull(s: State, p: nat)
    requires CountersOk(s)
    ensures s.tail == p && Slot(p + 1, |s.buffer|) != Slot(s.head, |s.buffer|) ==> p + 1 < s.head + |s.buffer|
  {
    OneRound(|s.buffer|, s.head);
  }

  lemma OneRound(n: nat, p: nat)
    requires n > 0
    ensures Slot(p + n, n) == Slot(p, n)
  {
    var d := (p + n) / n - p / n;
    assert n == n * d + ((p + n) % n - p % n) by {
      assert p == n * (p / n) + p % n && p + n == n * ((p + n) / n) + (p + n) % n;
    }
    Product(n, d);
    Product(n, d - 1);
    Product(n, d - 2);
  }

  lemma PushUsed(s: State, t: nat)
    requires Inv(s) && t < |s.pc| && Pending(s.pc[t])
    ensures UsedOk(PushStep(s, t))
  {
    hide PositionOk, Uncounted;
    UncountedUpdate(s.pc, t, PushStep(s, t).pc[t]);
    assert ProducerOk(s, t);
    assert s.pc[t := s.pc[t]] == s.pc;
  }

  lemma PushKeeps(s: State, t: nat)
    requires Inv(s) && t < |s.pc| && Pending(s.pc[t])
    ensures Inv(PushStep(s, t))
  {
    hide PositionOk, ProducerOk, UsedOk;
    PushCounters(s, t);
    PushUsed(s, t);
    var s' := PushStep(s, t);
    forall p: nat ensures PositionOk(s', p) { PushPosition(s, t, p); }
    forall u: nat | u < |s'.pc| ensures ProducerOk(s', u) { PushProducer(s, t, u); }
    assert ProducerOk(s, t);
  }

  lemma PopKeeps(s: State)
    requires Inv(s) && Popping(s.consumer)
    ensures Inv(PopStep(s))
  {
    hide Uncounted;
    var s' := PopStep(s);
    assert CountersOk(s') by { assert s.head < |s.reserved| ==> s.reserved[..s.head + 1] == s.reserved[..s.head] + [s.reserved[s.head]]; }
    forall p: nat ensures PositionOk(s', p) { assert PositionOk(s, p); }
    forall u: nat | u < |s'.pc| ensures ProducerOk(s', u) { assert ProducerOk(s, u); }
    assert PositionOk(s, s.head);
  }

  lemma CallKeeps(s: State, t: nat, pc: Producer)
    requires Inv(s) && t < |s.pc| && !Pending(s.pc[t]) && (pc.Idle? || pc.LoadTail?)
    ensures Inv(Goto(s, t, pc))
  {
    hide Uncounted, Slot;
    var s' := Goto(s, t, pc);
    UncountedUpdate(s.pc, t, pc);
    forall p: nat ensures PositionOk(s', p) { assert PositionOk(s, p); }
    forall u: nat | u < |s'.pc| ensures ProducerOk(s', u) { assert ProducerOk(s, u); }
  }

  lemma ConsumerCallKeeps(s: State, c: Consumer)
    requires Inv(s) && !Popping(s.consumer) && (c.Resting? || c.LoadSentinel?)
    ensures Inv(s.(consumer := c))
  {
    hide Uncounted;
    var s' := s.(consumer := c);
    forall p: nat ensures PositionOk(s', p) { assert PositionOk(s, p); }
    forall u: nat | u < |s'.pc| ensures ProducerOk(s', u) { assert ProducerOk(s, u); }
  }

  lemma {:induction false} RunKeeps(run: seq<State>, actions: seq<Action>, i: nat)
    requires IsRun(run, actions) && i < |run|
    ensures Inv(run[i])
  {
    hide Inv, PushStep, PopStep;
    if i == 0 {
      InitInv(run[0]);
    } else {
      RunKeeps(run, actions, i - 1);
      var s := run[i - 1];
      assert NextBy(s, actions[i - 1], run[i]);
      match actions[i - 1] {
        case Push(t, v) => CallKeeps(s, t, LoadTail(v));
        case Run(t) => PushKeeps(s, t);
        case Return(t) => CallKeeps(s, t, Idle);
        case Pop => ConsumerCallKeeps(s, LoadSentinel);
        case RunPop => PopKeeps(s);
        case ReturnPop => ConsumerCallKeeps(s, Resting);
      }
    }
  }

  // ----- results ---------------------------------------------------------------------------------

  /** Over all runs: the popped values are a prefix of the reserved ones, in the order of the reservations, and the
      queue never holds more than its size. */
  lemma PoppedInOrder(run: seq<State>, actions: seq<Action>, i: nat)
    requires IsRun(run, actions) && i < |run|
    ensures var s := run[i];
            && s.head <= s.sentinel <= s.tail == |s.reserved| && s.tail - s.head < |s.buffer|
            && s.popped == s.reserved[..s.head]
            && (s.consumer.Taken? && s.consumer.res.Some? ==> s.popped != [] && s.consumer.res.value == s.popped[|s.popped| - 1])
  {
    RunKeeps(run, actions, i);
  }

  /** The order of reservations is never revised. */
  lemma {:induction false} HistoryGrows(run: seq<State>, actions: seq<Action>, i: nat, j: nat)
    requires IsRun(run, actions) && i <= j < |run|
    ensures run[i].reserved <= run[j].reserved && run[i].popped <= run[j].popped
  {
    if i < j {
      HistoryGrows(run, actions, i, j - 1);
      assert NextBy(run[j - 1], actions[j - 1], run[j]);
    }
  }

  /** Producers never wait for nothing: while a reserved position is unpublished, the producer of the first such
      position can fill or publish it. */
  lemma SomeonePublishes(s: State) returns (t: nat)
    requires CountersOk(s) && PositionOk(s, s.sentinel) && s.sentinel < s.tail
    ensures t < |s.pc| && HasPosition(s.pc[t]) && PushStep(s, t) != s
    ensures s.pc[t].Publish? ==> PushStep(s, t).sentinel == s.sentinel + 1
  {
    t := s.owner[s.sentinel];
    assert PushStep(s, t).pc[t] != s.pc[t];
  }

  /** Over all runs: two producers in flight never hold the same slot, and none holds the slot of a value that is still
      to be popped. */
  lemma SlotsExclusive(run: seq<State>, actions: seq<Action>, i: nat, t: nat, u: nat, p: nat)
    requires IsRun(run, actions) && i < |run| && t < |run[i].pc| && u < |run[i].pc| && HasPosition(run[i].pc[t])
    ensures var s := run[i];
            && |s.buffer| > 0
            && (HasPosition(s.pc[u]) && t != u ==> Slot(s.pc[t].p, |s.buffer|) != Slot(s.pc[u].p, |s.buffer|))
            && (s.head <= p < s.sentinel ==> Slot(s.pc[t].p, |s.buffer|) != Slot(p, |s.buffer|))
  {
    RunKeeps(run, actions, i);
    SlotsApart(run[i], t, u, p);
  }

  lemma SlotsApart(s: State, t: nat, u: nat, p: nat)
    requires Inv(s) && t < |s.pc| && u < |s.pc| && HasPosition(s.pc[t])
    ensures HasPosition(s.pc[u]) && t != u ==> Slot(s.pc[t].p, |s.buffer|) != Slot(s.pc[u].p, |s.buffer|)
    ensures s.head <= p < s.sentinel ==> Slot(s.pc[t].p, |s.buffer|) != Slot(p, |s.buffer|)
  {
    hide Slot, Uncounted, PositionOk;
    assert ProducerOk(s, t) && ProducerOk(s, u);
    if s.head <= p < s.sentinel { OtherSlot(s, s.pc[t].p, p); }
    if HasPosition(s.pc[u]) { OtherSlot(s, s.pc[t].p, s.pc[u].p); }
  }

  /** `cfifo_size` is exact when nobody is between publishing or popping and counting. */
  lemma UsedAtRest(s: State)
    requires Inv(s) && (forall t :: 0 <= t < |s.pc| ==> !s.pc[t].Count?) && !s.consumer.Uncount?
    ensures s.used == s.sentinel - s.head == |s.reserved[s.head..s.sentinel]|
  {
    NoneUncounted(s.pc);
  }

  /** Over all runs: it is exact then, and `used` is below zero, where the program's counter wraps, exactly when more
      producers are still to count than values were published and not uncounted. */
  lemma RunUsed(run: seq<State>, actions: seq<Action>, i: nat)
    requires IsRun(run, actions) && i < |run|
    ensures var s := run[i];
            && (s.used < 0 <==> Uncounted(s.pc) > s.sentinel - s.head + if s.consumer.Uncount? then 1 else 0)
            && ((forall t :: 0 <= t < |s.pc| ==> !s.pc[t].Count?) && !s.consumer.Uncount?
                ==> s.head <= s.sentinel <= |s.reserved| && s.used == |s.reserved[s.head..s.sentinel]|)
  {
    RunKeeps(run, actions, i);
    var s := run[i];
    if (forall t :: 0 <= t < |s.pc| ==> !s.pc[t].Count?) && !s.consumer.Uncount? { UsedAtRest(s); }
  }

  /** What a caller of `cfifo_size` can rely on, over all runs: it never exceeds the bound; with no push between its
      publication and its count it is not negative; and with no pop between taking and counting it stays within the
      size, which it exceeds exactly when such a pop is pending, the queue is full and every push is counted. */
  lemma UsedBounds(run: seq<State>, actions: seq<Action>, i: nat)
    requires IsRun(run, actions) && i < |run|
    ensures var s := run[i];
            && s.used <= |s.buffer|
            && ((forall t :: 0 <= t < |s.pc| ==> !s.pc[t].Count?) ==> s.used >= 0)
            && (!s.consumer.Uncount? ==> s.used <= |s.buffer| - 1)
            && (s.used > |s.buffer| - 1 <==> s.consumer.Uncount? && Uncounted(s.pc) == 0 && s.sentinel - s.head == |s.buffer| - 1)
  {
    RunKeeps(run, actions, i);
    var s := run[i];
    if forall t :: 0 <= t < |s.pc| ==> !s.pc[t].Count? { NoneUncounted(s.pc); }
  }

  /** One more step of a run. */
  lemma Then(run: seq<State>, actions: seq<Action>, a: Action, s: State) returns (run': seq<State>, actions': seq<Action>)
    requires IsRun(run, actions) && NextBy(run[|run| - 1], a, s)
    ensures IsRun(run', actions') && run'[|run'| - 1] == s
  {
    run', actions' := run + [s], actions + [a];
  }

  lemma Published() returns (run: seq<State>, actions: seq<Action>)
    ensures IsRun(run, actions) && run[|run| - 1] == State([7, 0], 0, 1, 1, 0, [Count], Resting, [7], [0], [])
  {
    var s := State([0, 0], 0, 0, 0, 0, [Idle], Resting, [], [], []);
    run, actions := [s], [];
    assert IsRun(run, actions);
    hide IsRun;
    run, actions := Then(run, actions, Push(0, 7), s.(pc := [LoadTail(7)]));
    run, actions := Then(run, actions, Run(0), s.(pc := [LoadHead(7, 0)]));
    run, actions := Then(run, actions, Run(0), s.(pc := [CasTail(7, 0, 0)]));
    run, actions := Filled(run, actions, 7, s, s.(buffer := [7, 0], tail := 1, reserved := [7], owner := [0]));
  }

  /** Thread 0 reserves the position at the tail, fills and publishes it. */
  lemma Filled(run0: seq<State>, actions0: seq<Action>, v: Value, s: State, s': State)
    returns (run: seq<State>, actions: seq<Action>)
    requires IsRun(run0, actions0) && run0[|run0| - 1] == s.(pc := [CasTail(v, s.tail, s.head)]) && |s.buffer| == 2 && |s.pc| == 1
    requires s.sentinel == s.tail < 2
    requires s' == s.(buffer := s.buffer[s.tail := v], tail := s.tail + 1, reserved := s.reserved + [v], owner := s.owner + [0])
    ensures IsRun(run, actions) && run[|run| - 1] == s'.(pc := [Count], sentinel := s.tail + 1)
  {
    var p := s.tail;
    hide IsRun;
    assert Slot(p, 2) == p;
    run, actions := Then(run0, actions0, Run(0), s'.(buffer := s.buffer, pc := [Fill(v, p)]));
    run, actions := Then(run, actions, Run(0), s'.(pc := [Publish(v, p)]));
    run, actions := Then(run, actions, Run(0), s'.(pc := [Count], sentinel := p + 1));
  }

  /** And it does: the consumer takes and counts a value before its producer counts it. */
  lemma UsedDips() returns (run: seq<State>, actions: seq<Action>)
    ensures IsRun(run, actions) && run[|run| - 1].used == -1
  {
    run, actions := Published();
    var s := run[|run| - 1];
    hide IsRun;
    run, actions := Then(run, actions, Pop, s.(consumer := LoadSentinel));
    run, actions := Then(run, actions, RunPop, s.(consumer := LoadFront(1)));
    run, actions := Then(run, actions, RunPop, s.(consumer := Fetch(0)));
    run, actions := Then(run, actions, RunPop, s.(consumer := CasHead(0, 7)));
    s := s.(head := 1, popped := [7]);
    run, actions := Then(run, actions, RunPop, s.(consumer := Uncount(7)));
    run, actions := Then(run, actions, RunPop, s.(consumer := Taken(Some(7)), used := -1));
  }

  /** The bound is reached, one above the size: a value was taken and not counted out yet when the next one is counted. */
  lemma UsedOvershoots() returns (run: seq<State>, actions: seq<Action>)
    ensures IsRun(run, actions) && run[|run| - 1].used == |run[|run| - 1].buffer| == 2
  {
    run, actions := TakenUncounted();
    var s := run[|run| - 1];
    hide IsRun;
    run, actions := Then(run, actions, Return(0), s.(pc := [Idle]));
    run, actions := Then(run, actions, Push(0, 8), s.(pc := [LoadTail(8)]));
    run, actions := Then(run, actions, Run(0), s.(pc := [LoadHead(8, 1)]));
    run, actions := Then(run, actions, Run(0), s.(pc := [CasTail(8, 1, 1)]));
    var s' := s.(buffer := [7, 8], tail := 2, reserved := [7, 8], owner := [0, 0]);
    run, actions := Filled(run, actions, 8, s, s');
    run, actions := Then(run, actions, Run(0), s'.(pc := [Done(true)], sentinel := 2, used := 2));
  }

  lemma TakenUncounted() returns (run: seq<State>, actions: seq<Action>)
    ensures IsRun(run, actions) && run[|run| - 1] == State([7, 0], 1, 1, 1, 1, [Done(true)], Uncount(7), [7], [0], [7])
  {
    run, actions := Published();
    var s := run[|run| - 1].(pc := [Done(true)], used := 1);
    hide IsRun;
    run, actions := Then(run, actions, Run(0), s);
    run, actions := Then(run, actions, Pop, s.(consumer := LoadSentinel));
    run, actions := Then(run, actions, RunPop, s.(consumer := LoadFront(1)));
    run, actions := Then(run, actions, RunPop, s.(consumer := Fetch(0)));
    run, actions := Then(run, actions, RunPop, s.(consumer := CasHead(0, 7)));
    run, actions := Then(run, actions, RunPop, s.(head := 1, popped := [7], consumer := Uncount(7)));
  }

  // ----- what a call does ------------------------------------------------------------------------

  /** The push that t begins with action i is still under way, or not yet returned from, in state j. */
  ghost predicate InPush(run: seq<State>, actions: seq<Action>, i: nat, j: nat, t: nat, v: Value) {
    && i < j < |run| && i < |actions| && actions[i] == Push(t, v)
    && forall x :: i < x <= j ==> t < |run[x].pc| && !run[x].pc[t].Idle?
  }

  /** From position `base` on, t reserved no position, or exactly p, and for v. */
  ghost predicate OwnsNone(s: State, t: nat, base: nat) {
    base <= |s.owner| && forall q :: base <= q < |s.owner| ==> s.owner[q] != t
  }

  ghost predicate OwnsOne(s: State, t: nat, base: nat, p: nat, v: Value) {
    && base <= p < |s.owner| == |s.reserved| && s.owner[p] == t && s.reserved[p] == v
    && forall q :: base <= q < |s.owner| && s.owner[q] == t ==> q == p
  }

  ghost predicate Pushing(s: State, t: nat, base: nat, v: Value) {
    && t < |s.pc| && CountersOk(s)
    && match s.pc[t]
       case Idle => false
       case LoadTail(w) => w == v && OwnsNone(s, t, base)
       case LoadHead(w, _) => w == v && OwnsNone(s, t, base)
       case CasTail(w, _, _) => w == v && OwnsNone(s, t, base)
       case Fill(w, p) => w == v && OwnsOne(s, t, base, p, v)
       case Publish(w, p) => w == v && OwnsOne(s, t, base, p, v)
       case Count => exists p: nat :: p < s.sentinel && OwnsOne(s, t, base, p, v)
       case Done(ok) => if ok then exists p: nat :: p < s.sentinel && OwnsOne(s, t, base, p, v) else OwnsNone(s, t, base)
  }

  lemma PushingOwn(s: State, t: nat, base: nat, v: Value)
    requires Inv(s) && t < |s.pc| && Pending(s.pc[t]) && Pushing(s, t, base, v) && CountersOk(PushStep(s, t))
    ensures Pushing(PushStep(s, t), t, base, v)
  {
    hide PositionOk, Uncounted, Slot;
    assert ProducerOk(s, t);
    var s' := PushStep(s, t);
    match s.pc[t] {
      case CasTail(_, p, _) => if s.tail == p { assert OwnsOne(s', t, base, p, v); }
      case Publish(_, p) => assert OwnsOne(s', t, base, p, v);
      case Count =>
        var p: nat :| p < s.sentinel && OwnsOne(s, t, base, p, v);
        assert OwnsOne(s', t, base, p, v);
      case _ =>
    }
  }

  /** What a step other than t's own leaves of t: its place, and the positions reserved before, with at most one more of another's. */
  ghost predicate LeavesAlone(s: State, s': State, t: nat) {
    && t < |s.pc| == |s'.pc| && s'.pc[t] == s.pc[t] && s.sentinel <= s'.sentinel
    && ((s'.owner == s.owner && s'.reserved == s.reserved)
        || exists u: nat, w: Value :: u != t && s'.owner == s.owner + [u] && s'.reserved == s.reserved + [w])
  }

  lemma OtherLeavesAlone(s: State, a: Action, s': State, t: nat)
    requires NextBy(s, a, s') && t < |s.pc|
    requires (a.Push? || a.Run? || a.Return?) ==> a.t != t
    ensures LeavesAlone(s, s', t)
  {
    hide Slot;
    if a.Run? && s.pc[a.t].CasTail? && s.tail == s.pc[a.t].p {
      assert s'.owner == s.owner + [a.t] && s'.reserved == s.reserved + [s.pc[a.t].v];
    }
  }

  lemma OwnsNoneStays(s: State, s': State, t: nat, base: nat)
    requires LeavesAlone(s, s', t) && OwnsNone(s, t, base)
    ensures OwnsNone(s', t, base)
  {}

  lemma OwnsOneStays(s: State, s': State, t: nat, base: nat, p: nat, v: Value)
    requires LeavesAlone(s, s', t) && OwnsOne(s, t, base, p, v)
    ensures OwnsOne(s', t, base, p, v)
  {}

  lemma PushingOther(s: State, a: Action, s': State, t: nat, base: nat, v: Value)
    requires NextBy(s, a, s') && CountersOk(s') && Pushing(s, t, base, v)
    requires (a.Push? || a.Run? || a.Return?) ==> a.t != t
    ensures Pushing(s', t, base, v)
  {
    OtherLeavesAlone(s, a, s', t);
    hide NextBy, OwnsNone, OwnsOne, CountersOk;
    if OwnsNone(s, t, base) { OwnsNoneStays(s, s', t, base); }
    forall p: nat | OwnsOne(s, t, base, p, v) ensures OwnsOne(s', t, base, p, v) { OwnsOneStays(s, s', t, base, p, v); }
  }

  lemma InvCounters(s: State)
    requires Inv(s)
    ensures CountersOk(s)
  {}

  lemma {:induction false} PushingOn(run: seq<State>, actions: seq<Action>, i: nat, j: nat, t: nat, v: Value)
    requires IsRun(run, actions) && InPush(run, actions, i, j, t, v)
    ensures Pushing(run[j], t, run[i].tail, v)
  {
    hide Inv, Pushing, PushStep, PopStep;
    RunKeeps(run, actions, j);
    InvCounters(run[j]);
    RunKeeps(run, actions, j - 1);
    var s, a := run[j - 1], actions[j - 1];
    assert NextBy(s, a, run[j]);
    if j == i + 1 {
      InvCounters(run[i]);
      PushingBegins(run[i], run[j], t, v);
    } else {
      PushingOn(run, actions, i, j - 1, t, v);
      if a == Run(t) { PushingOwn(s, t, run[i].tail, v); } else { PushingOther(s, a, run[j], t, run[i].tail, v); }
    }
  }

  lemma PushingBegins(s: State, s': State, t: nat, v: Value)
    requires CountersOk(s) && NextBy(s, Push(t, v), s')
    ensures Pushing(s', t, s.tail, v)
  {}

  /** Over all runs: a push that reports success has published its argument at exactly one position, reserved during the
      call, and one that reports failure has reserved none, however often it lost the race for `tail`. */
  lemma PushDoes(run: seq<State>, actions: seq<Action>, i: nat, j: nat, t: nat, v: Value)
    requires IsRun(run, actions) && InPush(run, actions, i, j, t, v) && run[j].pc[t].Done?
    ensures if run[j].pc[t].ok then exists p: nat :: p < run[j].sentinel && OwnsOne(run[j], t, run[i].tail, p, v)
            else OwnsNone(run[j], t, run[i].tail)
  {
    PushingOn(run, actions, i, j, t, v);
  }

  /** What a push that refuses saw: the tail loaded at moment x and the head loaded at moment y of the call are one round apart
      on the ring.  Either the queue was full at y, or the consumer had gone past the loaded tail in between. */
  ghost predicate SawFull(run: seq<State>, i: nat, j: nat, x: nat, y: nat) {
    && i < x <= y < j <= |run| && |run[y].buffer| > 0
    && Slot(run[x].tail + 1, |run[y].buffer|) == Slot(run[y].head, |run[y].buffer|)
    && (run[y].tail == run[y].head + |run[y].buffer| - 1 || run[x].tail < run[y].head)
  }

  lemma LoadHeadStep(s: State, a: Action, s': State, t: nat)
    requires NextBy(s, a, s') && t < |s'.pc| && s'.pc[t].LoadHead?
    ensures t < |s.pc| && (s.pc[t] == s'.pc[t] || (s.pc[t].LoadTail? && s'.tail == s'.pc[t].p))
  {
    hide Slot;
  }

  ghost predicate TailWas(run: seq<State>, i: nat, j: nat, x: nat, p: nat) {
    i < x <= j < |run| && run[x].tail == p
  }

  lemma {:induction false} TailWasLoaded(run: seq<State>, actions: seq<Action>, i: nat, j: nat, t: nat, v: Value)
    requires IsRun(run, actions) && InPush(run, actions, i, j, t, v) && run[j].pc[t].LoadHead?
    ensures exists x: nat :: TailWas(run, i, j, x, run[j].pc[t].p)
  {
    assert NextBy(run[j - 1], actions[j - 1], run[j]);
    if j > i + 1 {
      LoadHeadStep(run[j - 1], actions[j - 1], run[j], t);
      hide NextBy;
      if run[j - 1].pc[t] == run[j].pc[t] {
        TailWasLoaded(run, actions, i, j - 1, t, v);
        var x: nat :| TailWas(run, i, j - 1, x, run[j].pc[t].p);
        assert TailWas(run, i, j, x, run[j].pc[t].p);
      } else {
        assert TailWas(run, i, j, j, run[j].pc[t].p);
      }
    }
  }

  lemma FullOrPassed(s: State, p: nat)
    requires CountersOk(s) && p <= s.tail && Slot(p + 1, |s.buffer|) == Slot(s.head, |s.buffer|)
    ensures s.tail == s.head + |s.buffer| - 1 || p < s.head
  {
    if s.head <= p && p + 1 < s.head + |s.buffer| { SlotsDiffer(|s.buffer|, s.head, p + 1); }
  }

  lemma RefusalStep(s: State, a: Action, s': State, t: nat)
    requires Inv(s) && NextBy(s, a, s') && t < |s'.pc| && s'.pc[t] == Done(false)
    ensures t < |s.pc| && |s.buffer| > 0
    ensures s.pc[t] == Done(false)
            || (s.pc[t].LoadHead? && Slot(s.pc[t].p + 1, |s.buffer|) == Slot(s.head, |s.buffer|)
                && (s.tail == s.head + |s.buffer| - 1 || s.pc[t].p < s.head))
  {
    hide PositionOk, UsedOk, Slot, ConsumerOk;
    assert ProducerOk(s, t);
    if a == Run(t) && s.pc[t].LoadHead? { FullOrPassed(s, s.pc[t].p); }
  }

  /** Over all runs: a push refuses only if it found the queue full or was overtaken by the consumer. */
  lemma {:induction false} RefusalSawFull(run: seq<State>, actions: seq<Action>, i: nat, j: nat, t: nat, v: Value)
    requires IsRun(run, actions) && InPush(run, actions, i, j, t, v) && run[j].pc[t] == Done(false)
    ensures exists x: nat, y: nat :: SawFull(run, i, j, x, y)
  {
    hide NextBy, Inv, Slot, Init, SawFull;
    assert NextBy(run[j - 1], actions[j - 1], run[j]);
    if j > i + 1 {
      RunKeeps(run, actions, j - 1);
      RefusalStep(run[j - 1], actions[j - 1], run[j], t);
      if run[j - 1].pc[t] == run[j].pc[t] {
        RefusalSawFull(run, actions, i, j - 1, t, v);
        var x: nat, y: nat :| SawFull(run, i, j - 1, x, y);
        SawFullOn(run, i, j, x, y);
      } else {
        TailWasLoaded(run, actions, i, j - 1, t, v);
        var x: nat :| TailWas(run, i, j - 1, x, run[j - 1].pc[t].p);
        SawFullNow(run, i, j, x, run[j - 1].pc[t].p);
      }
    } else {
      PushLoads(run[i], run[j], t, v);
    }
  }

  lemma PushLoads(s: State, s': State, t: nat, v: Value)
    requires NextBy(s, Push(t, v), s')
    ensures t < |s'.pc| && s'.pc[t] == LoadTail(v)
  {}

  lemma SawFullOn(run: seq<State>, i: nat, j: nat, x: nat, y: nat)
    requires j > 0 && SawFull(run, i, j - 1, x, y) && j <= |run|
    ensures SawFull(run, i, j, x, y)
  {}

  lemma SawFullNow(run: seq<State>, i: nat, j: nat, x: nat, p: nat)
    requires 0 < j < |run| && TailWas(run, i, j - 1, x, p) && |run[j - 1].buffer| > 0
    requires var s := run[j - 1];
             Slot(p + 1, |s.buffer|) == Slot(s.head, |s.buffer|) && (s.tail == s.head + |s.buffer| - 1 || p < s.head)
    ensures SawFull(run, i, j, x, j - 1)
  {
    hide Slot;
  }

  /** The second case happens: a producer loads the tail, another's value is pushed and popped, and the first push then
      refuses although the queue is empty. */
  lemma OvertakenRefuses() returns (run: seq<State>, actions: seq<Action>)
    ensures IsRun(run, actions) && InPush(run, actions, 0, |run| - 1, 1, 8)
    ensures var s := run[|run| - 1]; s.pc == [Count, Done(false)] && s.head == s.tail == s.sentinel == 1
  {
    run, actions := PublishedBeside();
    var s := run[|run| - 1];
    hide IsRun, InPush;
    run, actions := Along(run, actions, Pop, s.(consumer := LoadSentinel));
    run, actions := Along(run, actions, RunPop, s.(consumer := LoadFront(1)));
    run, actions := Along(run, actions, RunPop, s.(consumer := Fetch(0)));
    run, actions := Along(run, actions, RunPop, s.(consumer := CasHead(0, 7)));
    s := s.(head := 1, popped := [7], consumer := Uncount(7));
    run, actions := Along(run, actions, RunPop, s);
    run, actions := Along(run, actions, Run(1), s.(pc := [Count, Done(false)]));
  }

  /** One more step of a run throughout which producer 1 is in its push of 8. */
  lemma Along(run: seq<State>, actions: seq<Action>, a: Action, s: State) returns (run': seq<State>, actions': seq<Action>)
    requires IsRun(run, actions) && InPush(run, actions, 0, |run| - 1, 1, 8) && NextBy(run[|run| - 1], a, s)
    requires 1 < |s.pc| && !s.pc[1].Idle?
    ensures IsRun(run', actions') && run'[|run'| - 1] == s && InPush(run', actions', 0, |run'| - 1, 1, 8)
  {
    run', actions' := run + [s], actions + [a];
  }

  lemma ReservedBeside() returns (run: seq<State>, actions: seq<Action>)
    ensures IsRun(run, actions) && InPush(run, actions, 0, |run| - 1, 1, 8)
    ensures run[|run| - 1] == State([0, 0], 0, 0, 0, 0, [CasTail(7, 0, 0), LoadHead(8, 0)], Resting, [], [], [])
  {
    var s := State([0, 0], 0, 0, 0, 0, [Idle, LoadTail(8)], Resting, [], [], []);
    run, actions := [s.(pc := [Idle, Idle]), s], [Push(1, 8)];
    assert IsRun(run, actions) && InPush(run, actions, 0, 1, 1, 8);
    hide IsRun, InPush;
    run, actions := Along(run, actions, Run(1), s.(pc := [Idle, LoadHead(8, 0)]));
    run, actions := Along(run, actions, Push(0, 7), s.(pc := [LoadTail(7), LoadHead(8, 0)]));
    run, actions := Along(run, actions, Run(0), s.(pc := [LoadHead(7, 0), LoadHead(8, 0)]));
    run, actions := Along(run, actions, Run(0), s.(pc := [CasTail(7, 0, 0), LoadHead(8, 0)]));
  }

  lemma PublishedBeside() returns (run: seq<State>, actions: seq<Action>)
    ensures IsRun(run, actions) && InPush(run, actions, 0, |run| - 1, 1, 8)
    ensures run[|run| - 1] == State([7, 0], 0, 1, 1, 0, [Count, LoadHead(8, 0)], Resting, [7], [0], [])
  {
    run, actions := ReservedBeside();
    var s := run[|run| - 1].(tail := 1, reserved := [7], owner := [0]);
    hide IsRun, InPush;
    run, actions := Along(run, actions, Run(0), s.(pc := [Fill(7, 0), LoadHead(8, 0)]));
    s := s.(buffer := [7, 0]);
    run, actions := Along(run, actions, Run(0), s.(pc := [Publish(7, 0), LoadHead(8, 0)]));
    run, actions := Along(run, actions, Run(0), s.(sentinel := 1, pc := [Count, LoadHead(8, 0)]));
  }

  /** The pop that begins with action i is still under way, or not yet returned from, in state j. */
  ghost predicate InPop(run: seq<State>, actions: seq<Action>, i: nat, j: nat) {
    && i < j < |run| && i < |actions| && actions[i] == Pop && forall x :: i < x <= j ==> !run[x].consumer.Resting?
  }

  /** What has been popped in a call that began with `before`. */
  ghost predicate Took(s: State, before: seq<Value>) {
    match s.consumer
    case Resting => false
    case Uncount(v) => s.popped == before + [v]
    case Taken(res) => s.popped == if res.Some? then before + [res.value] else before
    case _ => s.popped == before
  }

  lemma TookStep(s: State, a: Action, s': State, before: seq<Value>)
    requires NextBy(s, a, s') && Took(s, before) && !s'.consumer.Resting?
    ensures Took(s', before)
  {
    hide Slot;
  }

  /** Over all runs: a pop adds exactly the value it returns to the popped ones, or nothing. */
  lemma {:induction false} PopDoes(run: seq<State>, actions: seq<Action>, i: nat, j: nat)
    requires IsRun(run, actions) && InPop(run, actions, i, j)
    ensures Took(run[j], run[i].popped)
  {
    assert NextBy(run[j - 1], actions[j - 1], run[j]);
    if j > i + 1 {
      hide NextBy;
      PopDoes(run, actions, i, j - 1);
      TookStep(run[j - 1], actions[j - 1], run[j], run[i].popped);
    }
  }

  /** A moment inside the pop at which the sentinel was p and the head what it is in state j. */
  ghost predicate SentinelWas(run: seq<State>, i: nat, j: nat, x: nat, p: nat) {
    i < x <= j < |run| && run[x].sentinel == p && run[x].head == run[j].head
  }

  lemma LoadedStep(s: State, a: Action, s': State)
    requires Inv(s) && NextBy(s, a, s')
    ensures s'.consumer.LoadFront? ==>
              s'.head == s.head && (s.consumer == s'.consumer || (s'.sentinel == s.sentinel == s'.consumer.p))
    ensures s'.consumer == Taken(None) ==>
              s'.head == s.head && (s.consumer == s'.consumer || (s.consumer.LoadFront? && s.consumer.p == s.head))
  {
    hide PositionOk, ProducerOk, UsedOk;
    if s.consumer.LoadFront? && s.head < s.consumer.p { SlotsDiffer(|s.buffer|, s.head, s.consumer.p); }
  }

  lemma {:induction false} LoadedWas(run: seq<State>, actions: seq<Action>, i: nat, j: nat)
    requires IsRun(run, actions) && InPop(run, actions, i, j) && run[j].consumer.LoadFront?
    ensures exists x: nat :: SentinelWas(run, i, j, x, run[j].consumer.p)
  {
    assert NextBy(run[j - 1], actions[j - 1], run[j]);
    if j > i + 1 {
      hide NextBy, Inv;
      RunKeeps(run, actions, j - 1);
      LoadedStep(run[j - 1], actions[j - 1], run[j]);
      if run[j - 1].consumer == run[j].consumer {
        LoadedWas(run, actions, i, j - 1);
        var x: nat :| SentinelWas(run, i, j - 1, x, run[j].consumer.p);
        assert SentinelWas(run, i, j, x, run[j].consumer.p);
      } else {
        assert SentinelWas(run, i, j, j, run[j].consumer.p);
      }
    }
  }

  /** Over all runs: a pop returns NULL only if the queue had nothing published at a moment inside the call. */
  lemma {:induction false} NullWasEmpty(run: seq<State>, actions: seq<Action>, i: nat, j: nat)
    requires IsRun(run, actions) && InPop(run, actions, i, j) && run[j].consumer == Taken(None)
    ensures exists x :: i < x <= j && run[x].head == run[x].sentinel
  {
    assert NextBy(run[j - 1], actions[j - 1], run[j]);
    if j > i + 1 {
      hide NextBy, Inv;
      RunKeeps(run, actions, j - 1);
      LoadedStep(run[j - 1], actions[j - 1], run[j]);
      if run[j - 1].consumer == run[j].consumer {
        NullWasEmpty(run, actions, i, j - 1);
      } else {
        LoadedWas(run, actions, i, j - 1);
        var x: nat :| SentinelWas(run, i, j - 1, x, run[j - 1].consumer.p);
        assert run[x].head == run[x].sentinel;
      }
    }
  }

  /** How many steps a producer is from the end of its call when nobody else moves. */
  function Distance(s: State, t: nat): nat
    requires t < |s.pc|
  {
    match s.pc[t]
    case LoadTail(_) => 6
    case LoadHead(_, p) => if p == s.tail then 5 else 8
    case CasTail(_, p, _) => if p == s.tail then 4 else 7
    case Fill(_, _) => 3
    case Publish(_, _) => 2
    case Count => 1
    case _ => 0
  }

  /** A producer either spins for its turn to publish, or its step brings it nearer to the end of its call; and the consumer
      needs at most five steps. */
  lemma SpinsOrNears(s: State, t: nat)
    requires Inv(s) && t < |s.pc| && Pending(s.pc[t])
    ensures |s.buffer| > 0 && t < |PushStep(s, t).pc|
    ensures if s.pc[t].Publish? && s.pc[t].p != s.sentinel then PushStep(s, t) == s
            else Distance(PushStep(s, t), t) < Distance(s, t)
  {
    hide PositionOk, UsedOk, Slot;
    assert ProducerOk(s, t);
  }

  function PopDistance(c: Consumer): nat {
    match c
    case LoadSentinel => 5
    case LoadFront(_) => 4
    case Fetch(_) => 3
    case CasHead(_, _) => 2
    case Uncount(_) => 1
    case _ => 0
  }

  lemma PopNears(s: State)
    requires Inv(s) && Popping(s.consumer)
    ensures |s.buffer| > 0 && PopDistance(PopStep(s).consumer) < PopDistance(s.consumer)
  {
    hide PositionOk, UsedOk, Slot;
  }

  /** How far a push of v by t has come that nobody interrupts, begun with the counters at h0 and t0. */
  ghost predicate Partly(s: State, t: nat, v: Value, h0: nat, t0: nat, r0: seq<Value>) {
    && t < |s.pc| && s.head == h0 && CountersOk(s)
    && match s.pc[t]
       case Idle => false
       case LoadTail(w) => w == v && s.tail == s.sentinel == t0 && s.reserved == r0
       case LoadHead(w, p) => w == v && p == s.tail == s.sentinel == t0 && s.reserved == r0
       case CasTail(w, p, h) => w == v && p == s.tail == s.sentinel == t0 && s.reserved == r0 && t0 + 1 < h0 + |s.buffer|
       case Fill(w, p) => w == v && p == s.sentinel == t0 && s.tail == t0 + 1 && s.reserved == r0 + [v]
       case Publish(w, p) => w == v && p == s.sentinel == t0 && s.tail == t0 + 1 && s.reserved == r0 + [v]
       case Count => s.sentinel == s.tail == t0 + 1 && s.reserved == r0 + [v]
       case Done(ok) => s.sentinel == s.tail == (if ok then t0 + 1 else t0) && s.reserved == (if ok then r0 + [v] else r0)
                        && (ok <==> t0 + 1 < h0 + |s.buffer|)
  }

  function Rank(pc: Producer): nat {
    match pc
    case LoadTail(_) => 6
    case LoadHead(_, _) => 5
    case CasTail(_, _, _) => 4
    case Fill(_, _) => 3
    case Publish(_, _) => 2
    case Count => 1
    case _ => 0
  }

  lemma PartlySteps(s: State, t: nat, v: Value, h0: nat, t0: nat, r0: seq<Value>)
    requires Inv(s) && t < |s.pc| && Pending(s.pc[t]) && Partly(s, t, v, h0, t0, r0) && t0 < h0 + |s.buffer|
    ensures |s.buffer| > 0 && Partly(PushStep(s, t), t, v, h0, t0, r0) && Rank(PushStep(s, t).pc[t]) < Rank(s.pc[t])
    ensures |PushStep(s, t).buffer| == |s.buffer|
  {
    PushCounters(s, t);
    hide PositionOk, ProducerOk, UsedOk, ConsumerOk, Slot;
    if s.pc[t].LoadHead? {
      NotFull(s, t0);
      if t0 + 1 < h0 + |s.buffer| { SlotsDiffer(|s.buffer|, h0, t0 + 1); }
    }
  }

  lemma PartlyEnds(s: State, t: nat, v: Value, h0: nat, t0: nat, r0: seq<Value>)
    requires Partly(s, t, v, h0, t0, r0) && !Pending(s.pc[t]) && |r0| == t0 && h0 <= t0
    ensures CountersOk(s) && s.pc[t].Done? && s.sentinel == s.tail && (s.pc[t].ok <==> t0 - h0 < |s.buffer| - 1)
    ensures s.reserved[s.head..s.sentinel] == r0[h0..] + if s.pc[t].ok then [v] else []
  {}

  // ----- the queue as the threads change it ------------------------------------------------------

  class Queue {
    var head: nat
    var tail: nat
    var sentinel: nat
    var used: int
    const buffer: array<Value>
    var pc: seq<Producer>
    var consumer: Consumer
    ghost var reserved: seq<Value>
    ghost var owner: seq<nat>
    ghost var popped: seq<Value>

    ghost function St(): State
      reads this, buffer
    {
      State(buffer[..], head, tail, sentinel, used, pc, consumer, reserved, owner, popped)
    }

    /** The published values that were not popped, oldest first. */
    ghost function Contents(): seq<Value>
      requires CountersOk(St())
      reads this, buffer
    {
      reserved[head..sentinel]
    }

    constructor (size: nat, producers: nat)
      ensures fresh(buffer) && buffer.Length == size + 1 && |pc| == producers && Init(St()) && Inv(St())
    {
      head, tail, sentinel, used := 0, 0, 0, 0;
      buffer := new Value[size + 1](_ => 0);
      pc, consumer := seq(producers, _ => Idle), Resting;
      reserved, owner, popped := [], [], [];
      new;
      InitInv(St());
    }

    /** A producer, or the consumer, calls its operation or returns from it. */
    method CallPush(t: nat, to: Producer)
      requires Inv(St()) && t < |pc| && !Pending(pc[t]) && (to.Idle? || to.LoadTail?)
      modifies this`pc
      ensures St() == Goto(old(St()), t, to) && Inv(St())
    {
      hide Inv;
      CallKeeps(St(), t, to);
      pc := pc[t := to];
    }

    method CallPop(to: Consumer)
      requires Inv(St()) && !Popping(consumer) && (to.Resting? || to.LoadSentinel?)
      modifies this`consumer
      ensures St() == old(St()).(consumer := to) && Inv(St())
    {
      hide Inv;
      ConsumerCallKeeps(St(), to);
      consumer := to;
    }

    /** The next statement of producer t. */
    method AdvancePush(t: nat)
      requires Inv(St()) && t < |pc| && Pending(pc[t])
      modifies this, buffer
      ensures St() == PushStep(old(St()), t) && Inv(St())
    {
      hide PositionOk, ProducerOk, UsedOk, ConsumerOk;
      PushKeeps(St(), t);
      match pc[t] {
        case LoadTail(v) => pc := pc[t := LoadHead(v, tail)];
        case LoadHead(v, p) =>
          pc := pc[t := if (p + 1) % buffer.Length == head % buffer.Length then Done(false) else CasTail(v, p, head)];
        case CasTail(v, p, h) =>
          if tail == p {
            tail, reserved, owner := p + 1, reserved + [v], owner + [t];
            pc := pc[t := Fill(v, p)];
          } else {
            pc := pc[t := LoadTail(v)];
          }
        case Fill(v, p) =>
          buffer[p % buffer.Length] := v;
          pc := pc[t := Publish(v, p)];
        case Publish(v, p) =>
          if sentinel == p {
            sentinel := p + 1;
            pc := pc[t := Count];
          }
        case Count =>
          used := used + 1;
          pc := pc[t := Done(true)];
      }
    }

    /** The next statement of the consumer. */
    method AdvancePop()
      requires Inv(St()) && Popping(consumer)
      modifies this
      ensures St() == PopStep(old(St())) && Inv(St())
    {
      hide PositionOk, ProducerOk, UsedOk, ConsumerOk;
      PopKeeps(St());
      match consumer {
        case LoadSentinel => consumer := LoadFront(sentinel);
        case LoadFront(p) => consumer := if head % buffer.Length == p % buffer.Length then Taken(None) else Fetch(head);
        case Fetch(h) => consumer := CasHead(h, buffer[h % buffer.Length]);
        case CasHead(h, v) =>
          if head == h {
            head, popped := h + 1, popped + [v];
            consumer := Uncount(v);
          } else {
            consumer := LoadSentinel;
          }
        case Uncount(v) =>
          used := used - 1;
          consumer := Taken(Some(v));
      }
    }

    /** `cfifo_push` with nobody else under way: it appends, and refuses only a full queue. */
    method Push(t: nat, v: Value) returns (ok: bool)
      requires Inv(St()) && t < |pc| && pc[t].Idle? && sentinel == tail
      modifies this, buffer
      ensures Inv(St()) && sentinel == tail
      ensures ok == (|old(Contents())| < buffer.Length - 1)
      ensures Contents() == if ok then old(Contents()) + [v] else old(Contents())
    {
      hide PositionOk, ProducerOk, UsedOk, ConsumerOk;
      ghost var h0, t0, r0 := head, tail, reserved;
      CallKeeps(St(), t, LoadTail(v));
      pc := pc[t := LoadTail(v)];
      assert Partly(St(), t, v, h0, t0, r0);
      hide Inv, PushStep, Partly;
      while Pending(pc[t])
        invariant Inv(St()) && t < |pc| && Partly(St(), t, v, h0, t0, r0)
        decreases Rank(pc[t])
      {
        PartlySteps(St(), t, v, h0, t0, r0);
        AdvancePush(t);
      }
      PartlyEnds(St(), t, v, h0, t0, r0);
      ok := pc[t].ok;
    }

    /** `cfifo_pop` with nobody else under way: it takes the oldest value. */
    method Pop() returns (r: Option<Value>)
      requires Inv(St()) && consumer.Resting?
      modifies this
      ensures Inv(St())
      ensures if old(Contents()) == [] then r == None && Contents() == []
              else r.Some? && [r.value] + Contents() == old(Contents())
    {
      hide PositionOk, ProducerOk, UsedOk;
      ghost var s0 := St();
      ConsumerCallKeeps(St(), LoadSentinel);
      consumer := LoadSentinel;
      AdvancePop();
      if head < sentinel { SlotsDiffer(buffer.Length, head, sentinel); }
      AdvancePop();
      if consumer.Fetch? {
        AdvancePop();
        AdvancePop();
        AdvancePop();
        assert s0.reserved[s0.head..s0.sentinel] == [s0.reserved[s0.head]] + s0.reserved[s0.head + 1..s0.sentinel];
      }
      r := consumer.res;
    }
  }
}
