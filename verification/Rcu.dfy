/** Token-ring RCU (src/runtime/rcu.c): every thread owns a queue of deferred frees, and the head it
    posts travels from thread to thread through the matrix `rcu_` until it comes back.

    Each read and each write of the shared matrix is a step of its own; `rcu_last_posted_` and the queues
    are private to one thread.  The set of registered threads is fixed. */
module Rcu {
  import opened Common

  type Item = int

  const QUEUE_SIZE: nat := 0x10_0000
  const POST_THRESHOLD: nat := 10

  /** Where a thread is: outside, or at a statement of `rcu_update` or `rcu_defer_free`. */
  datatype Pc =
    | Idle
    | Scan(i: nat)            // about to compare rcu_[t][i] with what was last posted
    | Load(i: nat)            // about to read rcu_[t][i]
    | Post(i: nat, x: nat)    // about to pass x on to the next thread
    | Check                   // about to compare the tail with rcu_[t][t]
    | Freeing                 // about to free the item at the tail
    | PostHead                // about to post the own head

  /** The last four fields are history: all items deferred and freed by each thread, `seen[t][j]` the head of
      thread j's queue when t last took a step inside `rcu_update`, and the references clients hold. */
  datatype State = State(n: nat, rcu: seq<seq<nat>>, last: seq<seq<nat>>, head: seq<nat>, tail: seq<nat>,
                         x: seq<seq<Item>>, pc: seq<Pc>,
                         deferred: seq<seq<Item>>, freed: seq<seq<Item>>, seen: seq<seq<nat>>, held: seq<set<Item>>)

  function Next(n: nat, t: nat): nat { if t + 1 >= n then 0 else t + 1 }

  predicate Inside(pc: Pc) { !pc.Idle? && !pc.PostHead? }

  // ----- steps -----------------------------------------------------------------------------------

  ghost predicate Shaped(s: State) {
    && s.n > 0 && |s.rcu| == |s.last| == |s.head| == |s.tail| == |s.x| == |s.pc| == s.n
    && |s.deferred| == |s.freed| == |s.seen| == |s.held| == s.n
    && (forall t :: 0 <= t < s.n ==> |s.rcu[t]| == |s.last[t]| == |s.seen[t]| == s.n && |s.x[t]| == QUEUE_SIZE)
    && (forall t :: 0 <= t < s.n ==>
          (s.pc[t].Scan? ==> s.pc[t].i <= s.n)
          && (s.pc[t].Load? || s.pc[t].Post? ==> s.pc[t].i < s.n && s.pc[t].i != t))
  }

  /** A step inside `rcu_update` sees all the heads there are at that moment. */
  ghost function Look(s: State, t: nat): State
    requires Shaped(s) && t < s.n
  {
    s.(seen := s.seen[t := s.head])
  }

  /** The next atomic step of a thread that is not idle. */
  ghost function Step(s: State, t: nat): State
    requires Shaped(s) && t < s.n && !s.pc[t].Idle?
  {
    match s.pc[t]
    case Scan(i) =>
      Look(s, t).(pc := s.pc[t := if i == s.n then Check
                                  else if i == t || s.rcu[t][i] == s.last[t][i] then Scan(i + 1)
                                  else Load(i)])
    case Load(i) => Look(s, t).(pc := s.pc[t := Post(i, s.rcu[t][i])])
    case Post(i, x) =>
      Look(s, t).(last := Put(s.last, t, i, x), rcu := Put(s.rcu, Next(s.n, t), i, x), pc := s.pc[t := Scan(i + 1)])
    case Check => Look(s, t).(pc := s.pc[t := if s.tail[t] != s.rcu[t][t] then Freeing else Idle])
    case Freeing =>
      Look(s, t).(freed := s.freed[t := s.freed[t] + [s.x[t][s.tail[t] % QUEUE_SIZE]]],
                  tail := s.tail[t := s.tail[t] + 1], pc := s.pc[t := Check])
    case PostHead =>
      s.(rcu := Put(s.rcu, Next(s.n, t), t, s.head[t]), last := Put(s.last, t, t, s.head[t]), pc := s.pc[t := Idle])
  }

  /** Entering `rcu_update`.  A thread may do so only when it holds no reference. */
  ghost predicate CanUpdate(s: State, t: nat) {
    Shaped(s) && t < s.n && s.pc[t].Idle? && s.held[t] == {}
  }

  ghost function StartUpdate(s: State, t: nat): State
    requires CanUpdate(s, t)
  {
    Look(s, t).(pc := s.pc[t := Scan(0)])
  }

  /** `rcu_defer_free` asserts that the queue is not full. */
  ghost predicate CanDefer(s: State, t: nat) {
    Shaped(s) && t < s.n && s.pc[t].Idle? && (s.head[t] + 1) % QUEUE_SIZE != s.tail[t] % QUEUE_SIZE
  }

  ghost function Defer(s: State, t: nat, item: Item): State
    requires CanDefer(s, t)
  {
    s.(x := Put(s.x, t, s.head[t] % QUEUE_SIZE, item), head := s.head[t := s.head[t] + 1],
       deferred := s.deferred[t := s.deferred[t] + [item]],
       pc := s.pc[t := if s.head[t] + 1 - s.last[t][t] >= POST_THRESHOLD then PostHead else Idle])
  }

  /** A client takes a reference to an item nobody has deferred yet, or drops one. */
  ghost predicate CanAcquire(s: State, t: nat, item: Item) {
    Shaped(s) && t < s.n && !Inside(s.pc[t]) && forall j :: 0 <= j < s.n ==> item !in s.deferred[j]
  }

  ghost function Acquire(s: State, t: nat, item: Item): State
    requires CanAcquire(s, t, item)
  {
    s.(held := s.held[t := s.held[t] + {item}])
  }

  ghost function Drop(s: State, t: nat, item: Item): State
    requires Shaped(s) && t < s.n
  {
    s.(held := s.held[t := s.held[t] - {item}])
  }

  datatype Action = Run(t: nat) | Update(t: nat) | DeferFree(t: nat, item: Item) | Take(t: nat, item: Item) | Give(t: nat, item: Item)

  ghost predicate NextBy(s: State, a: Action, s': State) {
    && Shaped(s)
    && match a
       case Run(t) => t < s.n && !s.pc[t].Idle? && s' == Step(s, t)
       case Update(t) => CanUpdate(s, t) && s' == StartUpdate(s, t)
       case DeferFree(t, item) => CanDefer(s, t) && s' == Defer(s, t, item)
       case Take(t, item) => CanAcquire(s, t, item) && s' == Acquire(s, t, item)
       case Give(t, item) => t < s.n && s' == Drop(s, t, item)
  }

  ghost predicate Init(s: State) {
    Shaped(s) && forall t :: 0 <= t < s.n ==>
      && s.head[t] == s.tail[t] == 0 && s.pc[t] == Idle && s.deferred[t] == s.freed[t] == [] && s.held[t] == {}
      && forall j :: 0 <= j < s.n ==> s.rcu[t][j] == s.last[t][j] == s.seen[t][j] == 0
  }

  ghost predicate IsRun(run: seq<State>, actions: seq<Action>) {
    && |run| == |actions| + 1 && Init(run[0])
    && forall i :: 0 <= i < |actions| ==> NextBy(run[i], actions[i], run[i + 1])
  }

  // ----- invariant -------------------------------------------------------------------------------

  /** The cell that t writes in column j: it has no other writer and holds what t last posted; it lags behind
      the cell t reads unless t owns the column; and it was posted before t's latest step inside `rcu_update`. */
  ghost predicate CellOk(s: State, t: nat, j: nat)
    requires Shaped(s) && t < s.n && j < s.n
  {
    var mine, next := s.rcu[t][j], s.rcu[Next(s.n, t)][j];
    && next == s.last[t][j] && mine <= s.head[j] && next <= s.head[j] && s.seen[t][j] <= s.head[j]
    && (t != j ==> next <= mine && next <= s.seen[t][j])
    && (s.pc[t].Post? && s.pc[t].i == j ==> next <= s.pc[t].x <= mine && s.pc[t].x <= s.seen[t][j])
  }

  ghost predicate CellsOk(s: State)
    requires Shaped(s)
  {
    forall t: nat, j: nat :: t < s.n && j < s.n ==> CellOk(s, t, j)
  }

  /** The ring buffer holds the deferred items that were not freed; the others were freed in order, once each. */
  ghost predicate QueueOk(s: State, t: nat)
    requires Shaped(s) && t < s.n
  {
    && s.tail[t] <= s.rcu[t][t] && s.tail[t] <= s.head[t] < s.tail[t] + QUEUE_SIZE
    && (s.pc[t].Freeing? ==> s.tail[t] < s.rcu[t][t])
    && |s.deferred[t]| == s.head[t] && s.freed[t] == s.deferred[t][..s.tail[t]]
    && forall p :: s.tail[t] <= p < s.head[t] ==> s.x[t][p % QUEUE_SIZE] == s.deferred[t][p]
  }

  /** An item t still holds was deferred only after t's latest step inside `rcu_update`. */
  ghost predicate HeldOk(s: State, t: nat, j: nat)
    requires Shaped(s) && t < s.n && j < s.n
  {
    && (Inside(s.pc[t]) ==> s.held[t] == {})
    && forall p :: 0 <= p < |s.deferred[j]| && s.deferred[j][p] in s.held[t] ==> s.seen[t][j] <= p
  }

  ghost predicate Inv(s: State) {
    && Shaped(s) && CellsOk(s)
    && (forall t: nat :: t < s.n ==> QueueOk(s, t))
    && (forall t: nat, j: nat :: t < s.n && j < s.n ==> HeldOk(s, t, j))
  }

  lemma InitInv(s: State)
    requires Init(s)
    ensures Inv(s)
  {}

  // ----- every step keeps it ---------------------------------------------------------------------

  lemma StepShaped(s: State, t: nat)
    requires Shaped(s) && t < s.n && !s.pc[t].Idle?
    ensures Shaped(Step(s, t)) && Step(s, t).n == s.n
  {
    hide Put;
    var s' := Step(s, t);
    assert forall u :: 0 <= u < s.n && u != t ==> s'.pc[u] == s.pc[u];
  }

  lemma StepCell(s: State, t: nat, u: nat, j: nat)
    requires Shaped(s) && CellsOk(s) && t < s.n && !s.pc[t].Idle? && Shaped(Step(s, t)) && u < s.n && j < s.n
    ensures CellOk(Step(s, t), u, j)
  {
    hide Put;
    if s.pc[t].Post? || s.pc[t].PostHead? {
      PostCell(s, t, u, j);
    } else {
      assert CellOk(s, u, j);
    }
  }

  lemma PostCell(s: State, t: nat, u: nat, j: nat)
    requires Shaped(s) && CellsOk(s) && t < s.n && (s.pc[t].Post? || s.pc[t].PostHead?) && Shaped(Step(s, t)) && u < s.n && j < s.n
    ensures CellOk(Step(s, t), u, j)
  {
    hide Put;
    assert CellOk(s, u, j) && CellOk(s, t, j);
  }

  lemma StepQueue(s: State, t: nat, u: nat)
    requires Shaped(s) && CellsOk(s) && t < s.n && !s.pc[t].Idle? && Shaped(Step(s, t)) && u < s.n && QueueOk(s, u)
    requires QueueOk(s, t)
    ensures QueueOk(Step(s, t), u)
  {
    hide Put;
    assert CellOk(s, t, u);
    if s.pc[t].Freeing? {
      assert CellOk(s, t, t);
      FreeQueue(s, t, u);
    }
  }

  lemma FreeQueue(s: State, t: nat, u: nat)
    requires Shaped(s) && t < s.n && s.pc[t].Freeing? && Shaped(Step(s, t)) && u < s.n && QueueOk(s, u) && QueueOk(s, t)
    requires CellOk(s, t, t)
    ensures QueueOk(Step(s, t), u)
  {
    assert s.tail[t] < |s.deferred[t]| ==>
             s.deferred[t][..s.tail[t] + 1] == s.deferred[t][..s.tail[t]] + [s.deferred[t][s.tail[t]]];
  }

  lemma StepHeld(s: State, t: nat, u: nat, j: nat)
    requires Shaped(s) && t < s.n && !s.pc[t].Idle? && Shaped(Step(s, t)) && u < s.n && j < s.n && HeldOk(s, u, j)
    ensures HeldOk(Step(s, t), u, j)
  {}

  lemma StepKeeps(s: State, t: nat)
    requires Inv(s) && t < s.n && !s.pc[t].Idle?
    ensures Inv(Step(s, t))
  {
    hide CellOk, QueueOk, HeldOk, Step;
    StepShaped(s, t);
    forall u: nat, j: nat | u < s.n && j < s.n ensures CellOk(Step(s, t), u, j) && HeldOk(Step(s, t), u, j) {
      StepCell(s, t, u, j);
      StepHeld(s, t, u, j);
    }
    forall u: nat | u < s.n ensures QueueOk(Step(s, t), u) { StepQueue(s, t, u); }
  }

  lemma NotFull(head: nat, tail: nat)
    requires tail <= head < tail + QUEUE_SIZE && (head + 1) % QUEUE_SIZE != tail % QUEUE_SIZE
    ensures head + 1 < tail + QUEUE_SIZE
  {}

  lemma DeferQueue(s: State, t: nat, item: Item)
    requires Shaped(s) && CanDefer(s, t) && QueueOk(s, t)
    ensures QueueOk(Defer(s, t, item), t)
  {
    NotFull(s.head[t], s.tail[t]);
    forall p | s.tail[t] <= p < s.head[t] ensures p % QUEUE_SIZE != s.head[t] % QUEUE_SIZE {}
  }

  lemma DeferKeeps(s: State, t: nat, item: Item)
    requires Inv(s) && CanDefer(s, t)
    ensures Inv(Defer(s, t, item))
  {
    var s' := Defer(s, t, item);
    forall u: nat, j: nat | u < s.n && j < s.n ensures CellOk(s', u, j) && HeldOk(s', u, j) {
      assert CellOk(s, u, j) && HeldOk(s, u, j) && QueueOk(s, j);
    }
    forall u: nat | u < s.n ensures QueueOk(s', u) {
      assert QueueOk(s, u);
      if u == t { DeferQueue(s, t, item); }
    }
  }

  lemma StartKeeps(s: State, t: nat)
    requires Inv(s) && CanUpdate(s, t)
    ensures Inv(StartUpdate(s, t))
  {
    var s' := StartUpdate(s, t);
    forall u: nat, j: nat | u < s.n && j < s.n ensures CellOk(s', u, j) && HeldOk(s', u, j) {
      assert CellOk(s, u, j) && HeldOk(s, u, j);
    }
    forall u: nat | u < s.n ensures QueueOk(s', u) { assert QueueOk(s, u); }
  }

  lemma ClientKeeps(s: State, t: nat, item: Item, s': State)
    requires Inv(s) && t < s.n && (s' == Drop(s, t, item) || (CanAcquire(s, t, item) && s' == Acquire(s, t, item)))
    ensures Inv(s')
  {
    forall u: nat, j: nat | u < s.n && j < s.n ensures CellOk(s', u, j) && HeldOk(s', u, j) {
      assert CellOk(s, u, j) && HeldOk(s, u, j);
    }
    forall u: nat | u < s.n ensures QueueOk(s', u) { assert QueueOk(s, u); }
  }

  lemma NextKeeps(s: State, a: Action, s': State)
    requires Inv(s) && NextBy(s, a, s')
    ensures Inv(s')
  {
    hide Inv;
    match a {
      case Run(t) => StepKeeps(s, t);
      case DeferFree(t, item) => DeferKeeps(s, t, item);
      case Update(t) => StartKeeps(s, t);
      case Take(t, item) => ClientKeeps(s, t, item, s');
      case Give(t, item) => ClientKeeps(s, t, item, s');
    }
  }

  lemma {:induction false} RunKeeps(run: seq<State>, actions: seq<Action>, i: nat)
    requires IsRun(run, actions) && i < |run|
    ensures Inv(run[i]) && run[i].n == run[0].n
  {
    hide Inv;
    if i == 0 {
      InitInv(run[0]);
    } else {
      RunKeeps(run, actions, i - 1);
      NextKeeps(run[i - 1], actions[i - 1], run[i]);
    }
  }

  // ----- the grace period ------------------------------------------------------------------------

  /** Steps from thread t to thread j around the ring. */
  ghost function Distance(n: nat, t: nat, j: nat): nat
    requires t < n && j < n
  {
    if t <= j then j - t else j + n - t
  }

  /** No cell of a column lags behind the owner's own. */
  lemma {:induction false} OwnCellIsLeast(s: State, t: nat, j: nat)
    requires Shaped(s) && CellsOk(s) && t < s.n && j < s.n
    ensures s.rcu[j][j] <= s.rcu[t][j]
    decreases Distance(s.n, t, j)
  {
    if t != j {
      assert CellOk(s, t, j);
      OwnCellIsLeast(s, Next(s.n, t), j);
    }
  }

  /** Whatever thread j may free, every other thread has been inside `rcu_update` after it was deferred. */
  lemma PassedByEveryone(s: State, t: nat, j: nat)
    requires Shaped(s) && CellsOk(s) && t < s.n && j < s.n && t != j
    ensures s.rcu[j][j] <= s.seen[t][j]
  {
    assert CellOk(s, t, j);
    OwnCellIsLeast(s, Next(s.n, t), j);
  }

  /** Grace period, over all runs: at the moment an item is freed, every other thread has taken a step inside
      `rcu_update` since the item was deferred, the item is the one deferred at the freed position, and nobody
      still holds a reference to it. */
  lemma GracePeriod(run: seq<State>, actions: seq<Action>, i: nat, j: nat, t: nat)
    requires IsRun(run, actions) && i < |actions| && actions[i] == Run(j)
    requires Shaped(run[i]) && j < run[i].n && run[i].pc[j].Freeing? && t < run[i].n
    ensures var s := run[i];
            var p := s.tail[j];
            && p < |s.deferred[j]| && run[i + 1].freed == s.freed[j := s.freed[j] + [s.deferred[j][p]]]
            && (t != j ==> p < s.seen[t][j])
            && s.deferred[j][p] !in s.held[t]
  {
    var s := run[i];
    RunKeeps(run, actions, i);
    assert QueueOk(s, j) && CellOk(s, j, j) && HeldOk(s, t, j);
    if t != j { PassedByEveryone(s, t, j); }
  }

  /** The action x is a step of t inside `rcu_update`, or the one with which t enters it. */
  ghost predicate StepsInside(run: seq<State>, actions: seq<Action>, x: nat, t: nat) {
    && x < |actions| && x < |run| && t < |run[x].pc|
    && (actions[x] == Update(t) || (actions[x] == Run(t) && Inside(run[x].pc[t])))
  }

  lemma SeenStep(s: State, a: Action, s': State, t: nat)
    requires Inv(s) && NextBy(s, a, s') && t < s.n
    ensures s'.n == s.n == |s'.seen| == |s.seen| == |s.pc|
    ensures if a == Update(t) || (a == Run(t) && Inside(s.pc[t])) then s'.seen[t] == s.head else s'.seen[t] == s.seen[t]
  {
    hide CellsOk, QueueOk, HeldOk, Put;
  }

  lemma {:induction false} SeenWhen(run: seq<State>, actions: seq<Action>, i: nat, t: nat, j: nat)
    requires IsRun(run, actions) && i < |run| && t < run[0].n && j < run[0].n
    ensures Shaped(run[i]) && run[i].n == run[0].n
    ensures run[i].seen[t][j] == 0 || exists x: nat :: x < i && StepsInside(run, actions, x, t) && run[i].seen[t] == run[x].head
  {
    hide Inv, NextBy;
    RunKeeps(run, actions, i);
    InvShaped(run[i]);
    if i > 0 {
      SeenWhen(run, actions, i - 1, t, j);
      RunKeeps(run, actions, i - 1);
      SeenStep(run[i - 1], actions[i - 1], run[i], t);
      if StepsInside(run, actions, i - 1, t) { assert run[i].seen[t] == run[i - 1].head; }
    }
  }

  lemma InvShaped(s: State)
    requires Inv(s)
    ensures Shaped(s)
  {}

  /** The same in terms of the steps of the run alone: when j frees the item at position p, every other thread has taken a
      step inside `rcu_update` at a moment when the item was in the queue already. */
  lemma GraceMoment(run: seq<State>, actions: seq<Action>, i: nat, j: nat, t: nat)
    requires IsRun(run, actions) && i < |actions| && actions[i] == Run(j)
    requires Shaped(run[i]) && j < run[i].n && run[i].pc[j].Freeing? && t < run[i].n && t != j
    ensures exists x: nat :: x < i && StepsInside(run, actions, x, t) && j < |run[x].head| && run[i].tail[j] < run[x].head[j]
  {
    hide Inv, NextBy, Shaped;
    RunKeeps(run, actions, i);
    GracePeriod(run, actions, i, j, t);
    SeenWhen(run, actions, i, t, j);
    InvShaped(run[i]);
    var x: nat :| x < i && StepsInside(run, actions, x, t) && run[i].seen[t] == run[x].head;
    RunKeeps(run, actions, x);
    assert j < |run[x].head| && run[i].tail[j] < run[x].head[j] by { SeenShaped(run[i]); }
  }

  lemma SeenShaped(s: State)
    requires Shaped(s)
    ensures |s.seen| == s.n && forall t :: 0 <= t < s.n ==> |s.seen[t]| == s.n
  {}

  // ----- progress --------------------------------------------------------------------------------

  /** t passed its cells of the columns below c, except its own column, on to the next thread. */
  ghost predicate PassedOn(s: State, t: nat, s': State, c: nat, u: nat, j: nat)
    requires Shaped(s) && Shaped(s') && s'.n == s.n && t < s.n && u < s.n && j < s.n
  {
    && s'.rcu[u][j] == (if u == Next(s.n, t) && j != t && j < c then s.rcu[t][j] else s.rcu[u][j])
    && s'.last[u][j] == (if u == t && j != t && j < c then s.rcu[t][j] else s.last[u][j])
  }

  /** The net effect of `rcu_update` run by one thread without interruption. */
  ghost predicate Updated(s: State, t: nat, s': State)
    requires Shaped(s) && t < s.n
  {
    && Shaped(s') && s'.n == s.n && s'.head == s.head && s'.deferred == s.deferred && s'.pc == s.pc
    && (forall u: nat, j: nat :: u < s.n && j < s.n ==> PassedOn(s, t, s', s.n, u, j))
    && s'.tail == s.tail[t := s.rcu[t][t]]
  }

  /** After thread j posted, one `rcu_update` of each thread in ring order, ending with j itself. */
  ghost predicate IsRound(rs: seq<State>, j: nat) {
    && |rs| > 0 && Shaped(rs[0]) && j < rs[0].n && |rs| == rs[0].n + 1
    && forall k :: 0 <= k < rs[0].n ==> Shaped(rs[k]) && rs[k].n == rs[0].n && Updated(rs[k], At(rs[0].n, j, k + 1), rs[k + 1])
  }

  /** The k-th thread after j. */
  ghost function At(n: nat, j: nat, k: nat): (r: nat)
    requires j < n
    ensures r < n
  {
    if k == 0 then j else Next(n, At(n, j, k - 1))
  }

  lemma {:induction false} AtWraps(n: nat, j: nat, k: nat)
    requires j < n && k <= n
    ensures At(n, j, k) == if j + k < n then j + k else j + k - n
  {
    if k > 0 { AtWraps(n, j, k - 1); }
  }

  /** After k updates the posted head has reached the k-th thread. */
  lemma {:induction false} HeadTravels(rs: seq<State>, j: nat, k: nat)
    requires IsRound(rs, j) && k < rs[0].n && CellsOk(rs[0])
    ensures Shaped(rs[k]) && rs[k].rcu[At(rs[0].n, j, k + 1)][j] == rs[0].last[j][j] && rs[k].tail[j] == rs[0].tail[j]
  {
    var n := rs[0].n;
    if k == 0 {
      assert CellOk(rs[0], j, j);
    } else {
      HeadTravels(rs, j, k - 1);
      AtWraps(n, j, k);
      assert Updated(rs[k - 1], At(n, j, k), rs[k]);
      assert PassedOn(rs[k - 1], At(n, j, k), rs[k], n, At(n, j, k + 1), j);
    }
  }

  /** One round in ring order frees everything that was posted before it. */
  lemma RoundFreesAllPosted(rs: seq<State>, j: nat)
    requires IsRound(rs, j) && CellsOk(rs[0])
    ensures Shaped(rs[rs[0].n]) && rs[rs[0].n].n == rs[0].n && rs[rs[0].n].tail[j] == rs[0].last[j][j]
  {
    var n := rs[0].n;
    HeadTravels(rs, j, n - 1);
    AtWraps(n, j, n);
    assert Updated(rs[n - 1], At(n, j, n), rs[n]);
  }

  // The same with everything else going on.

  /** Cells, posted heads and tails only grow. */
  ghost predicate Grown(s: State, s': State) {
    && Shaped(s) && Shaped(s') && s'.n == s.n
    && (forall u: nat, j: nat :: u < s.n && j < s.n ==> CellGrown(s, s', u, j))
    && (forall u :: 0 <= u < s.n ==> s.tail[u] <= s'.tail[u])
  }

  ghost predicate CellGrown(s: State, s': State, u: nat, j: nat)
    requires Shaped(s) && Shaped(s') && s'.n == s.n && u < s.n && j < s.n
  {
    s.rcu[u][j] <= s'.rcu[u][j] && s.last[u][j] <= s'.last[u][j]
  }

  lemma NextShaped(s: State, a: Action, s': State)
    requires Inv(s) && NextBy(s, a, s')
    ensures Shaped(s) && Shaped(s') && s'.n == s.n
  {
    NextKeeps(s, a, s');
  }

  lemma NextCellGrows(s: State, a: Action, s': State, u: nat, j: nat)
    requires Inv(s) && NextBy(s, a, s') && Shaped(s') && s'.n == s.n && u < s.n && j < s.n
    ensures CellGrown(s, s', u, j)
  {
    hide Put, QueueOk, HeldOk;
    assert CellOk(s, a.t, j);
  }

  lemma NextGrows(s: State, a: Action, s': State)
    requires Inv(s) && NextBy(s, a, s')
    ensures Grown(s, s')
  {
    hide Put, CellOk, QueueOk, HeldOk, CellGrown;
    NextShaped(s, a, s');
    forall u: nat, j: nat | u < s.n && j < s.n ensures CellGrown(s, s', u, j) { NextCellGrows(s, a, s', u, j); }
  }

  lemma {:induction false} RunGrows(run: seq<State>, actions: seq<Action>, i: nat, k: nat)
    requires IsRun(run, actions) && i <= k < |run|
    ensures Grown(run[i], run[k])
  {
    hide Inv, NextBy, CellGrown, Shaped;
    RunKeeps(run, actions, i);
    if i < k {
      RunGrows(run, actions, i, k - 1);
      RunKeeps(run, actions, k - 1);
      NextGrows(run[k - 1], actions[k - 1], run[k]);
      GrownTransitive(run[i], run[k - 1], run[k]);
    } else {
      GrownSelf(run[i]);
    }
  }

  lemma GrownSelf(s: State)
    requires Inv(s)
    ensures Grown(s, s)
  {}

  lemma GrownTransitive(s: State, s1: State, s2: State)
    requires Grown(s, s1) && Grown(s1, s2)
    ensures Grown(s, s2)
  {
    forall u: nat, j: nat | u < s.n && j < s.n ensures CellGrown(s, s2, u, j) {
      assert CellGrown(s, s1, u, j) && CellGrown(s1, s2, u, j);
    }
  }

  /** t, inside `rcu_update`, has passed v in column j on, or will: its own cell holds at least v.  In its own column t has
      instead freed up to v when it leaves. */
  ghost predicate Passing(s: State, t: nat, j: nat, v: nat) {
    && Shaped(s) && t < s.n && j < s.n && s.rcu[t][j] >= v
    && if t == j then s.pc[t].Idle? ==> s.tail[j] >= v
       else match s.pc[t]
            case Scan(i) => i > j ==> s.last[t][j] >= v
            case Load(i) => i > j ==> s.last[t][j] >= v
            case Post(i, x) => (i > j ==> s.last[t][j] >= v) && (i == j ==> x >= v)
            case _ => s.last[t][j] >= v
  }

  lemma PassingStep(s: State, a: Action, s': State, t: nat, j: nat, v: nat)
    requires Inv(s) && NextBy(s, a, s') && Passing(s, t, j, v) && Inside(s.pc[t]) && Shaped(s') && s'.n == s.n
    ensures Passing(s', t, j, v) && (Inside(s'.pc[t]) || s'.pc[t].Idle?)
  {
    hide Inv, CellsOk, QueueOk, HeldOk;
    NextCellGrows(s, a, s', t, j);
    if a == Run(t) { PassingOwn(s, t, j, v); } else { PassingOther(s, a, s', t); }
  }

  lemma PassingOwn(s: State, t: nat, j: nat, v: nat)
    requires Shaped(s) && Passing(s, t, j, v) && Inside(s.pc[t]) && Shaped(Step(s, t)) && Step(s, t).n == s.n
    requires CellGrown(s, Step(s, t), t, j)
    ensures Passing(Step(s, t), t, j, v) && (Inside(Step(s, t).pc[t]) || Step(s, t).pc[t].Idle?)
  {
    hide Put;
  }

  /** No other action moves a thread that is inside `rcu_update`. */
  lemma PassingOther(s: State, a: Action, s': State, t: nat)
    requires NextBy(s, a, s') && t < s.n && Inside(s.pc[t]) && a != Run(t) && Shaped(s') && s'.n == s.n
    ensures s'.pc[t] == s.pc[t]
  {
    hide Put;
  }

  /** Thread t's `rcu_update` begins with action b and has ended in state e; anything may happen in between. */
  ghost predicate Updates(run: seq<State>, actions: seq<Action>, t: nat, b: nat, e: nat) {
    && b < e < |run| && b < |actions| && actions[b] == Update(t) && t < |run[e].pc| && run[e].pc[t].Idle?
    && forall x :: b < x < e ==> t < |run[x].pc| && !run[x].pc[t].Idle?
  }

  lemma {:induction false} PassingOn(run: seq<State>, actions: seq<Action>, t: nat, b: nat, e: nat, x: nat, j: nat, v: nat)
    requires IsRun(run, actions) && Updates(run, actions, t, b, e) && b < x <= e
    requires Shaped(run[b]) && j < run[b].n && t < run[b].n && v <= run[b].rcu[t][j]
    ensures Passing(run[x], t, j, v) && (Inside(run[x].pc[t]) || (x == e && run[x].pc[t].Idle?))
  {
    hide Inv, Passing, NextBy, Shaped;
    RunKeeps(run, actions, x - 1);
    var s, a := run[x - 1], actions[x - 1];
    NextShaped(s, a, run[x]);
    if x == b + 1 {
      PassingBegins(s, run[x], t, j, v);
    } else {
      PassingOn(run, actions, t, b, e, x - 1, j, v);
      PassingStep(s, a, run[x], t, j, v);
    }
  }

  lemma PassingBegins(s: State, s': State, t: nat, j: nat, v: nat)
    requires NextBy(s, Update(t), s') && j < s.n && v <= s.rcu[t][j]
    ensures Passing(s', t, j, v) && Inside(s'.pc[t])
  {}

  /** An update passes on at least what the cell held when it began, and in its own column frees as much. */
  lemma UpdatePasses(run: seq<State>, actions: seq<Action>, t: nat, b: nat, e: nat, j: nat)
    requires IsRun(run, actions) && Updates(run, actions, t, b, e) && Shaped(run[b]) && j < run[b].n && t < run[b].n
    ensures Shaped(run[e]) && run[e].n == run[b].n
    ensures if t == j then run[e].tail[j] >= run[b].rcu[j][j] else run[e].rcu[Next(run[b].n, t)][j] >= run[b].rcu[t][j]
  {
    hide Put;
    RunGrows(run, actions, b, e);
    PassingOn(run, actions, t, b, e, e, j, run[b].rcu[t][j]);
    RunKeeps(run, actions, e);
    assert CellOk(run[e], t, j);
  }

  /** One `rcu_update` of each thread in ring order, ending with j, each begun after the one before it ended; the rest of
      the system goes on meanwhile. */
  ghost predicate IsLooseRound(run: seq<State>, actions: seq<Action>, start: nat, j: nat, bs: seq<nat>, es: seq<nat>) {
    && start < |run| && |bs| == |es| == run[start].n && j < run[start].n
    && forall k :: 0 <= k < |bs| ==>
         && Updates(run, actions, At(run[start].n, j, k + 1), bs[k], es[k])
         && (if k == 0 then start else es[k - 1]) <= bs[k]
  }

  /** After k of these updates the head posted at the start, or a later one, has reached the next thread. */
  lemma {:induction false} LooseHeadTravels(run: seq<State>, actions: seq<Action>, start: nat, j: nat, bs: seq<nat>, es: seq<nat>, k: nat)
    requires IsRun(run, actions) && IsLooseRound(run, actions, start, j, bs, es) && k < |bs| && Shaped(run[start])
    ensures bs[k] < |run| && Shaped(run[bs[k]]) && run[bs[k]].n == run[start].n && start <= bs[k]
    ensures run[bs[k]].rcu[At(run[start].n, j, k + 1)][j] >= run[start].last[j][j]
  {
    hide Inv, CellOk, Put;
    var n, v := run[start].n, run[start].last[j][j];
    assert Updates(run, actions, At(n, j, k + 1), bs[k], es[k]);
    if k == 0 {
      RunKeeps(run, actions, start);
      PostedCell(run[start], j);
      RunGrows(run, actions, start, bs[0]);
      assert CellGrown(run[start], run[bs[0]], Next(n, j), j);
    } else {
      LooseHeadTravels(run, actions, start, j, bs, es, k - 1);
      AtWraps(n, j, k);
      assert Updates(run, actions, At(n, j, k), bs[k - 1], es[k - 1]);
      UpdatePasses(run, actions, At(n, j, k), bs[k - 1], es[k - 1], j);
      RunGrows(run, actions, es[k - 1], bs[k]);
      assert CellGrown(run[es[k - 1]], run[bs[k]], At(n, j, k + 1), j);
    }
  }

  lemma PostedCell(s: State, j: nat)
    requires Inv(s) && j < s.n
    ensures s.rcu[Next(s.n, j)][j] == s.last[j][j]
  {
    assert CellOk(s, j, j);
  }

  /** Progress, over all runs: with deferrals, other updates and other steps interleaved at will, a round frees everything
      its owner had posted before it. */
  lemma LooseRoundFreesAllPosted(run: seq<State>, actions: seq<Action>, start: nat, j: nat, bs: seq<nat>, es: seq<nat>)
    requires IsRun(run, actions) && IsLooseRound(run, actions, start, j, bs, es) && Shaped(run[start])
    ensures var e := es[run[start].n - 1];
            && e < |run| && Shaped(run[e]) && run[e].n == run[start].n
            && run[e].tail[j] >= run[start].last[j][j] && |run[e].freed[j]| >= run[start].last[j][j]
  {
    hide Put;
    var n := run[start].n;
    LooseHeadTravels(run, actions, start, j, bs, es, n - 1);
    AtWraps(n, j, n);
    assert Updates(run, actions, At(n, j, n), bs[n - 1], es[n - 1]);
    UpdatePasses(run, actions, j, bs[n - 1], es[n - 1], j);
    RunKeeps(run, actions, es[n - 1]);
    assert QueueOk(run[es[n - 1]], j);
  }

  /** How far an uninterrupted `rcu_update` of t, begun in s0, has come. */
  ghost predicate Partly(s0: State, t: nat, s: State)
    requires Shaped(s0) && t < s0.n
  {
    && Shaped(s) && s.n == s0.n && s.head == s0.head && s.deferred == s0.deferred
    && (forall u :: 0 <= u < s.n && u != t ==> s.pc[u] == s0.pc[u] && s.tail[u] == s0.tail[u])
    && (forall u: nat, j: nat :: u < s.n && j < s.n ==> PassedOn(s0, t, s, Columns(s, t), u, j))
    && match s.pc[t]
       case Idle => s.tail[t] == s0.rcu[t][t]
       case Check => s.tail[t] <= s0.rcu[t][t]
       case Freeing => s.tail[t] < s0.rcu[t][t]
       case Post(i, x) => x == s0.rcu[t][i] && s.tail == s0.tail
       case _ => s.tail == s0.tail
  }

  ghost function Columns(s: State, t: nat): nat
    requires Shaped(s) && t < s.n
  {
    match s.pc[t] case Scan(i) => i case Load(i) => i case Post(i, _) => i case _ => s.n
  }

  lemma PassedStep(s0: State, t: nat, s: State, u: nat, j: nat)
    requires Inv(s0) && Inv(s) && t < s0.n && Partly(s0, t, s) && Inside(s.pc[t]) && Shaped(Step(s, t))
    requires Step(s, t).n == s.n && u < s.n && j < s.n
    ensures PassedOn(s0, t, Step(s, t), Columns(Step(s, t), t), u, j)
  {
    hide Put, QueueOk, HeldOk;
    assert PassedOn(s0, t, s, Columns(s, t), u, j) && PassedOn(s0, t, s, Columns(s, t), t, j);
    assert CellOk(s, t, j) && CellOk(s0, t, j);
  }

  lemma PartlySteps(s0: State, t: nat, s: State)
    requires Inv(s0) && Inv(s) && t < s0.n && Partly(s0, t, s) && Inside(s.pc[t])
    ensures Partly(s0, t, Step(s, t))
  {
    hide PassedOn, Put;
    var s' := Step(s, t);
    StepShaped(s, t);
    OwnCellStays(s0, t, s);
    assert s'.head == s.head && s'.deferred == s.deferred;
    assert forall u :: 0 <= u < s.n && u != t ==> s'.pc[u] == s.pc[u] && s'.tail[u] == s.tail[u];
    forall u: nat, j: nat | u < s.n && j < s.n ensures PassedOn(s0, t, s', Columns(s', t), u, j) {
      PassedStep(s0, t, s, u, j);
    }
    assert QueueOk(s, t);
  }

  lemma OwnCellStays(s0: State, t: nat, s: State)
    requires Shaped(s0) && t < s0.n && Partly(s0, t, s)
    ensures s.rcu[t][t] == s0.rcu[t][t] && forall j: nat :: j < s.n ==> s.rcu[t][j] == s0.rcu[t][j]
  {
    forall j: nat | j < s.n ensures s.rcu[t][j] == s0.rcu[t][j] { assert PassedOn(s0, t, s, Columns(s, t), t, j); }
  }

  lemma {:induction false} PostedIsGreatest(s: State, j: nat, k: nat)
    requires Shaped(s) && CellsOk(s) && j < s.n && k < s.n
    ensures s.rcu[At(s.n, j, k + 1)][j] <= s.last[j][j]
  {
    if k == 0 {
      assert CellOk(s, j, j);
    } else {
      PostedIsGreatest(s, j, k - 1);
      AtWraps(s.n, j, k);
      assert CellOk(s, At(s.n, j, k), j);
    }
  }

  /** The order around the ring: tail, own cell, every thread's cell, last posted head, head. */
  lemma RingOrder(s: State, t: nat, j: nat)
    requires Shaped(s) && CellsOk(s) && t < s.n && j < s.n && QueueOk(s, j)
    ensures s.tail[j] <= s.rcu[j][j] <= s.rcu[t][j] <= s.last[j][j] <= s.head[j]
    ensures t != j ==> s.rcu[Next(s.n, t)][j] <= s.rcu[t][j]
  {
    OwnCellIsLeast(s, t, j);
    assert CellOk(s, j, j) && CellOk(s, t, j);
    var k := if t == j then s.n else Distance(s.n, j, t);
    AtWraps(s.n, j, k);
    PostedIsGreatest(s, j, k - 1);
  }

  // ----- what clients hand in --------------------------------------------------------------------

  /** What thread t passes to `rcu_defer_free`, in order. */
  function HandedIn(actions: seq<Action>, t: nat): seq<Item> {
    if actions == [] then []
    else
      var a, before := actions[|actions| - 1], HandedIn(actions[..|actions| - 1], t);
      if a.DeferFree? && a.t == t then before + [a.item] else before
  }

  lemma DeferredStep(s: State, a: Action, s': State, t: nat)
    requires Inv(s) && NextBy(s, a, s') && t < s.n
    ensures s'.n == s.n == |s'.deferred| == |s.deferred|
    ensures s'.deferred[t] == if a.DeferFree? && a.t == t then s.deferred[t] + [a.item] else s.deferred[t]
  {
    hide CellsOk, QueueOk, HeldOk, Put;
  }

  lemma {:induction false} DeferredWasHandedIn(run: seq<State>, actions: seq<Action>, i: nat, t: nat)
    requires IsRun(run, actions) && i < |run| && t < run[0].n
    ensures t < |run[i].deferred| && run[i].deferred[t] == HandedIn(actions[..i], t)
  {
    hide Inv, NextBy;
    if i > 0 {
      DeferredWasHandedIn(run, actions, i - 1, t);
      RunKeeps(run, actions, i - 1);
      DeferredStep(run[i - 1], actions[i - 1], run[i], t);
      assert actions[..i][..i - 1] == actions[..i - 1];
    }
  }

  /** Over all runs: thread t's queue has taken exactly what was handed in, and what is freed is a prefix of it. */
  lemma FreesWhatWasHandedIn(run: seq<State>, actions: seq<Action>, i: nat, t: nat)
    requires IsRun(run, actions) && i < |run| && t < run[0].n
    ensures Shaped(run[i]) && t < run[i].n && run[i].head[t] == |HandedIn(actions[..i], t)|
    ensures run[i].tail[t] <= run[i].head[t] && run[i].freed[t] == HandedIn(actions[..i], t)[..run[i].tail[t]]
  {
    RunKeeps(run, actions, i);
    DeferredWasHandedIn(run, actions, i, t);
    assert QueueOk(run[i], t);
  }

  /** The head is about to be posted exactly when ten items were deferred since the last time. */
  ghost predicate PostsInTime(s: State, t: nat)
    requires Shaped(s) && t < s.n
  {
    if s.pc[t].PostHead? then s.head[t] == s.last[t][t] + POST_THRESHOLD else s.head[t] < s.last[t][t] + POST_THRESHOLD
  }

  lemma PostsStep(s: State, a: Action, s': State, t: nat)
    requires Inv(s) && NextBy(s, a, s') && t < s.n && Shaped(s') && s'.n == s.n && PostsInTime(s, t)
    ensures PostsInTime(s', t)
  {
    hide Put, QueueOk, HeldOk;
    assert CellOk(s, t, t);
  }

  lemma {:induction false} RunPostsInTime(run: seq<State>, actions: seq<Action>, i: nat, t: nat)
    requires IsRun(run, actions) && i < |run| && t < run[0].n
    ensures Shaped(run[i]) && t < run[i].n && PostsInTime(run[i], t)
  {
    hide Inv, NextBy, Shaped, PostsInTime;
    if i == 0 {
      PostsFirst(run[0], t);
    } else {
      RunPostsInTime(run, actions, i - 1, t);
      RunKeeps(run, actions, i - 1);
      NextShaped(run[i - 1], actions[i - 1], run[i]);
      PostsStep(run[i - 1], actions[i - 1], run[i], t);
    }
  }

  lemma PostsFirst(s: State, t: nat)
    requires Init(s) && t < s.n
    ensures Shaped(s) && PostsInTime(s, t)
  {}

  /** Altogether, over all runs: after a round every item that j had handed in before it is freed, in order, except the last
      nine, or the last ten when j is just about to post. */
  lemma RoundFreesHandedIn(run: seq<State>, actions: seq<Action>, start: nat, j: nat, bs: seq<nat>, es: seq<nat>)
    requires IsRun(run, actions) && IsLooseRound(run, actions, start, j, bs, es) && Shaped(run[start])
    ensures var e, before := es[run[start].n - 1], HandedIn(actions[..start], j);
            && e < |run| && j < |run[e].freed| && |run[e].freed[j]| + POST_THRESHOLD >= |before|
            && (!run[start].pc[j].PostHead? ==> |run[e].freed[j]| + POST_THRESHOLD > |before|)
            && run[e].freed[j] <= HandedIn(actions[..e], j)
  {
    hide Inv, Updates, IsRun;
    RunKeeps(run, actions, start);
    LooseRoundFreesAllPosted(run, actions, start, j, bs, es);
    FreesWhatWasHandedIn(run, actions, start, j);
    FreesWhatWasHandedIn(run, actions, es[run[start].n - 1], j);
    RunPostsInTime(run, actions, start, j);
  }

  /** The action x takes a reference to item that t does not drop before state i. */
  ghost predicate TakenAt(actions: seq<Action>, x: nat, i: nat, t: nat, item: Item) {
    x < i <= |actions| && actions[x] == Take(t, item) && forall y :: x < y < i ==> actions[y] != Give(t, item)
  }

  lemma HeldStep(s: State, a: Action, s': State, t: nat, item: Item)
    requires Inv(s) && NextBy(s, a, s') && t < s.n
    ensures s'.n == s.n == |s'.held| == |s.held|
    ensures item in s'.held[t] <==> a == Take(t, item) || (item in s.held[t] && a != Give(t, item))
  {
    hide CellsOk, QueueOk, HeldOk, Put;
  }

  /** Over all runs: a thread holds exactly the references it took and did not drop. */
  lemma {:induction false} HeldWereTaken(run: seq<State>, actions: seq<Action>, i: nat, t: nat, item: Item)
    requires IsRun(run, actions) && i < |run| && t < run[0].n
    ensures t < |run[i].held| && (item in run[i].held[t] <==> IsTaken(actions, i, t, item))
  {
    hide Inv, NextBy;
    if i > 0 {
      HeldWereTaken(run, actions, i - 1, t, item);
      RunKeeps(run, actions, i - 1);
      HeldStep(run[i - 1], actions[i - 1], run[i], t, item);
      TakenOn(actions, i, t, item);
    }
  }

  ghost predicate IsTaken(actions: seq<Action>, i: nat, t: nat, item: Item) {
    exists x: nat :: TakenAt(actions, x, i, t, item)
  }

  lemma TakenOn(actions: seq<Action>, i: nat, t: nat, item: Item)
    requires 0 < i <= |actions|
    ensures IsTaken(actions, i, t, item)
            <==> actions[i - 1] == Take(t, item) || (IsTaken(actions, i - 1, t, item) && actions[i - 1] != Give(t, item))
  {
    if actions[i - 1] == Take(t, item) {
      assert TakenAt(actions, i - 1, i, t, item);
    } else if IsTaken(actions, i, t, item) {
      var x: nat :| TakenAt(actions, x, i, t, item);
      assert TakenAt(actions, x, i - 1, t, item);
    } else if IsTaken(actions, i - 1, t, item) && actions[i - 1] != Give(t, item) {
      var x: nat :| TakenAt(actions, x, i - 1, t, item);
      assert TakenAt(actions, x, i, t, item);
    }
  }

  // ----- the operations in place -----------------------------------------------------------------

  class Runtime {
    const n: nat
    var rcu: seq<seq<nat>>
    var last: seq<seq<nat>>
    var head: seq<nat>
    var tail: seq<nat>
    var x: seq<seq<Item>>
    var pc: seq<Pc>
    ghost var deferred: seq<seq<Item>>
    ghost var freed: seq<seq<Item>>
    ghost var seen: seq<seq<nat>>
    ghost var held: seq<set<Item>>

    ghost function St(): State
      reads this
    {
      State(n, rcu, last, head, tail, x, pc, deferred, freed, seen, held)
    }

    constructor (threads: nat)
      requires threads > 0
      ensures n == threads && Init(St()) && Inv(St())
    {
      n := threads;
      rcu, last := seq(threads, _ => seq(threads, _ => 0)), seq(threads, _ => seq(threads, _ => 0));
      head, tail, pc := seq(threads, _ => 0), seq(threads, _ => 0), seq(threads, _ => Idle);
      x := seq(threads, _ => seq(QUEUE_SIZE, _ => 0));
      deferred, freed, held := seq(threads, _ => []), seq(threads, _ => []), seq(threads, _ => {});
      seen := seq(threads, _ => seq(threads, _ => 0));
      new;
      InitInv(St());
    }

    /** One statement of the loop in which thread t passes the posted heads on. */
    method PassStep(t: nat)
      requires Shaped(St()) && t < n && (pc[t].Scan? || pc[t].Load? || pc[t].Post?)
      modifies this
      ensures St() == Step(old(St()), t)
    {
      hide Put;
      seen := seen[t := head];
      match pc[t] {
        case Scan(i) =>
          if i == n { pc := pc[t := Check]; }
          else if i == t || rcu[t][i] == last[t][i] { pc := pc[t := Scan(i + 1)]; }
          else { pc := pc[t := Load(i)]; }
        case Load(i) =>
          pc := pc[t := Post(i, rcu[t][i])];
        case Post(i, v) =>
          last := Put(last, t, i, v);
          rcu := Put(rcu, Next(n, t), i, v);
          pc := pc[t := Scan(i + 1)];
      }
    }

    /** One statement of the loop in which thread t frees what has come back to it. */
    method FreeStep(t: nat) returns (freedItem: seq<Item>)
      requires Shaped(St()) && t < n && (pc[t].Check? || pc[t].Freeing?)
      modifies this
      ensures St() == Step(old(St()), t)
      ensures freedItem == if old(pc[t]).Freeing? then [old(x[t][tail[t] % QUEUE_SIZE])] else []
    {
      seen := seen[t := head];
      freedItem := [];
      if pc[t].Check? {
        pc := pc[t := if tail[t] != rcu[t][t] then Freeing else Idle];
      } else {
        freedItem := [x[t][tail[t] % QUEUE_SIZE]];
        freed := freed[t := freed[t] + freedItem];
        tail := tail[t := tail[t] + 1];
        pc := pc[t := Check];
      }
    }

    /** Any statement of thread t's pending call. */
    method RunStep(t: nat)
      requires Inv(St()) && t < n && !pc[t].Idle?
      modifies this
      ensures St() == Step(old(St()), t) && Inv(St())
    {
      hide Inv, Put;
      StepKeeps(St(), t);
      InvShaped(St());
      if pc[t].PostHead? {
        rcu := Put(rcu, Next(n, t), t, head[t]);
        last := Put(last, t, t, head[t]);
        pc := pc[t := Idle];
      } else if pc[t].Check? || pc[t].Freeing? {
        var _ := FreeStep(t);
      } else {
        PassStep(t);
      }
    }

    /** `rcu_defer_free` up to the decision to post. */
    method DeferFree(t: nat, item: Item)
      requires Inv(St()) && CanDefer(St(), t)
      modifies this
      ensures St() == Defer(old(St()), t, item) && Inv(St())
      ensures deferred == old(deferred)[t := old(deferred)[t] + [item]] && Queued(t, old(head)[t], item)
    {
      hide Inv;
      DeferKeeps(St(), t, item);
      x := Put(x, t, head[t] % QUEUE_SIZE, item);
      head := head[t := head[t] + 1];
      deferred := deferred[t := deferred[t] + [item]];
      if head[t] - last[t][t] >= POST_THRESHOLD { pc := pc[t := PostHead]; }
    }

    /** The item is at position p of t's queue. */
    ghost predicate Queued(t: nat, p: nat, item: Item)
      reads this
    {
      t < |x| && |x[t]| == QUEUE_SIZE && x[t][p % QUEUE_SIZE] == item
    }

    /** Thread t enters `rcu_update`, to go on with `RunStep`. */
    method Enter(t: nat)
      requires Inv(St()) && CanUpdate(St(), t)
      modifies this`pc, this`seen
      ensures St() == StartUpdate(old(St()), t) && Inv(St())
    {
      hide Inv;
      StartKeeps(St(), t);
      pc, seen := pc[t := Scan(0)], seen[t := head];
    }

    /** `rcu_update` of one thread without interruption: it terminates, passes on every column but its own, and
        frees everything up to its own cell. */
    method Update(t: nat)
      requires Inv(St()) && CanUpdate(St(), t)
      modifies this
      ensures Inv(St()) && Updated(old(St()), t, St())
    {
      hide Inv, Partly, CellsOk;
      ghost var s0 := St();
      StartKeeps(s0, t);
      pc, seen := pc[t := Scan(0)], seen[t := head];
      PartlyStarts(s0, t);
      while !pc[t].Idle?
        invariant Inv(St()) && Shaped(St()) && t < n == s0.n && Partly(s0, t, St())
        invariant pc[t].Idle? || Inside(pc[t])
        decreases Rank(s0, t, St()).0, Rank(s0, t, St()).1, Rank(s0, t, St()).2
      {
        RankFalls(s0, t, St());
        PartlySteps(s0, t, St());
        RunStep(t);
        InvShaped(St());
      }
      PartlyEnds(s0, t, St());
    }

    lemma PartlyStarts(s0: State, t: nat)
      requires Inv(s0) && CanUpdate(s0, t) && St() == StartUpdate(s0, t)
      ensures Shaped(St()) && Partly(s0, t, St())
    {}

    lemma PartlyEnds(s0: State, t: nat, s: State)
      requires Inv(s0) && t < s0.n && s0.pc[t].Idle? && Partly(s0, t, s) && s.pc[t].Idle?
      ensures Updated(s0, t, s)
    {
      assert s.tail == s0.tail[t := s0.rcu[t][t]];
      assert s.pc == s0.pc;
      forall u: nat, j: nat | u < s.n && j < s.n ensures PassedOn(s0, t, s, s.n, u, j) {
        assert PassedOn(s0, t, s, Columns(s, t), u, j);
      }
    }
  }

  ghost function Rank(s0: State, t: nat, s: State): (int, int, int)
    requires Shaped(s0) && Shaped(s) && t < s0.n == s.n
  {
    match s.pc[t]
    case Scan(i) => (3, s.n - i, 2)
    case Load(i) => (3, s.n - i, 1)
    case Post(i, _) => (3, s.n - i, 0)
    case Check => (2, s0.rcu[t][t] as int - s.tail[t] as int, 1)
    case Freeing => (2, s0.rcu[t][t] as int - s.tail[t] as int, 0)
    case _ => (0, 0, 0)
  }

  lemma RankFalls(s0: State, t: nat, s: State)
    requires Inv(s0) && Inv(s) && t < s0.n && Partly(s0, t, s) && Inside(s.pc[t])
    ensures var s' := Step(s, t);
            && Shaped(s') && s'.n == s.n && (s'.pc[t].Idle? || Inside(s'.pc[t]))
            && var r, r' := Rank(s0, t, s), Rank(s0, t, s');
               && r.1 >= 0
               && (r'.0 < r.0 || (r'.0 == r.0 && (r'.1 < r.1 || (r'.1 == r.1 && r'.2 < r.2))))
  {
    StepShaped(s, t);
  }
}
