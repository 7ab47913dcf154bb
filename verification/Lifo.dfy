/** The array stack (src/lifo/clifo.c): a compare-and-swap on `head` reserves a slot, and the slot's own
    lock (EMPTY, BUSY or FULL) then hands the value over between the pusher and the popper that meet there.

    Every load, store and CAS is a step, of any number of threads, in any order. */
module Lifo {
  type Value = int

  datatype Lock = EMPTY | BUSY | FULL

  /** History: a slot is `occupied` from the unlock of a pusher there to the unlock of a popper. */
  datatype Slot = Slot(lock: Lock, value: Value, occupied: bool)

  datatype Result = Pushed | Full | Popped(value: Value) | Empty

  datatype Pc =
    | Idle
    | PushLoad(v: Value)
    | PushCas(v: Value, h: nat)
    | PushLock(v: Value, i: nat)      // slot i is reserved; spinning until it is EMPTY
    | PushStore(v: Value, i: nat)     // holds slot i
    | PushUnlock(v: Value, i: nat)    // holds slot i, the value is stored
    | PopLoad
    | PopCas(h: nat)
    | PopLock(i: nat)                 // slot i is reserved; spinning until it is FULL
    | PopRead(i: nat)                 // holds slot i
    | PopUnlock(i: nat, v: Value)     // holds slot i, the value was read
    | Done(res: Result)

  /** History: the values of all pushes that reserved a slot and of all pops that completed. */
  datatype State = State(head: nat, slots: seq<Slot>, pc: seq<Pc>, pushed: multiset<Value>, popped: multiset<Value>)

  predicate AtSlot(pc: Pc) {
    pc.PushLock? || pc.PushStore? || pc.PushUnlock? || pc.PopLock? || pc.PopRead? || pc.PopUnlock?
  }

  predicate Pushing(pc: Pc) { pc.PushLock? || pc.PushStore? || pc.PushUnlock? }

  predicate Popping(pc: Pc) { pc.PopLock? || pc.PopRead? || pc.PopUnlock? }

  predicate Holds(pc: Pc) { pc.PushStore? || pc.PushUnlock? || pc.PopRead? || pc.PopUnlock? }

  predicate Shaped(s: State) {
    && |s.slots| > 0
    && forall t :: 0 <= t < |s.pc| && AtSlot(s.pc[t]) ==> s.pc[t].i < |s.slots|
  }

  // ----- steps -----------------------------------------------------------------------------------

  predicate Pending(pc: Pc) { !pc.Idle? && !pc.Done? }

  function Goto(s: State, t: nat, pc: Pc): State
    requires t < |s.pc|
  {
    s.(pc := s.pc[t := pc])
  }

  function SetLock(s: State, i: nat, lock: Lock, occupied: bool): State
    requires i < |s.slots|
  {
    s.(slots := s.slots[i := s.slots[i].(lock := lock, occupied := occupied)])
  }

  function PushStep(s: State, t: nat): State
    requires Shaped(s) && t < |s.pc| && (Pushing(s.pc[t]) || s.pc[t].PushLoad? || s.pc[t].PushCas?)
  {
    match s.pc[t]
    case PushLoad(v) => Goto(s, t, if s.head == |s.slots| - 1 then Done(Full) else PushCas(v, s.head))
    case PushCas(v, h) =>
      if s.head == h then Goto(s, t, PushLock(v, h)).(head := h + 1, pushed := s.pushed + multiset{v})
      else Goto(s, t, PushLoad(v))
    case PushLock(v, i) =>
      if s.slots[i].lock == EMPTY then Goto(SetLock(s, i, BUSY, s.slots[i].occupied), t, PushStore(v, i)) else s
    case PushStore(v, i) => Goto(s, t, PushUnlock(v, i)).(slots := s.slots[i := s.slots[i].(value := v)])
    case PushUnlock(v, i) => Goto(SetLock(s, i, FULL, true), t, Done(Pushed))
  }

  function PopStep(s: State, t: nat): State
    requires Shaped(s) && t < |s.pc| && (Popping(s.pc[t]) || s.pc[t].PopLoad? || s.pc[t].PopCas?)
  {
    match s.pc[t]
    case PopLoad => Goto(s, t, if s.head == 0 then Done(Empty) else PopCas(s.head))
    case PopCas(h) =>
      if s.head == h && h > 0 then Goto(s, t, PopLock(h - 1)).(head := h - 1) else Goto(s, t, PopLoad)
    case PopLock(i) => if s.slots[i].lock == FULL then Goto(SetLock(s, i, BUSY, s.slots[i].occupied), t, PopRead(i)) else s
    case PopRead(i) => Goto(s, t, PopUnlock(i, s.slots[i].value))
    case PopUnlock(i, v) =>
      Goto(SetLock(s, i, EMPTY, false), t, Done(Popped(v))).(popped := s.popped + multiset{v})
  }

  predicate IsPush(pc: Pc) { Pushing(pc) || pc.PushLoad? || pc.PushCas? }

  function Step(s: State, t: nat): State
    requires Shaped(s) && t < |s.pc| && Pending(s.pc[t])
  {
    if IsPush(s.pc[t]) then PushStep(s, t) else PopStep(s, t)
  }

  datatype Action = Push(t: nat, v: Value) | Pop(t: nat) | Run(t: nat) | Return(t: nat)

  predicate NextBy(s: State, a: Action, s': State) {
    && Shaped(s) && a.t < |s.pc|
    && match a
       case Push(t, v) => s.pc[t].Idle? && s' == Goto(s, t, PushLoad(v))
       case Pop(t) => s.pc[t].Idle? && s' == Goto(s, t, PopLoad)
       case Run(t) => Pending(s.pc[t]) && s' == Step(s, t)
       case Return(t) => s.pc[t].Done? && s' == Goto(s, t, Idle)
  }

  predicate Init(s: State) {
    && s.head == 0 && |s.slots| > 0 && s.pushed == s.popped == multiset{}
    && (forall i :: 0 <= i < |s.slots| ==> s.slots[i].lock == EMPTY && !s.slots[i].occupied)
    && (forall t :: 0 <= t < |s.pc| ==> s.pc[t] == Idle)
  }

  predicate IsRun(run: seq<State>, actions: seq<Action>) {
    && |run| == |actions| + 1 && Init(run[0])
    && forall i :: 0 <= i < |actions| ==> NextBy(run[i], actions[i], run[i + 1])
  }

  // ----- sums over threads and slots -------------------------------------------------------------

  function Sum<T>(xs: seq<T>, f: T -> nat): nat {
    if xs == [] then 0 else Sum(xs[..|xs| - 1], f) + f(xs[|xs| - 1])
  }

  lemma {:induction false} SumUpdate<T>(xs: seq<T>, t: nat, x: T, f: T -> nat)
    requires t < |xs|
    ensures Sum(xs[t := x], f) + f(xs[t]) == Sum(xs, f) + f(x)
  {
    var n := |xs| - 1;
    if t < n {
      SumUpdate(xs[..n], t, x, f);
      assert xs[t := x][..n] == xs[..n][t := x];
    } else {
      assert xs[t := x][..n] == xs[..n];
    }
  }

  lemma {:induction false} SumNone<T>(xs: seq<T>, f: T -> nat)
    requires forall t :: 0 <= t < |xs| ==> f(xs[t]) == 0
    ensures Sum(xs, f) == 0
  {
    if xs != [] { SumNone(xs[..|xs| - 1], f); }
  }

  lemma {:induction false} SumHas<T>(xs: seq<T>, f: T -> nat) returns (t: nat)
    requires Sum(xs, f) > 0
    ensures t < |xs| && f(xs[t]) > 0
  {
    var n := |xs| - 1;
    if f(xs[n]) > 0 { t := n; } else { t := SumHas(xs[..n], f); }
  }

  lemma {:induction false} SumAtLeast<T>(xs: seq<T>, t: nat, f: T -> nat)
    requires t < |xs|
    ensures f(xs[t]) <= Sum(xs, f)
  {
    if t < |xs| - 1 { SumAtLeast(xs[..|xs| - 1], t, f); }
  }

  lemma {:induction false} SumTwo<T>(xs: seq<T>, t: nat, u: nat, f: T -> nat)
    requires t < u < |xs|
    ensures f(xs[t]) + f(xs[u]) <= Sum(xs, f)
  {
    var n := |xs| - 1;
    if u < n { SumTwo(xs[..n], t, u, f); } else { SumAtLeast(xs[..n], t, f); }
  }

  function One(b: bool): nat { if b then 1 else 0 }

  function PusherAt(i: nat): Pc -> nat { (p: Pc) => One(Pushing(p) && p.i == i) }

  function PopperAt(i: nat): Pc -> nat { (p: Pc) => One(Popping(p) && p.i == i) }

  function HolderAt(i: nat): Pc -> nat { (p: Pc) => One(Holds(p) && p.i == i) }

  /** A push under way has its value in hand until it unlocks; from then on the value lies in the slot. */
  function InHand(v: Value): Pc -> nat { (p: Pc) => One(Pushing(p) && p.v == v) }

  function Lying(v: Value): Slot -> nat { (x: Slot) => One(x.occupied && x.value == v) }

  // ----- invariant -------------------------------------------------------------------------------

  /** Pending pushers and the occupant balance pending poppers and the reservation below `head`; a BUSY slot has one
      holder and no other slot has one. */
  ghost predicate SlotOk(s: State, i: nat)
    requires i < |s.slots|
  {
    && Sum(s.pc, PusherAt(i)) + One(s.slots[i].occupied) == Sum(s.pc, PopperAt(i)) + One(i < s.head)
    && Sum(s.pc, HolderAt(i)) == One(s.slots[i].lock == BUSY)
    && (s.slots[i].lock == FULL ==> s.slots[i].occupied) && (s.slots[i].lock == EMPTY ==> !s.slots[i].occupied)
  }

  ghost predicate ThreadOk(s: State, t: nat)
    requires Shaped(s) && t < |s.pc|
  {
    match s.pc[t]
    case PushStore(_, i) => !s.slots[i].occupied
    case PushUnlock(v, i) => !s.slots[i].occupied && s.slots[i].value == v
    case PopRead(i) => s.slots[i].occupied
    case PopUnlock(i, v) => s.slots[i].occupied && s.slots[i].value == v
    case PushCas(v, h) => h + 1 < |s.slots|
    case PopCas(h) => h > 0
    case _ => true
  }

  /** No value is lost or duplicated. */
  ghost predicate Conserved(s: State, v: Value) {
    s.pushed[v] == Sum(s.pc, InHand(v)) + Sum(s.slots, Lying(v)) + s.popped[v]
  }

  ghost predicate Inv(s: State) {
    && Shaped(s) && s.head < |s.slots|
    && (forall v :: Conserved(s, v))
    && (forall i: nat :: i < |s.slots| ==> SlotOk(s, i))
    && (forall t: nat :: t < |s.pc| ==> ThreadOk(s, t))
  }

  lemma InitInv(s: State)
    requires Init(s)
    ensures Inv(s)
  {
    forall v ensures Conserved(s, v) {
      SumNone(s.pc, InHand(v));
      SumNone(s.slots, Lying(v));
    }
    forall i: nat | i < |s.slots| ensures SlotOk(s, i) {
      SumNone(s.pc, PusherAt(i));
      SumNone(s.pc, PopperAt(i));
      SumNone(s.pc, HolderAt(i));
    }
  }

  // ----- every step keeps it ---------------------------------------------------------------------

  lemma OneHolder(s: State, t: nat, u: nat)
    requires Shaped(s) && t < |s.pc| && u < |s.pc| && t != u && Holds(s.pc[t]) && Holds(s.pc[u]) && SlotOk(s, s.pc[t].i)
    ensures s.pc[t].i != s.pc[u].i
  {
    if t < u { SumTwo(s.pc, t, u, HolderAt(s.pc[t].i)); } else { SumTwo(s.pc, u, t, HolderAt(s.pc[t].i)); }
  }

  lemma HolderMakesBusy(s: State, t: nat)
    requires Shaped(s) && t < |s.pc| && Holds(s.pc[t]) && SlotOk(s, s.pc[t].i)
    ensures s.slots[s.pc[t].i].lock == BUSY
  {
    SumAtLeast(s.pc, t, HolderAt(s.pc[t].i));
  }

  lemma StepShaped(s: State, t: nat)
    requires Inv(s) && t < |s.pc| && Pending(s.pc[t])
    ensures var s' := Step(s, t);
            Shaped(s') && s'.head < |s.slots| == |s'.slots| && s'.pc == s.pc[t := s'.pc[t]]
  {
    hide SlotOk, Conserved;
    assert ThreadOk(s, t);
  }

  lemma PushSlot(s: State, t: nat, i: nat)
    requires Inv(s) && t < |s.pc| && IsPush(s.pc[t]) && i < |s.slots|
    ensures i < |PushStep(s, t).slots| && SlotOk(PushStep(s, t), i)
  {
    hide Sum, Conserved;
    assert SlotOk(s, i) && ThreadOk(s, t);
    if Holds(s.pc[t]) {
      assert SlotOk(s, s.pc[t].i);
      HolderMakesBusy(s, t);
    }
    StepShaped(s, t);
    var pc' := PushStep(s, t).pc[t];
    SumUpdate(s.pc, t, pc', PusherAt(i));
    SumUpdate(s.pc, t, pc', PopperAt(i));
    SumUpdate(s.pc, t, pc', HolderAt(i));
  }

  lemma PopSlot(s: State, t: nat, i: nat)
    requires Inv(s) && t < |s.pc| && Pending(s.pc[t]) && !IsPush(s.pc[t]) && i < |s.slots|
    ensures i < |PopStep(s, t).slots| && SlotOk(PopStep(s, t), i)
  {
    hide Sum, Conserved;
    assert SlotOk(s, i) && ThreadOk(s, t);
    if Holds(s.pc[t]) {
      assert SlotOk(s, s.pc[t].i);
      HolderMakesBusy(s, t);
    }
    StepShaped(s, t);
    var pc' := PopStep(s, t).pc[t];
    SumUpdate(s.pc, t, pc', PusherAt(i));
    SumUpdate(s.pc, t, pc', PopperAt(i));
    SumUpdate(s.pc, t, pc', HolderAt(i));
  }

  lemma StepThread(s: State, t: nat, u: nat)
    requires Inv(s) && t < |s.pc| && Pending(s.pc[t]) && u < |s.pc| && Shaped(Step(s, t))
    ensures |Step(s, t).pc| == |s.pc| && ThreadOk(Step(s, t), u)
  {
    hide Sum, Conserved;
    assert ThreadOk(s, u) && ThreadOk(s, t);
    if AtSlot(s.pc[t]) { assert SlotOk(s, s.pc[t].i); }
    if u == t {
      OwnThread(s, t);
    } else if Holds(s.pc[u]) {
      assert SlotOk(s, s.pc[u].i);
      HolderMakesBusy(s, u);
      if Holds(s.pc[t]) { OneHolder(s, t, u); }
    }
  }

  lemma OwnThread(s: State, t: nat)
    requires Shaped(s) && s.head < |s.slots| && t < |s.pc| && Pending(s.pc[t]) && Shaped(Step(s, t)) && ThreadOk(s, t)
    requires AtSlot(s.pc[t]) ==> SlotOk(s, s.pc[t].i)
    ensures |Step(s, t).pc| == |s.pc| && ThreadOk(Step(s, t), t)
  {
    hide Sum;
  }

  lemma StepConserves(s: State, t: nat, v: Value)
    requires Inv(s) && t < |s.pc| && Pending(s.pc[t])
    ensures Conserved(Step(s, t), v)
  {
    hide Sum, SlotOk;
    assert ThreadOk(s, t) && Conserved(s, v);
    var s' := Step(s, t);
    StepShaped(s, t);
    SumUpdate(s.pc, t, s'.pc[t], InHand(v));
    if AtSlot(s.pc[t]) {
      var i := s.pc[t].i;
      SumUpdate(s.slots, i, s'.slots[i], Lying(v));
      assert s'.slots == s.slots[i := s'.slots[i]];
    }
  }

  lemma StepKeeps(s: State, t: nat)
    requires Inv(s) && t < |s.pc| && Pending(s.pc[t])
    ensures Inv(Step(s, t))
  {
    hide SlotOk, ThreadOk, Conserved, PushStep, PopStep;
    StepShaped(s, t);
    var s' := Step(s, t);
    forall v ensures Conserved(s', v) { StepConserves(s, t, v); }
    forall i: nat | i < |s.slots| ensures SlotOk(s', i) {
      if IsPush(s.pc[t]) { PushSlot(s, t, i); } else { PopSlot(s, t, i); }
    }
    forall u: nat | u < |s'.pc| ensures ThreadOk(s', u) { StepThread(s, t, u); }
  }

  /** Calls begin and return without touching the stack. */
  lemma CallKeeps(s: State, t: nat, pc: Pc)
    requires Inv(s) && t < |s.pc| && !Pending(s.pc[t])
    requires pc.Idle? || pc.PushLoad? || pc.PopLoad?
    ensures Inv(Goto(s, t, pc))
  {
    hide Sum;
    var s' := Goto(s, t, pc);
    forall v ensures Conserved(s', v) {
      assert Conserved(s, v);
      SumUpdate(s.pc, t, pc, InHand(v));
    }
    forall i: nat | i < |s.slots| ensures SlotOk(s', i) {
      assert SlotOk(s, i);
      SumUpdate(s.pc, t, pc, PusherAt(i));
      SumUpdate(s.pc, t, pc, PopperAt(i));
      SumUpdate(s.pc, t, pc, HolderAt(i));
    }
    forall u: nat | u < |s'.pc| ensures ThreadOk(s', u) { assert ThreadOk(s, u); }
  }

  lemma {:induction false} RunKeeps(run: seq<State>, actions: seq<Action>, i: nat)
    requires IsRun(run, actions) && i < |run|
    ensures Inv(run[i])
  {
    hide Inv, Step;
    if i == 0 {
      InitInv(run[0]);
    } else {
      RunKeeps(run, actions, i - 1);
      var s := run[i - 1];
      assert NextBy(s, actions[i - 1], run[i]);
      match actions[i - 1] {
        case Push(t, v) => CallKeeps(s, t, PushLoad(v));
        case Pop(t) => CallKeeps(s, t, PopLoad);
        case Run(t) => StepKeeps(s, t);
        case Return(t) => CallKeeps(s, t, Idle);
      }
    }
  }

  // ----- results ---------------------------------------------------------------------------------

  /** The thread's next step is not a spin. */
  predicate Enabled(s: State, t: nat)
    requires Shaped(s) && t < |s.pc|
  {
    match s.pc[t]
    case PushLock(_, i) => s.slots[i].lock == EMPTY
    case PopLock(i) => s.slots[i].lock == FULL
    case pc => Pending(pc)
  }

  /** Whenever some thread is at slot i, some thread at slot i can proceed. */
  lemma SomeoneProceeds(s: State, t: nat) returns (u: nat)
    requires Inv(s) && t < |s.pc| && AtSlot(s.pc[t])
    ensures u < |s.pc| && AtSlot(s.pc[u]) && s.pc[u].i == s.pc[t].i && Enabled(s, u)
  {
    hide Sum, Conserved;
    var i := s.pc[t].i;
    assert SlotOk(s, i);
    SumAtLeast(s.pc, t, if Pushing(s.pc[t]) then PusherAt(i) else PopperAt(i));
    match s.slots[i].lock {
      case BUSY => u := SumHas(s.pc, HolderAt(i));
      case EMPTY => u := SumHas(s.pc, PusherAt(i));
      case FULL => u := SumHas(s.pc, PopperAt(i));
    }
    assert SlotOk(s, s.pc[u].i);
    if Holds(s.pc[u]) { HolderMakesBusy(s, u); }
  }

  /** With no thread inside an operation, exactly the slots below `head` are FULL, the others are EMPTY, and they hold
      what was pushed and not popped. */
  lemma AtRest(s: State, i: nat, v: Value)
    requires Inv(s) && i < |s.slots| && forall t :: 0 <= t < |s.pc| ==> !AtSlot(s.pc[t])
    ensures s.slots[i].lock == if i < s.head then FULL else EMPTY
    ensures s.pushed[v] == Sum(s.slots, Lying(v)) + s.popped[v]
  {
    hide Sum;
    assert SlotOk(s, i) && Conserved(s, v);
    SumNone(s.pc, PusherAt(i));
    SumNone(s.pc, PopperAt(i));
    SumNone(s.pc, HolderAt(i));
    SumNone(s.pc, InHand(v));
  }

  /** The same over all runs. */
  lemma RunSomeoneProceeds(run: seq<State>, actions: seq<Action>, x: nat, t: nat) returns (u: nat)
    requires IsRun(run, actions) && x < |run| && t < |run[x].pc| && AtSlot(run[x].pc[t])
    ensures var s := run[x]; Shaped(s) && u < |s.pc| && AtSlot(s.pc[u]) && s.pc[u].i == s.pc[t].i && Enabled(s, u)
  {
    RunKeeps(run, actions, x);
    u := SomeoneProceeds(run[x], t);
  }

  lemma RunAtRest(run: seq<State>, actions: seq<Action>, x: nat, i: nat, v: Value)
    requires IsRun(run, actions) && x < |run| && i < |run[x].slots| && forall t :: 0 <= t < |run[x].pc| ==> !AtSlot(run[x].pc[t])
    ensures var s := run[x];
            && s.slots[i].lock == (if i < s.head then FULL else EMPTY)
            && s.pushed[v] == Sum(s.slots, Lying(v)) + s.popped[v]
  {
    hide Sum;
    RunKeeps(run, actions, x);
    AtRest(run[x], i, v);
  }

  /** A completed pop returns a value whose push had reserved a slot, and no more often than it was pushed. */
  lemma PoppedWasPushed(run: seq<State>, actions: seq<Action>, i: nat, v: Value)
    requires IsRun(run, actions) && i < |run|
    ensures run[i].popped[v] <= run[i].pushed[v]
  {
    RunKeeps(run, actions, i);
    assert Conserved(run[i], v);
  }

  // ----- what a call does ------------------------------------------------------------------------

  /** The call that t begins with action i is still under way, or not yet returned from, in state j. */
  ghost predicate InCall(run: seq<State>, actions: seq<Action>, i: nat, j: nat, t: nat) {
    && i < j < |run| && i < |actions| && actions[i].t == t && (actions[i].Push? || actions[i].Pop?)
    && forall x :: i < x <= j ==> t < |run[x].pc| && !run[x].pc[t].Idle?
  }

  /** What t's own steps from state i to state j added to the pushed, and to the popped values. */
  ghost function PushedBy(run: seq<State>, actions: seq<Action>, t: nat, i: nat, j: nat): multiset<Value>
    requires i <= j < |run| == |actions| + 1
  {
    if i == j then multiset{}
    else PushedBy(run, actions, t, i, j - 1) + if actions[j - 1] == Run(t) then run[j].pushed - run[j - 1].pushed else multiset{}
  }

  ghost function PoppedBy(run: seq<State>, actions: seq<Action>, t: nat, i: nat, j: nat): multiset<Value>
    requires i <= j < |run| == |actions| + 1
  {
    if i == j then multiset{}
    else PoppedBy(run, actions, t, i, j - 1) + if actions[j - 1] == Run(t) then run[j].popped - run[j - 1].popped else multiset{}
  }

  /** How far the call a has come at pc, when t has pushed and popped this much in it. */
  ghost predicate Doing(a: Action, pc: Pc, pushed: multiset<Value>, popped: multiset<Value>) {
    match pc
    case PushLoad(v) => a == Push(a.t, v) && pushed == popped == multiset{}
    case PushCas(v, _) => a == Push(a.t, v) && pushed == popped == multiset{}
    case PushLock(v, _) => a == Push(a.t, v) && pushed == multiset{v} && popped == multiset{}
    case PushStore(v, _) => a == Push(a.t, v) && pushed == multiset{v} && popped == multiset{}
    case PushUnlock(v, _) => a == Push(a.t, v) && pushed == multiset{v} && popped == multiset{}
    case Done(res) =>
      (match res
       case Pushed => a.Push? && pushed == multiset{a.v} && popped == multiset{}
       case Full => a.Push? && pushed == popped == multiset{}
       case Popped(v) => a.Pop? && pushed == multiset{} && popped == multiset{v}
       case Empty => a.Pop? && pushed == popped == multiset{})
    case Idle => false
    case _ => a.Pop? && pushed == popped == multiset{}
  }

  lemma DoingStep(s: State, t: nat, a: Action, pushed: multiset<Value>, popped: multiset<Value>)
    requires Shaped(s) && t < |s.pc| && Pending(s.pc[t]) && a.t == t && Doing(a, s.pc[t], pushed, popped)
    ensures var s' := Step(s, t);
            t < |s'.pc| && Doing(a, s'.pc[t], pushed + (s'.pushed - s.pushed), popped + (s'.popped - s.popped))
  {
    hide Step, Doing, Effect;
    var s' := Step(s, t);
    if IsPush(s.pc[t]) { PushEffect(s, t); } else { PopEffect(s, t); }
    DoingOn(a, s.pc[t], s'.pc[t], pushed, popped, s'.pushed - s.pushed, s'.popped - s.popped);
  }

  /** Where one step takes a thread, and what it adds to the pushed and the popped values. */
  ghost predicate Effect(pc: Pc, pc': Pc, dPushed: multiset<Value>, dPopped: multiset<Value>) {
    match pc
    case PushLoad(v) => dPushed == dPopped == multiset{} && (pc' == Done(Full) || (pc'.PushCas? && pc'.v == v))
    case PushCas(v, _) =>
      && dPopped == multiset{}
      && ((dPushed == multiset{} && pc' == PushLoad(v)) || (dPushed == multiset{v} && pc'.PushLock? && pc'.v == v))
    case PushLock(v, _) => dPushed == dPopped == multiset{} && (pc' == pc || (pc'.PushStore? && pc'.v == v))
    case PushStore(v, _) => dPushed == dPopped == multiset{} && pc'.PushUnlock? && pc'.v == v
    case PushUnlock(v, _) => dPushed == dPopped == multiset{} && pc' == Done(Pushed)
    case PopLoad => dPushed == dPopped == multiset{} && (pc' == Done(Empty) || pc'.PopCas?)
    case PopCas(_) => dPushed == dPopped == multiset{} && (pc' == PopLoad || pc'.PopLock?)
    case PopLock(_) => dPushed == dPopped == multiset{} && (pc' == pc || pc'.PopRead?)
    case PopRead(_) => dPushed == dPopped == multiset{} && pc'.PopUnlock?
    case PopUnlock(_, v) => dPushed == multiset{} && dPopped == multiset{v} && pc' == Done(Popped(v))
    case _ => false
  }

  lemma PushEffect(s: State, t: nat)
    requires Shaped(s) && t < |s.pc| && IsPush(s.pc[t])
    ensures var s' := Step(s, t); t < |s'.pc| && Effect(s.pc[t], s'.pc[t], s'.pushed - s.pushed, s'.popped - s.popped)
  {
    assert s.pushed - s.pushed == multiset{} && s.popped - s.popped == multiset{};
    if s.pc[t].PushCas? { assert s.pushed + multiset{s.pc[t].v} - s.pushed == multiset{s.pc[t].v}; }
  }

  lemma PopEffect(s: State, t: nat)
    requires Shaped(s) && t < |s.pc| && Pending(s.pc[t]) && !IsPush(s.pc[t])
    ensures var s' := Step(s, t); t < |s'.pc| && Effect(s.pc[t], s'.pc[t], s'.pushed - s.pushed, s'.popped - s.popped)
  {
    assert s.pushed - s.pushed == multiset{} && s.popped - s.popped == multiset{};
    if s.pc[t].PopUnlock? { assert s.popped + multiset{s.pc[t].v} - s.popped == multiset{s.pc[t].v}; }
  }

  lemma DoingOn(a: Action, pc: Pc, pc': Pc, pushed: multiset<Value>, popped: multiset<Value>, dPushed: multiset<Value>, dPopped: multiset<Value>)
    requires Doing(a, pc, pushed, popped) && Effect(pc, pc', dPushed, dPopped)
    ensures Doing(a, pc', pushed + dPushed, popped + dPopped)
  {
    assert pushed + multiset{} == pushed && popped + multiset{} == popped;
    assert multiset{} + dPushed == dPushed && multiset{} + dPopped == dPopped;
  }

  lemma OthersStay(s: State, a: Action, s': State, t: nat)
    requires NextBy(s, a, s') && t < |s.pc| && (a.t != t || !a.Run?)
    ensures |s'.pc| == |s.pc| && (a.t != t ==> s'.pc[t] == s.pc[t])
    ensures !a.Run? ==> s'.pushed == s.pushed && s'.popped == s.popped
  {}

  /** Over all runs: a push that succeeds has pushed exactly its argument, a pop that succeeds has popped exactly what it
      returns, and one that refuses has done nothing, however often it lost the race for `head`. */
  lemma {:induction false} CallDoes(run: seq<State>, actions: seq<Action>, i: nat, j: nat, t: nat)
    requires IsRun(run, actions) && InCall(run, actions, i, j, t)
    ensures Doing(actions[i], run[j].pc[t], PushedBy(run, actions, t, i, j), PoppedBy(run, actions, t, i, j))
  {
    hide Doing, Step;
    var a := actions[j - 1];
    assert NextBy(run[j - 1], a, run[j]);
    if j == i + 1 {
      CallBegins(run[i], a, run[j], t);
      assert PushedBy(run, actions, t, i, j) == PoppedBy(run, actions, t, i, j) == multiset{};
    } else {
      CallDoes(run, actions, i, j - 1, t);
      if a == Run(t) {
        DoingStep(run[j - 1], t, actions[i], PushedBy(run, actions, t, i, j - 1), PoppedBy(run, actions, t, i, j - 1));
      } else {
        OthersStay(run[j - 1], a, run[j], t);
        assert PushedBy(run, actions, t, i, j) == PushedBy(run, actions, t, i, j - 1);
        assert PoppedBy(run, actions, t, i, j) == PoppedBy(run, actions, t, i, j - 1);
      }
    }
  }

  lemma CallBegins(s: State, a: Action, s': State, t: nat)
    requires NextBy(s, a, s') && a.t == t && (a.Push? || a.Pop?)
    ensures t < |s'.pc| && Doing(a, s'.pc[t], multiset{}, multiset{})
  {}

  /** Over all runs: a push refuses, and a pop finds nothing, only if the stack was full, or empty, inside the call. */
  lemma {:induction false} RefusalWasRight(run: seq<State>, actions: seq<Action>, i: nat, j: nat, t: nat)
    requires IsRun(run, actions) && InCall(run, actions, i, j, t) && run[j].pc[t].Done?
    ensures run[j].pc[t].res == Full ==> exists x :: i < x < j && run[x].head == |run[x].slots| - 1
    ensures run[j].pc[t].res == Empty ==> exists x :: i < x < j && run[x].head == 0
  {
    var a := actions[j - 1];
    assert NextBy(run[j - 1], a, run[j]);
    hide Step;
    if j > i + 1 && run[j - 1].pc[t].Done? {
      if a != Run(t) { OthersStay(run[j - 1], a, run[j], t); }
      RefusalWasRight(run, actions, i, j - 1, t);
    } else if j > i + 1 && a == Run(t) {
      RefusalStep(run[j - 1], t);
    } else if j > i + 1 {
      OthersStay(run[j - 1], a, run[j], t);
    }
  }

  lemma RefusalStep(s: State, t: nat)
    requires Shaped(s) && t < |s.pc| && Pending(s.pc[t])
    ensures var s' := Step(s, t);
            t < |s'.pc| && (s'.pc[t] == Done(Full) ==> s.head == |s.slots| - 1) && (s'.pc[t] == Done(Empty) ==> s.head == 0)
  {}

  /** How many steps a thread is from the end of its call when nobody else moves. */
  function Rank(s: State, t: nat): nat
    requires t < |s.pc|
  {
    match s.pc[t]
    case PushLoad(_) => 6
    case PushCas(_, h) => if h == s.head then 5 else 7
    case PushLock(_, _) => 4
    case PushStore(_, _) => 3
    case PushUnlock(_, _) => 2
    case PopLoad => 6
    case PopCas(h) => if h == s.head then 5 else 7
    case PopLock(_) => 4
    case PopRead(_) => 3
    case PopUnlock(_, _) => 2
    case _ => 0
  }

  /** A thread either spins on a slot's lock, or its step brings it nearer to the end of its call. */
  lemma SpinsOrNears(s: State, t: nat)
    requires Inv(s) && t < |s.pc| && Pending(s.pc[t])
    ensures t < |Step(s, t).pc| && if Enabled(s, t) then Rank(Step(s, t), t) < Rank(s, t) else Step(s, t) == s
  {
    hide SlotOk, Conserved;
    assert ThreadOk(s, t);
  }

  function Values(slots: seq<Slot>): seq<Value> { seq(|slots|, i requires 0 <= i < |slots| => slots[i].value) }

  lemma ValuesPushed(slots: seq<Slot>, h: nat, v: Value)
    requires h < |slots|
    ensures Values(slots[h := Slot(FULL, v, true)][..h + 1]) == Values(slots[..h]) + [v]
  {}

  lemma ValuesPopped(slots: seq<Slot>, h: nat)
    requires 0 < h <= |slots|
    ensures var v := slots[h - 1].value;
            Values(slots[h - 1 := Slot(EMPTY, v, false)][..h - 1]) + [v] == Values(slots[..h])
  {}

  /** A push, or a pop, that no other thread interrupts, from its CAS on. */
  lemma PushAlone(s: State, t: nat)
    requires Shaped(s) && t < |s.pc| && s.pc[t].PushCas? && s.pc[t].h == s.head < |s.slots|
    requires s.slots[s.head].lock == EMPTY
    ensures var s1 := Step(s, t);
            && Shaped(s1) && |s1.pc| == |s.pc| && Pending(s1.pc[t])
            && var s2 := Step(s1, t);
               && Shaped(s2) && |s2.pc| == |s.pc| && Pending(s2.pc[t])
               && var s3 := Step(s2, t);
                  && Shaped(s3) && |s3.pc| == |s.pc| && Pending(s3.pc[t])
                  && Step(s3, t) == s.(head := s.head + 1, slots := s.slots[s.head := Slot(FULL, s.pc[t].v, true)],
                                       pc := s.pc[t := Done(Pushed)], pushed := s.pushed + multiset{s.pc[t].v})
  {}

  lemma PopAlone(s: State, t: nat)
    requires Shaped(s) && t < |s.pc| && s.pc[t].PopCas? && 0 < s.pc[t].h == s.head <= |s.slots|
    requires s.slots[s.head - 1].lock == FULL
    ensures var v := s.slots[s.head - 1].value;
            var s1 := Step(s, t);
            && Shaped(s1) && |s1.pc| == |s.pc| && Pending(s1.pc[t])
            && var s2 := Step(s1, t);
               && Shaped(s2) && |s2.pc| == |s.pc| && Pending(s2.pc[t])
               && var s3 := Step(s2, t);
                  && Shaped(s3) && |s3.pc| == |s.pc| && Pending(s3.pc[t])
                  && Step(s3, t) == s.(head := s.head - 1, slots := s.slots[s.head - 1 := Slot(EMPTY, v, false)],
                                       pc := s.pc[t := Done(Popped(v))], popped := s.popped + multiset{v})
  {}

  // ----- the stack as the threads change it ------------------------------------------------------

  class Stack {
    var head: nat
    const slots: array<Slot>
    var pc: seq<Pc>
    ghost var pushed: multiset<Value>
    ghost var popped: multiset<Value>

    ghost function St(): State
      reads this, slots
    {
      State(head, slots[..], pc, pushed, popped)
    }

    /** The values in the stack when no operation is under way, bottom first. */
    ghost function Contents(): seq<Value>
      requires head <= slots.Length
      reads this, slots
    {
      Values(slots[..head])
    }

    ghost predicate Resting()
      reads this
    {
      forall t :: 0 <= t < |pc| ==> !AtSlot(pc[t])
    }

    constructor (size: nat, threads: nat)
      requires size > 0
      ensures fresh(slots) && slots.Length == size && |pc| == threads && Init(St()) && Inv(St())
    {
      head, pushed, popped := 0, multiset{}, multiset{};
      slots := new Slot[size](_ => Slot(EMPTY, 0, false));
      pc := seq(threads, _ => Idle);
      new;
      InitInv(St());
    }

    /** Thread t, not inside an operation, calls push or pop, or returns from one. */
    method Call(t: nat, to: Pc)
      requires Inv(St()) && t < |pc| && !Pending(pc[t]) && (to.Idle? || to.PushLoad? || to.PopLoad?)
      modifies this`pc
      ensures St() == Goto(old(St()), t, to) && Inv(St())
    {
      hide Inv;
      CallKeeps(St(), t, to);
      pc := pc[t := to];
    }

    /** The next statement of thread t, which is in the middle of a push or a pop. */
    method Advance(t: nat)
      requires Inv(St()) && t < |pc| && Pending(pc[t])
      modifies this, slots
      ensures St() == Step(old(St()), t) && Inv(St())
    {
      hide Inv, SlotOk, Conserved;
      assert Shaped(St()) by { StepShaped(St(), t); InvShaped(St()); }
      StepKeeps(St(), t);
      if IsPush(pc[t]) { AdvancePush(t); } else { AdvancePop(t); }
    }

    method AdvancePush(t: nat)
      requires Shaped(St()) && t < |pc| && IsPush(pc[t])
      modifies this, slots
      ensures St() == PushStep(old(St()), t)
    {
      match pc[t] {
        case PushLoad(v) => pc := pc[t := if head == slots.Length - 1 then Done(Full) else PushCas(v, head)];
        case PushCas(v, h) =>
          if head == h {
            head, pushed := h + 1, pushed + multiset{v};
            pc := pc[t := PushLock(v, h)];
          } else {
            pc := pc[t := PushLoad(v)];
          }
        case PushLock(v, i) =>
          if slots[i].lock == EMPTY {
            slots[i] := slots[i].(lock := BUSY);
            pc := pc[t := PushStore(v, i)];
          }
        case PushStore(v, i) =>
          slots[i] := slots[i].(value := v);
          pc := pc[t := PushUnlock(v, i)];
        case PushUnlock(v, i) =>
          slots[i] := slots[i].(lock := FULL, occupied := true);
          pc := pc[t := Done(Pushed)];
      }
    }

    method AdvancePop(t: nat)
      requires Shaped(St()) && t < |pc| && Pending(pc[t]) && !IsPush(pc[t])
      modifies this, slots
      ensures St() == PopStep(old(St()), t)
    {
      match pc[t] {
        case PopLoad => pc := pc[t := if head == 0 then Done(Empty) else PopCas(head)];
        case PopCas(h) =>
          if head == h && h > 0 {
            head := h - 1;
            pc := pc[t := PopLock(h - 1)];
          } else {
            pc := pc[t := PopLoad];
          }
        case PopLock(i) =>
          if slots[i].lock == FULL {
            slots[i] := slots[i].(lock := BUSY);
            pc := pc[t := PopRead(i)];
          }
        case PopRead(i) => pc := pc[t := PopUnlock(i, slots[i].value)];
        case PopUnlock(i, v) =>
          slots[i] := slots[i].(lock := EMPTY, occupied := false);
          popped := popped + multiset{v};
          pc := pc[t := Done(Popped(v))];
      }
    }

    lemma InvShaped(s: State)
      requires Inv(s)
      ensures Shaped(s) && s.head < |s.slots|
    {}

    /** `clifo_push` without interruption: the stack refuses only when all but one of its slots are used. */
    method Push(t: nat, v: Value) returns (r: Result)
      requires Inv(St()) && Resting() && t < |pc| && pc[t].Idle? && head < slots.Length
      modifies this, slots
      ensures Inv(St()) && Resting() && head < slots.Length
      ensures r == if old(head) == slots.Length - 1 then Full else Pushed
      ensures Contents() == if r == Full then old(Contents()) else old(Contents()) + [v]
    {
      hide Inv, SlotOk, Conserved, ThreadOk;
      CallKeeps(St(), t, PushLoad(v));
      pc := pc[t := PushLoad(v)];
      InvShaped(St());
      assert head < slots.Length - 1 ==> slots[head].lock == EMPTY by { AtRest(St(), head, 0); }
      Advance(t);
      r := Finish(t);
    }

    /** The rest of an operation, from the CAS on head, when nobody interrupts it. */
    method Finish(t: nat) returns (r: Result)
      requires Inv(St()) && t < |pc| && head < slots.Length && Resting()
      requires pc[t].PushCas? || pc[t].PopCas? || pc[t].Done?
      requires pc[t].PushCas? ==> pc[t].h == head < slots.Length - 1 && slots[head].lock == EMPTY
      requires pc[t].PopCas? ==> 0 < pc[t].h == head && slots[head - 1].lock == FULL
      modifies this, slots
      ensures Inv(St()) && head < slots.Length && Resting()
      ensures match old(pc[t])
              case PushCas(v, _) => r == Pushed && Contents() == old(Contents()) + [v]
              case PopCas(_) => r.Popped? && Contents() + [r.value] == old(Contents())
              case Done(res) => r == res && Contents() == old(Contents())
    {
      hide Inv, SlotOk, Conserved, ThreadOk, Step, Shaped, Values;
      InvShaped(St());
      ghost var s := St();
      if !pc[t].Done? {
        if pc[t].PushCas? {
          PushAlone(s, t);
          ValuesPushed(s.slots, head, pc[t].v);
        } else {
          PopAlone(s, t);
          ValuesPopped(s.slots, head);
        }
        Advance(t);
        Advance(t);
        Advance(t);
        Advance(t);
        InvShaped(St());
        assert slots[..head] == slots[..][..head] && s.slots[..s.head] == old(slots[..])[..s.head];
      }
      r := pc[t].res;
    }

    /** `clifo_pop` without interruption. */
    method Pop(t: nat) returns (r: Result)
      requires Inv(St()) && Resting() && t < |pc| && pc[t].Idle? && head < slots.Length
      modifies this, slots
      ensures Inv(St()) && Resting() && head < slots.Length
      ensures if old(Contents()) == [] then r == Empty && Contents() == []
              else r.Popped? && Contents() + [r.value] == old(Contents())
    {
      hide Inv, SlotOk, Conserved, ThreadOk;
      CallKeeps(St(), t, PopLoad);
      pc := pc[t := PopLoad];
      InvShaped(St());
      assert head > 0 ==> slots[head - 1].lock == FULL by { if head > 0 { AtRest(St(), head - 1, 0); } }
      Advance(t);
      r := Finish(t);
    }
  }
}
