/** Hazard pointers (src/runtime/hazard.c) with the static hazards of every thread.

    A client stores a pointer in one of its hazard slots and then checks that the pointer is still in its data
    structure; from then on it may use it.  A thread whose pending list is full reads all slots, one after the
    other and each one twice, while the clients go on, and then frees the pending pointers it did not find. */
module Hazard {
  /** Pointers; 0 is NULL.  A pointer names one allocation and is not reused. */
  type Ptr = nat

  const MAX_NUM_THREADS: nat := 32
  const STATIC_HAZ_PER_THREAD: nat := 2
  const SLOTS: nat := MAX_NUM_THREADS * STATIC_HAZ_PER_THREAD

  /** Where `haz_defer_free(d)` stands. */
  datatype Pc =
    | Idle
    | Defer(d: Ptr)                                            // about to test whether the pending list is full
    | Scan(d: Ptr, k: nat, found: seq<Ptr>)                    // about to compare slot k with NULL
    | Grab(d: Ptr, k: nat, found: seq<Ptr>)                    // about to read slot k again
    | Check(d: Ptr, found: seq<Ptr>, i: nat, c: nat)           // pending i is next, c were kept

  datatype Place = Linked | InHand(t: nat) | Waiting(t: nat) | Freed

  /** `size` and `pending` are each thread's list.  History: where every pointer is that was ever linked, what was
      freed in order, and which slots a client has validated since it set them. */
  datatype State = State(slots: seq<Ptr>, size: seq<nat>, pending: seq<seq<Ptr>>, pc: seq<Pc>,
                         place: map<Ptr, Place>, freed: seq<Ptr>, held: seq<bool>)

  predicate Shaped(s: State) {
    && |s.slots| == |s.held| == SLOTS && |s.size| == |s.pending| == |s.pc| == MAX_NUM_THREADS
    && forall t :: 0 <= t < |s.pc| ==> PcShaped(s.pc[t], |s.pending[t]|)
  }

  predicate PcShaped(pc: Pc, n: nat) {
    match pc
    case Scan(_, k, _) => k <= SLOTS
    case Grab(_, k, _) => k < SLOTS
    case Check(_, _, i, c) => c <= i <= n
    case _ => true
  }

  // ----- steps -----------------------------------------------------------------------------------

  function Goto(s: State, t: nat, pc: Pc): State
    requires t < |s.pc|
  {
    s.(pc := s.pc[t := pc])
  }

  /** The next step of a thread inside `haz_defer_free`.  The list is allocated with as many entries as there are slots,
      so the array of found hazards cannot overflow and the list is never resized. */
  function Step(s: State, t: nat): State
    requires Shaped(s) && t < |s.pc| && !s.pc[t].Idle?
  {
    match s.pc[t]
    case Defer(d) =>
      if |s.pending[t]| == s.size[t] != 0 then Goto(s, t, Scan(d, 0, []))
      else Goto(s, t, Idle).(size := if |s.pending[t]| == s.size[t] then s.size[t := SLOTS] else s.size,
                             pending := s.pending[t := s.pending[t] + [d]], place := s.place[d := Waiting(t)])
    case Scan(d, k, found) =>
      Goto(s, t, if k == SLOTS then Check(d, found, 0, 0)
                 else if s.slots[k] != 0 then Grab(d, k, found)
                 else Scan(d, k + 1, found))
    case Grab(d, k, found) => Goto(s, t, Scan(d, k + 1, found + [s.slots[k]]))
    case Check(d, found, i, c) =>
      if i == |s.pending[t]| then Goto(s, t, Defer(d)).(pending := s.pending[t := s.pending[t][..c]])
      else
        var p := s.pending[t][i];
        if p in found then
          Goto(s, t, Check(d, found, i + 1, c + 1)).(pending := s.pending[t := s.pending[t][c := p]])
        else
          Goto(s, t, Check(d, found, i + 1, c)).(place := s.place[p := Freed], freed := s.freed + [p])
  }

  datatype Action =
    | Link(p: Ptr)                    // a client puts a new allocation into a structure
    | Set(k: nat, p: Ptr)             // a client sets, or with NULL clears, a slot
    | Validate(k: nat)                // a client finds the pointer of its slot still linked
    | Unlink(t: nat, p: Ptr)          // a thread unlinks a pointer and calls haz_defer_free
    | Run(t: nat)

  predicate NextBy(s: State, a: Action, s': State) {
    && Shaped(s)
    && match a
       case Link(p) => p != 0 && p !in s.place && s' == s.(place := s.place[p := Linked])
       case Set(k, p) => k < SLOTS && s' == s.(slots := s.slots[k := p], held := s.held[k := false])
       case Validate(k) =>
         k < SLOTS && s.slots[k] in s.place && s.place[s.slots[k]] == Linked && s' == s.(held := s.held[k := true])
       case Unlink(t, p) =>
         && t < |s.pc| && s.pc[t].Idle? && p in s.place && s.place[p] == Linked
         && s' == Goto(s, t, Defer(p)).(place := s.place[p := InHand(t)])
       case Run(t) => t < |s.pc| && !s.pc[t].Idle? && s' == Step(s, t)
  }

  predicate Init(s: State) {
    && Shaped(s) && s.place == map[] && s.freed == []
    && (forall k :: 0 <= k < SLOTS ==> !s.held[k])
    && (forall t :: 0 <= t < |s.pc| ==> s.pc[t] == Idle && s.pending[t] == [] && s.size[t] == 0)
  }

  predicate IsRun(run: seq<State>, actions: seq<Action>) {
    && |run| == |actions| + 1 && Init(run[0])
    && forall i :: 0 <= i < |actions| ==> NextBy(run[i], actions[i], run[i + 1])
  }

  // ----- invariant -------------------------------------------------------------------------------

  predicate At(s: State, p: Ptr, place: Place) { p in s.place && s.place[p] == place }

  /** The pending list of t without the gap that compaction opens. */
  function Live(pending: seq<Ptr>, pc: Pc): seq<Ptr>
    requires PcShaped(pc, |pending|)
  {
    if pc.Check? then pending[..pc.c] + pending[pc.i..] else pending
  }

  predicate Distinct(ps: seq<Ptr>) { forall i, j :: 0 <= i < j < |ps| ==> ps[i] != ps[j] }

  /** Pointers are where their place says, each once. */
  ghost predicate ListOk(s: State, t: nat)
    requires Shaped(s) && t < |s.pc|
  {
    var live := Live(s.pending[t], s.pc[t]);
    && Distinct(live)
    && (forall i :: 0 <= i < |live| ==> At(s, live[i], Waiting(t)))
    && (forall p :: At(s, p, Waiting(t)) ==> p in live)
    && (forall p :: At(s, p, InHand(t)) <==> !s.pc[t].Idle? && p == s.pc[t].d)
  }

  ghost predicate FreedOk(s: State) {
    && Distinct(s.freed)
    && (forall p :: At(s, p, Freed) <==> p in s.freed)
    && 0 !in s.place
  }

  /** Nobody holds a freed pointer. */
  predicate SafeAt(s: State, k: nat)
    requires Shaped(s) && k < SLOTS
  {
    s.held[k] ==> s.slots[k] in s.place && s.place[s.slots[k]] != Freed
  }

  /** How many slots t has read in its present scan, and what it found there. */
  function Read(pc: Pc): nat {
    match pc case Scan(_, k, _) => k case Grab(_, k, _) => k case Check(_, _, _, _) => SLOTS case _ => 0
  }

  function FoundBy(pc: Pc): seq<Ptr> {
    match pc case Scan(_, _, f) => f case Grab(_, _, f) => f case Check(_, f, _, _) => f case _ => []
  }

  /** A pointer pending at t that is held in a slot t has read was found there. */
  predicate ScanOk(s: State, t: nat, k: nat)
    requires Shaped(s) && t < |s.pc| && k < SLOTS
  {
    k < Read(s.pc[t]) && s.held[k] && At(s, s.slots[k], Waiting(t)) ==> s.slots[k] in FoundBy(s.pc[t])
  }

  predicate CountOk(s: State, t: nat)
    requires Shaped(s) && t < |s.pc|
  {
    && |FoundBy(s.pc[t])| <= Read(s.pc[t]) && |s.pending[t]| <= s.size[t] && (s.size[t] == 0 || s.size[t] == SLOTS)
    && (s.pc[t].Check? || s.pc[t].Scan? || s.pc[t].Grab? ==> |s.pending[t]| == SLOTS)
    && (s.pc[t].Check? ==> forall j :: 0 <= j < s.pc[t].c ==> s.pending[t][j] in s.pc[t].found)
  }

  ghost predicate Inv(s: State) {
    && Shaped(s) && FreedOk(s)
    && (forall t: nat :: t < |s.pc| ==> ListOk(s, t) && CountOk(s, t))
    && (forall k: nat :: k < SLOTS ==> SafeAt(s, k))
    && (forall t: nat, k: nat :: t < |s.pc| && k < SLOTS ==> ScanOk(s, t, k))
  }

  lemma InitInv(s: State)
    requires Init(s)
    ensures Inv(s)
  {}

  // ----- every step keeps it ---------------------------------------------------------------------

  lemma StepShaped(s: State, t: nat)
    requires Shaped(s) && t < |s.pc| && !s.pc[t].Idle?
    ensures Shaped(Step(s, t))
  {
    var s' := Step(s, t);
    assert forall u :: 0 <= u < |s.pc| && u != t ==> s'.pc[u] == s.pc[u] && s'.pending[u] == s.pending[u];
  }

  /** The pointer checked next is still waiting, and nobody holds it unless it was found. */
  lemma NextChecked(s: State, t: nat)
    requires Inv(s) && t < |s.pc| && s.pc[t].Check? && s.pc[t].i < |s.pending[t]|
    ensures var p := s.pending[t][s.pc[t].i];
            && At(s, p, Waiting(t)) && p !in s.freed
            && (p !in s.pc[t].found ==> forall k :: 0 <= k < SLOTS && s.held[k] ==> s.slots[k] != p)
  {
    var live, p := Live(s.pending[t], s.pc[t]), s.pending[t][s.pc[t].i];
    assert ListOk(s, t) && live[s.pc[t].c] == p;
    forall k: nat | k < SLOTS && s.held[k] && s.slots[k] == p ensures p in s.pc[t].found { assert ScanOk(s, t, k); }
  }

  lemma StepSafe(s: State, t: nat, k: nat)
    requires Inv(s) && t < |s.pc| && !s.pc[t].Idle? && k < SLOTS && Shaped(Step(s, t))
    ensures SafeAt(Step(s, t), k)
  {
    hide ScanOk, CountOk, FreedOk, Distinct;
    assert SafeAt(s, k) && ListOk(s, t);
    if s.pc[t].Check? && s.pc[t].i < |s.pending[t]| { NextChecked(s, t); }
  }

  lemma StepScan(s: State, t: nat, u: nat, k: nat)
    requires Inv(s) && t < |s.pc| && !s.pc[t].Idle? && u < |s.pc| && k < SLOTS && Shaped(Step(s, t))
    ensures ScanOk(Step(s, t), u, k)
  {
    hide CountOk, Distinct;
    assert ScanOk(s, u, k) && SafeAt(s, k);
    if s.pc[t].Check? && s.pc[t].i < |s.pending[t]| { NextChecked(s, t); }
  }

  lemma StepCount(s: State, t: nat, u: nat)
    requires Shaped(s) && t < |s.pc| && !s.pc[t].Idle? && u < |s.pc| && Shaped(Step(s, t)) && CountOk(s, u) && CountOk(s, t)
    ensures CountOk(Step(s, t), u)
  {}

  lemma StepFreed(s: State, t: nat)
    requires Inv(s) && t < |s.pc| && !s.pc[t].Idle?
    ensures FreedOk(Step(s, t))
  {
    hide ScanOk, CountOk, SafeAt;
    assert ListOk(s, t);
    assert At(s, s.pc[t].d, InHand(t));
    var s' := Step(s, t);
    if s.pc[t].Check? && s.pc[t].i < |s.pending[t]| { NextChecked(s, t); }
    assert forall p :: At(s, p, Freed) ==> At(s', p, Freed);
    assert forall p :: At(s', p, Freed) ==> At(s, p, Freed) || p in s'.freed;
  }

  /** The list after one step of its owner. */
  lemma LiveSteps(s: State, t: nat)
    requires Shaped(s) && t < |s.pc| && !s.pc[t].Idle? && Shaped(Step(s, t))
    ensures var pc, s' := s.pc[t], Step(s, t);
            var live, live' := Live(s.pending[t], pc), Live(s'.pending[t], s'.pc[t]);
            if s'.pc[t].Idle? then live' == live + [pc.d]
            else if pc.Check? && pc.i < |s.pending[t]| && s.pending[t][pc.i] !in pc.found then
              pc.c < |live| && live[pc.c] == s.pending[t][pc.i] && live' == live[..pc.c] + live[pc.c + 1..]
            else live' == live
  {
    var pc, ps := s.pc[t], s.pending[t];
    if pc.Check? && pc.i < |ps| {
      KeepOne(ps, pc.c, pc.i);
      FreeOne(ps, pc.c, pc.i);
    } else if pc.Check? {
      assert ps[pc.i..] == [];
    }
  }

  /** Moving entry i down to c closes the gap by one; leaving it out drops one entry. */
  lemma KeepOne(ps: seq<Ptr>, c: nat, i: nat)
    requires c <= i < |ps|
    ensures ps[c := ps[i]][..c + 1] + ps[c := ps[i]][i + 1..] == ps[..c] + ps[i..]
  {}

  lemma FreeOne(ps: seq<Ptr>, c: nat, i: nat)
    requires c <= i < |ps|
    ensures var live := ps[..c] + ps[i..];
            live[c] == ps[i] && ps[..c] + ps[i + 1..] == live[..c] + live[c + 1..]
  {}

  lemma OwnList(s: State, t: nat)
    requires Inv(s) && t < |s.pc| && !s.pc[t].Idle? && Shaped(Step(s, t))
    ensures ListOk(Step(s, t), t)
  {
    hide ScanOk, CountOk, SafeAt, FreedOk, Live;
    LiveSteps(s, t);
    assert ListOk(s, t);
    assert At(s, s.pc[t].d, InHand(t));
    var pc, s' := s.pc[t], Step(s, t);
    var live, live' := Live(s.pending[t], pc), Live(s'.pending[t], s'.pc[t]);
    assert forall p :: At(s', p, InHand(t)) ==> At(s, p, InHand(t));
    if s'.pc[t].Idle? {
      assert forall p :: At(s', p, Waiting(t)) ==> At(s, p, Waiting(t)) || p == pc.d;
      assert live'[|live|] == pc.d;
    } else if pc.Check? && pc.i < |s.pending[t]| && s.pending[t][pc.i] !in pc.found {
      assert forall p :: At(s', p, Waiting(t)) ==> At(s, p, Waiting(t)) && p != live[pc.c];
      Without(live, pc.c);
    }
  }

  lemma Without(ps: seq<Ptr>, c: nat)
    requires Distinct(ps) && c < |ps|
    ensures var r := ps[..c] + ps[c + 1..];
            Distinct(r) && forall p :: p in r <==> p in ps && p != ps[c]
  {}

  lemma OtherList(s: State, t: nat, u: nat)
    requires Inv(s) && t < |s.pc| && !s.pc[t].Idle? && u < |s.pc| && u != t && Shaped(Step(s, t))
    ensures ListOk(Step(s, t), u)
  {
    hide ScanOk, CountOk, SafeAt, FreedOk, Distinct;
    assert ListOk(s, u) && ListOk(s, t);
    assert At(s, s.pc[t].d, InHand(t));
    if s.pc[t].Check? && s.pc[t].i < |s.pending[t]| { NextChecked(s, t); }
    var s' := Step(s, t);
    assert forall p :: At(s', p, Waiting(u)) <==> At(s, p, Waiting(u));
    assert forall p :: At(s', p, InHand(u)) <==> At(s, p, InHand(u));
  }

  lemma StepKeeps(s: State, t: nat)
    requires Inv(s) && t < |s.pc| && !s.pc[t].Idle?
    ensures Inv(Step(s, t))
  {
    hide ListOk, ScanOk, CountOk, SafeAt, FreedOk;
    StepShaped(s, t);
    StepFreed(s, t);
    var s' := Step(s, t);
    forall u: nat | u < |s'.pc| ensures ListOk(s', u) && CountOk(s', u) {
      if u == t { OwnList(s, t); } else { OtherList(s, t, u); }
      StepCount(s, t, u);
    }
    forall k: nat | k < SLOTS ensures SafeAt(s', k) { StepSafe(s, t, k); }
    forall u: nat, k: nat | u < |s'.pc| && k < SLOTS ensures ScanOk(s', u, k) { StepScan(s, t, u, k); }
  }

  lemma ClientKeeps(s: State, a: Action, s': State)
    requires Inv(s) && !a.Run? && NextBy(s, a, s')
    ensures Inv(s')
  {
    hide Distinct;
    forall u: nat | u < |s'.pc| ensures ListOk(s', u) && CountOk(s', u) {
      assert ListOk(s, u) && CountOk(s, u);
      assert forall p :: At(s', p, Waiting(u)) <==> At(s, p, Waiting(u));
      assert forall p :: At(s', p, InHand(u)) <==> At(s, p, InHand(u)) || (a.Unlink? && a.t == u && p == a.p);
    }
    forall k: nat | k < SLOTS ensures SafeAt(s', k) { assert SafeAt(s, k); }
    forall u: nat, k: nat | u < |s'.pc| && k < SLOTS ensures ScanOk(s', u, k) { assert ScanOk(s, u, k); }
    assert forall p :: At(s', p, Freed) <==> At(s, p, Freed);
  }

  lemma {:induction false} RunKeeps(run: seq<State>, actions: seq<Action>, i: nat)
    requires IsRun(run, actions) && i < |run|
    ensures Inv(run[i])
  {
    hide Inv, Step;
    if i == 0 {
      InitInv(run[0]);
    } else {
      RunKeeps(run, actions, i - 1);
      assert NextBy(run[i - 1], actions[i - 1], run[i]);
      if actions[i - 1].Run? {
        StepKeeps(run[i - 1], actions[i - 1].t);
      } else {
        ClientKeeps(run[i - 1], actions[i - 1], run[i]);
      }
    }
  }

  // ----- results ---------------------------------------------------------------------------------

  /** Hazard safety, over all runs: a pointer that a client validated in its slot, and whose slot it has not changed
      since, is not freed, however the scans of other threads interleave with it. */
  lemma HeldIsNotFreed(run: seq<State>, actions: seq<Action>, i: nat, k: nat)
    requires IsRun(run, actions) && i < |run| && k < SLOTS && Shaped(run[i]) && run[i].held[k]
    ensures run[i].slots[k] !in run[i].freed
  {
    RunKeeps(run, actions, i);
    assert SafeAt(run[i], k) && !At(run[i], run[i].slots[k], Freed);
  }

  /** Conservation, over all runs: every pointer given to `haz_defer_free` is either in the hands of that call, or
      exactly once in one pending list, or was freed, exactly once. */
  lemma DeferredIsSomewhere(run: seq<State>, actions: seq<Action>, i: nat, p: Ptr, t: nat)
    requires IsRun(run, actions) && i < |run| && Shaped(run[i]) && p in run[i].place && t < |run[i].pc|
    ensures var s := run[i];
            && Distinct(s.freed) && Distinct(Live(s.pending[t], s.pc[t]))
            && (p in s.freed <==> s.place[p] == Freed)
            && (p in Live(s.pending[t], s.pc[t]) <==> s.place[p] == Waiting(t))
            && (!s.pc[t].Idle? && p == s.pc[t].d <==> s.place[p] == InHand(t))
  {
    RunKeeps(run, actions, i);
    assert ListOk(run[i], t);
    assert At(run[i], p, run[i].place[p]);
    assert At(run[i], p, InHand(t)) <==> run[i].place[p] == InHand(t);
    assert At(run[i], p, Freed) <==> run[i].place[p] == Freed;
  }

  /** Once freed, never again, and not linked again. */
  lemma {:induction false} FreedForever(run: seq<State>, actions: seq<Action>, i: nat, j: nat)
    requires IsRun(run, actions) && i <= j < |run|
    ensures run[i].freed <= run[j].freed
  {
    if i < j {
      FreedForever(run, actions, i, j - 1);
      assert NextBy(run[j - 1], actions[j - 1], run[j]);
    }
  }

  function Elements(ps: seq<Ptr>): set<Ptr> { set p | p in ps }

  lemma {:induction false} ElementsFewer(ps: seq<Ptr>)
    ensures |Elements(ps)| <= |ps|
    ensures Distinct(ps) ==> |Elements(ps)| == |ps|
  {
    if ps == [] {
      assert Elements(ps) == {};
    } else {
      var n := |ps| - 1;
      ElementsFewer(ps[..n]);
      assert ps == ps[..n] + [ps[n]];
      assert Elements(ps) == Elements(ps[..n]) + {ps[n]};
    }
  }

  lemma DistinctWithin(ps: seq<Ptr>, qs: seq<Ptr>)
    requires Distinct(ps) && forall p :: p in ps ==> p in qs
    ensures |ps| <= |qs|
  {
    ElementsFewer(ps);
    ElementsFewer(qs);
    Subset(Elements(ps), Elements(qs));
  }

  lemma Subset(a: set<Ptr>, b: set<Ptr>)
    requires a <= b
    ensures |a| <= |b|
  {
    assert b == a + (b - a);
  }

  /** A scan keeps no more pointers than it found hazards; so a scan that met an empty slot frees something. */
  lemma KeptWithinFound(s: State, t: nat)
    requires Shaped(s) && t < |s.pc| && s.pc[t].Check? && ListOk(s, t) && CountOk(s, t)
    ensures s.pc[t].c <= |s.pc[t].found| <= SLOTS
    ensures s.pc[t].i == |s.pending[t]| && |s.pc[t].found| < SLOTS
            ==> Step(s, t).pc[t].Defer? && |Step(s, t).pending[t]| < |s.pending[t]|
  {
    var live, kept := Live(s.pending[t], s.pc[t]), s.pending[t][..s.pc[t].c];
    assert forall j :: 0 <= j < |kept| ==> live[j] == kept[j];
    DistinctWithin(kept, s.pc[t].found);
  }

  /** The same over all runs. */
  lemma RunKeptWithinFound(run: seq<State>, actions: seq<Action>, i: nat, t: nat)
    requires IsRun(run, actions) && i < |run| && t < |run[i].pc| && run[i].pc[t].Check?
    ensures var s := run[i];
            && Shaped(s) && s.pc[t].c <= |s.pc[t].found| <= SLOTS
            && (s.pc[t].i == |s.pending[t]| && |s.pc[t].found| < SLOTS
                ==> Step(s, t).pc[t].Defer? && |Step(s, t).pending[t]| < |s.pending[t]|)
  {
    hide ScanOk, SafeAt, FreedOk, Step;
    RunKeeps(run, actions, i);
    assert ListOk(run[i], t) && CountOk(run[i], t);
    KeptWithinFound(run[i], t);
  }

  // ----- what clients do and get -----------------------------------------------------------------

  predicate Sets(a: Action, k: nat) { a.Set? && a.k == k }

  lemma SlotStep(s: State, a: Action, s': State, k: nat)
    requires NextBy(s, a, s') && k < SLOTS
    ensures |s.slots| == |s'.slots| == |s.held| == |s'.held| == SLOTS
    ensures if Sets(a, k) then s'.slots[k] == a.p && !s'.held[k]
            else s'.slots[k] == s.slots[k] && (s'.held[k] <==> s.held[k] || a == Validate(k))
  {}

  lemma {:induction false} SlotStays(run: seq<State>, actions: seq<Action>, i: nat, j: nat, k: nat)
    requires IsRun(run, actions) && i < j < |run| && k < SLOTS && forall x :: i < x < j ==> !Sets(actions[x], k)
    ensures |run[j].slots| == |run[j].held| == SLOTS
    ensures Sets(actions[i], k) ==> run[j].slots[k] == actions[i].p
    ensures actions[i] == Validate(k) ==> run[j].held[k]
  {
    hide NextBy, Init;
    assert NextBy(run[j - 1], actions[j - 1], run[j]);
    SlotStep(run[j - 1], actions[j - 1], run[j], k);
    if j > i + 1 { SlotStays(run, actions, i, j - 1, k); }
  }

  /** Hazard safety in terms of what clients do alone, over all runs: from the moment a client has set its slot to p and then
      found p still linked, until it sets the slot again, p is not freed. */
  lemma ProtectedIsNotFreed(run: seq<State>, actions: seq<Action>, h: nat, v: nat, j: nat, k: nat, p: Ptr)
    requires IsRun(run, actions) && h < v < j < |run| && k < SLOTS && actions[h] == Set(k, p) && actions[v] == Validate(k)
    requires forall x :: h < x < j ==> !Sets(actions[x], k)
    ensures p !in run[j].freed
  {
    hide Inv, NextBy, Init;
    SlotStays(run, actions, h, j, k);
    SlotStays(run, actions, v, j, k);
    RunKeeps(run, actions, j);
    InvShaped(run[j]);
    HeldIsNotFreed(run, actions, j, k);
  }

  lemma InvShaped(s: State)
    requires Inv(s)
    ensures Shaped(s)
  {}

  /** Where a pointer that t gave to `haz_defer_free` can be. */
  predicate GivenBy(s: State, p: Ptr, t: nat) { At(s, p, InHand(t)) || At(s, p, Waiting(t)) || At(s, p, Freed) }

  lemma GivenStep(s: State, a: Action, s': State, p: Ptr, t: nat)
    requires Inv(s) && NextBy(s, a, s')
    ensures GivenBy(s', p, t) <==> GivenBy(s, p, t) || a == Unlink(t, p) || (At(s', p, Freed) && p in s.place)
    ensures At(s', p, Freed) && !At(s, p, Freed) ==> a.Run? && At(s, p, Waiting(a.t))
  {
    hide CountOk, SafeAt, FreedOk, Distinct, ScanOk;
    if a.Run? {
      assert ListOk(s, a.t);
      assert At(s, s.pc[a.t].d, InHand(a.t));
      if s.pc[a.t].Check? && s.pc[a.t].i < |s.pending[a.t]| { NextWaits(s, a.t); }
    }
  }

  lemma NextWaits(s: State, t: nat)
    requires Shaped(s) && t < |s.pc| && s.pc[t].Check? && s.pc[t].i < |s.pending[t]| && ListOk(s, t)
    ensures At(s, s.pending[t][s.pc[t].i], Waiting(t))
  {
    assert Live(s.pending[t], s.pc[t])[s.pc[t].c] == s.pending[t][s.pc[t].i];
  }

  /** Over all runs: a pointer given to `haz_defer_free` by t is from then on in the hands of that call, or in t's list, or
      freed; and once t's call has returned it is in the list or freed. */
  lemma {:induction false} GivenStays(run: seq<State>, actions: seq<Action>, i: nat, j: nat, t: nat, p: Ptr)
    requires IsRun(run, actions) && i < j < |run| && actions[i] == Unlink(t, p)
    ensures GivenBy(run[j], p, t) && t < |run[j].pc|
    ensures run[j].pc[t].Idle? ==> At(run[j], p, Waiting(t)) || At(run[j], p, Freed)
  {
    hide Inv, NextBy, Init;
    assert NextBy(run[j - 1], actions[j - 1], run[j]);
    RunKeeps(run, actions, j - 1);
    RunKeeps(run, actions, j);
    GivenStep(run[j - 1], actions[j - 1], run[j], p, t);
    if j > i + 1 { GivenStays(run, actions, i, j - 1, t, p); }
    assert NextBy(run[i], actions[i], run[i + 1]);
    UnlinkBy(run[i], t, p, run[i + 1]);
    IdleHasNothing(run[j], t, p);
  }

  lemma UnlinkBy(s: State, t: nat, p: Ptr, s': State)
    requires NextBy(s, Unlink(t, p), s')
    ensures t < MAX_NUM_THREADS
  {}

  lemma IdleHasNothing(s: State, t: nat, p: Ptr)
    requires Inv(s)
    ensures |s.pc| == MAX_NUM_THREADS && (t < |s.pc| && s.pc[t].Idle? ==> !At(s, p, InHand(t)))
  {
    if t < |s.pc| { assert ListOk(s, t); }
  }

  /** Over all runs: only what some thread gave to `haz_defer_free` is ever in a hand, on a list or freed. */
  lemma {:induction false} FreedWasGiven(run: seq<State>, actions: seq<Action>, i: nat, p: Ptr, t: nat)
    requires IsRun(run, actions) && i < |run| && GivenBy(run[i], p, t)
    ensures exists x: nat, u: nat :: x < i && actions[x] == Unlink(u, p)
  {
    hide Inv, NextBy;
    if i > 0 {
      var s, a := run[i - 1], actions[i - 1];
      assert NextBy(s, a, run[i]);
      RunKeeps(run, actions, i - 1);
      GivenStep(s, a, run[i], p, t);
      if GivenBy(s, p, t) { FreedWasGiven(run, actions, i - 1, p, t); }
      else if a != Unlink(t, p) { FreedWasGiven(run, actions, i - 1, p, a.t); }
    }
  }

  /** From state j to state i thread t is in the same scan of the slots. */
  ghost predicate SameScan(run: seq<State>, j: nat, i: nat, t: nat) {
    j <= i < |run| && forall x :: j <= x <= i ==> t < |run[x].pc| && Scanning(run[x].pc[t])
  }

  predicate Scanning(pc: Pc) { pc.Scan? || pc.Grab? || pc.Check? }

  lemma FoundStep(s: State, a: Action, s': State, t: nat, p: Ptr)
    requires NextBy(s, a, s') && t < |s'.pc| && p in FoundBy(s'.pc[t])
    ensures t < |s.pc| && Scanning(s.pc[t]) && (p in FoundBy(s.pc[t]) || p in s.slots)
  {
    if a.Run? {
      hide Step;
      FoundBefore(s, a.t, t, p);
    }
  }

  lemma FoundBefore(s: State, u: nat, t: nat, p: Ptr)
    requires Shaped(s) && u < |s.pc| && !s.pc[u].Idle? && t < |Step(s, u).pc| && p in FoundBy(Step(s, u).pc[t])
    ensures t < |s.pc| && Scanning(s.pc[t]) && (p in FoundBy(s.pc[t]) || p in s.slots)
  {}

  /** Over all runs: what a scan found was in a slot at a moment inside the scan; so a pointer is kept on a pending list only
      because a slot had it since the scan began. */
  lemma {:induction false} FoundWasInSlot(run: seq<State>, actions: seq<Action>, i: nat, t: nat, p: Ptr)
    requires IsRun(run, actions) && i < |run| && t < |run[i].pc| && p in FoundBy(run[i].pc[t])
    ensures exists j: nat :: SameScan(run, j, i, t) && p in run[j].slots
  {
    hide NextBy;
    if i > 0 {
      assert NextBy(run[i - 1], actions[i - 1], run[i]);
      FoundStep(run[i - 1], actions[i - 1], run[i], t, p);
      if p in FoundBy(run[i - 1].pc[t]) {
        FoundWasInSlot(run, actions, i - 1, t, p);
        var j: nat :| SameScan(run, j, i - 1, t) && p in run[j].slots;
        assert SameScan(run, j, i, t);
      } else {
        assert SameScan(run, i - 1, i, t);
      }
    }
  }

  /** Up to which slot t has seen one in use, if it skipped none so far. */
  function InUseTo(pc: Pc): nat { if pc.Grab? then pc.k + 1 else Read(pc) }

  ghost predicate WasInUse(run: seq<State>, j: nat, i: nat, t: nat, k: nat) {
    SameScan(run, j, i, t) && k < |run[j].slots| && run[j].slots[k] != 0
  }

  lemma InUseStep(s: State, a: Action, s': State, t: nat, k: nat)
    requires Inv(s) && NextBy(s, a, s') && t < |s'.pc| && |FoundBy(s'.pc[t])| == Read(s'.pc[t]) && k < InUseTo(s'.pc[t])
    ensures t < |s.pc| && Scanning(s.pc[t]) && Scanning(s'.pc[t]) && |FoundBy(s.pc[t])| == Read(s.pc[t])
    ensures k < InUseTo(s.pc[t]) || (k < |s.slots| && s.slots[k] != 0)
  {
    hide FreedOk, SafeAt, ScanOk, ListOk;
    if a.Run? {
      assert CountOk(s, a.t);
      if t < |s.pc| { assert CountOk(s, t); }
    }
  }

  /** Over all runs: a scan that found as many hazards as there are slots has seen every slot in use. */
  lemma {:induction false} FullScanSawAll(run: seq<State>, actions: seq<Action>, i: nat, t: nat, k: nat)
    requires IsRun(run, actions) && i < |run| && t < |run[i].pc|
    requires |FoundBy(run[i].pc[t])| == Read(run[i].pc[t]) && k < InUseTo(run[i].pc[t])
    ensures exists j: nat :: WasInUse(run, j, i, t, k)
  {
    hide NextBy, Inv;
    if i > 0 {
      assert NextBy(run[i - 1], actions[i - 1], run[i]);
      RunKeeps(run, actions, i - 1);
      InUseStep(run[i - 1], actions[i - 1], run[i], t, k);
      var j: nat := i - 1;
      if k < InUseTo(run[i - 1].pc[t]) {
        FullScanSawAll(run, actions, i - 1, t, k);
        j :| WasInUse(run, j, i - 1, t, k);
      }
      assert WasInUse(run, j, i, t, k);
    }
  }

  /** How many steps a call is from its end, if its next check frees something. */
  function Left(s: State, t: nat): nat
    requires Shaped(s) && t < |s.pc|
  {
    match s.pc[t]
    case Idle => 0
    case Defer(_) => if |s.pending[t]| == s.size[t] != 0 then 3 * SLOTS + 4 else 1
    case Scan(_, k, _) => 2 * (SLOTS - k) + SLOTS + 3
    case Grab(_, k, _) => 2 * (SLOTS - k) + SLOTS + 2
    case Check(_, _, i, _) => |s.pending[t]| - i + 2
  }

  /** Every step of a call brings it nearer to its end, except that a check which kept the whole list starts over; and then
      all slots were in use when they were read. */
  lemma NearsOrRescans(s: State, t: nat)
    requires Inv(s) && t < |s.pc| && !s.pc[t].Idle?
    ensures Shaped(Step(s, t))
    ensures Left(Step(s, t), t) < Left(s, t) || (s.pc[t].Check? && s.pc[t].c == SLOTS == |s.pc[t].found|)
  {
    hide FreedOk, SafeAt, ScanOk, Distinct;
    StepShaped(s, t);
    assert CountOk(s, t) && ListOk(s, t);
    if s.pc[t].Check? { KeptWithinFound(s, t); }
  }

  // ----- the loops over arrays -------------------------------------------------------------------

  method SearchHazards(p: Ptr, hazards: array<Ptr>, n: nat) returns (found: bool)
    requires n <= hazards.Length
    ensures found <==> p in hazards[..n]
  {
    for i := 0 to n
      invariant p !in hazards[..i]
    {
      if hazards[i] == p { return true; }
    }
    return false;
  }

  function Conflicts(pending: seq<Ptr>, found: seq<Ptr>): seq<Ptr> {
    if pending == [] then []
    else
      var n := |pending| - 1;
      Conflicts(pending[..n], found) + if pending[n] in found then [pending[n]] else []
  }

  function Releases(pending: seq<Ptr>, found: seq<Ptr>): seq<Ptr> {
    if pending == [] then []
    else
      var n := |pending| - 1;
      Releases(pending[..n], found) + if pending[n] in found then [] else [pending[n]]
  }

  /** Compaction splits the list: nothing is lost, the hazards stay, the rest goes. */
  lemma {:induction false} CompactionSplits(pending: seq<Ptr>, found: seq<Ptr>)
    ensures multiset(Conflicts(pending, found)) + multiset(Releases(pending, found)) == multiset(pending)
    ensures forall p :: p in Conflicts(pending, found) <==> p in pending && p in found
    ensures forall p :: p in Releases(pending, found) <==> p in pending && p !in found
  {
    if pending != [] {
      var n := |pending| - 1;
      CompactionSplits(pending[..n], found);
      assert pending == pending[..n] + [pending[n]];
    }
  }

  /** The check for conflicts, in place: kept entries move to the front, the others are freed in order. */
  method Compact(pending: array<Ptr>, count: nat, hazards: array<Ptr>, hazardCount: nat)
    returns (conflicts: nat, freed: seq<Ptr>)
    requires count <= pending.Length && hazardCount <= hazards.Length && pending != hazards
    modifies pending
    ensures conflicts <= count
    ensures pending[..conflicts] == Conflicts(old(pending[..count]), hazards[..hazardCount])
    ensures freed == Releases(old(pending[..count]), hazards[..hazardCount])
  {
    ghost var was, found := pending[..count], hazards[..hazardCount];
    conflicts, freed := 0, [];
    for i := 0 to count
      invariant conflicts <= i && hazards[..hazardCount] == found
      invariant forall j :: i <= j < count ==> pending[j] == was[j]
      invariant pending[..conflicts] == Conflicts(was[..i], found) && freed == Releases(was[..i], found)
    {
      assert was[..i + 1][..i] == was[..i] && pending[i] == was[i];
      var conflict := SearchHazards(pending[i], hazards, hazardCount);
      if conflict {
        pending[conflicts] := pending[i];
        conflicts := conflicts + 1;
      } else {
        freed := freed + [pending[i]];
      }
    }
    assert was[..count] == was;
  }

  /** The steps of the state machine do the same: unhurried, the check leaves the conflicts and frees the rest. */
  lemma {:induction false} ChecksCompact(s: State, t: nat, n: nat) returns (s': State)
    requires Shaped(s) && t < |s.pc| && s.pc[t].Check? && s.pc[t].i == s.pc[t].c == 0 && n <= |s.pending[t]|
    ensures Shaped(s') && |Conflicts(s.pending[t][..n], s.pc[t].found)| <= n && |s'.pending[t]| == |s.pending[t]|
    ensures s'.pc[t] == Check(s.pc[t].d, s.pc[t].found, n, |Conflicts(s.pending[t][..n], s.pc[t].found)|)
    ensures forall j :: n <= j < |s.pending[t]| ==> s'.pending[t][j] == s.pending[t][j]
    ensures s'.pending[t][..s'.pc[t].c] == Conflicts(s.pending[t][..n], s.pc[t].found)
    ensures s'.freed == s.freed + Releases(s.pending[t][..n], s.pc[t].found)
  {
    if n == 0 {
      s' := s;
    } else {
      var r := ChecksCompact(s, t, n - 1);
      hide Shaped;
      StepShaped(r, t);
      s' := Step(r, t);
      assert s.pending[t][..n][..n - 1] == s.pending[t][..n - 1];
    }
  }

  /** Reading all slots, thread by thread, when nobody interferes. */
  method CollectHazards(slots: array<Ptr>, hazards: array<Ptr>) returns (n: nat)
    requires slots.Length == SLOTS <= hazards.Length && slots != hazards
    modifies hazards
    ensures n <= SLOTS && forall p :: p != 0 ==> (p in hazards[..n] <==> p in slots[..])
  {
    n := 0;
    for i := 0 to MAX_NUM_THREADS
      invariant n <= i * STATIC_HAZ_PER_THREAD && slots[..] == old(slots[..])
      invariant forall p :: p != 0 ==> (p in hazards[..n] <==> p in slots[..i * STATIC_HAZ_PER_THREAD])
    {
      for j := 0 to STATIC_HAZ_PER_THREAD
        invariant n <= i * STATIC_HAZ_PER_THREAD + j && slots[..] == old(slots[..])
        invariant forall p :: p != 0 ==> (p in hazards[..n] <==> p in slots[..i * STATIC_HAZ_PER_THREAD + j])
      {
        var k := i * STATIC_HAZ_PER_THREAD + j;
        assert slots[..k + 1] == slots[..k] + [slots[k]];
        if slots[k] != 0 {
          hazards[n] := slots[k];
          n := n + 1;
          assert hazards[..n] == hazards[..n - 1] + [slots[k]];
        }
      }
    }
    assert slots[..SLOTS] == slots[..];
  }

  // ----- the lists as the threads change them ----------------------------------------------------

  class Domain {
    var slots: seq<Ptr>
    var size: seq<nat>
    var pending: seq<seq<Ptr>>
    var pc: seq<Pc>
    ghost var place: map<Ptr, Place>
    ghost var freed: seq<Ptr>
    ghost var held: seq<bool>

    ghost function St(): State
      reads this
    {
      State(slots, size, pending, pc, place, freed, held)
    }

    constructor ()
      ensures Init(St()) && Inv(St())
    {
      slots, held := seq(SLOTS, _ => 0), seq(SLOTS, _ => false);
      size, pending, pc := seq(MAX_NUM_THREADS, _ => 0), seq(MAX_NUM_THREADS, _ => []), seq(MAX_NUM_THREADS, _ => Idle);
      place, freed := map[], [];
      new;
      InitInv(St());
    }

    /** A client links a new allocation, or sets or clears a hazard slot, */
    method Link(p: Ptr)
      requires Inv(St()) && p != 0 && p !in place
      modifies this`place
      ensures NextBy(old(St()), Action.Link(p), St()) && Inv(St()) && At(St(), p, Linked)
    {
      ghost var s := St();
      place := place[p := Linked];
      ClientKeeps(s, Action.Link(p), St());
    }

    method SetHazard(k: nat, p: Ptr)
      requires Inv(St()) && k < SLOTS
      modifies this`slots, this`held
      ensures NextBy(old(St()), Set(k, p), St()) && Inv(St()) && slots == old(slots)[k := p] && !held[k]
    {
      ghost var s := St();
      slots, held := slots[k := p], held[k := false];
      ClientKeeps(s, Set(k, p), St());
    }

    /** and relies on the slot once it has seen the pointer still linked. */
    ghost method Rely(k: nat)
      requires Inv(St()) && k < SLOTS && At(St(), slots[k], Linked)
      modifies this`held
      ensures NextBy(old(St()), Validate(k), St()) && Inv(St()) && held[k]
    {
      var s := St();
      held := held[k := true];
      ClientKeeps(s, Validate(k), St());
    }

    /** Thread t has unlinked p and calls `haz_defer_free`. */
    method DeferFree(t: nat, p: Ptr)
      requires Inv(St()) && t < |pc| && pc[t].Idle? && At(St(), p, Linked)
      modifies this`pc, this`place
      ensures NextBy(old(St()), Unlink(t, p), St()) && Inv(St()) && pc == old(pc)[t := Defer(p)] && At(St(), p, InHand(t))
    {
      ghost var s := St();
      pc, place := pc[t := Defer(p)], place[p := InHand(t)];
      ClientKeeps(s, Unlink(t, p), St());
    }

    /** The next statement of thread t inside `haz_defer_free`. */
    method Advance(t: nat)
      requires Inv(St()) && t < |pc| && !pc[t].Idle?
      modifies this
      ensures St() == Step(old(St()), t) && Inv(St())
    {
      hide ListOk, CountOk, FreedOk, SafeAt, ScanOk;
      StepKeeps(St(), t);
      match pc[t] {
        case Defer(d) =>
          if |pending[t]| == size[t] && size[t] != 0 {
            pc := pc[t := Scan(d, 0, [])];
          } else {
            if |pending[t]| == size[t] { size := size[t := SLOTS]; }
            pending, place := pending[t := pending[t] + [d]], place[d := Waiting(t)];
            pc := pc[t := Idle];
          }
        case Scan(d, k, found) =>
          pc := pc[t := if k == SLOTS then Check(d, found, 0, 0)
                        else if slots[k] != 0 then Grab(d, k, found)
                        else Scan(d, k + 1, found)];
        case Grab(d, k, found) => pc := pc[t := Scan(d, k + 1, found + [slots[k]])];
        case Check(d, found, i, c) =>
          if i == |pending[t]| {
            pending := pending[t := pending[t][..c]];
            pc := pc[t := Defer(d)];
          } else if pending[t][i] in found {
            pending := pending[t := pending[t][c := pending[t][i]]];
            pc := pc[t := Check(d, found, i + 1, c + 1)];
          } else {
            place, freed := place[pending[t][i] := Freed], freed + [pending[t][i]];
            pc := pc[t := Check(d, found, i + 1, c)];
          }
      }
    }
  }
}
