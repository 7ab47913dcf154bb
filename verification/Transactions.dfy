/** Multi-version transactions over a map: update-record chains, the global version clock and
    commit-time validation with helping (src/txn/txn.c).

    Every shared-memory operation is one step of a state machine: begin, set, abort, start of a commit
    (entering VALIDATING together with drawing the write version), validation (with all the helping it
    does) and detaching a decided transaction from its records.  Steps of different transactions come in
    any order. */
module Transactions {
  type Key = int
  type Value = int

  datatype Phase = Running | Validating | Validated | Aborted

  /** The `version` field of an update record: a number, the aborted mark, or a pointer to its transaction. */
  datatype Version = Number(n: nat) | AbortedVersion | Pending(txn: nat)

  /** What the map and the `next` field of a record hold. */
  datatype Link = Nothing | Literal(value: Value) | Update(rec: nat)

  /** An update record.  `author` and `key` are history: no operation reads them. */
  datatype Record = Record(version: Version, value: Value, next: Link, author: nat, key: Key)

  datatype WriteRec = WriteRec(key: Key, rec: nat)

  /** `wv` is 0 until the transaction starts to commit; `released` once its memory was handed to RCU. */
  datatype Transaction = Transaction(rv: nat, wv: nat, state: Phase, writes: seq<WriteRec>, released: bool)

  /** Records and transactions live in arenas, the index is the address.  `initial` is the map before the
      first transaction. */
  datatype State = State(clock: nat, txns: seq<Transaction>, recs: seq<Record>, heads: map<Key, Link>,
                         initial: map<Key, Value>)

  datatype Result = NotRunning | DoesNotExist | Found(value: Value)

  // ----- reference definitions -------------------------------------------------------------------

  ghost predicate IsTxn(s: State, t: nat) { t < |s.txns| }

  ghost predicate HasVersion(s: State, t: nat) { t < |s.txns| && s.txns[t].state != Running }

  ghost predicate Wrote(s: State, t: nat, k: Key) {
    exists r :: 0 <= r < |s.recs| && s.recs[r].author == t && s.recs[r].key == k
  }

  ghost predicate SharesKey(s: State, t: nat, u: nat) {
    exists k :: Wrote(s, t, k) && Wrote(s, u, k)
  }

  /** u drew its write version after t read and before t drew its own, and both wrote some key. */
  ghost predicate Conflict(s: State, t: nat, u: nat) {
    && u != t && HasVersion(s, t) && HasVersion(s, u)
    && s.txns[t].rv < s.txns[u].wv < s.txns[t].wv
    && SharesKey(s, t, u)
  }

  /** The verdict on a transaction that drew its write version: it commits iff no conflicting transaction
      commits.  It mentions neither chains nor the progress of any validation. */
  ghost predicate Commits(s: State, t: nat)
    decreases if t < |s.txns| then s.txns[t].wv else 0
  {
    HasVersion(s, t) && forall u :: Conflict(s, t, u) ==> !Commits(s, u)
  }

  /** Record r is t's most recent set of k. */
  ghost predicate OwnLatest(s: State, t: nat, k: Key, r: nat) {
    && r < |s.recs| && s.recs[r].author == t && s.recs[r].key == k
    && forall q :: r < q < |s.recs| && s.recs[q].author == t ==> s.recs[q].key != k
  }

  /** Record r belongs to a committing transaction whose version is not above rv. */
  ghost predicate InSnapshot(s: State, rv: nat, k: Key, r: nat) {
    && r < |s.recs| && s.recs[r].key == k
    && Commits(s, s.recs[r].author) && s.txns[s.recs[r].author].wv <= rv
  }

  /** Record r is the last set of k by the committing transaction with the largest version not above rv. */
  ghost predicate NewestInSnapshot(s: State, rv: nat, k: Key, r: nat) {
    && InSnapshot(s, rv, k, r)
    && OwnLatest(s, s.recs[r].author, k, r)
    && forall q: nat :: InSnapshot(s, rv, k, q) ==> s.txns[s.recs[q].author].wv <= s.txns[s.recs[r].author].wv
  }

  /** The answer a read of k by t is promised. */
  ghost predicate IsSnapshot(s: State, t: nat, k: Key, res: Result)
    requires IsTxn(s, t)
  {
    if Wrote(s, t, k) then
      exists r: nat :: OwnLatest(s, t, k, r) && res == Found(s.recs[r].value)
    else if exists r: nat :: InSnapshot(s, s.txns[t].rv, k, r) then
      exists r: nat :: NewestInSnapshot(s, s.txns[t].rv, k, r) && res == Found(s.recs[r].value)
    else
      res == if k in s.initial then Found(s.initial[k]) else DoesNotExist
  }

  // ----- steps -----------------------------------------------------------------------------------

  function Head(s: State, k: Key): Link { if k in s.heads then s.heads[k] else Nothing }

  function DoBegin(s: State): State {
    s.(txns := s.txns + [Transaction(s.clock, 0, Running, [], false)])
  }

  predicate Usable(s: State, t: nat) { t < |s.txns| && !s.txns[t].released }

  function DoSet(s: State, t: nat, k: Key, v: Value): State
    requires Usable(s, t)
  {
    if s.txns[t].state != Running then s else
    s.(recs := s.recs + [Record(Pending(t), v, Head(s, k), t, k)],
       heads := s.heads[k := Update(|s.recs|)],
       txns := s.txns[t := s.txns[t].(writes := s.txns[t].writes + [WriteRec(k, |s.recs|)])])
  }

  function SetVersions(recs: seq<Record>, t: nat, ver: Version): (r: seq<Record>)
    ensures |r| == |recs|
  {
    seq(|recs|, i requires 0 <= i < |recs| => if recs[i].author == t then recs[i].(version := ver) else recs[i])
  }

  function DoAbort(s: State, t: nat): State
    requires Usable(s, t)
  {
    if s.txns[t].state != Running then s else
    s.(recs := SetVersions(s.recs, t, AbortedVersion), txns := s.txns[t := s.txns[t].(released := true)])
  }

  function DoStartCommit(s: State, t: nat): State
    requires Usable(s, t)
  {
    if s.txns[t].state != Running then s else
    s.(clock := s.clock + 1, txns := s.txns[t := s.txns[t].(state := Validating, wv := s.clock + 1)])
  }

  function FinalVersion(x: Transaction): Version {
    if x.state == Aborted then AbortedVersion else Number(x.wv)
  }

  function DoDetach(s: State, t: nat): State
    requires Usable(s, t)
  {
    s.(recs := SetVersions(s.recs, t, FinalVersion(s.txns[t])), txns := s.txns[t := s.txns[t].(released := true)])
  }

  /** What validation and the helping inside it may do: move some validating transactions with write
      versions up to `bound` to their verdicts. */
  ghost predicate Decides(s: State, s': State, bound: nat) {
    && s' == s.(txns := s'.txns) && |s'.txns| == |s.txns|
    && forall u :: 0 <= u < |s.txns| ==>
         || s'.txns[u] == s.txns[u]
         || (&& s.txns[u].state == Validating && s.txns[u].wv <= bound
             && s'.txns[u] == s.txns[u].(state := if Commits(s, u) then Validated else Aborted))
  }

  /** `Decide` is one validation with its helping.  It helps validators with smaller versions first, so it never leaves
      one behind that could still commit: `TxnMap.Validate` and `TxnMap.Get` are proved to be such steps. */
  datatype Action = Begin | Set(t: nat, k: Key, v: Value) | Abort(t: nat) | StartCommit(t: nat) | Detach(t: nat)
                  | Decide(bound: nat)

  ghost predicate StepBy(s: State, a: Action, s': State) {
    match a
    case Begin => s' == DoBegin(s)
    case Set(t, k, v) => Usable(s, t) && s' == DoSet(s, t, k, v)
    case Abort(t) => Usable(s, t) && s' == DoAbort(s, t)
    case StartCommit(t) => Usable(s, t) && s' == DoStartCommit(s, t)
    case Detach(t) => Usable(s, t) && s.txns[t].state in {Validated, Aborted} && s' == DoDetach(s, t)
    case Decide(bound) => Decides(s, s', bound) && NoOvertaking(s')
  }

  /** A commit is three steps of a run: drawing the version, one decision, and detaching. */
  ghost predicate IsCommit(s: State, t: nat, s1: State, s2: State, s': State) {
    && StepBy(s, StartCommit(t), s1) && t < |s1.txns| && StepBy(s1, Decide(s1.txns[t].wv), s2) && StepBy(s2, Detach(t), s')
  }

  ghost predicate CommitSteps(s: State, t: nat, s': State) { exists s1, s2 :: IsCommit(s, t, s1, s2, s') }

  ghost predicate Next(s: State, s': State) { exists a :: StepBy(s, a, s') }

  ghost predicate Init(s: State) {
    s.clock == 1 && s.txns == [] && s.recs == []
    && s.heads.Keys == s.initial.Keys && forall k :: k in s.heads ==> s.heads[k] == Literal(s.initial[k])
  }

  ghost predicate IsRun(run: seq<State>) {
    && |run| > 0 && Init(run[0])
    && forall i :: 0 < i < |run| ==> Next(run[i - 1], run[i])
  }

  // ----- invariant -------------------------------------------------------------------------------

  /** `link` names the newest record of k below `bound`, or the initial value when there is none. */
  ghost predicate LinkOk(s: State, k: Key, bound: nat, link: Link)
    requires bound <= |s.recs|
  {
    match link
    case Update(q) => q < bound && s.recs[q].key == k && forall x :: q < x < bound ==> s.recs[x].key != k
    case Literal(v) => (forall x :: 0 <= x < bound ==> s.recs[x].key != k) && k in s.initial && s.initial[k] == v
    case Nothing => (forall x :: 0 <= x < bound ==> s.recs[x].key != k) && k !in s.initial
  }

  ghost predicate VersionsOk(s: State) {
    && s.clock >= 1
    && (forall t :: 0 <= t < |s.txns| ==>
          && 1 <= s.txns[t].rv <= s.clock
          && (s.txns[t].state == Running ==> s.txns[t].wv == 0)
          && (s.txns[t].state != Running ==> s.txns[t].rv < s.txns[t].wv <= s.clock)
          && (s.txns[t].released ==> s.txns[t].state != Validating))
    && (forall t, u :: 0 <= t < u < |s.txns| && s.txns[t].state != Running && s.txns[u].state != Running
          ==> s.txns[t].wv != s.txns[u].wv)
  }

  ghost predicate WritesOk(s: State) {
    && (forall t, i :: 0 <= t < |s.txns| && 0 <= i < |s.txns[t].writes| ==>
          var w := s.txns[t].writes[i];
          w.rec < |s.recs| && s.recs[w.rec].author == t && s.recs[w.rec].key == w.key)
    && (forall r :: 0 <= r < |s.recs| ==>
          && s.recs[r].author < |s.txns|
          && WriteRec(s.recs[r].key, r) in s.txns[s.recs[r].author].writes)
  }

  /** A record points to its transaction until that one is released, then it carries the outcome. */
  ghost predicate RecordsOk(s: State) {
    forall r :: 0 <= r < |s.recs| ==>
      && s.recs[r].author < |s.txns|
      && var x := s.txns[s.recs[r].author];
         s.recs[r].version == if !x.released then Pending(s.recs[r].author)
                              else if x.state == Validated then Number(x.wv) else AbortedVersion
  }

  ghost predicate ChainsOk(s: State) {
    && (forall r :: 0 <= r < |s.recs| ==> LinkOk(s, s.recs[r].key, r, s.recs[r].next))
    && (forall k :: LinkOk(s, k, |s.recs|, Head(s, k)))
  }

  /** Whoever set a record before another one had begun before the other's author drew its version. */
  ghost predicate SetOrderOk(s: State) {
    forall i, j :: 0 <= i < j < |s.recs| && HasVersion(s, s.recs[j].author) && IsTxn(s, s.recs[i].author)
      ==> s.txns[s.recs[i].author].rv < s.txns[s.recs[j].author].wv
  }

  ghost predicate VerdictsOk(s: State) {
    forall t :: 0 <= t < |s.txns| ==>
      && (s.txns[t].state == Validated ==> Commits(s, t))
      && (s.txns[t].state == Aborted ==> !Commits(s, t))
  }

  /** A transaction still validating behind a validated one with a larger version is doomed. */
  ghost predicate NoOvertaking(s: State) {
    forall t, u :: 0 <= t < |s.txns| && 0 <= u < |s.txns| && s.txns[t].state == Validating
                   && s.txns[u].state == Validated && s.txns[t].wv < s.txns[u].wv && SharesKey(s, t, u)
      ==> !Commits(s, t)
  }

  ghost predicate Inv(s: State) {
    && VersionsOk(s) && WritesOk(s) && RecordsOk(s) && ChainsOk(s) && SetOrderOk(s)
    && VerdictsOk(s) && NoOvertaking(s)
  }

  // ----- what every step leaves alone ------------------------------------------------------------

  /** s' is s after some steps: read versions, drawn versions and the writes of whoever drew one are
      final, and later versions are larger than every earlier one. */
  ghost predicate Later(s: State, s': State) {
    && s.clock <= s'.clock && |s.txns| <= |s'.txns| && |s.recs| <= |s'.recs| && s.initial == s'.initial
    && (forall t :: 0 <= t < |s.txns| ==>
          && s'.txns[t].rv == s.txns[t].rv
          && (s.txns[t].state != Running ==> s'.txns[t].state != Running && s'.txns[t].wv == s.txns[t].wv)
          && (s.txns[t].state in {Validated, Aborted} ==> s'.txns[t].state == s.txns[t].state))
    && (forall t :: 0 <= t < |s'.txns| && s'.txns[t].state != Running && !HasVersion(s, t)
          ==> s.clock < s'.txns[t].wv)
    && (forall r :: 0 <= r < |s.recs| ==>
          s'.recs[r].author == s.recs[r].author && s'.recs[r].key == s.recs[r].key
          && s'.recs[r].value == s.recs[r].value)
    && (forall r :: |s.recs| <= r < |s'.recs| ==> !HasVersion(s, s'.recs[r].author))
  }

  lemma WroteLater(s: State, s': State, t: nat, k: Key)
    requires Later(s, s') && HasVersion(s, t)
    ensures Wrote(s, t, k) == Wrote(s', t, k)
  {
    if Wrote(s, t, k) {
      var r :| 0 <= r < |s.recs| && s.recs[r].author == t && s.recs[r].key == k;
      assert s'.recs[r].author == t && s'.recs[r].key == k;
    }
  }

  lemma ConflictLater(s: State, s': State, t: nat, u: nat)
    requires VersionsOk(s) && Later(s, s') && HasVersion(s, t)
    ensures Conflict(s, t, u) == Conflict(s', t, u)
  {
    if HasVersion(s, u) {
      forall k ensures Wrote(s, t, k) == Wrote(s', t, k) && Wrote(s, u, k) == Wrote(s', u, k) {
        WroteLater(s, s', t, k);
        WroteLater(s, s', u, k);
      }
    }
  }

  /** The verdict is fixed once the write version is drawn, whatever happens afterwards. */
  lemma {:induction false} VerdictFixed(s: State, s': State, t: nat)
    requires VersionsOk(s) && Later(s, s') && HasVersion(s, t)
    ensures Commits(s, t) == Commits(s', t)
    decreases s.txns[t].wv
  {
    forall u ensures Conflict(s, t, u) == Conflict(s', t, u)
             ensures Conflict(s, t, u) ==> Commits(s, u) == Commits(s', u)
    {
      ConflictLater(s, s', t, u);
      if Conflict(s, t, u) { VerdictFixed(s, s', u); }
    }
  }

  lemma SharesKeyLater(s: State, s': State, t: nat, u: nat)
    requires Later(s, s') && HasVersion(s, t) && HasVersion(s, u)
    ensures SharesKey(s, t, u) == SharesKey(s', t, u)
  {
    forall k ensures Wrote(s, t, k) == Wrote(s', t, k) && Wrote(s, u, k) == Wrote(s', u, k) {
      WroteLater(s, s', t, k);
      WroteLater(s, s', u, k);
    }
  }

  /** Verdict bookkeeping survives a step that decides nobody. */
  lemma VerdictsKept(s: State, s': State)
    requires VersionsOk(s) && VerdictsOk(s) && NoOvertaking(s) && Later(s, s')
    requires forall t :: 0 <= t < |s.txns| && s.txns[t].state != Running ==> s'.txns[t].state == s.txns[t].state
    requires forall t :: 0 <= t < |s'.txns| && !HasVersion(s, t) ==> s'.txns[t].state in {Running, Validating}
    requires VersionsOk(s')
    ensures VerdictsOk(s') && NoOvertaking(s')
  {
    forall t | HasVersion(s, t) ensures Commits(s, t) == Commits(s', t) { VerdictFixed(s, s', t); }
    forall t, u | HasVersion(s, t) && HasVersion(s, u) ensures SharesKey(s, t, u) == SharesKey(s', t, u) {
      SharesKeyLater(s, s', t, u);
    }
    forall t, u | 0 <= t < |s'.txns| && 0 <= u < |s'.txns| && s'.txns[t].state == Validating
                  && s'.txns[u].state == Validated && s'.txns[t].wv < s'.txns[u].wv && SharesKey(s', t, u)
      ensures !Commits(s', t)
    {
      assert HasVersion(s, u);
      assert s'.txns[t].wv <= s.clock;
    }
  }

  // ----- every step keeps the invariant ----------------------------------------------------------

  lemma ChainsFrame(s: State, s': State)
    requires ChainsOk(s) && s'.heads == s.heads && s'.initial == s.initial && |s'.recs| == |s.recs|
    requires forall r :: 0 <= r < |s.recs| ==> s'.recs[r].key == s.recs[r].key && s'.recs[r].next == s.recs[r].next
    ensures ChainsOk(s')
  {
    forall r | 0 <= r < |s'.recs| ensures LinkOk(s', s'.recs[r].key, r, s'.recs[r].next) {
      assert LinkOk(s, s.recs[r].key, r, s.recs[r].next);
    }
    forall k ensures LinkOk(s', k, |s'.recs|, Head(s', k)) { assert LinkOk(s, k, |s.recs|, Head(s, k)); }
  }

  lemma ChainsPush(s: State, s': State, k: Key, r: Record)
    requires ChainsOk(s) && s'.initial == s.initial && s'.heads == s.heads[k := Update(|s.recs|)]
    requires s'.recs == s.recs + [r] && r.key == k && r.next == Head(s, k)
    ensures ChainsOk(s')
  {
    forall q | 0 <= q < |s'.recs| ensures LinkOk(s', s'.recs[q].key, q, s'.recs[q].next) {
      if q < |s.recs| { assert LinkOk(s, s.recs[q].key, q, s.recs[q].next); }
      else { assert LinkOk(s, k, |s.recs|, Head(s, k)); }
    }
    forall j ensures LinkOk(s', j, |s'.recs|, Head(s', j)) {
      assert LinkOk(s, j, |s.recs|, Head(s, j));
    }
  }

  lemma WritesFrame(s: State, s': State)
    requires WritesOk(s) && |s.txns| <= |s'.txns| && |s'.recs| == |s.recs|
    requires forall t :: 0 <= t < |s.txns| ==> s'.txns[t].writes == s.txns[t].writes
    requires forall t :: |s.txns| <= t < |s'.txns| ==> s'.txns[t].writes == []
    requires forall r :: 0 <= r < |s.recs| ==> s'.recs[r].key == s.recs[r].key && s'.recs[r].author == s.recs[r].author
    ensures WritesOk(s')
  {
    forall r | 0 <= r < |s'.recs|
      ensures s'.recs[r].author < |s'.txns| && WriteRec(s'.recs[r].key, r) in s'.txns[s'.recs[r].author].writes
    {
      assert WriteRec(s.recs[r].key, r) in s.txns[s.recs[r].author].writes;
    }
  }

  lemma WritesPush(s: State, s': State, t: nat, r: Record)
    requires WritesOk(s) && t < |s.txns| && r.author == t && s'.recs == s.recs + [r]
    requires s'.txns == s.txns[t := s.txns[t].(writes := s.txns[t].writes + [WriteRec(r.key, |s.recs|)])]
    ensures WritesOk(s')
  {
    forall q | 0 <= q < |s'.recs|
      ensures s'.recs[q].author < |s'.txns| && WriteRec(s'.recs[q].key, q) in s'.txns[s'.recs[q].author].writes
    {
      if q < |s.recs| {
        assert WriteRec(s.recs[q].key, q) in s.txns[s.recs[q].author].writes;
      } else {
        assert s'.txns[t].writes[|s.txns[t].writes|] == WriteRec(r.key, q);
      }
    }
  }

  lemma SetOrderPush(s: State, s': State, r: Record)
    requires WritesOk(s) && VersionsOk(s) && SetOrderOk(s) && IsTxn(s, r.author) && !HasVersion(s, r.author)
    requires s'.recs == s.recs + [r] && |s'.txns| == |s.txns|
    requires forall t :: 0 <= t < |s.txns| ==> s'.txns[t].rv == s.txns[t].rv && s'.txns[t].wv == s.txns[t].wv && s'.txns[t].state == s.txns[t].state
    ensures SetOrderOk(s')
  {
    forall i, j | 0 <= i < j < |s'.recs| && HasVersion(s', s'.recs[j].author) && IsTxn(s', s'.recs[i].author)
      ensures s'.txns[s'.recs[i].author].rv < s'.txns[s'.recs[j].author].wv
    {
      assert j < |s.recs|;
    }
  }

  lemma SetOrderFrame(s: State, s': State)
    requires WritesOk(s) && VersionsOk(s) && SetOrderOk(s) && Later(s, s') && |s'.recs| == |s.recs|
    ensures SetOrderOk(s')
  {
    forall i, j | 0 <= i < j < |s'.recs| && HasVersion(s', s'.recs[j].author) && IsTxn(s', s'.recs[i].author)
      ensures s'.txns[s'.recs[i].author].rv < s'.txns[s'.recs[j].author].wv
    {
      assert IsTxn(s, s.recs[i].author) && IsTxn(s, s.recs[j].author);
      if HasVersion(s, s.recs[j].author) {
      } else {
        assert s.clock < s'.txns[s'.recs[j].author].wv;
      }
    }
  }

  lemma RecordsPush(s: State, s': State, t: nat, r: Record)
    requires RecordsOk(s) && s'.recs == s.recs + [r] && |s'.txns| == |s.txns|
    requires t < |s.txns| && !s.txns[t].released && r.author == t && r.version == Pending(t)
    requires forall u :: 0 <= u < |s.txns| ==> s'.txns[u] == s.txns[u].(writes := s'.txns[u].writes)
    ensures RecordsOk(s')
  {
    forall q | 0 <= q < |s'.recs|
      ensures s'.recs[q].author < |s'.txns|
      ensures var x := s'.txns[s'.recs[q].author];
              s'.recs[q].version == if !x.released then Pending(s'.recs[q].author)
                                    else if x.state == Validated then Number(x.wv) else AbortedVersion
    {
      if q < |s.recs| { assert s.recs[q] == s'.recs[q]; }
    }
  }

  lemma RecordsRelease(s: State, s': State, t: nat, ver: Version)
    requires RecordsOk(s) && t < |s.txns|
    requires ver == if s.txns[t].state == Validated then Number(s.txns[t].wv) else AbortedVersion
    requires s'.recs == SetVersions(s.recs, t, ver) && s'.txns == s.txns[t := s.txns[t].(released := true)]
    ensures RecordsOk(s')
  {}

  lemma BeginKeeps(s: State)
    requires Inv(s)
    ensures Inv(DoBegin(s)) && Later(s, DoBegin(s))
  {
    hide Commits, Conflict;
    var s' := DoBegin(s);
    assert Later(s, s') && VersionsOk(s');
    ChainsFrame(s, s');
    WritesFrame(s, s');
    SetOrderFrame(s, s');
    VerdictsKept(s, s');
  }

  lemma SetKeeps(s: State, t: nat, k: Key, v: Value)
    requires Inv(s) && Usable(s, t) && s.txns[t].state == Running
    ensures Inv(DoSet(s, t, k, v)) && Later(s, DoSet(s, t, k, v))
  {
    var s' := DoSet(s, t, k, v);
    var r := Record(Pending(t), v, Head(s, k), t, k);
    assert Later(s, s') && VersionsOk(s');
    hide Later, VersionsOk, ChainsOk, WritesOk, SetOrderOk, RecordsOk, VerdictsOk, NoOvertaking, Commits;
    ChainsPush(s, s', k, r);
    WritesPush(s, s', t, r);
    SetOrderPush(s, s', r);
    assert RecordsOk(s') by { RecordsPush(s, s', t, r); }
    VerdictsKept(s, s');
  }

  lemma ReleaseLater(s: State, t: nat, ver: Version)
    requires VersionsOk(s) && Usable(s, t) && s.txns[t].state != Validating
    ensures var s' := s.(recs := SetVersions(s.recs, t, ver), txns := s.txns[t := s.txns[t].(released := true)]);
            Later(s, s') && VersionsOk(s')
  {}

  lemma ReleaseKeeps(s: State, t: nat, ver: Version)
    requires Inv(s) && Usable(s, t) && s.txns[t].state != Validating
    requires ver == if s.txns[t].state == Validated then Number(s.txns[t].wv) else AbortedVersion
    ensures var s' := s.(recs := SetVersions(s.recs, t, ver), txns := s.txns[t := s.txns[t].(released := true)]);
            Inv(s') && Later(s, s')
  {
    hide Commits, Conflict, ChainsOk, WritesOk, SetOrderOk, RecordsOk, VerdictsOk, NoOvertaking;
    var s' := s.(recs := SetVersions(s.recs, t, ver), txns := s.txns[t := s.txns[t].(released := true)]);
    ReleaseLater(s, t, ver);
    ChainsFrame(s, s');
    WritesFrame(s, s');
    SetOrderFrame(s, s');
    RecordsRelease(s, s', t, ver);
    VerdictsKept(s, s');
  }

  lemma StartCommitKeeps(s: State, t: nat)
    requires Inv(s) && Usable(s, t) && s.txns[t].state == Running
    ensures Inv(DoStartCommit(s, t)) && Later(s, DoStartCommit(s, t))
  {
    hide Commits, Conflict;
    var s' := DoStartCommit(s, t);
    assert Later(s, s') && VersionsOk(s');
    ChainsFrame(s, s');
    WritesFrame(s, s');
    SetOrderFrame(s, s');
    VerdictsKept(s, s');
  }

  lemma DecidesLater(s: State, s': State, bound: nat)
    requires VersionsOk(s) && Decides(s, s', bound)
    ensures Later(s, s') && VersionsOk(s')
    ensures forall t :: 0 <= t < |s.txns| ==> s'.txns[t].writes == s.txns[t].writes && s'.txns[t].released == s.txns[t].released
    ensures forall t: nat :: HasVersion(s, t) ==> Commits(s, t) == Commits(s', t)
  {
    assert Later(s, s');
    forall t: nat | HasVersion(s, t) ensures Commits(s, t) == Commits(s', t) { VerdictFixed(s, s', t); }
  }

  lemma DecidesKeeps(s: State, s': State, bound: nat)
    requires Inv(s) && Decides(s, s', bound) && NoOvertaking(s')
    ensures Inv(s') && Later(s, s')
  {
    DecidesLater(s, s', bound);
    ChainsFrame(s, s');
    WritesFrame(s, s');
    SetOrderFrame(s, s');
    assert VerdictsOk(s') by {
      forall t | 0 <= t < |s'.txns|
        ensures s'.txns[t].state == Validated ==> Commits(s', t)
        ensures s'.txns[t].state == Aborted ==> !Commits(s', t)
      { if s'.txns[t].state in {Validated, Aborted} { assert HasVersion(s, t); } }
    }
  }

  lemma StutterKeeps(s: State)
    ensures Later(s, s)
  {}

  lemma StepKeeps(s: State, a: Action, s': State)
    requires Inv(s) && StepBy(s, a, s')
    ensures Inv(s') && Later(s, s')
  {
    StutterKeeps(s);
    match a {
      case Begin => BeginKeeps(s);
      case Set(t, k, v) => if s.txns[t].state == Running { SetKeeps(s, t, k, v); }
      case Abort(t) => if s.txns[t].state == Running { ReleaseKeeps(s, t, AbortedVersion); }
      case StartCommit(t) => if s.txns[t].state == Running { StartCommitKeeps(s, t); }
      case Detach(t) => ReleaseKeeps(s, t, FinalVersion(s.txns[t]));
      case Decide(bound) => DecidesKeeps(s, s', bound);
    }
  }

  // ----- results over whole runs -----------------------------------------------------------------

  lemma LaterTransitive(s: State, s1: State, s2: State)
    requires Later(s, s1) && Later(s1, s2)
    ensures Later(s, s2)
  {
    assert forall t: nat :: HasVersion(s, t) ==> HasVersion(s1, t);
    forall r | |s.recs| <= r < |s2.recs| ensures !HasVersion(s, s2.recs[r].author) {
      if r < |s1.recs| { assert s2.recs[r].author == s1.recs[r].author; }
    }
  }

  /** Every state of every run satisfies the invariant and only extends the states before it. */
  lemma {:induction false} RunKeeps(run: seq<State>, i: nat, j: nat)
    requires IsRun(run) && i <= j < |run|
    ensures Inv(run[j]) && Later(run[i], run[j])
    decreases j
  {
    hide Commits;
    StutterKeeps(run[i]);
    if j == 0 {
      assert Inv(run[0]);
    } else {
      assert Next(run[j - 1], run[j]);
      RunKeeps(run, if i < j then i else j - 1, j - 1);
      var a :| StepBy(run[j - 1], a, run[j]);
      StepKeeps(run[j - 1], a, run[j]);
      if i < j { LaterTransitive(run[i], run[j - 1], run[j]); }
    }
  }

  /** Of two committed writers of a key, the one with the later version had read the earlier one's version. */
  lemma FirstCommitterWins(s: State, t: nat, u: nat)
    requires VerdictsOk(s) && t < |s.txns| && u < |s.txns|
    requires s.txns[t].state == Validated && s.txns[u].state == Validated
    requires SharesKey(s, t, u) && s.txns[u].wv < s.txns[t].wv
    ensures s.txns[u].wv <= s.txns[t].rv
  {
    assert Commits(s, t) && Commits(s, u);
    assert !Conflict(s, t, u);
  }

  /** Although a chain is ordered by the time of the sets, its committed records never go up in version
      towards the tail. */
  lemma ChainVersionsDescend(s: State, i: nat, j: nat)
    requires VersionsOk(s) && SetOrderOk(s) && i < j < |s.recs| && s.recs[i].key == s.recs[j].key
    requires Commits(s, s.recs[i].author) && Commits(s, s.recs[j].author)
    ensures s.txns[s.recs[i].author].wv <= s.txns[s.recs[j].author].wv
  {
    var t, u := s.recs[i].author, s.recs[j].author;
    assert Wrote(s, t, s.recs[i].key) && Wrote(s, u, s.recs[i].key);
    assert !Conflict(s, t, u);
  }

  lemma InSnapshotFixed(s: State, s': State, rv: nat, k: Key, r: nat)
    requires VersionsOk(s) && WritesOk(s) && Later(s, s') && rv <= s.clock
    ensures InSnapshot(s, rv, k, r) == InSnapshot(s', rv, k, r)
  {
    if r < |s.recs| {
      if HasVersion(s, s.recs[r].author) { VerdictFixed(s, s', s.recs[r].author); }
    }
  }

  lemma OwnLatestFixed(s: State, s': State, t: nat, k: Key, r: nat)
    requires Later(s, s')
    requires forall q :: |s.recs| <= q < |s'.recs| && s'.recs[q].author == t ==> s'.recs[q].key != k
    ensures OwnLatest(s, t, k, r) == OwnLatest(s', t, k, r)
  {
    if OwnLatest(s', t, k, r) {
      assert r < |s.recs|;
      forall q | r < q < |s.recs| && s.recs[q].author == t ensures s.recs[q].key != k {
        assert s'.recs[q].author == t;
      }
    }
  }

  lemma NewestFixed(s: State, s': State, rv: nat, k: Key, r: nat)
    requires VersionsOk(s) && WritesOk(s) && Later(s, s') && rv <= s.clock
    ensures NewestInSnapshot(s, rv, k, r) == NewestInSnapshot(s', rv, k, r)
  {
    forall q: nat ensures InSnapshot(s, rv, k, q) == InSnapshot(s', rv, k, q) { InSnapshotFixed(s, s', rv, k, q); }
    if InSnapshot(s, rv, k, r) {
      OwnLatestFixed(s, s', s.recs[r].author, k, r);
    }
  }

  /** Snapshot reads: no commit, helping or set of anybody else changes the answer a transaction is owed. */
  lemma SnapshotFixed(s: State, s': State, t: nat, k: Key, res: Result)
    requires VersionsOk(s) && WritesOk(s) && Later(s, s') && IsTxn(s, t)
    requires forall q :: |s.recs| <= q < |s'.recs| && s'.recs[q].author == t ==> s'.recs[q].key != k
    ensures IsSnapshot(s, t, k, res) == IsSnapshot(s', t, k, res)
  {
    hide Commits, ChainsOk, WritesOk, RecordsOk, SetOrderOk, VerdictsOk, NoOvertaking, InSnapshot;
    var rv := s.txns[t].rv;
    forall r: nat
      ensures OwnLatest(s, t, k, r) == OwnLatest(s', t, k, r)
      ensures InSnapshot(s, rv, k, r) == InSnapshot(s', rv, k, r)
      ensures NewestInSnapshot(s, rv, k, r) == NewestInSnapshot(s', rv, k, r)
    {
      OwnLatestFixed(s, s', t, k, r);
      InSnapshotFixed(s, s', rv, k, r);
      NewestFixed(s, s', rv, k, r);
    }
    assert Wrote(s, t, k) == Wrote(s', t, k) by {
      if Wrote(s, t, k) {
        var r :| 0 <= r < |s.recs| && s.recs[r].author == t && s.recs[r].key == k;
        assert s'.recs[r].author == t;
      }
    }
    assert forall r: nat :: OwnLatest(s, t, k, r) || NewestInSnapshot(s, rv, k, r) ==> s.recs[r].value == s'.recs[r].value;
  }

  /** First committer wins, over all runs: of two committed writers of a key the later one had read the earlier one's
      version. */
  lemma RunFirstCommitterWins(run: seq<State>, i: nat, t: nat, u: nat)
    requires IsRun(run) && i < |run| && t < |run[i].txns| && u < |run[i].txns|
    requires run[i].txns[t].state == Validated && run[i].txns[u].state == Validated
    requires SharesKey(run[i], t, u) && run[i].txns[u].wv < run[i].txns[t].wv
    ensures run[i].txns[u].wv <= run[i].txns[t].rv
  {
    hide Commits, SharesKey;
    RunKeeps(run, i, i);
    FirstCommitterWins(run[i], t, u);
  }

  /** In every state of every run the committed records of a key never go up in version towards the tail of its chain. */
  lemma RunChainsDescend(run: seq<State>, x: nat, i: nat, j: nat)
    requires IsRun(run) && x < |run| && i < j < |run[x].recs| && run[x].recs[i].key == run[x].recs[j].key
    requires IsTxn(run[x], run[x].recs[i].author) && run[x].txns[run[x].recs[i].author].state == Validated
    requires IsTxn(run[x], run[x].recs[j].author) && run[x].txns[run[x].recs[j].author].state == Validated
    ensures run[x].txns[run[x].recs[i].author].wv <= run[x].txns[run[x].recs[j].author].wv
  {
    hide Commits, Wrote;
    RunKeeps(run, x, x);
    ChainVersionsDescend(run[x], i, j);
  }

  /** Snapshot reads, over all runs: from state i to state j the answer owed to t for k changes only if t itself sets k. */
  lemma RunSnapshotFixed(run: seq<State>, i: nat, j: nat, t: nat, k: Key, res: Result)
    requires IsRun(run) && i <= j < |run| && IsTxn(run[i], t)
    requires forall q :: |run[i].recs| <= q < |run[j].recs| && run[j].recs[q].author == t ==> run[j].recs[q].key != k
    ensures IsTxn(run[j], t) && (IsSnapshot(run[i], t, k, res) <==> IsSnapshot(run[j], t, k, res))
  {
    hide Commits, IsSnapshot;
    RunKeeps(run, i, j);
    RunKeeps(run, i, i);
    SnapshotFixed(run[i], run[j], t, k, res);
  }

  /** Verdicts, over all runs: once t has drawn its version, whether it commits is settled; VALIDATED and ABORTED agree with
      it whenever they appear, and stay. */
  lemma RunVerdictFixed(run: seq<State>, i: nat, j: nat, t: nat)
    requires IsRun(run) && i <= j < |run| && HasVersion(run[i], t)
    ensures HasVersion(run[j], t) && run[j].txns[t].wv == run[i].txns[t].wv && (Commits(run[i], t) <==> Commits(run[j], t))
    ensures run[j].txns[t].state == Validated ==> Commits(run[i], t)
    ensures run[j].txns[t].state == Aborted ==> !Commits(run[i], t)
    ensures run[i].txns[t].state in {Validated, Aborted} ==> run[j].txns[t].state == run[i].txns[t].state
  {
    hide Commits;
    RunKeeps(run, i, j);
    RunKeeps(run, i, i);
    VerdictFixed(run[i], run[j], t);
  }

  lemma NewestUnique(s: State, rv: nat, k: Key, x: nat, y: nat)
    requires VersionsOk(s) && NewestInSnapshot(s, rv, k, x) && NewestInSnapshot(s, rv, k, y)
    ensures x == y
  {
    assert s.txns[s.recs[x].author].wv == s.txns[s.recs[y].author].wv;
  }

  /** The answer owed is one answer. */
  lemma SnapshotUnique(s: State, t: nat, k: Key, a: Result, b: Result)
    requires VersionsOk(s) && WritesOk(s) && IsTxn(s, t) && IsSnapshot(s, t, k, a) && IsSnapshot(s, t, k, b)
    ensures a == b
  {
    hide Commits, InSnapshot, WritesOk;
    var rv := s.txns[t].rv;
    if !Wrote(s, t, k) && exists r: nat :: InSnapshot(s, rv, k, r) {
      var x: nat :| NewestInSnapshot(s, rv, k, x) && a == Found(s.recs[x].value);
      var y: nat :| NewestInSnapshot(s, rv, k, y) && b == Found(s.recs[y].value);
      NewestUnique(s, rv, k, x, y);
    }
  }

  // ----- validation and helping ------------------------------------------------------------------

  /** A record of u may be passed over when t is validated. */
  ghost predicate Skipped(s: State, t: nat, u: nat) {
    && IsTxn(s, t) && IsTxn(s, u)
    && (u == t || s.txns[u].state in {Running, Aborted} || s.txns[u].wv > s.txns[t].wv)
  }

  ghost predicate SkippedFrom(s: State, t: nat, k: Key, bound: nat) {
    forall r: nat :: bound <= r < |s.recs| && s.recs[r].key == k ==> Skipped(s, t, s.recs[r].author)
  }

  ghost predicate InTheWay(s: State, t: nat, u: nat)
    requires IsTxn(s, t)
  {
    && HasVersion(s, u) && u != t && s.txns[u].wv < s.txns[t].wv
    && (s.txns[t].rv < s.txns[u].wv || s.txns[u].state == Validating)
  }

  /** No writer of k stands in the way of t, and none that is still validating can be overtaken wrongly. */
  ghost predicate KeyClear(s: State, t: nat, k: Key) {
    IsTxn(s, t) &&
    forall u: nat :: InTheWay(s, t, u) && Wrote(s, u, k) ==> !Commits(s, u)
  }

  /** A writer found below a committed record either lost to it or was overtaken by it. */
  lemma BelowCommitted(s: State, t: nat, r: nat, q: nat)
    requires VersionsOk(s) && SetOrderOk(s) && VerdictsOk(s) && NoOvertaking(s) && IsTxn(s, t)
    requires r < q < |s.recs| && s.recs[r].key == s.recs[q].key && HasVersion(s, s.recs[q].author)
    requires InTheWay(s, t, s.recs[r].author)
    requires s.txns[s.recs[q].author].state == Validated && s.txns[s.recs[q].author].wv <= s.txns[t].rv
    ensures !Commits(s, s.recs[r].author)
  {
    var u, c, k := s.recs[r].author, s.recs[q].author, s.recs[q].key;
    assert Wrote(s, c, k) && Wrote(s, u, k);
    assert SharesKey(s, u, c);
    assert s.txns[u].rv < s.txns[c].wv;
    if s.txns[c].wv < s.txns[u].wv {
      assert Commits(s, c) && Conflict(s, u, c);
    }
  }

  /** Why the scan may stop at the first committed record it meets. */
  lemma StopClears(s: State, t: nat, k: Key, q: nat)
    requires VersionsOk(s) && SetOrderOk(s) && VerdictsOk(s) && NoOvertaking(s) && HasVersion(s, t)
    requires q < |s.recs| && s.recs[q].key == k && HasVersion(s, s.recs[q].author)
    requires SkippedFrom(s, t, k, q + 1)
    requires s.txns[s.recs[q].author].state == Validated && s.txns[s.recs[q].author].wv <= s.txns[t].rv
    ensures KeyClear(s, t, k)
  {
    forall u: nat | InTheWay(s, t, u) && Wrote(s, u, k) ensures !Commits(s, u) {
      var r: nat :| r < |s.recs| && s.recs[r].author == u && s.recs[r].key == k;
      if r < q { BelowCommitted(s, t, r, q); }
      else if r > q { assert Skipped(s, t, u); }
    }
  }

  lemma SkippedAbove(s: State, t: nat, k: Key)
    ensures SkippedFrom(s, t, k, |s.recs|)
  {}

  /** The end of the chain. */
  lemma SkippedAll(s: State, t: nat, k: Key, bound: nat, link: Link)
    requires bound <= |s.recs| && LinkOk(s, k, bound, link) && !link.Update? && SkippedFrom(s, t, k, bound)
    ensures SkippedFrom(s, t, k, 0)
  {}

  lemma EndClears(s: State, t: nat, k: Key)
    requires Inv(s) && HasVersion(s, t)
    requires SkippedFrom(s, t, k, 0)
    ensures KeyClear(s, t, k)
  {}

  /** Meeting a committed record above the read version dooms t, even one with a later version than t's. */
  lemma StopDooms(s: State, t: nat, k: Key, u: nat)
    requires VersionsOk(s) && VerdictsOk(s) && NoOvertaking(s) && IsTxn(s, t) && s.txns[t].state == Validating && IsTxn(s, u) && u != t
    requires Wrote(s, t, k) && Wrote(s, u, k) && s.txns[u].state == Validated && s.txns[u].wv > s.txns[t].rv
    ensures !Commits(s, t)
  {
    assert SharesKey(s, t, u);
    if s.txns[u].wv < s.txns[t].wv { assert Conflict(s, t, u) && Commits(s, u); }
  }

  lemma DecidesTransitive(s: State, s1: State, s2: State, bound: nat)
    requires VersionsOk(s) && Decides(s, s1, bound) && Decides(s1, s2, bound)
    ensures Decides(s, s2, bound)
  {
    DecidesLater(s, s1, bound);
  }

  lemma DecidesWeaken(s: State, s': State, b: nat, bound: nat)
    requires Decides(s, s', b) && b <= bound
    ensures Decides(s, s', bound)
  {}

  lemma KeyClearLater(s: State, s': State, bound: nat, t: nat, k: Key)
    requires VersionsOk(s) && Decides(s, s', bound) && KeyClear(s, t, k)
    ensures KeyClear(s', t, k)
  {
    DecidesLater(s, s', bound);
    forall u: nat | HasVersion(s', u) ensures Wrote(s', u, k) == Wrote(s, u, k) { WroteLater(s, s', u, k); }
  }

  ghost predicate AllClear(s: State, t: nat) { forall k :: Wrote(s, t, k) ==> KeyClear(s, t, k) }

  lemma AllClearCommits(s: State, t: nat)
    requires HasVersion(s, t) && AllClear(s, t)
    ensures Commits(s, t)
  {
    forall u: nat | Conflict(s, t, u) ensures !Commits(s, u) {
      var k :| Wrote(s, t, k) && Wrote(s, u, k);
      assert KeyClear(s, t, k) && InTheWay(s, t, u);
    }
  }

  lemma ValidatedOvertakesNobody(s: State, t: nat, s': State)
    requires VersionsOk(s) && NoOvertaking(s) && IsTxn(s, t) && s.txns[t].state == Validating && AllClear(s, t)
    requires s' == s.(txns := s.txns[t := s.txns[t].(state := Validated)])
    requires forall v: nat :: HasVersion(s, v) ==> Commits(s, v) == Commits(s', v)
    requires Later(s, s')
    ensures NoOvertaking(s')
  {
    forall v, u | 0 <= v < |s'.txns| && 0 <= u < |s'.txns| && s'.txns[v].state == Validating
                  && s'.txns[u].state == Validated && s'.txns[v].wv < s'.txns[u].wv && SharesKey(s', v, u)
      ensures !Commits(s', v)
    {
      SharesKeyLater(s, s', v, u);
      if u == t {
        var k :| Wrote(s, v, k) && Wrote(s, t, k);
        assert KeyClear(s, t, k) && InTheWay(s, t, v);
      }
    }
  }

  /** Moving one validating transaction to VALIDATED after all its keys were found clear. */
  lemma ValidateOne(s: State, t: nat, s': State)
    requires Inv(s) && IsTxn(s, t) && s.txns[t].state == Validating && AllClear(s, t)
    requires s' == s.(txns := s.txns[t := s.txns[t].(state := Validated)])
    ensures Commits(s, t) && Decides(s, s', s.txns[t].wv) && Inv(s') && StepBy(s, Decide(s.txns[t].wv), s')
  {
    AllClearCommits(s, t);
    assert Decides(s, s', s.txns[t].wv);
    DecidesLater(s, s', s.txns[t].wv);
    ValidatedOvertakesNobody(s, t, s');
    DecidesKeeps(s, s', s.txns[t].wv);
  }

  lemma AbortOne(s: State, t: nat, s': State)
    requires Inv(s) && IsTxn(s, t) && s.txns[t].state == Validating && !Commits(s, t)
    requires s' == s.(txns := s.txns[t := s.txns[t].(state := Aborted)])
    ensures Decides(s, s', s.txns[t].wv) && Inv(s') && StepBy(s, Decide(s.txns[t].wv), s')
  {
    hide WritesOk, RecordsOk, ChainsOk, SetOrderOk, VerdictsOk, SharesKey;
    assert Decides(s, s', s.txns[t].wv);
    DecidesLater(s, s', s.txns[t].wv);
    AbortedOvertakesNobody(s, t, s');
    DecidesKeeps(s, s', s.txns[t].wv);
  }

  lemma AbortedOvertakesNobody(s: State, t: nat, s': State)
    requires VersionsOk(s) && NoOvertaking(s) && Later(s, s') && IsTxn(s, t) && s.txns[t].state == Validating
    requires s' == s.(txns := s.txns[t := s.txns[t].(state := Aborted)])
    ensures NoOvertaking(s')
  {
    hide Commits, SharesKey;
    forall v: nat, u: nat | v < |s'.txns| && u < |s'.txns| && s'.txns[v].state == Validating
                            && s'.txns[u].state == Validated && s'.txns[v].wv < s'.txns[u].wv && SharesKey(s', v, u)
      ensures !Commits(s', v)
    {
      SharesKeyLater(s, s', v, u);
      VerdictFixed(s, s', v);
    }
  }

  // ----- reads -----------------------------------------------------------------------------------

  /** Record r of key k is passed over by a read of t. */
  ghost predicate Unseen(s: State, t: nat, k: Key, r: nat)
    requires IsTxn(s, t)
  {
    r < |s.recs| && s.recs[r].author != t && !InSnapshot(s, s.txns[t].rv, k, r)
  }

  ghost predicate UnseenFrom(s: State, t: nat, k: Key, bound: nat)
    requires IsTxn(s, t)
  {
    forall r: nat :: bound <= r < |s.recs| && s.recs[r].key == k ==> Unseen(s, t, k, r)
  }

  lemma OwnFound(s: State, t: nat, k: Key, q: nat)
    requires IsTxn(s, t) && q < |s.recs| && s.recs[q].key == k && s.recs[q].author == t && UnseenFrom(s, t, k, q + 1)
    ensures IsSnapshot(s, t, k, Found(s.recs[q].value))
  {
    forall r: nat | q < r < |s.recs| && s.recs[r].author == t ensures s.recs[r].key != k {
      assert !Unseen(s, t, k, r);
    }
    assert OwnLatest(s, t, k, q);
  }

  lemma CommittedFound(s: State, t: nat, k: Key, q: nat)
    requires VersionsOk(s) && SetOrderOk(s) && IsTxn(s, t) && InSnapshot(s, s.txns[t].rv, k, q) && s.recs[q].author != t
    requires UnseenFrom(s, t, k, q + 1)
    ensures IsSnapshot(s, t, k, Found(s.recs[q].value))
  {
    var c, rv := s.recs[q].author, s.txns[t].rv;
    forall r: nat | r < |s.recs| && s.recs[r].author == t ensures s.recs[r].key != k {
      assert !Unseen(s, t, k, r);
    }
    forall r: nat | InSnapshot(s, rv, k, r) ensures s.txns[s.recs[r].author].wv <= s.txns[c].wv {
      assert !Unseen(s, t, k, r);
      if r < q { ChainVersionsDescend(s, r, q); }
    }
    forall r: nat | q < r < |s.recs| && s.recs[r].author == c ensures s.recs[r].key != k {
      assert InSnapshot(s, rv, s.recs[r].key, r);
      assert Unseen(s, t, k, r) ==> s.recs[r].key != k;
    }
    assert NewestInSnapshot(s, rv, k, q);
  }

  lemma NothingFound(s: State, t: nat, k: Key)
    requires IsTxn(s, t) && UnseenFrom(s, t, k, 0)
    ensures IsSnapshot(s, t, k, if k in s.initial then Found(s.initial[k]) else DoesNotExist)
  {
    forall r: nat | r < |s.recs| && s.recs[r].key == k ensures s.recs[r].author != t { assert Unseen(s, t, k, r); }
    forall r: nat ensures !InSnapshot(s, s.txns[t].rv, k, r) {
      assert r < |s.recs| && s.recs[r].key == k ==> Unseen(s, t, k, r);
    }
  }

  lemma HeadLink(s: State, k: Key)
    requires ChainsOk(s)
    ensures LinkOk(s, k, |s.recs|, Head(s, k))
  {}

  lemma NextLink(s: State, k: Key, q: nat)
    requires ChainsOk(s) && q < |s.recs| && s.recs[q].key == k
    ensures LinkOk(s, k, q, s.recs[q].next)
  {}

  lemma OwnRecord(s: State, t: nat, q: nat)
    requires RecordsOk(s) && q < |s.recs|
    ensures s.recs[q].version == Pending(t) ==> s.recs[q].author == t
    ensures s.recs[q].author == t && t < |s.txns| && !s.txns[t].released ==> s.recs[q].version == Pending(t)
  {}

  lemma UnseenAbove(s: State, t: nat, k: Key)
    requires IsTxn(s, t)
    ensures UnseenFrom(s, t, k, |s.recs|)
  {}

  /** No record of k lies between the one at q and the bound. */
  lemma UnseenGap(s: State, t: nat, k: Key, q: nat, bound: nat)
    requires IsTxn(s, t) && q < bound <= |s.recs| && UnseenFrom(s, t, k, bound) && forall x :: q < x < bound ==> s.recs[x].key != k
    ensures UnseenFrom(s, t, k, q + 1)
  {}

  lemma UnseenAll(s: State, t: nat, k: Key, bound: nat, link: Link)
    requires IsTxn(s, t) && bound <= |s.recs| && LinkOk(s, k, bound, link) && !link.Update? && UnseenFrom(s, t, k, bound)
    ensures UnseenFrom(s, t, k, 0)
  {}

  lemma UnseenLater(s: State, s': State, bound: nat, t: nat, k: Key, from: nat)
    requires Inv(s) && Decides(s, s', bound) && IsTxn(s, t) && UnseenFrom(s, t, k, from)
    ensures UnseenFrom(s', t, k, from)
  {
    DecidesLater(s, s', bound);
    forall r: nat | from <= r < |s'.recs| && s'.recs[r].key == k ensures Unseen(s', t, k, r) {
      InSnapshotFixed(s, s', s.txns[t].rv, k, r);
      assert Unseen(s, t, k, r);
    }
  }

  // ----- the arguments of the operations ---------------------------------------------------------

  /** What a transaction sets is what it is owed from then on. */
  lemma SetIsOwed(s: State, t: nat, k: Key, v: Value)
    requires Usable(s, t) && s.txns[t].state == Running
    ensures IsTxn(DoSet(s, t, k, v), t) && IsSnapshot(DoSet(s, t, k, v), t, k, Found(v))
  {
    var s' := DoSet(s, t, k, v);
    assert s'.recs[|s.recs|].author == t && s'.recs[|s.recs|].key == k;
    assert OwnLatest(s', t, k, |s.recs|);
  }

  /** A new transaction reads everything that has drawn a version, and has written nothing. */
  lemma BeginSeesAll(s: State)
    requires VersionsOk(s) && WritesOk(s)
    ensures var s', t := DoBegin(s), |s.txns|;
            && t < |s'.txns| && (forall u: nat :: HasVersion(s, u) ==> s'.txns[u].wv <= s'.txns[t].rv) && s'.txns[t].rv <= s'.clock
            && (forall k :: !Wrote(s', t, k))
  {
    forall r | 0 <= r < |s.recs| ensures s.recs[r].author != |s.txns| { assert s.recs[r].author < |s.txns|; }
  }

  /** The step from run[i] is a set of k to v by t, and makes record r. */
  ghost predicate SetAt(run: seq<State>, i: nat, r: nat, t: nat, k: Key, v: Value) {
    i + 1 < |run| && StepBy(run[i], Set(t, k, v), run[i + 1]) && |run[i].recs| == r
  }

  /** Over all runs: every record holds the key and the value that its author set. */
  lemma {:induction false} RunRecordsAreSets(run: seq<State>, j: nat, r: nat)
    requires IsRun(run) && j < |run| && r < |run[j].recs|
    ensures exists i: nat :: i < j && SetAt(run, i, r, run[j].recs[r].author, run[j].recs[r].key, run[j].recs[r].value)
  {
    hide Inv, Commits, NoOvertaking;
    if j > 0 {
      RunKeeps(run, j - 1, j);
      var s, rec := run[j - 1], run[j].recs[r];
      if r < |s.recs| {
        RunRecordsAreSets(run, j - 1, r);
        var i: nat :| i < j - 1 && SetAt(run, i, r, s.recs[r].author, s.recs[r].key, s.recs[r].value);
        assert SetAt(run, i, r, rec.author, rec.key, rec.value);
      } else {
        assert Next(s, run[j]);
        var a :| StepBy(s, a, run[j]);
        NewRecordIsSet(s, a, run[j], r);
        assert SetAt(run, j - 1, r, rec.author, rec.key, rec.value);
      }
    }
  }

  lemma NewRecordIsSet(s: State, a: Action, s': State, r: nat)
    requires StepBy(s, a, s') && |s.recs| <= r < |s'.recs|
    ensures r == |s.recs| && StepBy(s, Set(s'.recs[r].author, s'.recs[r].key, s'.recs[r].value), s')
  {
    hide Commits, NoOvertaking;
  }

  /** A transaction that began after state i reads at least at the clock of state i. */
  lemma {:induction false} RunBeginsLater(run: seq<State>, i: nat, j: nat, t: nat)
    requires IsRun(run) && i <= j < |run| && |run[i].txns| <= t < |run[j].txns|
    ensures run[j].txns[t].rv >= run[i].clock
  {
    hide Inv, Commits, NoOvertaking;
    if i < j {
      RunKeeps(run, j - 1, j);
      RunKeeps(run, i, j - 1);
      if t < |run[j - 1].txns| {
        RunBeginsLater(run, i, j - 1, t);
      } else {
        assert Next(run[j - 1], run[j]);
        var a :| StepBy(run[j - 1], a, run[j]);
        NewTxnReadsClock(run[j - 1], a, run[j], t);
      }
    }
  }

  lemma NewTxnReadsClock(s: State, a: Action, s': State, t: nat)
    requires StepBy(s, a, s') && |s.txns| <= t < |s'.txns|
    ensures s'.txns[t].rv == s.clock
  {
    hide Commits, NoOvertaking;
  }

  /** Over all runs: a transaction that begins after u has committed a value for k, and does not set k itself, is owed that
      value or a newer committed one, as set by its author. */
  lemma RunReadsCommitted(run: seq<State>, i: nat, j: nat, t: nat, u: nat, k: Key, res: Result)
    requires IsRun(run) && i <= j < |run| && |run[i].txns| <= t < |run[j].txns|
    requires u < |run[i].txns| && run[i].txns[u].state == Validated && Wrote(run[i], u, k)
    requires !Wrote(run[j], t, k) && IsSnapshot(run[j], t, k, res)
    ensures exists r: nat :: ReadsRecord(run[j], t, u, k, r, res)
  {
    var s := run[j];
    RunKeeps(run, i, j);
    RunKeeps(run, i, i);
    RunBeginsLater(run, i, j, t);
    var q :| 0 <= q < |run[i].recs| && run[i].recs[q].author == u && run[i].recs[q].key == k;
    assert Commits(s, u) && s.txns[u].wv <= s.txns[t].rv;
    hide Commits;
    assert InSnapshot(s, s.txns[t].rv, k, q);
    var r: nat :| NewestInSnapshot(s, s.txns[t].rv, k, r) && res == Found(s.recs[r].value);
    assert ReadsRecord(s, t, u, k, r, res);
  }

  /** The answer is the value of record r of k, whose author committed no earlier than u and no later than t read. */
  ghost predicate ReadsRecord(s: State, t: nat, u: nat, k: Key, r: nat, res: Result) {
    && r < |s.recs| && s.recs[r].key == k && res == Found(s.recs[r].value) && t < |s.txns| && u < |s.txns|
    && Commits(s, s.recs[r].author) && s.txns[u].wv <= s.txns[s.recs[r].author].wv <= s.txns[t].rv
  }

  /** How many transactions have drawn a write version. */
  function Drawn(txns: seq<Transaction>): nat {
    if txns == [] then 0 else Drawn(txns[..|txns| - 1]) + if txns[|txns| - 1].state == Running then 0 else 1
  }

  lemma {:induction false} DrawnUpdate(txns: seq<Transaction>, t: nat, x: Transaction)
    requires t < |txns|
    ensures Drawn(txns[t := x]) + (if txns[t].state == Running then 0 else 1) == Drawn(txns) + if x.state == Running then 0 else 1
  {
    var n := |txns| - 1;
    if t < n {
      assert txns[t := x][..n] == txns[..n][t := x];
      DrawnUpdate(txns[..n], t, x);
    } else {
      assert txns[t := x][..n] == txns[..n];
    }
  }

  lemma {:induction false} DrawnSame(txns: seq<Transaction>, txns': seq<Transaction>)
    requires |txns'| == |txns| && forall t :: 0 <= t < |txns| ==> (txns'[t].state == Running <==> txns[t].state == Running)
    ensures Drawn(txns') == Drawn(txns)
  {
    if txns != [] { DrawnSame(txns[..|txns| - 1], txns'[..|txns| - 1]); }
  }

  lemma ClockStep(s: State, a: Action, s': State)
    requires StepBy(s, a, s') && s.clock == 1 + Drawn(s.txns)
    ensures s'.clock == 1 + Drawn(s'.txns)
  {
    hide Commits, NoOvertaking, Drawn;
    match a {
      case Begin => DrawnMore(s.txns, s'.txns[|s.txns|]);
      case Decide(_) => DrawnSame(s.txns, s'.txns);
      case _ => if s'.txns != s.txns { DrawnUpdate(s.txns, a.t, s'.txns[a.t]); }
    }
  }

  lemma DrawnMore(txns: seq<Transaction>, x: Transaction)
    ensures Drawn(txns + [x]) == Drawn(txns) + if x.state == Running then 0 else 1
  {
    assert (txns + [x])[..|txns|] == txns;
  }

  /** Over all runs: the clock counts the commits that were started, from 1; so the versions they drew, all different and not
      above it, are exactly the numbers from 2 to the clock. */
  lemma {:induction false} RunClockCounts(run: seq<State>, j: nat)
    requires IsRun(run) && j < |run|
    ensures run[j].clock == 1 + Drawn(run[j].txns)
  {
    hide Commits, NoOvertaking, StepBy;
    if j > 0 {
      RunClockCounts(run, j - 1);
      assert Next(run[j - 1], run[j]);
      var a :| StepBy(run[j - 1], a, run[j]);
      ClockStep(run[j - 1], a, run[j]);
    }
  }

  /** t was aborted: its memory is gone and its records say so. */
  ghost predicate GivenUp(s: State, t: nat) {
    && t < |s.txns| && s.txns[t].state == Running && s.txns[t].released
    && forall r :: 0 <= r < |s.recs| && s.recs[r].author == t ==> s.recs[r].version == AbortedVersion
  }

  lemma AbortGivesUp(s: State, t: nat)
    requires Usable(s, t) && s.txns[t].state == Running
    ensures GivenUp(DoAbort(s, t), t)
  {}

  lemma StaysGivenUp(s: State, a: Action, s': State, t: nat)
    requires StepBy(s, a, s') && GivenUp(s, t)
    ensures GivenUp(s', t)
  {
    hide Commits, NoOvertaking;
  }

  /** Over all runs: an aborted transaction stays so and what it set is in nobody's snapshot. */
  lemma {:induction false} RunAbortIsFinal(run: seq<State>, i: nat, j: nat, t: nat)
    requires IsRun(run) && i < j < |run| && Usable(run[i], t) && run[i].txns[t].state == Running
    requires StepBy(run[i], Abort(t), run[i + 1])
    ensures GivenUp(run[j], t)
    ensures forall rv: nat, k: Key, r: nat :: InSnapshot(run[j], rv, k, r) ==> run[j].recs[r].author != t
  {
    hide GivenUp, NoOvertaking, Inv;
    if j == i + 1 {
      AbortGivesUp(run[i], t);
    } else {
      RunAbortIsFinal(run, i, j - 1, t);
      assert Next(run[j - 1], run[j]);
      var a :| StepBy(run[j - 1], a, run[j]);
      StaysGivenUp(run[j - 1], a, run[j], t);
    }
    GivenUpUncommitted(run[j], t);
  }

  lemma GivenUpUncommitted(s: State, t: nat)
    requires GivenUp(s, t)
    ensures !Commits(s, t)
  {}

  // ----- the operations in place -----------------------------------------------------------------

  class TxnMap {
    var clock: nat
    var txns: seq<Transaction>
    var recs: seq<Record>
    var heads: map<Key, Link>
    ghost const initial: map<Key, Value>

    ghost function St(): State
      reads this
    {
      State(clock, txns, recs, heads, initial)
    }

    constructor (values: map<Key, Value>)
      ensures Init(St()) && Inv(St()) && initial == values
    {
      clock, txns, recs := 1, [], [];
      heads := map k | k in values :: Literal(values[k]);
      initial := values;
    }

    /** `txn_begin`, up to drawing the read version. */
    method Begin() returns (t: nat)
      requires Inv(St())
      modifies this`txns
      ensures Inv(St()) && St() == DoBegin(old(St())) && t == |old(txns)|
      ensures StepBy(old(St()), Action.Begin, St())
      ensures txns[t].state == Running && !txns[t].released && forall k :: !Wrote(St(), t, k)
      ensures forall u: nat :: HasVersion(old(St()), u) ==> u < |txns| && txns[u].wv <= txns[t].rv
      ensures txns[t].rv <= clock
    {
      BeginSeesAll(St());
      hide Inv;
      t := |txns|;
      BeginKeeps(St());
      txns := txns + [Transaction(clock, 0, Running, [], false)];
    }

    /** `txn_map_set`: the CAS that pushes the record, and the entry in the write set. */
    method Set(t: nat, key: Key, value: Value)
      requires Inv(St()) && Usable(St(), t)
      modifies this`txns, this`recs, this`heads
      ensures Inv(St()) && St() == DoSet(old(St()), t, key, value)
      ensures StepBy(old(St()), Action.Set(t, key, value), St())
      ensures old(txns[t].state) == Running ==> IsSnapshot(St(), t, key, Found(value))
    {
      hide Inv;
      if txns[t].state != Running { return; }
      SetKeeps(St(), t, key, value);
      SetIsOwed(St(), t, key, value);
      var old_update := if key in heads then heads[key] else Nothing;
      var rec := |recs|;
      recs := recs + [Record(Pending(t), value, old_update, t, key)];
      heads := heads[key := Update(rec)];
      txns := txns[t := txns[t].(writes := txns[t].writes + [WriteRec(key, rec)])];
    }

    /** The loop that rewrites the version of every record in a write set. */
    method WriteVersions(t: nat, ver: Version)
      requires Inv(St()) && Usable(St(), t)
      modifies this`recs
      ensures recs == SetVersions(old(recs), t, ver)
    {
      hide ChainsOk, SetOrderOk, VerdictsOk, NoOvertaking, VersionsOk, RecordsOk;
      ghost var recs0 := recs;
      ghost var writes := txns[t].writes;
      var i := 0;
      while i < |txns[t].writes|
        invariant 0 <= i <= |txns[t].writes| && |recs| == |recs0|
        invariant forall r :: 0 <= r < |recs0| ==>
                    recs[r] == if (exists n :: 0 <= n < i && writes[n].rec == r) then recs0[r].(version := ver) else recs0[r]
      {
        var rec := txns[t].writes[i].rec;
        recs := recs[rec := recs[rec].(version := ver)];
        i := i + 1;
      }
      forall r | 0 <= r < |recs0|
        ensures (exists n :: 0 <= n < |writes| && writes[n].rec == r) <==> recs0[r].author == t
      {
        if recs0[r].author == t {
          var n :| 0 <= n < |writes| && writes[n] == WriteRec(recs0[r].key, r);
          assert writes[n].rec == r;
        }
      }
    }

    /** `txn_abort` */
    method Abort(t: nat)
      requires Inv(St()) && Usable(St(), t)
      modifies this`txns, this`recs
      ensures Inv(St()) && St() == DoAbort(old(St()), t)
      ensures if old(txns[t].state) == Running then GivenUp(St(), t) else St() == old(St())
      ensures StepBy(old(St()), Action.Abort(t), St())
    {
      hide Inv;
      if txns[t].state != Running { return; }
      ReleaseKeeps(St(), t, AbortedVersion);
      AbortGivesUp(St(), t);
      WriteVersions(t, AbortedVersion);
      txns := txns[t := txns[t].(released := true)];
    }

    /** The start of `txn_commit`: VALIDATING, and the write version is drawn. */
    method StartCommit(t: nat)
      requires Inv(St()) && Usable(St(), t)
      modifies this`txns, this`clock
      ensures Inv(St()) && St() == DoStartCommit(old(St()), t)
      ensures StepBy(old(St()), Action.StartCommit(t), St())
    {
      hide Inv;
      if txns[t].state != Running { return; }
      StartCommitKeeps(St(), t);
      clock := clock + 1;
      txns := txns[t := txns[t].(state := Validating, wv := clock)];
    }

    /** The part the two scans share: find out whether the transaction of record q has committed, helping
        it when it is validating with a version up to `limit`. */
    method Resolve(t: nat, q: nat, limit: nat) returns (committed: bool, wv: nat)
      requires Inv(St()) && Usable(St(), t) && q < |recs|
      requires !HasVersion(St(), t) || limit == txns[t].wv - 1
      modifies this`txns
      ensures Inv(St()) && Decides(old(St()), St(), limit) && txns[t] == old(txns[t])
      ensures recs[q].author < |txns|
      ensures var x := txns[recs[q].author];
              if committed then recs[q].author != t && x.state == Validated && wv == x.wv
              else recs[q].author == t || x.state in {Running, Aborted} || x.wv > limit
      decreases limit, 2
    {
      committed, wv := false, 0;
      match recs[q].version {
        case Number(n) => committed, wv := true, n;
        case AbortedVersion =>
        case Pending(writer) =>
          if writer != t {
            var state := txns[writer].state;
            if state == Validating && txns[writer].wv <= limit {
              ghost var s1 := St();
              state := Validate(writer);
              DecidesWeaken(s1, St(), s1.txns[writer].wv, limit);
            }
            committed, wv := state == Validated, txns[writer].wv;
          }
      }
    }

    /** `validate_key`: scan the chain of a key for a write-write conflict, helping validators on the way. */
    method ValidateKey(t: nat, key: Key) returns (verdict: Phase)
      requires Inv(St()) && IsTxn(St(), t) && txns[t].state == Validating && Wrote(St(), t, key)
      modifies this`txns
      ensures Inv(St()) && Decides(old(St()), St(), old(txns[t].wv) - 1) && txns[t] == old(txns[t])
      ensures verdict in {Validated, Aborted}
      ensures verdict == Validated ==> KeyClear(St(), t, key)
      ensures verdict == Aborted ==> !Commits(St(), t)
      decreases txns[t].wv, 0
    {
      hide Commits, NoOvertaking, SetOrderOk, RecordsOk, VerdictsOk, WritesOk, KeyClear, Wrote, Skipped, ChainsOk, SkippedFrom;
      ghost var s0 := St();
      ghost var bound: nat := |recs|;
      var val := if key in heads then heads[key] else Nothing;
      HeadLink(s0, key);
      SkippedAbove(s0, t, key);
      while val.Update?
        invariant Inv(St()) && t < |txns| && Decides(s0, St(), s0.txns[t].wv - 1) && txns[t] == s0.txns[t]
        invariant bound <= |recs| && LinkOk(St(), key, bound, val)
        invariant SkippedFrom(St(), t, key, bound)
        decreases bound
      {
        var q := val.rec;
        ghost var s1 := St();
        NextLink(s1, key, q);
        var committed, wv := Resolve(t, q, txns[t].wv - 1);
        Scanned(s0, s1, t, key, q, bound, committed);
        if committed {
          verdict := if wv <= txns[t].rv then Validated else Aborted;
          Stop(s0, t, key, q, verdict);
          return;
        }
        val := recs[q].next;
        bound := q;
      }
      SkippedAll(St(), t, key, bound, val);
      EndClears(St(), t, key);
      verdict := Validated;
    }

    lemma Scanned(s0: State, s1: State, t: nat, key: Key, q: nat, bound: nat, committed: bool)
      requires Inv(s0) && Inv(s1) && Inv(St()) && IsTxn(s0, t) && IsTxn(s1, t) && s0.txns[t].wv > 0
      requires Decides(s0, s1, s0.txns[t].wv - 1) && s1.txns[t] == s0.txns[t] && s0.txns[t].state == Validating
      requires Decides(s1, St(), s0.txns[t].wv - 1) && txns[t] == s1.txns[t]
      requires bound <= |s1.recs| && SkippedFrom(s1, t, key, bound) && q < bound && LinkOk(s1, key, q, recs[q].next)
      requires forall x :: q < x < bound ==> recs[x].key != key
      requires recs[q].author < |txns|
      requires !committed ==> recs[q].author == t || txns[recs[q].author].state in {Running, Aborted}
                              || txns[recs[q].author].wv > s0.txns[t].wv - 1
      ensures Decides(s0, St(), s0.txns[t].wv - 1) && LinkOk(St(), key, q, recs[q].next)
      ensures SkippedFrom(St(), t, key, q + 1)
      ensures !committed ==> SkippedFrom(St(), t, key, q)
    {
      hide Commits, NoOvertaking, SetOrderOk, RecordsOk, VerdictsOk, ChainsOk, WritesOk;
      DecidesTransitive(s0, s1, St(), s0.txns[t].wv - 1);
      forall r: nat | q + 1 <= r < |recs| && recs[r].key == key ensures Skipped(St(), t, recs[r].author) {
        assert Skipped(s1, t, s1.recs[r].author);
      }
    }

    lemma Stop(s0: State, t: nat, key: Key, q: nat, verdict: Phase)
      requires Inv(St()) && IsTxn(St(), t) && txns[t].state == Validating && Wrote(s0, t, key) && s0.recs == recs
      requires q < |recs| && recs[q].key == key && IsTxn(St(), recs[q].author)
      requires txns[recs[q].author].state == Validated && recs[q].author != t
      requires SkippedFrom(St(), t, key, q + 1)
      requires verdict == if txns[recs[q].author].wv <= txns[t].rv then Validated else Aborted
      ensures verdict == Validated ==> KeyClear(St(), t, key)
      ensures verdict == Aborted ==> !Commits(St(), t)
    {
      assert Wrote(St(), recs[q].author, key);
      assert Wrote(St(), t, key) by {
        var r :| 0 <= r < |recs| && recs[r].author == t && recs[r].key == key;
      }
      if verdict == Validated { StopClears(St(), t, key, q); } else { StopDooms(St(), t, key, recs[q].author); }
    }

    /** `txn_validate`: decide a transaction that drew its write version, whoever calls it. */
    method Validate(t: nat) returns (verdict: Phase)
      requires Inv(St()) && HasVersion(St(), t)
      modifies this`txns
      ensures Inv(St()) && Decides(old(St()), St(), old(txns[t].wv)) && StepBy(old(St()), Decide(old(txns[t].wv)), St())
      ensures verdict == txns[t].state == if Commits(old(St()), t) then Validated else Aborted
      decreases txns[t].wv, 1
    {
      hide Commits, NoOvertaking, SetOrderOk, RecordsOk, KeyClear, ChainsOk, Wrote, WritesOk;
      ghost var s0 := St();
      if txns[t].state == Validating {
        var i := 0;
        var conflict := false;
        while i < |txns[t].writes| && !conflict
          invariant Inv(St()) && t < |txns| && txns[t] == s0.txns[t] && Decides(s0, St(), s0.txns[t].wv)
          invariant 0 <= i <= |txns[t].writes|
          invariant !conflict ==> forall n :: 0 <= n < i ==> KeyClear(St(), t, txns[t].writes[n].key)
          invariant conflict ==> !Commits(St(), t)
          decreases |txns[t].writes| - i, !conflict
        {
          ghost var s1 := St();
          var key := txns[t].writes[i].key;
          WroteKey(s1, t, i);
          var verdict1 := ValidateKey(t, key);
          Progressed(s0, s1, t, i);
          if verdict1 == Aborted { conflict := true; } else { i := i + 1; }
        }
        ghost var s2 := St();
        if conflict {
          txns := txns[t := txns[t].(state := Aborted)];
          AbortOne(s2, t, St());
        } else {
          assert AllClear(s2, t) by { ScannedAll(t); }
          txns := txns[t := txns[t].(state := Validated)];
          ValidateOne(s2, t, St());
        }
        DecidesTransitive(s0, s2, St(), s0.txns[t].wv);
        DecidesLater(s0, s2, s0.txns[t].wv);
      }
      verdict := txns[t].state;
    }

    lemma WroteKey(s: State, t: nat, i: nat)
      requires WritesOk(s) && IsTxn(s, t) && i < |s.txns[t].writes|
      ensures Wrote(s, t, s.txns[t].writes[i].key)
    {
      assert s.recs[s.txns[t].writes[i].rec].author == t;
    }

    lemma Progressed(s0: State, s1: State, t: nat, i: nat)
      requires Inv(s0) && Inv(s1) && IsTxn(s0, t) && IsTxn(s1, t) && s0.txns[t].wv > 0 && s1.txns[t] == s0.txns[t]
      requires Decides(s0, s1, s0.txns[t].wv) && Decides(s1, St(), s0.txns[t].wv - 1) && i <= |s0.txns[t].writes|
      requires forall n :: 0 <= n < i ==> KeyClear(s1, t, s1.txns[t].writes[n].key)
      ensures Decides(s0, St(), s0.txns[t].wv)
      ensures forall n :: 0 <= n < i ==> KeyClear(St(), t, s1.txns[t].writes[n].key)
    {
      DecidesWeaken(s1, St(), s0.txns[t].wv - 1, s0.txns[t].wv);
      DecidesTransitive(s0, s1, St(), s0.txns[t].wv);
      forall n | 0 <= n < i ensures KeyClear(St(), t, s1.txns[t].writes[n].key) {
        KeyClearLater(s1, St(), s0.txns[t].wv - 1, t, s1.txns[t].writes[n].key);
      }
    }

    lemma ScannedAll(t: nat)
      requires WritesOk(St()) && IsTxn(St(), t)
      requires forall n :: 0 <= n < |txns[t].writes| ==> KeyClear(St(), t, txns[t].writes[n].key)
      ensures AllClear(St(), t)
    {
      forall k | Wrote(St(), t, k) ensures KeyClear(St(), t, k) {
        var r :| 0 <= r < |recs| && recs[r].author == t && recs[r].key == k;
        var n :| 0 <= n < |txns[t].writes| && txns[t].writes[n] == WriteRec(k, r);
      }
    }

    /** The end of `txn_commit`: detach the decided transaction from its records. */
    method Detach(t: nat)
      requires Inv(St()) && Usable(St(), t) && txns[t].state in {Validated, Aborted}
      modifies this`txns, this`recs
      ensures Inv(St()) && St() == DoDetach(old(St()), t)
      ensures StepBy(old(St()), Action.Detach(t), St())
    {
      hide Inv;
      ReleaseKeeps(St(), t, FinalVersion(txns[t]));
      WriteVersions(t, if txns[t].state == Aborted then AbortedVersion else Number(txns[t].wv));
      txns := txns[t := txns[t].(released := true)];
    }

    /** `txn_map_get`, up to the value: scan the chain for the newest record the transaction may see. */
    method Get(t: nat, key: Key) returns (res: Result)
      requires Inv(St()) && Usable(St(), t)
      modifies this`txns
      ensures Inv(St()) && Decides(old(St()), St(), old(txns[t].rv)) && txns[t] == old(txns[t])
      ensures StepBy(old(St()), Decide(old(txns[t].rv)), St())
      ensures if txns[t].state == Running then IsSnapshot(old(St()), t, key, res) else res == NotRunning
    {
      hide Commits, NoOvertaking, SetOrderOk, WritesOk, IsSnapshot, VersionsOk, RecordsOk, ChainsOk, VerdictsOk, InSnapshot, UnseenFrom;
      ghost var s0 := St();
      if txns[t].state != Running { return NotRunning; }
      ghost var bound: nat := |recs|;
      var val := if key in heads then heads[key] else Nothing;
      HeadLink(s0, key);
      UnseenAbove(s0, t, key);
      while val.Update?
        invariant Inv(St()) && t < |txns| && Decides(s0, St(), s0.txns[t].rv) && txns[t] == s0.txns[t]
        invariant bound <= |recs| && LinkOk(St(), key, bound, val)
        invariant UnseenFrom(St(), t, key, bound)
        decreases bound
      {
        var q := val.rec;
        ghost var s1 := St();
        NextLink(s1, key, q);
        OwnRecord(s1, t, q);
        UnseenGap(s1, t, key, q, bound);
        if recs[q].version == Pending(t) {
          OwnFound(St(), t, key, q);
          Answer(s0, t, key, Found(recs[q].value));
          return Found(recs[q].value);
        }
        var committed, wv := Resolve(t, q, txns[t].rv);
        DecidesTransitive(s0, s1, St(), s0.txns[t].rv);
        UnseenLater(s1, St(), s0.txns[t].rv, t, key, q + 1);
        if committed && wv <= txns[t].rv {
          SeenCommitted(t, key, q);
          Answer(s0, t, key, Found(recs[q].value));
          return Found(recs[q].value);
        }
        NotSeen(t, key, q);
        val := recs[q].next;
        bound := q;
      }
      UnseenAll(St(), t, key, bound, val);
      NothingFound(St(), t, key);
      res := if val.Literal? then Found(val.value) else DoesNotExist;
      Answer(s0, t, key, res);
    }

    lemma NotSeen(t: nat, key: Key, q: nat)
      requires Inv(St()) && IsTxn(St(), t) && txns[t].state == Running && q < |recs| && recs[q].key == key
      requires UnseenFrom(St(), t, key, q + 1) && recs[q].author != t && IsTxn(St(), recs[q].author)
      requires !(txns[recs[q].author].state in {Validating, Validated} && txns[recs[q].author].wv <= txns[t].rv)
      ensures UnseenFrom(St(), t, key, q)
    {
      hide ChainsOk, WritesOk, RecordsOk, SetOrderOk, NoOvertaking;
      forall r: nat | q <= r < |recs| && recs[r].key == key ensures Unseen(St(), t, key, r) {
        if r == q { assert !InSnapshot(St(), txns[t].rv, key, q); }
      }
    }

    lemma SeenCommitted(t: nat, key: Key, q: nat)
      requires Inv(St()) && IsTxn(St(), t) && q < |recs| && recs[q].key == key && recs[q].author != t && IsTxn(St(), recs[q].author)
      requires txns[recs[q].author].state == Validated && txns[recs[q].author].wv <= txns[t].rv && UnseenFrom(St(), t, key, q + 1)
      ensures IsSnapshot(St(), t, key, Found(recs[q].value))
    {
      hide ChainsOk, WritesOk, RecordsOk, NoOvertaking, IsSnapshot, UnseenFrom;
      assert Commits(St(), recs[q].author);
      hide VerdictsOk, Commits;
      CommittedFound(St(), t, key, q);
    }

    lemma Answer(s0: State, t: nat, key: Key, res: Result)
      requires Inv(s0) && IsTxn(s0, t) && Decides(s0, St(), s0.txns[t].rv) && IsSnapshot(St(), t, key, res)
      ensures IsSnapshot(s0, t, key, res)
    {
      DecidesLater(s0, St(), s0.txns[t].rv);
      SnapshotFixed(s0, St(), t, key, res);
    }

    /** `txn_commit` run without interruption: the outcome is the verdict on the write version it drew. */
    method Commit(t: nat) returns (outcome: Phase)
      requires Inv(St()) && Usable(St(), t)
      modifies this
      ensures Inv(St())
      ensures old(txns[t].state) != Running ==> outcome == old(txns[t].state) && St() == old(St())
      ensures old(txns[t].state) == Running ==>
                && (outcome == Validated <==> Commits(DoStartCommit(old(St()), t), t))
                && outcome in {Validated, Aborted} && t < |txns| && txns[t].released && txns[t].state == outcome
                && CommitSteps(old(St()), t, St())
    {
      hide Inv, NoOvertaking;
      if txns[t].state != Running { return txns[t].state; }
      ghost var s := St();
      StartCommit(t);
      ghost var s1 := St();
      outcome := Validate(t);
      ghost var s2 := St();
      Detach(t);
      assert IsCommit(s, t, s1, s2, St());
    }
  }
}
