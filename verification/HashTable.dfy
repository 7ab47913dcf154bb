/** The resizing hash table (src/map/hashtable.c): a chain of tables, the first ones partly copied into
    the later ones, that at every moment stands for one plain map.

    An API call, the tagging of one entry, the copy of one entry (with its counter updates), the start of
    a copy and the unlinking of a finished table are atomic; they come in any order.

    A bucket is a cache line of 4 entries, and a helper copies 8 entries at a time. */
module HashTables {
  import opened Common

  type Key = int
  type Value = int

  /** The `val` field of an entry. */
  datatype Cell = Empty | Live(v: Value) | Tombstone | TaggedLive(v: Value) | TaggedTombstone | Copied

  datatype Entry = Entry(key: Option<Key>, val: Cell)

  /** `copyScan` counts chunks of 8 entries: `copy_scan` only ever moves by whole chunks. */
  datatype Table = Table(scale: nat, entries: seq<Entry>, count: int, keyCount: int, copyScan: nat, numCopied: int)

  /** Where `hti_lookup` ends: at the key, at an empty entry, or nowhere (NULL). */
  datatype Slot = Found(ndx: nat) | Free(ndx: nat) | NoRoom

  const MIN_SCALE: nat := 4

  // ----- probing ---------------------------------------------------------------------------------

  lemma Pow2Of4(n: nat)
    requires n >= 4
    ensures Pow2(n) >= 16 && Pow2(n) % 16 == 0
  {
    if n > 4 { Pow2Of4(n - 1); } else { assert Pow2(4) == 16; }
  }

  /** The high-order bits of a 32-bit hash, as many as an index has. */
  function High(hash: nat, scale: nat): nat {
    if scale <= 32 then hash / Pow2(32 - scale) else hash * Pow2(scale - 32)
  }

  /** `get_next_ndx`: the next bucket, from the high-order bits of the hash. */
  function NextNdx(ndx: nat, hash: nat, scale: nat): (r: nat)
    ensures r < Pow2(scale)
  {
    var high := High(hash, scale);
    var incr := if high < 4 then high + 4 else high;
    (ndx + incr) % Pow2(scale)
  }

  /** With a 32-bit hash the search goes on in another bucket, unless the high bits of the hash lie less than a bucket below
      the table size: then it can wrap around into the bucket it comes from. */
  lemma NextBucket(ndx: nat, hash: nat, scale: nat)
    requires MIN_SCALE <= scale <= 32 && hash < Pow2(32) && ndx < Pow2(scale)
    ensures High(hash, scale) < Pow2(scale)
    ensures NextNdx(ndx, hash, scale) / 4 == ndx / 4 <==> High(hash, scale) + ndx % 4 >= Pow2(scale)
  {
    hide Pow2, High;
    HighBits(hash, scale);
    Pow2Of4(scale);
    Steps(ndx, High(hash, scale), Pow2(scale));
  }

  lemma Steps(ndx: nat, high: nat, size: nat)
    requires size >= 16 && size % 4 == 0 && ndx < size && high < size
    ensures var incr := if high < 4 then high + 4 else high;
            (ndx + incr) % size / 4 == ndx / 4 <==> high + ndx % 4 >= size
  {
    var incr := if high < 4 then high + 4 else high;
    Wrapped(ndx + incr, size);
    SameFour(ndx, incr, size);
  }

  lemma Wrapped(a: nat, size: nat)
    requires 0 < size && a < 2 * size
    ensures a % size == if a < size then a else a - size
  {
    var q := a / size;
    assert a == size * q + a % size;
    assert q < 2;
  }

  lemma SameFour(ndx: nat, incr: nat, size: nat)
    requires size % 4 == 0 && ndx < size && 4 <= incr < size
    ensures var r := if ndx + incr < size then ndx + incr else ndx + incr - size;
            r / 4 == ndx / 4 <==> incr + ndx % 4 >= size
  {}

  lemma HighBits(hash: nat, scale: nat)
    requires scale <= 32 && hash < Pow2(32)
    ensures High(hash, scale) < Pow2(scale)
  {
    hide Pow2;
    Pow2Sum(scale, 32 - scale);
    Quotient(hash, Pow2(32 - scale), Pow2(scale));
  }

  lemma Quotient(a: nat, d: nat, q: nat)
    requires d > 0 && a < q * d
    ensures a / d < q
  {}

  lemma {:induction false} Pow2Sum(a: nat, b: nat)
    ensures Pow2(a) * Pow2(b) == Pow2(a + b) && Pow2(b) > 0
  {
    if b > 0 { Pow2Sum(a, b - 1); }
  }

  /** The index at which the i-th bucket is entered. */
  function NdxAt(hash: nat, scale: nat, i: nat): (r: nat)
    ensures r < Pow2(scale)
  {
    if i == 0 then hash % Pow2(scale) else NextNdx(NdxAt(hash, scale, i - 1), hash, scale)
  }

  /** Entry j of the bucket that ndx is in, counting from ndx and wrapping around in the bucket. */
  function BucketEntry(ndx: nat, j: nat): nat {
    ndx - ndx % 4 + (ndx + j) % 4
  }

  /** The n-th entry probed for a key. */
  function Probe(hash: nat, scale: nat, n: nat): (r: nat)
    requires scale >= MIN_SCALE
    ensures r < Pow2(scale)
  {
    Pow2Of4(scale);
    BucketEntry(NdxAt(hash, scale, n / 4), n % 4)
  }

  lemma ProbeInBucket(hash: nat, scale: nat, b: nat, j: nat)
    requires scale >= MIN_SCALE && j < 4
    ensures Probe(hash, scale, 4 * b + j) == BucketEntry(NdxAt(hash, scale, b), j)
  {
    hide NdxAt, Pow2, BucketEntry;
    assert (4 * b + j) / 4 == b && (4 * b + j) % 4 == j;
  }

  /** `hti->probe`: how many buckets are searched. */
  function ProbeLimit(scale: nat): (r: nat)
    requires scale >= MIN_SCALE
    ensures r > 0
  {
    var probe := scale * 3 / 2 + 2;
    var quarter := Pow2(scale - 2) / 4;
    if probe > quarter && quarter > 4 then quarter else probe
  }

  /** It is the smaller of two bounds, one that grows with the scale and a quarter of the buckets, but the second one only
      counts when it is more than 4. */
  lemma ProbeLimitIs(scale: nat)
    requires scale >= MIN_SCALE
    ensures var r, buckets := ProbeLimit(scale), Pow2(scale - 2);
            && 2 * r <= 3 * scale + 4 && (buckets > 16 ==> 4 * r <= buckets)
            && (2 * r + 1 >= 3 * scale + 4 || (4 * r == buckets && r > 4))
  {
    assert Pow2(scale - 2) == 4 * Pow2(scale - 4) by { assert Pow2(scale - 2) == 2 * Pow2(scale - 3); }
  }

  predicate Sized(t: Table) { t.scale >= MIN_SCALE && |t.entries| == Pow2(t.scale) }

  function LookupFrom(t: Table, k: Key, hash: nat, n: nat): (r: Slot)
    requires Sized(t) && n <= 4 * ProbeLimit(t.scale)
    ensures r.Found? ==> r.ndx < |t.entries| && t.entries[r.ndx].key == Some(k)
    ensures r.Free? ==> r.ndx < |t.entries| && t.entries[r.ndx].key == None
    decreases 4 * ProbeLimit(t.scale) - n
  {
    if n == 4 * ProbeLimit(t.scale) then NoRoom else
    var e := Probe(hash, t.scale, n);
    match t.entries[e].key
    case None => Free(e)
    case Some(q) => if q == k then Found(e) else LookupFrom(t, k, hash, n + 1)
  }

  function Lookup(t: Table, k: Key, hash: Key -> nat): (r: Slot)
    requires Sized(t)
    ensures r.Found? ==> r.ndx < |t.entries| && t.entries[r.ndx].key == Some(k)
    ensures r.Free? ==> r.ndx < |t.entries| && t.entries[r.ndx].key == None
  {
    LookupFrom(t, k, hash(k), 0)
  }

  /** One entry of the search. */
  lemma LookupStep(t: Table, k: Key, h: nat, n: nat)
    requires Sized(t) && n < 4 * ProbeLimit(t.scale)
    ensures Probe(h, t.scale, n) < |t.entries|
    ensures var e := Probe(h, t.scale, n);
            LookupFrom(t, k, h, n) == match t.entries[e].key
                                      case None => Free(e)
                                      case Some(q) => if q == k then Found(e) else LookupFrom(t, k, h, n + 1)
  {}

  lemma LookupEnd(t: Table, k: Key, h: nat)
    requires Sized(t)
    ensures LookupFrom(t, k, h, 4 * ProbeLimit(t.scale)) == NoRoom
  {}

  /** Keys are only ever added. */
  ghost predicate KeysGrow(t: Table, t': Table) {
    && Sized(t) && Sized(t') && t.scale == t'.scale
    && forall e :: 0 <= e < |t.entries| && t.entries[e].key.Some? ==> t'.entries[e].key == t.entries[e].key
  }

  /** A found key stays where it is, and "no room" is permanent. */
  lemma {:induction false} LookupFromStable(t: Table, t': Table, k: Key, h: nat, n: nat)
    requires KeysGrow(t, t') && n <= 4 * ProbeLimit(t.scale)
    ensures !LookupFrom(t, k, h, n).Free? ==> LookupFrom(t', k, h, n) == LookupFrom(t, k, h, n)
    ensures var r := LookupFrom(t, k, h, n);
            r.Free? && t'.entries[r.ndx].key == Some(k) ==> LookupFrom(t', k, h, n) == Found(r.ndx)
    decreases 4 * ProbeLimit(t.scale) - n
  {
    if n < 4 * ProbeLimit(t.scale) { LookupFromStable(t, t', k, h, n + 1); }
  }

  // ----- counting --------------------------------------------------------------------------------

  ghost function Num(b: bool): int { if b then 1 else 0 }

  ghost function CountOf(es: seq<Entry>, p: Entry -> bool): (r: int)
    ensures 0 <= r <= |es|
  {
    if es == [] then 0 else Num(p(es[0])) + CountOf(es[1..], p)
  }

  lemma {:induction false} CountUpdate(es: seq<Entry>, p: Entry -> bool, e: nat, x: Entry)
    requires e < |es|
    ensures CountOf(es[e := x], p) == CountOf(es, p) - Num(p(es[e])) + Num(p(x))
  {
    if e == 0 {
      assert es[e := x][1..] == es[1..];
    } else {
      assert es[e := x][1..] == es[1..][e - 1 := x];
      CountUpdate(es[1..], p, e - 1, x);
    }
  }

  lemma {:induction false} CountNone(es: seq<Entry>, p: Entry -> bool)
    requires forall e :: 0 <= e < |es| ==> !p(es[e])
    ensures CountOf(es, p) == 0
  {
    if es != [] { CountNone(es[1..], p); }
  }

  lemma {:induction false} CountAll(es: seq<Entry>, p: Entry -> bool)
    requires CountOf(es, p) == |es|
    ensures forall e :: 0 <= e < |es| ==> p(es[e])
  {
    if es != [] {
      CountAll(es[1..], p);
      forall e | 0 <= e < |es| ensures p(es[e]) { if e > 0 { assert es[e] == es[1..][e - 1]; } }
    }
  }

  lemma {:induction false} CountEvery(es: seq<Entry>, p: Entry -> bool)
    requires forall e :: 0 <= e < |es| ==> p(es[e])
    ensures CountOf(es, p) == |es|
  {
    if es != [] { CountEvery(es[1..], p); }
  }

  ghost function SumCounts(ts: seq<Table>): int {
    if ts == [] then 0 else ts[0].count + SumCounts(ts[1..])
  }

  lemma {:induction false} SumUpdate(ts: seq<Table>, i: nat, t: Table)
    requires i < |ts|
    ensures SumCounts(ts[i := t]) == SumCounts(ts) - ts[i].count + t.count
  {
    if i == 0 {
      assert ts[i := t][1..] == ts[1..];
    } else {
      assert ts[i := t][1..] == ts[1..][i - 1 := t];
      SumUpdate(ts[1..], i - 1, t);
    }
  }

  lemma {:induction false} SumAppend(ts: seq<Table>, t: Table)
    ensures SumCounts(ts + [t]) == SumCounts(ts) + t.count
  {
    if ts == [] {
      assert ts + [t] == [t];
    } else {
      assert (ts + [t])[1..] == ts[1..] + [t];
      SumAppend(ts[1..], t);
    }
  }

  // ----- what a chain of tables stands for -------------------------------------------------------

  predicate Dead(c: Cell) { c in {Copied, TaggedTombstone} }

  predicate Tagged(c: Cell) { Dead(c) || c.TaggedLive? }

  predicate HasValue(c: Cell) { c.Live? || c.TaggedLive? }

  function CellValue(c: Cell): Option<Value> { if HasValue(c) then Some(c.v) else None }

  predicate HoldsValue(x: Entry) { HasValue(x.val) }

  predicate HoldsKey(x: Entry) { x.key.Some? }

  predicate IsDead(x: Entry) { Dead(x.val) }

  ghost predicate CountersOk(t: Table) {
    && t.count == CountOf(t.entries, HoldsValue)
    && t.keyCount == CountOf(t.entries, HoldsKey)
    && t.numCopied == CountOf(t.entries, IsDead)
  }

  ghost predicate TableOk(hash: Key -> nat, t: Table) {
    && Sized(t) && CountersOk(t)
    && (forall e :: 0 <= e < |t.entries| ==>
          match t.entries[e].key
          case None => t.entries[e].val in {Empty, Copied}
          case Some(k) => Lookup(t, k, hash) == Found(e))
  }

  /** The search for k goes on to the next table: no room here, or k's own entry was copied or killed. */
  ghost predicate Closed(hash: Key -> nat, t: Table, k: Key)
    requires Sized(t)
  {
    match Lookup(t, k, hash)
    case NoRoom => true
    case Free(_) => false
    case Found(e) => e < |t.entries| && Dead(t.entries[e].val)
  }

  ghost predicate TablesOk(hash: Key -> nat, ts: seq<Table>) {
    forall i :: 0 <= i < |ts| ==> TableOk(hash, ts[i])
  }

  /** Routing: a key installed in a table is closed in all the tables before it. */
  ghost predicate Routed(hash: Key -> nat, ts: seq<Table>)
    requires TablesOk(hash, ts)
  {
    forall i, j, e :: 0 <= i < j < |ts| && 0 <= e < |ts[j].entries| && ts[j].entries[e].key.Some?
      ==> Closed(hash, ts[i], ts[j].entries[e].key.value)
  }

  /** Nothing is tagged in a table that is not being copied. */
  ghost predicate Clean(t: Table) {
    forall e :: 0 <= e < |t.entries| ==> !Tagged(t.entries[e].val)
  }

  ghost predicate LastClean(ts: seq<Table>) { |ts| > 0 && Clean(ts[|ts| - 1]) }

  ghost predicate IsAt(ts: seq<Table>, i: int, e: int, k: Key) {
    && 0 <= i < |ts| && 0 <= e < |ts[i].entries|
    && ts[i].entries[e].key == Some(k) && HasValue(ts[i].entries[e].val)
  }

  /** The chain stands for m: m's bindings are the values, live or tagged, found in any of the tables. */
  ghost predicate Denotes(ts: seq<Table>, m: map<Key, Value>) {
    && (forall k :: k in m ==> exists i, e :: IsAt(ts, i, e, k))
    && (forall i, e, k :: IsAt(ts, i, e, k) ==> k in m && m[k] == ts[i].entries[e].val.v)
  }

  ghost predicate Inv(hash: Key -> nat, ts: seq<Table>, m: map<Key, Value>) {
    && TablesOk(hash, ts) && Routed(hash, ts) && LastClean(ts) && Denotes(ts, m)
    && SumCounts(ts) == |m|
  }

  // ----- primitive changes -----------------------------------------------------------------------

  /** The key CAS. */
  function WithKey(t: Table, e: nat, k: Key): Table
    requires e < |t.entries|
  {
    t.(entries := t.entries[e := t.entries[e].(key := Some(k))], keyCount := t.keyCount + 1)
  }

  /** The value CAS with the counter updates that go with it. */
  function WithVal(t: Table, e: nat, c: Cell): Table
    requires e < |t.entries|
  {
    var old_ := t.entries[e].val;
    t.(entries := t.entries[e := t.entries[e].(val := c)],
       count := t.count - (if HasValue(old_) then 1 else 0) + (if HasValue(c) then 1 else 0),
       numCopied := t.numCopied - (if Dead(old_) then 1 else 0) + (if Dead(c) then 1 else 0))
  }

  function FreshTable(scale: nat): Table {
    Table(scale, seq(Pow2(scale), _ => Entry(None, Empty)), 0, 0, 0, 0)
  }

  /** The size of the next table: double when more than half full of values, or more than three eighths of keys. */
  function NewScale(t: Table, count: int): (r: nat)
    requires t.scale >= MIN_SCALE
    ensures t.scale <= r <= t.scale + 1
  {
    if count > Pow2(t.scale - 1) || t.keyCount > Pow2(t.scale - 2) + Pow2(t.scale - 3) then t.scale + 1 else t.scale
  }

  /** More values in the map than half the entries of the table, or more keys in it than three eighths. */
  ghost predicate Crowded(t: Table, values: nat) {
    2 * values > |t.entries| || 8 * CountOf(t.entries, HoldsKey) > 3 * |t.entries|
  }

  lemma WithKeyCounters(t: Table, e: nat, k: Key)
    requires CountersOk(t) && e < |t.entries| && t.entries[e].key == None
    ensures CountersOk(WithKey(t, e, k))
  {
    var x := t.entries[e].(key := Some(k));
    CountUpdate(t.entries, HoldsValue, e, x);
    CountUpdate(t.entries, HoldsKey, e, x);
    CountUpdate(t.entries, IsDead, e, x);
  }

  lemma WithValCounters(t: Table, e: nat, c: Cell)
    requires CountersOk(t) && e < |t.entries|
    ensures CountersOk(WithVal(t, e, c))
  {
    var x := t.entries[e].(val := c);
    CountUpdate(t.entries, HoldsValue, e, x);
    CountUpdate(t.entries, HoldsKey, e, x);
    CountUpdate(t.entries, IsDead, e, x);
  }

  lemma LookupStable(hash: Key -> nat, t: Table, t': Table)
    requires KeysGrow(t, t')
    ensures forall k :: var r := Lookup(t, k, hash);
                        if !r.Free? then Lookup(t', k, hash) == r
                        else t'.entries[r.ndx].key == Some(k) ==> Lookup(t', k, hash) == Found(r.ndx)
  {
    forall k ensures var r := Lookup(t, k, hash);
                     if !r.Free? then Lookup(t', k, hash) == r
                     else t'.entries[r.ndx].key == Some(k) ==> Lookup(t', k, hash) == Found(r.ndx)
    {
      LookupFromStable(t, t', k, hash(k), 0);
    }
  }

  /** Lookups do not depend on values. */
  lemma LookupSameKeys(hash: Key -> nat, t: Table, t': Table)
    requires KeysGrow(t, t') && KeysGrow(t', t)
    ensures forall k :: Lookup(t', k, hash) == Lookup(t, k, hash)
  {
    forall k ensures Lookup(t', k, hash) == Lookup(t, k, hash) {
      LookupFromSameKeys(t, t', k, hash(k), 0);
    }
  }

  lemma {:induction false} LookupFromSameKeys(t: Table, t': Table, k: Key, h: nat, n: nat)
    requires KeysGrow(t, t') && KeysGrow(t', t) && n <= 4 * ProbeLimit(t.scale)
    ensures LookupFrom(t', k, h, n) == LookupFrom(t, k, h, n)
    decreases 4 * ProbeLimit(t.scale) - n
  {
    if n < 4 * ProbeLimit(t.scale) {
      var e := Probe(h, t.scale, n);
      assert t.entries[e].key == t'.entries[e].key;
      LookupFromSameKeys(t, t', k, h, n + 1);
    }
  }

  lemma FoundOnce(hash: Key -> nat, ts: seq<Table>, i: nat, e: nat, k: Key)
    requires TablesOk(hash, ts) && Routed(hash, ts) && i < |ts| && e < |ts[i].entries|
    requires ts[i].entries[e].key == Some(k) && !Dead(ts[i].entries[e].val)
    ensures forall j, x :: 0 <= j < |ts| && 0 <= x < |ts[j].entries| && ts[j].entries[x].key == Some(k)
              ==> (j == i && x == e) || (j < i && Dead(ts[j].entries[x].val))
  {
    assert Lookup(ts[i], k, hash) == Found(e);
    forall j, x | 0 <= j < |ts| && 0 <= x < |ts[j].entries| && ts[j].entries[x].key == Some(k)
      ensures (j == i && x == e) || (j < i && Dead(ts[j].entries[x].val))
    {
      assert Lookup(ts[j], k, hash) == Found(x);
      assert !Closed(hash, ts[i], ts[j].entries[x].key.value);
      assert j < i ==> Closed(hash, ts[j], k);
    }
  }

  // ----- each primitive change keeps the invariant -----------------------------------------------

  /** Installing a key in the empty entry its search ends at: the map is unchanged. */
  lemma InstallTable(hash: Key -> nat, t: Table, e: nat, k: Key)
    requires TableOk(hash, t) && Lookup(t, k, hash) == Free(e)
    ensures TableOk(hash, WithKey(t, e, k)) && KeysGrow(t, WithKey(t, e, k))
    ensures Lookup(WithKey(t, e, k), k, hash) == Found(e)
    ensures forall q :: Closed(hash, t, q) ==> Closed(hash, WithKey(t, e, k), q)
  {
    var t' := WithKey(t, e, k);
    LookupStable(hash, t, t');
    WithKeyCounters(t, e, k);
    forall x | 0 <= x < |t'.entries|
      ensures match t'.entries[x].key
              case None => t'.entries[x].val in {Empty, Copied}
              case Some(q) => Lookup(t', q, hash) == Found(x)
    {
      if x != e { assert t'.entries[x] == t.entries[x]; }
    }
  }

  lemma RoutedInstall(hash: Key -> nat, ts: seq<Table>, i: nat, e: nat, k: Key)
    requires TablesOk(hash, ts) && Routed(hash, ts) && i < |ts| && Lookup(ts[i], k, hash) == Free(e)
    requires forall j :: 0 <= j < i ==> Closed(hash, ts[j], k)
    requires TablesOk(hash, ts[i := WithKey(ts[i], e, k)])
    requires forall q :: Closed(hash, ts[i], q) ==> Closed(hash, WithKey(ts[i], e, k), q)
    ensures Routed(hash, ts[i := WithKey(ts[i], e, k)])
  {
    hide Lookup, CountOf;
    var ts' := ts[i := WithKey(ts[i], e, k)];
    forall a, b, x | 0 <= a < b < |ts'| && 0 <= x < |ts'[b].entries| && ts'[b].entries[x].key.Some?
      ensures Closed(hash, ts'[a], ts'[b].entries[x].key.value)
    {
      if b != i || x != e {
        assert ts'[b].entries[x] == ts[b].entries[x];
        assert Closed(hash, ts[a], ts[b].entries[x].key.value);
      }
    }
  }

  lemma InstallKeeps(hash: Key -> nat, ts: seq<Table>, m: map<Key, Value>, i: nat, e: nat, k: Key)
    requires Inv(hash, ts, m) && i < |ts| && Lookup(ts[i], k, hash) == Free(e)
    requires forall j :: 0 <= j < i ==> Closed(hash, ts[j], k)
    ensures Inv(hash, ts[i := WithKey(ts[i], e, k)], m)
  {
    hide Lookup, CountOf, Closed, SumCounts;
    var t' := WithKey(ts[i], e, k);
    var ts' := ts[i := t'];
    InstallTable(hash, ts[i], e, k);
    SumUpdate(ts, i, t');
    assert LastClean(ts') by { assert Clean(ts[|ts| - 1]); }
    RoutedInstall(hash, ts, i, e, k);
    assert Denotes(ts', m) by {
      assert forall a, x, q :: IsAt(ts', a, x, q) <==> IsAt(ts, a, x, q);
    }
  }

  lemma ValTable(hash: Key -> nat, t: Table, e: nat, c: Cell)
    requires TableOk(hash, t) && e < |t.entries| && (t.entries[e].key == None ==> c in {Empty, Copied})
    ensures TableOk(hash, WithVal(t, e, c))
    ensures forall q :: Lookup(WithVal(t, e, c), q, hash) == Lookup(t, q, hash)
    ensures !Dead(t.entries[e].val) ==> forall q :: Closed(hash, t, q) ==> Closed(hash, WithVal(t, e, c), q)
  {
    LookupSameKeys(hash, t, WithVal(t, e, c));
    WithValCounters(t, e, c);
  }

  /** The map after the value of k's entry became c. */
  function Bound(m: map<Key, Value>, k: Key, c: Cell): map<Key, Value> {
    if HasValue(c) then m[k := c.v] else m - {k}
  }

  lemma BoundSize(m: map<Key, Value>, k: Key, c: Cell)
    ensures |Bound(m, k, c)| == |m| - Num(k in m) + Num(HasValue(c))
  {
    assert (m - {k}).Keys == m.Keys - {k};
    if HasValue(c) { assert m[k := c.v].Keys == m.Keys + {k}; }
  }

  /** A key whose entry is not dead is in the map iff that entry has a value. */
  lemma InMap(hash: Key -> nat, ts: seq<Table>, m: map<Key, Value>, i: nat, e: nat)
    requires TablesOk(hash, ts) && Routed(hash, ts) && Denotes(ts, m) && i < |ts| && e < |ts[i].entries|
    requires ts[i].entries[e].key.Some? && !Dead(ts[i].entries[e].val)
    ensures var k, c := ts[i].entries[e].key.value, ts[i].entries[e].val;
            MapGet(m, k) == CellValue(c)
  {
    hide Lookup, CountOf;
    var k := ts[i].entries[e].key.value;
    FoundOnce(hash, ts, i, e, k);
    assert HasValue(ts[i].entries[e].val) ==> IsAt(ts, i, e, k);
  }

  /** Changing the value of an entry that has its key and is not dead rebinds that key and nothing else. */
  lemma ValKeeps(hash: Key -> nat, ts: seq<Table>, m: map<Key, Value>, i: nat, e: nat, c: Cell)
    requires Inv(hash, ts, m) && i < |ts| && e < |ts[i].entries| && ts[i].entries[e].key.Some?
    requires !Dead(ts[i].entries[e].val) && (Tagged(c) ==> i + 1 < |ts|)
    ensures Inv(hash, ts[i := WithVal(ts[i], e, c)], Bound(m, ts[i].entries[e].key.value, c))
    ensures MapGet(m, ts[i].entries[e].key.value) == CellValue(ts[i].entries[e].val)
  {
    hide Lookup, CountOf, Closed, SumCounts, Denotes, IsAt;
    var k := ts[i].entries[e].key.value;
    var t' := WithVal(ts[i], e, c);
    var ts' := ts[i := t'];
    var m' := Bound(m, k, c);
    ValTable(hash, ts[i], e, c);
    SumUpdate(ts, i, t');
    BoundSize(m, k, c);
    InMap(hash, ts, m, i, e);
    RoutedVal(hash, ts, i, e, c);
    DenotesVal(hash, ts, m, i, e, c);
    assert LastClean(ts') by { assert Clean(ts[|ts| - 1]); }
  }

  lemma RoutedVal(hash: Key -> nat, ts: seq<Table>, i: nat, e: nat, c: Cell)
    requires TablesOk(hash, ts) && Routed(hash, ts) && i < |ts| && e < |ts[i].entries| && !Dead(ts[i].entries[e].val)
    requires TablesOk(hash, ts[i := WithVal(ts[i], e, c)])
    requires forall q :: Closed(hash, ts[i], q) ==> Closed(hash, WithVal(ts[i], e, c), q)
    ensures Routed(hash, ts[i := WithVal(ts[i], e, c)])
  {
    var ts' := ts[i := WithVal(ts[i], e, c)];
    forall a, b, x | 0 <= a < b < |ts'| && 0 <= x < |ts'[b].entries| && ts'[b].entries[x].key.Some?
      ensures Closed(hash, ts'[a], ts'[b].entries[x].key.value)
    {
      assert ts'[b].entries[x].key == ts[b].entries[x].key;
      assert Closed(hash, ts[a], ts[b].entries[x].key.value);
    }
  }

  lemma DenotesVal(hash: Key -> nat, ts: seq<Table>, m: map<Key, Value>, i: nat, e: nat, c: Cell)
    requires TablesOk(hash, ts) && Routed(hash, ts) && Denotes(ts, m) && i < |ts| && e < |ts[i].entries|
    requires ts[i].entries[e].key.Some? && !Dead(ts[i].entries[e].val)
    ensures Denotes(ts[i := WithVal(ts[i], e, c)], Bound(m, ts[i].entries[e].key.value, c))
  {
    hide Lookup, CountOf;
    var k := ts[i].entries[e].key.value;
    var ts' := ts[i := WithVal(ts[i], e, c)];
    FoundOnce(hash, ts, i, e, k);
    forall a, x, q | IsAt(ts', a, x, q) ensures q in Bound(m, k, c) && Bound(m, k, c)[q] == ts'[a].entries[x].val.v {
      if a != i || x != e { assert IsAt(ts, a, x, q); }
    }
    forall q | q in Bound(m, k, c) ensures exists a, x :: IsAt(ts', a, x, q) {
      if q == k {
        assert IsAt(ts', i, e, k);
      } else {
        var a, x :| IsAt(ts, a, x, q);
        assert IsAt(ts', a, x, q);
      }
    }
  }

  /** Killing an entry that never got a key. */
  lemma KillKeeps(hash: Key -> nat, ts: seq<Table>, m: map<Key, Value>, i: nat, e: nat)
    requires Inv(hash, ts, m) && i + 1 < |ts| && e < |ts[i].entries| && ts[i].entries[e] == Entry(None, Empty)
    ensures Inv(hash, ts[i := WithVal(ts[i], e, Copied)], m)
  {
    hide Lookup, CountOf, SumCounts, Closed;
    var ts' := ts[i := WithVal(ts[i], e, Copied)];
    ValTable(hash, ts[i], e, Copied);
    SumUpdate(ts, i, ts'[i]);
    assert Routed(hash, ts') by { RoutedVal(hash, ts, i, e, Copied); }
    assert Denotes(ts', m) by { assert forall a, x, q :: IsAt(ts', a, x, q) <==> IsAt(ts, a, x, q); }
    assert LastClean(ts') by { assert ts'[|ts'| - 1] == ts[|ts| - 1]; }
  }

  /** Appending an empty table. */
  lemma GrowKeeps(hash: Key -> nat, ts: seq<Table>, m: map<Key, Value>, scale: nat)
    requires Inv(hash, ts, m) && scale >= MIN_SCALE
    ensures Inv(hash, ts + [FreshTable(scale)], m)
  {
    hide Lookup, CountOf;
    var t := FreshTable(scale);
    var ts' := ts + [t];
    CountNone(t.entries, HoldsValue);
    CountNone(t.entries, HoldsKey);
    CountNone(t.entries, IsDead);
    SumAppend(ts, t);
    assert TableOk(hash, t);
    assert Denotes(ts', m) by { assert forall a, x, q :: IsAt(ts', a, x, q) <==> IsAt(ts, a, x, q); }
  }

  lemma TailRouted(hash: Key -> nat, ts: seq<Table>)
    requires TablesOk(hash, ts) && Routed(hash, ts) && |ts| > 1
    ensures TablesOk(hash, ts[1..]) && Routed(hash, ts[1..])
  {
    hide Lookup, Closed, CountersOk;
    var ts' := ts[1..];
    assert TablesOk(hash, ts');
    forall a, b, x | 0 <= a < b < |ts'| && 0 <= x < |ts'[b].entries| && ts'[b].entries[x].key.Some?
      ensures Closed(hash, ts'[a], ts'[b].entries[x].key.value)
    { assert ts'[a] == ts[a + 1] && ts'[b] == ts[b + 1]; }
  }

  lemma TailDenotes(ts: seq<Table>, m: map<Key, Value>)
    requires Denotes(ts, m) && |ts| > 1 && forall e :: 0 <= e < |ts[0].entries| ==> !HasValue(ts[0].entries[e].val)
    ensures Denotes(ts[1..], m)
  {
    assert forall a, x, q :: IsAt(ts[1..], a, x, q) <==> a >= 0 && IsAt(ts, a + 1, x, q);
    forall q | q in m ensures exists a, x :: IsAt(ts[1..], a, x, q) {
      var a, x :| IsAt(ts, a, x, q);
      assert IsAt(ts[1..], a - 1, x, q);
    }
  }

  /** Unlinking the first table when its copy counter reached its size. */
  lemma UnlinkKeeps(hash: Key -> nat, ts: seq<Table>, m: map<Key, Value>)
    requires Inv(hash, ts, m) && |ts| > 1 && ts[0].numCopied == |ts[0].entries|
    ensures Inv(hash, ts[1..], m)
  {
    hide Lookup, Closed, Routed, Denotes;
    assert TableOk(hash, ts[0]);
    CountAll(ts[0].entries, IsDead);
    CountNone(ts[0].entries, HoldsValue);
    TailRouted(hash, ts);
    TailDenotes(ts, m);
  }

  // ----- the plain map, and how a search answers from the chain -----------------------------------

  datatype Expect = Whatever | Exists | DoesNotExist | Equals(v: Value)

  function MapGet(m: map<Key, Value>, k: Key): Option<Value> { if k in m then Some(m[k]) else None }

  predicate Met(expected: Expect, old_: Option<Value>) {
    match expected
    case Whatever => true
    case Exists => old_.Some?
    case DoesNotExist => old_.None?
    case Equals(v) => old_ == Some(v)
  }

  function MapSet(m: map<Key, Value>, k: Key, new_: Option<Value>): map<Key, Value> {
    match new_ case Some(v) => m[k := v] case None => m - {k}
  }

  function MapCas(m: map<Key, Value>, k: Key, expected: Expect, new_: Option<Value>): map<Key, Value> {
    if Met(expected, MapGet(m, k)) then MapSet(m, k, new_) else m
  }

  ghost predicate ClosedBefore(hash: Key -> nat, ts: seq<Table>, i: nat, k: Key)
    requires TablesOk(hash, ts) && i <= |ts|
  {
    forall j :: 0 <= j < i ==> Closed(hash, ts[j], k)
  }

  /** The routing invariant at work: a search that ends at an empty entry, or has run through all the
      tables without room, may answer that the key does not exist. */
  lemma EmptyMeansAbsent(hash: Key -> nat, ts: seq<Table>, m: map<Key, Value>, i: nat, k: Key)
    requires Inv(hash, ts, m) && i <= |ts| && ClosedBefore(hash, ts, i, k)
    requires i < |ts| ==> Lookup(ts[i], k, hash).Free?
    ensures k !in m
  {
    hide Lookup, CountOf;
    forall j, e ensures !IsAt(ts, j, e, k) {
      if 0 <= j < |ts| && 0 <= e < |ts[j].entries| && ts[j].entries[e].key == Some(k) {
        assert i < |ts| ==> !Closed(hash, ts[i], ts[j].entries[e].key.value);
      }
    }
  }

  /** No table before the one that is searched successfully can hide a value. */
  lemma FoundMeansValue(hash: Key -> nat, ts: seq<Table>, m: map<Key, Value>, i: nat, k: Key)
    requires Inv(hash, ts, m) && i < |ts| && Lookup(ts[i], k, hash).Found? && !Closed(hash, ts[i], k)
    ensures var c := ts[i].entries[Lookup(ts[i], k, hash).ndx].val;
            MapGet(m, k) == CellValue(c)
  {
    hide Lookup, CountOf;
    InMap(hash, ts, m, i, Lookup(ts[i], k, hash).ndx);
  }

  /** A table in which the next step for k is the last one. */
  ghost predicate Ready(hash: Key -> nat, t: Table, k: Key)
    requires Sized(t)
  {
    match Lookup(t, k, hash)
    case NoRoom => false
    case Free(e) => e < |t.entries| && t.entries[e].val == Empty
    case Found(e) => e < |t.entries| && !Tagged(t.entries[e].val)
  }

  /** From table i on, k's search runs through closed tables to a ready one. */
  ghost predicate Settled(hash: Key -> nat, ts: seq<Table>, i: nat, k: Key)
    requires TablesOk(hash, ts)
  {
    exists j :: i <= j < |ts| && Ready(hash, ts[j], k) && forall x :: i <= x < j ==> Closed(hash, ts[x], k)
  }

  ghost predicate IsFresh(t: Table) { t.scale >= MIN_SCALE && t == FreshTable(t.scale) }

  lemma FreshIsFresh(scale: nat)
    requires scale >= MIN_SCALE
    ensures FreshTable(scale).scale == scale && IsFresh(FreshTable(scale))
  {}

  lemma FreshHasRoom(hash: Key -> nat, t: Table, k: Key)
    requires Sized(t)
    ensures IsFresh(t) ==> Lookup(t, k, hash).Free? && t.entries[Lookup(t, k, hash).ndx].val == Empty
  {}

  ghost predicate AllDead(t: Table) { t.numCopied == |t.entries| }

  lemma SomeAlive(t: Table, e: nat)
    requires CountersOk(t) && e < |t.entries| && !Dead(t.entries[e].val)
    ensures !AllDead(t)
  {
    if AllDead(t) { CountAll(t.entries, IsDead); }
  }

  lemma AliveHere(hash: Key -> nat, t: Table, e: nat)
    requires TableOk(hash, t) && e < |t.entries| && !Dead(t.entries[e].val)
    ensures !AllDead(t)
  {
    SomeAlive(t, e);
  }

  /** The chunk at which the scan goes on: `copy_scan & MASK(scale)`. */
  function Chunk(copyScan: nat, scale: nat): (r: nat)
    requires scale >= MIN_SCALE
    ensures 8 * r + 8 <= Pow2(scale)
  {
    assert Pow2(scale) == 2 * Pow2(scale - 1) == 4 * Pow2(scale - 2) == 8 * Pow2(scale - 3);
    copyScan % Pow2(scale - 3)
  }

  lemma RoutedRescan(hash: Key -> nat, ts: seq<Table>, i: nat, x: nat)
    requires TablesOk(hash, ts) && Routed(hash, ts) && i < |ts|
    ensures var ts' := ts[i := ts[i].(copyScan := x)]; TablesOk(hash, ts') && Routed(hash, ts')
  {
    hide Lookup, CountOf;
    var ts' := ts[i := ts[i].(copyScan := x)];
    LookupSameKeys(hash, ts[i], ts'[i]);
    assert TableOk(hash, ts'[i]);
    forall a, b, e | 0 <= a < b < |ts'| && 0 <= e < |ts'[b].entries| && ts'[b].entries[e].key.Some?
      ensures Closed(hash, ts'[a], ts'[b].entries[e].key.value)
    {
      assert Closed(hash, ts[a], ts[b].entries[e].key.value);
    }
  }

  lemma DenotesRescan(ts: seq<Table>, m: map<Key, Value>, i: nat, x: nat)
    requires Denotes(ts, m) && i < |ts|
    ensures Denotes(ts[i := ts[i].(copyScan := x)], m)
  {
    var ts' := ts[i := ts[i].(copyScan := x)];
    assert forall a, e, q :: IsAt(ts', a, e, q) <==> IsAt(ts, a, e, q);
  }

  lemma CleanRescan(ts: seq<Table>, i: nat, x: nat)
    requires LastClean(ts) && i < |ts|
    ensures LastClean(ts[i := ts[i].(copyScan := x)])
  {
    assert Clean(ts[|ts| - 1]);
  }

  /** What copying never undoes: the length of the chain, a dead entry, a finished copy. */
  ghost predicate Extends(ts: seq<Table>, ts': seq<Table>) {
    && |ts| <= |ts'|
    && (forall i, e :: 0 <= i < |ts| && 0 <= e < |ts[i].entries| == |ts'[i].entries| && Dead(ts[i].entries[e].val)
          ==> ts'[i].entries[e].val == ts[i].entries[e].val)
    && (forall i :: 0 <= i < |ts| && AllDead(ts[i]) ==> AllDead(ts'[i]))
    && (forall i :: 0 <= i < |ts| ==> |ts'[i].entries| == |ts[i].entries|)
  }

  lemma ExtendsSelf(ts: seq<Table>)
    ensures Extends(ts, ts)
  {}

  lemma ExtendsTransitive(ts0: seq<Table>, ts1: seq<Table>, ts2: seq<Table>)
    requires Extends(ts0, ts1) && Extends(ts1, ts2)
    ensures Extends(ts0, ts2) && |ts0| <= |ts1| <= |ts2|
  {}

  /** Copying entries leaves alone how far each table has been scanned. */
  ghost predicate SameScans(ts: seq<Table>, ts': seq<Table>) {
    |ts| <= |ts'| && forall i :: 0 <= i < |ts| ==> ts'[i].scale == ts[i].scale && ts'[i].copyScan == ts[i].copyScan
  }

  ghost predicate SameBefore(ts: seq<Table>, ts': seq<Table>, i: nat) {
    i <= |ts| && i <= |ts'| && forall x :: 0 <= x < i ==> ts'[x] == ts[x]
  }

  lemma ExtendsUpdate(ts0: seq<Table>, ts: seq<Table>, j: nat, t: Table)
    requires Extends(ts0, ts) && j < |ts| && |t.entries| == |ts[j].entries|
    requires AllDead(ts[j]) ==> AllDead(t)
    requires forall e :: 0 <= e < |t.entries| && Dead(ts[j].entries[e].val) ==> t.entries[e].val == ts[j].entries[e].val
    ensures Extends(ts0, ts[j := t])
  {}

  lemma ExtendsGrow(ts0: seq<Table>, ts: seq<Table>, scale: nat)
    requires Extends(ts0, ts)
    ensures Extends(ts0, ts + [FreshTable(scale)])
  {}

  lemma ExtendsStays(ts0: seq<Table>, ts: seq<Table>, root: nat)
    requires Extends(ts0, ts) && root < |ts0| && forall i :: 0 <= i < root ==> AllDead(ts0[i])
    ensures root < |ts| && forall i :: 0 <= i < root ==> AllDead(ts[i])
  {}

  /** The chain with entry e of table i, whose value is on its way to a later table, already marked dead. */
  function Marked(ts: seq<Table>, i: nat, e: nat): seq<Table>
    requires i < |ts| && e < |ts[i].entries|
  {
    ts[i := WithVal(ts[i], e, Copied)]
  }

  /** The copy of k's value v from entry e of table i has reached table j. */
  ghost predicate Copying(hash: Key -> nat, ts: seq<Table>, m: map<Key, Value>, i: nat, e: nat, j: nat, k: Key, v: Value) {
    && i < j < |ts| && TableOk(hash, ts[i]) && e < |ts[i].entries|
    && ts[i].entries[e] == Entry(Some(k), TaggedLive(v)) && k in m && m[k] == v
    && Inv(hash, Marked(ts, i, e), m - {k})
    && ClosedBefore(hash, Marked(ts, i, e), j, k)
    && (forall x :: j <= x < |ts| ==> NoKey(ts[x], k))
  }

  ghost predicate NoKey(t: Table, k: Key) {
    forall e :: 0 <= e < |t.entries| ==> t.entries[e].key != Some(k)
  }

  lemma CopyingStarts(hash: Key -> nat, ts: seq<Table>, m: map<Key, Value>, i: nat, e: nat, k: Key, v: Value)
    requires Inv(hash, ts, m) && i + 1 < |ts| && e < |ts[i].entries| && ts[i].entries[e] == Entry(Some(k), TaggedLive(v))
    ensures Copying(hash, ts, m, i, e, i + 1, k, v)
  {
    hide Lookup, CountOf, SumCounts, Denotes;
    assert TableOk(hash, ts[i]);
    ValKeeps(hash, ts, m, i, e, Copied);
    FoundOnce(hash, ts, i, e, k);
    ValTable(hash, ts[i], e, Copied);
    assert Lookup(ts[i], k, hash) == Found(e);
    forall j | 0 <= j < i + 1 ensures Closed(hash, Marked(ts, i, e)[j], k) {
      assert j < i ==> Closed(hash, ts[j], ts[i].entries[e].key.value);
    }
  }

  lemma CopyingFacts(hash: Key -> nat, ts: seq<Table>, m: map<Key, Value>, i: nat, e: nat, j: nat, k: Key, v: Value)
    requires Copying(hash, ts, m, i, e, j, k, v)
    ensures i < j < |ts| && Sized(ts[j]) && !Lookup(ts[j], k, hash).Found?
    ensures TableOk(hash, ts[i]) && e < |ts[i].entries| && ts[i].entries[e].val == TaggedLive(v) && k in m && m[k] == v
  {
    hide Lookup, CountOf, SumCounts, Denotes, Routed;
    assert Marked(ts, i, e)[j] == ts[j];
  }

  lemma CopyingGrows(hash: Key -> nat, ts: seq<Table>, m: map<Key, Value>, i: nat, e: nat, j: nat, k: Key, v: Value, scale: nat)
    requires Copying(hash, ts, m, i, e, j, k, v) && scale >= MIN_SCALE
    ensures Copying(hash, ts + [FreshTable(scale)], m, i, e, j, k, v)
  {
    hide Lookup, CountOf, SumCounts, Denotes, Routed;
    var ts' := ts + [FreshTable(scale)];
    GrowKeeps(hash, Marked(ts, i, e), m - {k}, scale);
    assert Marked(ts', i, e) == Marked(ts, i, e) + [FreshTable(scale)];
    forall x | 0 <= x < j ensures Closed(hash, Marked(ts', i, e)[x], k) {
      assert Marked(ts', i, e)[x] == Marked(ts, i, e)[x];
    }
  }

  /** No room for k in table j, or only a killed entry in which its key was then put: on to the next one. */
  lemma CopyingSkips(hash: Key -> nat, ts: seq<Table>, m: map<Key, Value>, i: nat, e: nat, j: nat, k: Key, v: Value)
    requires Copying(hash, ts, m, i, e, j, k, v) && Sized(ts[j]) && Lookup(ts[j], k, hash).NoRoom? && j + 1 < |ts|
    ensures Copying(hash, ts, m, i, e, j + 1, k, v)
  {
    hide Lookup, CountOf, SumCounts, Denotes, Routed, Inv;
    assert Marked(ts, i, e)[j] == ts[j];
  }

  lemma CopyingInstalled(hash: Key -> nat, ts: seq<Table>, m: map<Key, Value>, i: nat, e: nat, j: nat, k: Key, v: Value, x: nat)
    requires Copying(hash, ts, m, i, e, j, k, v) && Sized(ts[j]) && Lookup(ts[j], k, hash) == Free(x)
    ensures var t' := WithKey(ts[j], x, k);
            var ts' := ts[j := t'];
            && Inv(hash, Marked(ts', i, e), m - {k}) && ClosedBefore(hash, Marked(ts', i, e), j, k)
            && TableOk(hash, ts'[i]) && Lookup(t', k, hash) == Found(x) && TableOk(hash, t')
            && t'.entries[x].val in {Empty, Copied}
  {
    hide Lookup, CountOf, SumCounts, Denotes, Routed;
    var t' := WithKey(ts[j], x, k);
    var ts' := ts[j := t'];
    var mk := Marked(ts, i, e);
    assert mk[j] == ts[j] && TableOk(hash, mk[j]);
    InstallKeeps(hash, mk, m - {k}, j, x, k);
    InstallTable(hash, ts[j], x, k);
    assert Marked(ts', i, e) == mk[j := t'];
    forall y | 0 <= y < j ensures Closed(hash, Marked(ts', i, e)[y], k) { assert Marked(ts', i, e)[y] == mk[y]; }
  }

  lemma CopyingInstalls(hash: Key -> nat, ts: seq<Table>, m: map<Key, Value>, i: nat, e: nat, j: nat, k: Key, v: Value, x: nat)
    requires Copying(hash, ts, m, i, e, j, k, v) && Sized(ts[j]) && Lookup(ts[j], k, hash) == Free(x)
    ensures var t' := WithKey(ts[j], x, k);
            var ts' := ts[j := t'];
            && Inv(hash, Marked(ts', i, e), m - {k}) && ClosedBefore(hash, Marked(ts', i, e), j, k)
            && TableOk(hash, ts'[i]) && Lookup(t', k, hash) == Found(x)
            && t'.entries[x].val in {Empty, Copied}
            && (t'.entries[x].val == Copied ==> j + 1 < |ts| && Copying(hash, ts', m, i, e, j + 1, k, v))
  {
    hide Lookup, TableOk, Inv, NoKey;
    CopyingInstalled(hash, ts, m, i, e, j, k, v, x);
    var t' := WithKey(ts[j], x, k);
    var ts' := ts[j := t'];
    if t'.entries[x].val == Copied {
      assert Marked(ts', i, e)[j] == t';
      LastIsClean(hash, Marked(ts', i, e), m - {k});
      forall y | j + 1 <= y < |ts'| ensures NoKey(ts'[y], k) { assert ts'[y] == ts[y]; }
    }
  }

  lemma LastIsClean(hash: Key -> nat, ts: seq<Table>, m: map<Key, Value>)
    requires Inv(hash, ts, m)
    ensures |ts| > 0 && Clean(ts[|ts| - 1])
  {}

  /** The value reached an empty entry: marking the old entry dead completes the copy, and the map is as before. */
  lemma CopyingEnds(hash: Key -> nat, ts: seq<Table>, m: map<Key, Value>, i: nat, e: nat, j: nat, k: Key, v: Value, x: nat)
    requires i < j < |ts| && TableOk(hash, ts[i]) && e < |ts[i].entries| && k in m && m[k] == v
    requires Inv(hash, Marked(ts, i, e), m - {k}) && ClosedBefore(hash, Marked(ts, i, e), j, k)
    requires x < |ts[j].entries| && ts[j].entries[x] == Entry(Some(k), Empty)
    ensures var ts' := Marked(ts[j := WithVal(ts[j], x, Live(v))], i, e);
            Inv(hash, ts', m) && Settled(hash, ts', i + 1, k) && ClosedBefore(hash, ts', i + 1, k)
  {
    hide Lookup, CountOf, SumCounts, Denotes, Routed;
    var mk := Marked(ts, i, e);
    var ts' := Marked(ts[j := WithVal(ts[j], x, Live(v))], i, e);
    assert mk[j] == ts[j];
    ValKeeps(hash, mk, m - {k}, j, x, Live(v));
    assert ts' == mk[j := WithVal(mk[j], x, Live(v))];
    assert Bound(m - {k}, k, Live(v)) == m;
    forall y | 0 <= y < j ensures Closed(hash, ts'[y], k) { assert ts'[y] == mk[y]; }
    assert TableOk(hash, ts'[j]) && ts'[j].entries[x] == Entry(Some(k), Live(v));
    assert Ready(hash, ts'[j], k);
  }

  /** What `hti_cas` returns: COPIED_VALUE, or the previous value (a tombstone is reported as absent). */
  datatype Ret = Moved | Old(value: Option<Value>)

  /** Progress of a search that left table i for table i + 1. */
  ghost predicate MovedOn(hash: Key -> nat, ts: seq<Table>, ts': seq<Table>, i: nat, k: Key) {
    && TablesOk(hash, ts) && TablesOk(hash, ts') && i + 1 < |ts'| && ClosedBefore(hash, ts', i + 1, k)
    && (Settled(hash, ts', i + 1, k) || |ts'| == |ts|)
    && (Settled(hash, ts, i, k) ==> Settled(hash, ts', i + 1, k) && |ts'| == |ts|)
  }

  lemma SettledMoves(hash: Key -> nat, ts: seq<Table>, i: nat, k: Key)
    requires TablesOk(hash, ts) && i < |ts| && Closed(hash, ts[i], k) && Settled(hash, ts, i, k)
    ensures i + 1 < |ts| && Settled(hash, ts, i + 1, k)
  {
    hide Lookup, CountOf;
    var j :| i <= j < |ts| && Ready(hash, ts[j], k) && forall x :: i <= x < j ==> Closed(hash, ts[x], k);
  }

  /** Leaving a closed table that has a successor. */
  lemma MovesOn(hash: Key -> nat, ts: seq<Table>, i: nat, k: Key)
    requires TablesOk(hash, ts) && i + 1 < |ts| && ClosedBefore(hash, ts, i, k) && Closed(hash, ts[i], k)
    ensures MovedOn(hash, ts, ts, i, k)
  {
    hide Lookup, CountOf, Settled;
    if Settled(hash, ts, i, k) { SettledMoves(hash, ts, i, k); }
  }

  /** Leaving a table without room after appending a fresh one to it. */
  lemma MovesToFresh(hash: Key -> nat, ts: seq<Table>, m: map<Key, Value>, scale: nat, i: nat, k: Key)
    requires Inv(hash, ts, m) && i + 1 == |ts| && ClosedBefore(hash, ts, i, k) && Closed(hash, ts[i], k) && scale >= MIN_SCALE
    ensures var ts' := ts + [FreshTable(scale)]; Inv(hash, ts', m) && MovedOn(hash, ts, ts', i, k)
  {
    hide Lookup, CountOf, Routed, Denotes, SumCounts;
    var ts' := ts + [FreshTable(scale)];
    GrowKeeps(hash, ts, m, scale);
    FreshHasRoom(hash, ts'[i + 1], k);
    assert Ready(hash, ts'[i + 1], k);
    assert Settled(hash, ts', i + 1, k);
    assert !Settled(hash, ts, i, k) by { assert !Ready(hash, ts[i], k); }
    forall j | 0 <= j < i + 1 ensures Closed(hash, ts'[j], k) { assert ts'[j] == ts[j]; }
  }

  /** The n entries of t from start on are dead. */
  ghost predicate DeadFrom(t: Table, start: nat, n: nat) {
    start + n <= |t.entries| && forall e :: start <= e < start + n ==> Dead(t.entries[e].val)
  }

  lemma DeadNone(t: Table, start: nat)
    requires start <= |t.entries|
    ensures DeadFrom(t, start, 0)
  {}

  lemma DeadMore(ts: seq<Table>, ts': seq<Table>, i: nat, start: nat, n: nat)
    requires Extends(ts, ts') && i < |ts| && DeadFrom(ts[i], start, n) && start + n < |ts[i].entries|
    requires Dead(ts'[i].entries[start + n].val)
    ensures DeadFrom(ts'[i], start, n + 1)
  {}

  // ----- the operations in place -----------------------------------------------------------------

  class HashMap {
    /** All tables ever linked; `ht->hti` is tables[root] and `hti->next` the following one. */
    var tables: seq<Table>
    var root: nat
    const hash: Key -> nat
    ghost var contents: map<Key, Value>
    /** How many tables were unlinked so far. */
    ghost var unlinked: nat

    ghost predicate Valid()
      reads this
    {
      && Inv(hash, tables, contents)
      && root < |tables| && forall i :: 0 <= i < root ==> AllDead(tables[i])
    }

    constructor (hash: Key -> nat)
      ensures Valid() && contents == map[] && root == 0 && unlinked == 0 && this.hash == hash
    {
      var t := FreshTable(MIN_SCALE);
      tables, root, contents, unlinked := [t], 0, map[], 0;
      this.hash := hash;
      CountNone(t.entries, HoldsValue);
      CountNone(t.entries, HoldsKey);
      CountNone(t.entries, IsDead);
    }

    /** `hti_lookup` */
    method HtiLookup(i: nat, key: Key) returns (slot: Slot)
      requires i < |tables| && Sized(tables[i])
      ensures slot == Lookup(tables[i], key, hash)
    {
      var t, h := tables[i], hash(key);
      var ndx := h % Pow2(t.scale);
      assert ndx == NdxAt(h, t.scale, 0);
      hide Pow2, NextNdx, ProbeLimit, LookupFrom, Probe, BucketEntry;
      for b := 0 to ProbeLimit(t.scale)
        invariant ndx == NdxAt(h, t.scale, b)
        invariant LookupFrom(t, key, h, 0) == LookupFrom(t, key, h, 4 * b)
      {
        var found := ProbeBucket(t, key, h, b, ndx);
        if found.Some? { return found.value; }
        ndx := NextNdx(ndx, h, t.scale);
      }
      LookupEnd(t, key, h);
      slot := NoRoom;
    }

    /** The inner loop of `hti_lookup`: the four entries of a bucket, from ndx on. */
    method ProbeBucket(t: Table, key: Key, h: nat, ghost b: nat, ndx: nat) returns (found: Option<Slot>)
      requires Sized(t) && b < ProbeLimit(t.scale) && ndx == NdxAt(h, t.scale, b)
      ensures LookupFrom(t, key, h, 4 * b) == if found.Some? then found.value else LookupFrom(t, key, h, 4 * (b + 1))
    {
      hide Pow2, NdxAt, ProbeLimit, LookupFrom, Probe, BucketEntry;
      for j := 0 to 4
        invariant LookupFrom(t, key, h, 4 * b) == LookupFrom(t, key, h, 4 * b + j)
      {
        var e := BucketEntry(ndx, j);
        ProbeInBucket(h, t.scale, b, j);
        LookupStep(t, key, h, 4 * b + j);
        match t.entries[e].key {
          case None => return Some(Free(e));
          case Some(q) => if q == key { return Some(Found(e)); }
        }
      }
      found := None;
    }

    /** `ht_count` */
    method Count() returns (n: int)
      requires Valid()
      ensures n == |contents|
    {
      hide Inv;
      n := 0;
      var i := root;
      while i < |tables|
        invariant root <= i <= |tables| && n + SumCounts(tables[i..]) == SumCounts(tables[root..])
      {
        assert tables[i..][1..] == tables[i + 1..];
        n := n + tables[i].count;
        i := i + 1;
      }
      DeadPrefixSum(root);
    }

    lemma {:induction false} DeadPrefixSum(i: nat)
      requires Valid() && i <= root
      ensures SumCounts(tables[i..]) == |contents|
    {
      hide Lookup, Denotes, Routed, CountOf;
      if i == 0 {
        assert tables[0..] == tables;
      } else {
        DeadPrefixSum(i - 1);
        assert tables[i - 1..][1..] == tables[i..];
        CountAll(tables[i - 1].entries, IsDead);
        CountNone(tables[i - 1].entries, HoldsValue);
      }
    }

    lemma ScaleMeans(i: nat)
      requires Valid() && i < |tables|
      ensures tables[i].scale >= MIN_SCALE
      ensures NewScale(tables[i], SumCounts(tables[root..]))
              == tables[i].scale + if Crowded(tables[i], |contents|) then 1 else 0
    {
      hide Lookup, Denotes, Routed, CountOf;
      DeadPrefixSum(root);
      assert TableOk(hash, tables[i]);
      var n := tables[i].scale;
      assert Pow2(n) == 2 * Pow2(n - 1) == 4 * Pow2(n - 2) == 8 * Pow2(n - 3);
    }

    /** `hti_start_copy`: the new table has the chosen size, and the chain stands for the same map. */
    method HtiStartCopy(i: nat)
      requires i < |tables| && root < |tables| && tables[i].scale >= MIN_SCALE
      modifies this`tables
      ensures i + 1 < |old(tables)| ==> tables == old(tables)
      ensures i + 1 == |old(tables)| ==>
                && tables == old(tables) + [FreshTable(NewScale(old(tables)[i], SumCounts(old(tables)[root..])))]
                && exists scale: nat :: tables == old(tables) + [FreshTable(scale)] && tables[i].scale <= scale <= tables[i].scale + 1
      ensures old(Inv(hash, tables, contents)) ==> Inv(hash, tables, contents)
      ensures old(Valid()) && i + 1 == |old(tables)| ==>
                var t := old(tables)[i];
                && |tables| == i + 2 && IsFresh(tables[i + 1])
                && tables[i + 1].scale == t.scale + if Crowded(t, |contents|) then 1 else 0
    {
      hide Inv, Pow2, FreshTable, Crowded, NewScale;
      if Valid() { ScaleMeans(i); }
      var count, x := 0, root;
      while x < |tables|
        invariant root <= x <= |tables| && count + SumCounts(tables[x..]) == SumCounts(tables[root..])
      {
        assert tables[x..][1..] == tables[x + 1..];
        count, x := count + tables[x].count, x + 1;
      }
      assert tables[x..] == [];
      var scale := NewScale(tables[i], count);
      if i + 1 == |tables| {
        ghost var ts := tables;
        FreshIsFresh(scale);
        tables := tables + [FreshTable(scale)];
        if Inv(hash, ts, contents) { GrowKeeps(hash, ts, contents, scale); }
      }
    }

    /** One level of `hti_copy_entry`'s recursion: try to put a tagged value into table j. */
    method CopyInto(i: nat, e: nat, j: nat, key: Key, v: Value) returns (done: bool)
      requires Copying(hash, tables, contents, i, e, j, key, v) && root < |tables| && !AllDead(tables[i])
      modifies this`tables
      ensures Extends(old(tables), tables) && SameBefore(old(tables), tables, i) && SameScans(old(tables), tables)
      ensures IsFresh(old(tables[j])) ==> done
      ensures if done then
                Inv(hash, tables, contents) && tables[i] == WithVal(old(tables[i]), e, Copied)
                && Settled(hash, tables, i + 1, key) && ClosedBefore(hash, tables, i + 1, key)
              else
                && j + 1 < |tables| && Copying(hash, tables, contents, i, e, j + 1, key, v) && tables[i] == old(tables[i])
                && (|tables| == |old(tables)| || (|tables| == |old(tables)| + 1 == j + 2 && IsFresh(tables[j + 1])))
    {
      hide Lookup, CountOf, SumCounts, Denotes, Routed, ClosedBefore, Extends, Copying, Inv, TableOk;
      CopyingFacts(hash, tables, contents, i, e, j, key, v);
      ExtendsSelf(tables);
      var slot := HtiLookup(j, key);
      if slot.NoRoom? {
        done := false;
        if j + 1 == |tables| {
          ghost var ts := tables;
          HtiStartCopy(j);
          ghost var scale: nat :| tables == ts + [FreshTable(scale)] && scale >= MIN_SCALE;
          CopyingGrows(hash, ts, contents, i, e, j, key, v, scale);
          ExtendsGrow(ts, ts, scale);
        }
        CopyingSkips(hash, tables, contents, i, e, j, key, v);
        FreshHasRoom(hash, tables[j], key);
      } else {
        CopyingInstalls(hash, tables, contents, i, e, j, key, v, slot.ndx);
        FreshHasRoom(hash, tables[j], key);
        ExtendsUpdate(tables, tables, j, WithKey(tables[j], slot.ndx, key));
        tables := tables[j := WithKey(tables[j], slot.ndx, key)];
        done := tables[j].entries[slot.ndx].val != Copied;
        if done {
          CopyingEnds(hash, tables, contents, i, e, j, key, v, slot.ndx);
          ExtendsUpdate(old(tables), tables, j, WithVal(tables[j], slot.ndx, Live(v)));
          tables := tables[j := WithVal(tables[j], slot.ndx, Live(v))];
          ExtendsUpdate(old(tables), tables, i, WithVal(tables[i], e, Copied));
          tables := tables[i := WithVal(tables[i], e, Copied)];
        }
      }
    }

    /** The part of `hti_copy_entry` after the tag: move a tagged value to the first table with room. */
    method Transfer(i: nat, e: nat)
      requires Valid() && i + 1 < |tables| && e < |tables[i].entries| && tables[i].entries[e].val.TaggedLive?
      modifies this`tables
      ensures Valid() && Extends(old(tables), tables) && SameBefore(old(tables), tables, i) && SameScans(old(tables), tables)
      ensures tables[i] == WithVal(old(tables[i]), e, Copied)
      ensures old(tables[i].entries[e].key.Some?) && Settled(hash, tables, i + 1, old(tables[i].entries[e].key.value))
      ensures ClosedBefore(hash, tables, i + 1, old(tables[i].entries[e].key.value))
    {
      hide Lookup, CountOf, SumCounts, Denotes, Routed, ClosedBefore, Extends, Copying, Settled;
      ghost var ts0 := tables;
      assert TableOk(hash, tables[i]);
      SomeAlive(tables[i], e);
      var key, v := tables[i].entries[e].key.value, tables[i].entries[e].val.v;
      CopyingStarts(hash, tables, contents, i, e, key, v);
      ExtendsSelf(tables);
      var j, done := i + 1, false;
      while !done
        invariant i < j < |tables| && root < |tables| && Extends(ts0, tables) && SameBefore(ts0, tables, i)
        invariant SameScans(ts0, tables)
        invariant !done ==> tables[i] == ts0[i] && Copying(hash, tables, contents, i, e, j, key, v)
        invariant done ==> Inv(hash, tables, contents) && tables[i] == WithVal(ts0[i], e, Copied)
                           && Settled(hash, tables, i + 1, key) && ClosedBefore(hash, tables, i + 1, key)
        decreases !done, !(j == |tables| - 1 && IsFresh(tables[j])), |tables| - j
      {
        ghost var ts := tables;
        done := CopyInto(i, e, j, key, v);
        ExtendsTransitive(ts0, ts, tables);
        if !done { j := j + 1; }
      }
      ExtendsStays(ts0, tables, root);
    }

    /** `hti_copy_entry` from the next table on, with the `num_entries_copied` update of its callers. */
    method CopyEntry(i: nat, e: nat) returns (did: bool)
      requires Valid() && i + 1 < |tables| && e < |tables[i].entries|
      modifies this`tables
      ensures Valid() && Extends(old(tables), tables) && SameBefore(old(tables), tables, i) && SameScans(old(tables), tables)
      ensures did <==> !Dead(old(tables[i].entries[e].val))
      ensures tables[i].numCopied == old(tables[i].numCopied) + (if did then 1 else 0)
      ensures Dead(tables[i].entries[e].val) && tables[i].entries[e].key == old(tables[i].entries[e].key)
      ensures old(tables[i].entries[e].val.TaggedLive?) ==>
                var k := old(tables[i].entries[e].key);
                && k.Some? && Settled(hash, tables, i + 1, k.value) && ClosedBefore(hash, tables, i + 1, k.value)
    {
      hide Lookup, CountOf, SumCounts, Denotes, Routed, ClosedBefore, Extends, Settled;
      ghost var ts := tables;
      assert TableOk(hash, ts[i]);
      ExtendsSelf(ts);
      var val := tables[i].entries[e].val;
      if Dead(val) { return false; }
      SomeAlive(ts[i], e);
      if val == Empty {
        KillOrTag(i, e, Copied);
        ExtendsUpdate(ts, ts, i, WithVal(ts[i], e, Copied));
        tables := tables[i := WithVal(tables[i], e, Copied)];
        ExtendsStays(ts, tables, root);
        return true;
      }
      var tag := if val == Tombstone then TaggedTombstone else TaggedLive(val.v);
      KillOrTag(i, e, tag);
      ExtendsUpdate(ts, ts, i, WithVal(ts[i], e, tag));
      tables := tables[i := WithVal(tables[i], e, tag)];
      ExtendsStays(ts, tables, root);
      if tag == TaggedTombstone { return true; }
      ghost var ts1 := tables;
      Transfer(i, e);
      ExtendsTransitive(ts, ts1, tables);
      return true;
    }

    /** Killing an entry without a value, or tagging one, leaves the map alone. */
    lemma KillOrTag(i: nat, e: nat, c: Cell)
      requires Valid() && i + 1 < |tables| && e < |tables[i].entries|
      requires match tables[i].entries[e].val
               case Empty => c == Copied
               case Tombstone => c == TaggedTombstone
               case Live(v) => c == TaggedLive(v)
               case TaggedLive(v) => c == TaggedLive(v)
               case _ => false
      ensures Inv(hash, tables[i := WithVal(tables[i], e, c)], contents)
    {
      hide Lookup, CountOf, SumCounts, Denotes, Routed;
      assert TableOk(hash, tables[i]);
      if tables[i].entries[e].key == None {
        KillKeeps(hash, tables, contents, i, e);
      } else {
        ValKeeps(hash, tables, contents, i, e, c);
        assert Bound(contents, tables[i].entries[e].key.value, c) == contents;
      }
    }

    /** `hti_help_copy`; true when table i is completely copied.  A call copies the next chunk of 8 entries, or the whole table
        once the scan has been around twice: so the copy ends with call number size / 4 + 1 at the latest. */
    method HelpCopy(i: nat) returns (done: bool)
      requires Valid() && i + 1 < |tables|
      modifies this`tables
      ensures Valid() && Extends(old(tables), tables) && SameBefore(old(tables), tables, i)
      ensures done <==> AllDead(tables[i])
      ensures var t := old(tables)[i];
              && tables[i].scale == t.scale >= MIN_SCALE
              && (if AllDead(t) then tables == old(tables)
                  else if 8 * t.copyScan < Pow2(t.scale + 1) then
                    tables[i].copyScan == t.copyScan + 1 && DeadFrom(tables[i], 8 * Chunk(t.copyScan, t.scale), 8)
                  else done)
    {
      hide Inv, Extends, AllDead, Pow2, Chunk, DeadFrom;
      ghost var ts := tables;
      Sizes(i);
      DoneMeansDead(i);
      var size := Pow2(tables[i].scale);
      if tables[i].numCopied != size {
        var x := tables[i].copyScan;
        if 8 * x < Pow2(tables[i].scale + 1) {
          var start := 8 * Chunk(x, tables[i].scale);
          Rescan(i, x + 1);
          tables := tables[i := tables[i].(copyScan := x + 1)];
          ghost var ts1 := tables;
          CopyRange(i, start, 8);
          ExtendsTransitive(ts, ts1, tables);
        } else {
          CopyRange(i, 0, size);
          Sizes(i);
          AllIsDone(i);
        }
      } else {
        ExtendsSelf(tables);
      }
      Sizes(i);
      done := tables[i].numCopied == size;
      DoneMeansDead(i);
    }

    /** The loop of `hti_help_copy` over `limit` entries. */
    method CopyRange(i: nat, start: nat, limit: nat)
      requires Valid() && i + 1 < |tables| && start + limit <= |tables[i].entries|
      modifies this`tables
      ensures Valid() && i + 1 < |tables| && Extends(old(tables), tables) && SameBefore(old(tables), tables, i)
      ensures SameScans(old(tables), tables) && DeadFrom(tables[i], start, limit)
    {
      hide Inv, Extends, AllDead, DeadFrom;
      ExtendsSelf(tables);
      DeadNone(tables[i], start);
      for n := 0 to limit
        invariant Valid() && i + 1 < |tables| && Extends(old(tables), tables) && SameBefore(old(tables), tables, i)
        invariant SameScans(old(tables), tables) && |tables[i].entries| == |old(tables)[i].entries| && DeadFrom(tables[i], start, n)
      {
        ghost var ts := tables;
        var did := CopyEntry(i, start + n);
        ExtendsTransitive(old(tables), ts, tables);
        DeadMore(ts, tables, i, start, n);
      }
    }

    lemma Sizes(i: nat)
      requires Valid() && i < |tables|
      ensures |tables[i].entries| == Pow2(tables[i].scale) && tables[i].scale >= MIN_SCALE
    {
      assert TableOk(hash, tables[i]);
    }

    lemma AllIsDone(i: nat)
      requires Valid() && i < |tables| && DeadFrom(tables[i], 0, |tables[i].entries|)
      ensures AllDead(tables[i])
    {
      hide Lookup;
      assert TableOk(hash, tables[i]);
      CountEvery(tables[i].entries, IsDead);
    }

    lemma DoneMeansDead(i: nat)
      requires i < |tables|
      ensures tables[i].numCopied == |tables[i].entries| <==> AllDead(tables[i])
    {}

    lemma Rescan(i: nat, x: nat)
      requires Valid() && i < |tables|
      ensures var ts := tables[i := tables[i].(copyScan := x)];
              && Inv(hash, ts, contents) && Extends(tables, ts)
              && forall j :: 0 <= j < root ==> AllDead(ts[j])
    {
      hide Lookup, CountOf, SumCounts, Routed, TableOk, Denotes, Clean;
      var t' := tables[i].(copyScan := x);
      var ts := tables[i := t'];
      SumUpdate(tables, i, t');
      RoutedRescan(hash, tables, i, x);
      DenotesRescan(tables, contents, i, x);
      CleanRescan(tables, i, x);
    }

    /** The key CAS of `hti_cas` on an empty entry. */
    method InstallKey(i: nat, e: nat, key: Key)
      requires Valid() && i < |tables| && ClosedBefore(hash, tables, i, key) && Lookup(tables[i], key, hash) == Free(e)
      modifies this`tables
      ensures Valid() && |tables| == |old(tables)| && ClosedBefore(hash, tables, i, key)
      ensures SameScans(old(tables), tables)
      ensures Lookup(tables[i], key, hash) == Found(e) && tables[i].entries[e].val == old(tables[i].entries[e].val)
      ensures Settled(hash, old(tables), i, key) ==> Settled(hash, tables, i, key)
    {
      hide Lookup, CountOf, SumCounts, Denotes, Routed;
      ghost var ts := tables;
      InstallKeeps(hash, tables, contents, i, e, key);
      InstallTable(hash, tables[i], e, key);
      tables := tables[i := WithKey(tables[i], e, key)];
      if Settled(hash, ts, i, key) {
        assert Ready(hash, tables[i], key) by { assert Ready(hash, ts[i], key); }
      }
    }

    /** Leave table i for the next one after finding k's entry tagged. */
    method FinishCopy(i: nat, e: nat, key: Key)
      requires Valid() && i < |tables| && ClosedBefore(hash, tables, i, key) && Lookup(tables[i], key, hash) == Found(e)
      requires Tagged(tables[i].entries[e].val)
      modifies this`tables
      ensures Valid() && MovedOn(hash, old(tables), tables, i, key)
      ensures SameScans(old(tables), tables)
    {
      hide Lookup, CountOf, SumCounts, Denotes, Routed, Settled;
      ghost var ts := tables;
      assert i + 1 < |tables| by { assert Clean(tables[|tables| - 1]); }
      if !Dead(tables[i].entries[e].val) {
        NotSettled(i, e, key);
        var did := CopyEntry(i, e);
      } else {
        MovesOn(hash, tables, i, key);
      }
    }

    lemma NotSettled(i: nat, e: nat, key: Key)
      requires Valid() && i < |tables| && Lookup(tables[i], key, hash) == Found(e) && tables[i].entries[e].val.TaggedLive?
      ensures !Settled(hash, tables, i, key)
    {
      hide Lookup, CountOf, SumCounts, Denotes, Routed;
      assert !Ready(hash, tables[i], key) && !Closed(hash, tables[i], key);
    }

    /** Leave table i for the next one after finding no room, starting a copy if there is no next one. */
    method Grow(i: nat, key: Key)
      requires Valid() && i < |tables| && ClosedBefore(hash, tables, i, key) && Lookup(tables[i], key, hash) == NoRoom
      modifies this`tables
      ensures Valid() && MovedOn(hash, old(tables), tables, i, key)
      ensures SameScans(old(tables), tables)
    {
      hide Lookup, CountOf, SumCounts, Denotes, Routed, Settled, ClosedBefore;
      ghost var ts := tables;
      assert TableOk(hash, tables[i]);
      HtiStartCopy(i);
      if i + 1 < |ts| {
        MovesOn(hash, tables, i, key);
      } else {
        ghost var scale: nat :| tables == ts + [FreshTable(scale)] && scale >= MIN_SCALE;
        MovesToFresh(hash, ts, contents, scale, i, key);
      }
    }

    /** `hti_cas` on table i, all tables before it being closed for the key. */
    method HtiCas(i: nat, key: Key, expected: Expect, new_: Option<Value>) returns (r: Ret)
      requires Valid() && i < |tables| && ClosedBefore(hash, tables, i, key)
      modifies this`tables, this`contents
      ensures Valid()
      ensures SameScans(old(tables), tables)
      ensures match r
              case Moved => contents == old(contents) && MovedOn(hash, old(tables), tables, i, key)
              case Old(v) => v == MapGet(old(contents), key) && contents == MapCas(old(contents), key, expected, new_)
    {
      hide Lookup, CountOf, SumCounts, Denotes, Routed, Settled, ClosedBefore, MovedOn;
      ghost var ts := tables;
      assert TableOk(hash, tables[i]);
      var slot := HtiLookup(i, key);
      if slot.NoRoom? {
        Grow(i, key);
        return Moved;
      }
      var e := slot.ndx;
      if slot.Free? {
        EmptyMeansAbsent(hash, tables, contents, i, key);
        if (!expected.Whatever? && !expected.DoesNotExist?) || new_.None? {
          assert MapCas(contents, key, expected, new_) == contents;
          return Old(None);
        }
        InstallKey(i, e, key);
      }
      var val := tables[i].entries[e].val;
      if Tagged(val) {
        ghost var ts1 := tables;
        FinishCopy(i, e, key);
        MovedFrom(ts, ts1, i, key);
        return Moved;
      }
      r := CasEntry(i, e, key, expected, new_);
    }

    /** `hti_cas` once the entry of the key is known not to be in the middle of a copy. */
    method CasEntry(i: nat, e: nat, key: Key, expected: Expect, new_: Option<Value>) returns (r: Ret)
      requires Valid() && i < |tables| && Sized(tables[i]) && Lookup(tables[i], key, hash) == Found(e)
      requires !Tagged(tables[i].entries[e].val)
      modifies this`tables, this`contents
      ensures Valid()
      ensures SameScans(old(tables), tables)
      ensures r == Old(MapGet(old(contents), key)) && contents == MapCas(old(contents), key, expected, new_)
    {
      hide Lookup, CountOf, SumCounts, Denotes, Routed;
      var val := tables[i].entries[e].val;
      assert TableOk(hash, tables[i]);
      FoundMeansValue(hash, tables, contents, i, key);
      r := Old(CellValue(val));
      var oldExisted := val.Live?;
      var same := match expected
                  case Whatever => true
                  case Equals(v) => val == Live(v)
                  case DoesNotExist => val == Empty
                  case Exists => false;
      if !same && expected != (if oldExisted then Exists else DoesNotExist) { return; }
      if (new_.None? && !oldExisted) || (new_.Some? && val == Live(new_.value)) {
        assert MapCas(contents, key, expected, new_) == contents;
        return;
      }
      SetEntry(i, e, key, new_);
    }

    /** The value CAS, with the counts. */
    method SetEntry(i: nat, e: nat, key: Key, new_: Option<Value>)
      requires Valid() && i < |tables| && e < |tables[i].entries| && tables[i].entries[e].key == Some(key)
      requires !Tagged(tables[i].entries[e].val)
      modifies this`tables, this`contents
      ensures Valid() && contents == MapSet(old(contents), key, new_)
      ensures SameScans(old(tables), tables)
      ensures tables == old(tables)[i := WithVal(old(tables)[i], e, if new_.None? then Tombstone else Live(new_.value))]
    {
      hide Lookup, CountOf, SumCounts, Denotes, Routed, TableOk;
      var c := if new_.None? then Tombstone else Live(new_.value);
      ValKeeps(hash, tables, contents, i, e, c);
      AliveHere(hash, tables[i], e);
      tables := tables[i := WithVal(tables[i], e, c)];
      contents := MapSet(contents, key, new_);
    }

    lemma MovedFrom(ts: seq<Table>, ts1: seq<Table>, i: nat, key: Key)
      requires TablesOk(hash, ts) && MovedOn(hash, ts1, tables, i, key) && |ts1| == |ts|
      requires Settled(hash, ts, i, key) ==> Settled(hash, ts1, i, key)
      ensures MovedOn(hash, ts, tables, i, key)
    {}

    /** The retry loop of `ht_cas` and `ht_remove`. */
    method CasLoop(key: Key, expected: Expect, new_: Option<Value>) returns (res: Option<Value>)
      requires Valid()
      modifies this`tables, this`contents
      ensures Valid()
      ensures SameScans(old(tables), tables)
      ensures res == MapGet(old(contents), key) && contents == MapCas(old(contents), key, expected, new_)
    {
      hide Settled, ClosedBefore, Routed, Denotes, TableOk, SumCounts;
      var i: nat := 0;
      NoneBefore(key);
      while true
        invariant Valid() && contents == old(contents)
        invariant i < |tables| && TablesOk(hash, tables) && ClosedBefore(hash, tables, i, key)
        invariant SameScans(old(tables), tables)
        decreases if Settled(hash, tables, i, key) then 0 else 1, |tables| - i
      {
        var r := HtiCas(i, key, expected, new_);
        if r.Old? { return r.value; }
        i := i + 1;
      }
    }

    lemma NoneBefore(key: Key)
      requires TablesOk(hash, tables)
      ensures ClosedBefore(hash, tables, 0, key)
    {}

    /** `ht_cas`: help an ongoing copy, unlink a finished table, then act on the first table that is open for
        the key.  An unlinked table is dropped when the call no longer uses it. */
    method Cas(key: Key, expected: Expect, newVal: Value) returns (res: Option<Value>)
      requires Valid() && root == 0
      modifies this
      ensures Valid() && root == 0
      ensures res == MapGet(old(contents), key) && contents == MapCas(old(contents), key, expected, Some(newVal))
      ensures |old(tables)| == 1 ==> unlinked == old(unlinked)
      ensures |old(tables)| > 1 ==> Helped(old(tables)[0], old(unlinked))
    {
      hide Inv;
      if |tables| > 1 {
        var done := HelpCopy(0);
        if done { root := 1; }
      }
      res := CasLoop(key, expected, Some(newVal));
      Release();
    }

    /** A first table t that was being copied has been unlinked, or its scan is one chunk further; it is unlinked for certain
        once its entries are all copied or the scan has been around twice. */
    ghost predicate Helped(t: Table, before: nat)
      reads this
    {
      || unlinked == before + 1
      || (&& unlinked == before && |tables| > 0 && tables[0].scale == t.scale && tables[0].copyScan == t.copyScan + 1
          && !AllDead(t) && 8 * t.copyScan < Pow2(t.scale + 1))
    }

    /** Drop the tables before `ht->hti`: the map stands unchanged in the remaining ones. */
    method Release()
      requires Valid() && root <= 1
      modifies this`tables, this`root, this`unlinked
      ensures Valid() && root == 0 && tables == old(tables)[old(root)..] && unlinked == old(unlinked) + old(root)
    {
      hide Lookup, CountOf, SumCounts, Denotes, Routed;
      if root == 1 {
        UnlinkKeeps(hash, tables, contents);
        tables, root, unlinked := tables[1..], 0, unlinked + 1;
      }
    }

    /** `ht_remove` */
    method Remove(key: Key) returns (res: Option<Value>)
      requires Valid() && root == 0
      modifies this`tables, this`contents
      ensures Valid()
      ensures res == MapGet(old(contents), key) && contents == old(contents) - {key}
    {
      hide Inv;
      res := CasLoop(key, Whatever, None);
    }

    /** `ht_get`: an entry in the middle of a copy is copied first, and the search goes on in the next table. */
    method Get(key: Key) returns (res: Option<Value>)
      requires Valid() && root == 0
      modifies this`tables
      ensures Valid() && res == MapGet(contents, key)
    {
      hide Lookup, CountOf, SumCounts, Denotes, Routed, Settled, ClosedBefore;
      NoneBefore(key);
      var i: nat := 0;
      while true
        invariant Valid() && i < |tables| && ClosedBefore(hash, tables, i, key)
        decreases if Settled(hash, tables, i, key) then 0 else 1, |tables| - i
      {
        assert TableOk(hash, tables[i]);
        var slot := HtiLookup(i, key);
        if slot.Free? {
          EmptyMeansAbsent(hash, tables, contents, i, key);
          return None;
        }
        if slot.NoRoom? {
          if i + 1 == |tables| {
            ClosedToTheEnd(key);
            EmptyMeansAbsent(hash, tables, contents, i + 1, key);
            return None;
          }
          MovesOn(hash, tables, i, key);
        } else if Tagged(tables[i].entries[slot.ndx].val) {
          FinishCopy(i, slot.ndx, key);
        } else {
          FoundMeansValue(hash, tables, contents, i, key);
          return CellValue(tables[i].entries[slot.ndx].val);
        }
        i := i + 1;
      }
    }

    lemma ClosedToTheEnd(key: Key)
      requires Inv(hash, tables, contents) && |tables| > 0 && ClosedBefore(hash, tables, |tables| - 1, key)
      requires Lookup(tables[|tables| - 1], key, hash) == NoRoom
      ensures ClosedBefore(hash, tables, |tables|, key)
    {}

    /** A thread that stopped after tagging a live value in `hti_copy_entry`. */
    method TagEntry(i: nat, e: nat)
      requires Valid() && i + 1 < |tables| && e < |tables[i].entries| && tables[i].entries[e].val.Live?
      modifies this`tables, this`contents
      ensures Valid() && contents == old(contents) && root == old(root)
      ensures tables == old(tables)[i := WithVal(old(tables)[i], e, TaggedLive(old(tables)[i].entries[e].val.v))]
    {
      hide Lookup, CountOf, SumCounts, Denotes, Routed;
      assert tables[i].entries[e].key.Some? by { assert TableOk(hash, tables[i]); }
      ValKeeps(hash, tables, contents, i, e, TaggedLive(tables[i].entries[e].val.v));
      assert Bound(contents, tables[i].entries[e].key.value, TaggedLive(tables[i].entries[e].val.v)) == contents;
      tables := tables[i := WithVal(tables[i], e, TaggedLive(tables[i].entries[e].val.v))];
    }
  }
}
