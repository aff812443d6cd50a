/** The redundant per-slot tables, and their recomputation from the history of observations. */
module SlotTables {
  import opened Basics
  import opened Gossip
  import opened SlotClock

  datatype Key = Key(protocol: string, topic: string, kind: string)

  /** Bleed distance classes: 1, 2, 3 and "4+". */
  datatype Distance = One | Two | Three | FourPlus

  function Class(distance: nat): Distance
    requires distance > 0
  {
    if distance == 1 then One else if distance == 2 then Two else if distance == 3 then Three else FourPlus
  }

  datatype Entry = Entry(bytesIn: nat, bytesOut: nat)

  datatype Row = Row(
    bytesIn: nat, bytesOut: nat, msgCount: nat, bleedIn: nat, bleedOut: nat, byDistance: map<Distance, Entry>)

  const EMPTY_ROW := Row(0, 0, 0, 0, 0, map[])
  const EMPTY_ENTRY := Entry(0, 0)

  datatype Table = Table(
    slot: nat, epoch: nat, startNs: int, endNs: int,
    bytes: Entry, lastUpdatedNs: int,
    facts: BlockFacts, bleedIn: Option<nat>, bleedOut: Option<nat>,
    buckets: map<nat, Entry>,
    breakdown: map<Key, Row>,
    bucketBreakdown: map<nat, map<Key, Row>>)

  function NewTable(r: SlotRef): Table {
    Table(r.slot, r.epoch, r.startNs, r.endNs, EMPTY_ENTRY, r.startNs, NO_FACTS, None, None, map[], map[], map[])
  }

  /** What is recorded: raw traffic of a chunk, or a share of it attributed to a breakdown key. */
  datatype Observation =
    | Traffic(bucket: nat, dir: Direction, bytes: nat, atNs: int)
    | Share(bucket: nat, dir: Direction, bytes: nat, key: Key, distance: nat, facts: BlockFacts)

  function AddBytes(e: Entry, dir: Direction, bytes: nat): Entry {
    match dir
    case In => e.(bytesIn := e.bytesIn + bytes)
    case Out => e.(bytesOut := e.bytesOut + bytes)
    case Unknown => e
  }

  function GetOr<K, V>(m: map<K, V>, k: K, default: V): V {
    if k in m then m[k] else default
  }

  function AddTraffic(t: Table, bucket: nat, dir: Direction, bytes: nat, atNs: int): Table {
    t.(bytes := AddBytes(t.bytes, dir, bytes),
       buckets := t.buckets[bucket := AddBytes(GetOr(t.buckets, bucket, EMPTY_ENTRY), dir, bytes)],
       lastUpdatedNs := atNs)
  }

  function AddToRow(r: Row, dir: Direction, bytes: nat, distance: nat): Row {
    var counted := r.(msgCount := r.msgCount + 1);
    var sized := match dir
      case In => counted.(bytesIn := r.bytesIn + bytes, bleedIn := r.bleedIn + if distance > 0 then bytes else 0)
      case Out => counted.(bytesOut := r.bytesOut + bytes, bleedOut := r.bleedOut + if distance > 0 then bytes else 0)
      case Unknown => counted;
    if distance == 0 then sized else
      var d := Class(distance);
      sized.(byDistance := r.byDistance[d := AddBytes(GetOr(r.byDistance, d, EMPTY_ENTRY), dir, bytes)])
  }

  function AddOptional(o: Option<nat>, bytes: nat): Option<nat> {
    match o
    case None => Some(bytes)
    case Some(v) => Some(v + bytes)
  }

  function Prefer<T>(latest: Option<T>, earlier: Option<T>): Option<T> {
    if latest.Some? then latest else earlier
  }

  function Overlay(earlier: BlockFacts, latest: BlockFacts): BlockFacts {
    BlockFacts(Prefer(latest.proposer, earlier.proposer), Prefer(latest.attestations, earlier.attestations),
               Prefer(latest.commitments, earlier.commitments), Prefer(latest.transactions, earlier.transactions))
  }

  /** Only an inbound block publication says anything about the slot's block. */
  predicate IsBlock(key: Key, dir: Direction) {
    key.topic == "beacon_block" && key.kind == "PUBLISH" && dir == In
  }

  function AddShare(
      t: Table, bucket: nat, dir: Direction, bytes: nat, key: Key, distance: nat, facts: BlockFacts): Table {
    var rows := GetOr(t.bucketBreakdown, bucket, map[]);
    t.(breakdown := t.breakdown[key := AddToRow(GetOr(t.breakdown, key, EMPTY_ROW), dir, bytes, distance)],
       bucketBreakdown := t.bucketBreakdown[bucket :=
         rows[key := AddToRow(GetOr(rows, key, EMPTY_ROW), dir, bytes, distance)]],
       bleedIn := if distance > 0 && dir == In then AddOptional(t.bleedIn, bytes) else t.bleedIn,
       bleedOut := if distance > 0 && dir == Out then AddOptional(t.bleedOut, bytes) else t.bleedOut,
       facts := if IsBlock(key, dir) then Overlay(t.facts, facts) else t.facts)
  }

  /** The incremental update for one observation. */
  function Add(t: Table, o: Observation): Table {
    match o
    case Traffic(bucket, dir, bytes, atNs) => AddTraffic(t, bucket, dir, bytes, atNs)
    case Share(bucket, dir, bytes, key, distance, facts) => AddShare(t, bucket, dir, bytes, key, distance, facts)
  }

  function AddAll(t: Table, h: seq<Observation>): Table {
    if h == [] then t else Add(AddAll(t, h[..|h| - 1]), h[|h| - 1])
  }

  lemma AddOne(t: Table, h: seq<Observation>, o: Observation)
    ensures AddAll(t, h + [o]) == Add(AddAll(t, h), o)
  {
  }

  lemma {:induction false} AddAllAppend(t: Table, g: seq<Observation>, h: seq<Observation>)
    ensures AddAll(t, g + h) == AddAll(AddAll(t, g), h)
    decreases |h|
  {
    if h == [] {
      assert g + h == g;
    } else {
      var all := g + h;
      assert all[..|all| - 1] == g + h[..|h| - 1];
      AddAllAppend(t, g, h[..|h| - 1]);
    }
  }

  // ---- Recomputation from history ----------------------------------------------------------------

  datatype Measure =
    | BytesIn | BytesOut | Messages | BleedIn | BleedOut | DistanceIn(d: Distance) | DistanceOut(d: Distance)

  /** Which observations count, and what of them. */
  datatype Query = Query(traffic: bool, bucket: Option<nat>, key: Option<Key>, m: Measure)

  function Amount(m: Measure, dir: Direction, bytes: nat, distance: nat): nat {
    match m
    case BytesIn => if dir == In then bytes else 0
    case BytesOut => if dir == Out then bytes else 0
    case Messages => 1
    case BleedIn => if dir == In && distance > 0 then bytes else 0
    case BleedOut => if dir == Out && distance > 0 then bytes else 0
    case DistanceIn(d) => if dir == In && distance > 0 && Class(distance) == d then bytes else 0
    case DistanceOut(d) => if dir == Out && distance > 0 && Class(distance) == d then bytes else 0
  }

  function Weight(q: Query, o: Observation): nat {
    if q.bucket.Some? && q.bucket.value != o.bucket then 0
    else match o
      case Traffic(_, dir, bytes, _) => if q.traffic then Amount(q.m, dir, bytes, 0) else 0
      case Share(_, dir, bytes, key, distance, _) =>
        if q.traffic || (q.key.Some? && q.key.value != key) then 0 else Amount(q.m, dir, bytes, distance)
  }

  function Sum(h: seq<Observation>, q: Query): nat {
    if h == [] then 0 else Sum(h[..|h| - 1], q) + Weight(q, h[|h| - 1])
  }

  /** The map with the given keys and values. */
  ghost function Tabulate<K, V>(keys: set<K>, value: K -> V): map<K, V> {
    map k | k in keys :: value(k)
  }

  /** Tabulating again after one key was added or changed. */
  lemma TabulateStep<K(!new), V>(keys: set<K>, f: K -> V, g: K -> V, x: K)
    requires forall k :: k in keys && k != x ==> g(k) == f(k)
    ensures Tabulate(keys + {x}, g) == Tabulate(keys, f)[x := g(x)]
  {
  }

  lemma TabulateSame<K(!new), V>(keys: set<K>, f: K -> V, g: K -> V)
    requires forall k :: k in keys ==> g(k) == f(k)
    ensures Tabulate(keys, g) == Tabulate(keys, f)
  {
  }

  /** The buckets that saw traffic. */
  ghost function TrafficBuckets(h: seq<Observation>): set<nat> {
    set i | 0 <= i < |h| && h[i].Traffic? :: h[i].bucket
  }

  ghost function ShareBuckets(h: seq<Observation>): set<nat> {
    set i | 0 <= i < |h| && h[i].Share? :: h[i].bucket
  }

  /** The keys shares were attributed to, in one bucket or in all. */
  ghost function Keys(h: seq<Observation>, bucket: Option<nat>): set<Key> {
    set i | 0 <= i < |h| && h[i].Share? && (bucket.None? || bucket.value == h[i].bucket) :: h[i].key
  }

  ghost predicate Bleeds(o: Observation, bucket: Option<nat>, key: Key) {
    o.Share? && o.key == key && (bucket.None? || bucket.value == o.bucket) && o.distance > 0
  }

  ghost function Distances(h: seq<Observation>, bucket: Option<nat>, key: Key): set<Distance> {
    set i | 0 <= i < |h| && Bleeds(h[i], bucket, key) :: Class(h[i].distance)
  }

  ghost function RowOf(h: seq<Observation>, bucket: Option<nat>, key: Key): Row {
    Row(Sum(h, Query(false, bucket, Some(key), BytesIn)), Sum(h, Query(false, bucket, Some(key), BytesOut)),
        Sum(h, Query(false, bucket, Some(key), Messages)),
        Sum(h, Query(false, bucket, Some(key), BleedIn)), Sum(h, Query(false, bucket, Some(key), BleedOut)),
        DistanceTable(h, bucket, key))
  }

  ghost function DistanceEntry(h: seq<Observation>, bucket: Option<nat>, key: Key, d: Distance): Entry {
    Entry(Sum(h, Query(false, bucket, Some(key), DistanceIn(d))),
          Sum(h, Query(false, bucket, Some(key), DistanceOut(d))))
  }

  ghost function RowsOf(h: seq<Observation>, bucket: Option<nat>): map<Key, Row> {
    Tabulate(Keys(h, bucket), k => RowOf(h, bucket, k))
  }

  ghost function TrafficOf(h: seq<Observation>, bucket: Option<nat>): Entry {
    Entry(Sum(h, Query(true, bucket, None, BytesIn)), Sum(h, Query(true, bucket, None, BytesOut)))
  }

  ghost function Bled(h: seq<Observation>, dir: Direction): bool {
    exists i :: 0 <= i < |h| && h[i].Share? && h[i].dir == dir && h[i].distance > 0
  }

  ghost function BleedOf(h: seq<Observation>, dir: Direction, m: Measure): Option<nat> {
    if Bled(h, dir) then Some(Sum(h, Query(false, None, None, m))) else None
  }

  /** The latest word on each block fact. */
  function FactsOf(h: seq<Observation>): BlockFacts {
    if h == [] then NO_FACTS else
      var before, o := FactsOf(h[..|h| - 1]), h[|h| - 1];
      if o.Share? && IsBlock(o.key, o.dir) then Overlay(before, o.facts) else before
  }

  function UpdatedOf(h: seq<Observation>, startNs: int): int {
    if h == [] then startNs
    else if h[|h| - 1].Traffic? then h[|h| - 1].atNs
    else UpdatedOf(h[..|h| - 1], startNs)
  }

  /** A slot's tables, computed from nothing but the list of what was observed in it. */
  ghost function Recompute(r: SlotRef, h: seq<Observation>): Table {
    Table(r.slot, r.epoch, r.startNs, r.endNs, TrafficOf(h, None), UpdatedOf(h, r.startNs),
          FactsOf(h), BleedOf(h, In, BleedIn), BleedOf(h, Out, BleedOut),
          BucketTable(h), RowsOf(h, None), BucketRows(h))
  }

  lemma SumStep(h: seq<Observation>, o: Observation, q: Query)
    ensures Sum(h + [o], q) == Sum(h, q) + Weight(q, o)
  {
  }

  lemma {:induction false} SumZero(h: seq<Observation>, q: Query)
    requires forall i :: 0 <= i < |h| ==> Weight(q, h[i]) == 0
    ensures Sum(h, q) == 0
    decreases |h|
  {
    if h != [] {
      SumZero(h[..|h| - 1], q);
    }
  }

  /** Whether an observation is attributed to a row. */
  ghost predicate Hits(o: Observation, bucket: Option<nat>, key: Key) {
    o.Share? && o.key == key && (bucket.None? || bucket.value == o.bucket)
  }

  lemma DistanceEntryStep(h: seq<Observation>, o: Observation, bucket: Option<nat>, key: Key, d: Distance)
    ensures DistanceEntry(h + [o], bucket, key, d) ==
      if Bleeds(o, bucket, key) && Class(o.distance) == d
      then AddBytes(DistanceEntry(h, bucket, key, d), o.dir, o.bytes) else DistanceEntry(h, bucket, key, d)
  {
  }

  ghost function DistanceTable(h: seq<Observation>, bucket: Option<nat>, key: Key): map<Distance, Entry> {
    Tabulate(Distances(h, bucket, key), d => DistanceEntry(h, bucket, key, d))
  }

  lemma DistanceTableStep(h: seq<Observation>, o: Observation, bucket: Option<nat>, key: Key)
    ensures DistanceTable(h + [o], bucket, key) ==
      if Bleeds(o, bucket, key)
      then var d := Class(o.distance);
        DistanceTable(h, bucket, key)[d :=
          AddBytes(GetOr(DistanceTable(h, bucket, key), d, EMPTY_ENTRY), o.dir, o.bytes)]
      else DistanceTable(h, bucket, key)
  {
    var ds := Distances(h, bucket, key);
    var f, g := d => DistanceEntry(h, bucket, key, d), d => DistanceEntry(h + [o], bucket, key, d);
    DistancesStep(h, o, bucket, key);
    forall d: Distance
      ensures g(d) == if Bleeds(o, bucket, key) && Class(o.distance) == d then AddBytes(f(d), o.dir, o.bytes) else f(d)
    {
      DistanceEntryStep(h, o, bucket, key, d);
    }
    if Bleeds(o, bucket, key) {
      var d := Class(o.distance);
      TabulateStep(ds, f, g, d);
      if d !in ds {
        AbsentDistance(h, bucket, key, d);
      }
    } else {
      TabulateSame(ds, f, g);
    }
  }

  /** A share that goes elsewhere leaves a row alone; one that comes here is added to it. */
  lemma RowStep(h: seq<Observation>, o: Observation, bucket: Option<nat>, key: Key)
    ensures RowOf(h + [o], bucket, key) ==
      if Hits(o, bucket, key) then AddToRow(RowOf(h, bucket, key), o.dir, o.bytes, o.distance)
      else RowOf(h, bucket, key)
  {
    SumStep(h, o, Query(false, bucket, Some(key), BytesIn));
    SumStep(h, o, Query(false, bucket, Some(key), BytesOut));
    SumStep(h, o, Query(false, bucket, Some(key), Messages));
    SumStep(h, o, Query(false, bucket, Some(key), BleedIn));
    SumStep(h, o, Query(false, bucket, Some(key), BleedOut));
    DistanceTableStep(h, o, bucket, key);
  }

  lemma DistancesStep(h: seq<Observation>, o: Observation, bucket: Option<nat>, key: Key)
    ensures Distances(h + [o], bucket, key) ==
      Distances(h, bucket, key) + if Bleeds(o, bucket, key) then {Class(o.distance)} else {}
  {
    var g := h + [o];
    assert forall i :: 0 <= i < |h| ==> g[i] == h[i];
    assert g[|h|] == o;
    forall d | d in Distances(h, bucket, key) + if Bleeds(o, bucket, key) then {Class(o.distance)} else {}
      ensures d in Distances(g, bucket, key)
    {
      var i :| 0 <= i < |g| && Bleeds(g[i], bucket, key) && Class(g[i].distance) == d;
    }
  }

  lemma AbsentDistance(h: seq<Observation>, bucket: Option<nat>, key: Key, d: Distance)
    requires d !in Distances(h, bucket, key)
    ensures Sum(h, Query(false, bucket, Some(key), DistanceIn(d))) == 0
    ensures Sum(h, Query(false, bucket, Some(key), DistanceOut(d))) == 0
  {
    forall i | 0 <= i < |h|
      ensures Weight(Query(false, bucket, Some(key), DistanceIn(d)), h[i]) == 0
      ensures Weight(Query(false, bucket, Some(key), DistanceOut(d)), h[i]) == 0
    {
      if Bleeds(h[i], bucket, key) {
        assert Class(h[i].distance) in Distances(h, bucket, key);
      }
    }
    SumZero(h, Query(false, bucket, Some(key), DistanceIn(d)));
    SumZero(h, Query(false, bucket, Some(key), DistanceOut(d)));
  }

  /** A key without shares has an empty row. */
  lemma AbsentRow(h: seq<Observation>, bucket: Option<nat>, key: Key)
    requires key !in Keys(h, bucket)
    ensures RowOf(h, bucket, key) == EMPTY_ROW
  {
    forall m: Measure
      ensures Sum(h, Query(false, bucket, Some(key), m)) == 0
    {
      forall i | 0 <= i < |h|
        ensures Weight(Query(false, bucket, Some(key), m), h[i]) == 0
      {
        if h[i].Share? && (bucket.None? || bucket.value == h[i].bucket) {
          assert h[i].key in Keys(h, bucket);
        }
      }
      SumZero(h, Query(false, bucket, Some(key), m));
    }
    assert Distances(h, bucket, key) == {} by {
      assert forall i :: 0 <= i < |h| && h[i].Share? && (bucket.None? || bucket.value == h[i].bucket) ==>
          h[i].key in Keys(h, bucket);
    }
  }

  lemma KeysStep(h: seq<Observation>, o: Observation, bucket: Option<nat>)
    ensures Keys(h + [o], bucket) ==
      Keys(h, bucket) + if o.Share? && (bucket.None? || bucket.value == o.bucket) then {o.key} else {}
  {
    var g := h + [o];
    assert forall i :: 0 <= i < |h| ==> g[i] == h[i];
    assert g[|h|] == o;
  }

  lemma RowsStep(h: seq<Observation>, o: Observation, bucket: Option<nat>)
    ensures RowsOf(h + [o], bucket) ==
      if o.Share? && (bucket.None? || bucket.value == o.bucket)
      then RowsOf(h, bucket)[o.key := AddToRow(GetOr(RowsOf(h, bucket), o.key, EMPTY_ROW), o.dir, o.bytes, o.distance)]
      else RowsOf(h, bucket)
  {
    var ks := Keys(h, bucket);
    var f, g := k => RowOf(h, bucket, k), k => RowOf(h + [o], bucket, k);
    KeysStep(h, o, bucket);
    forall k: Key
      ensures g(k) == if Hits(o, bucket, k) then AddToRow(f(k), o.dir, o.bytes, o.distance) else f(k)
    {
      RowStep(h, o, bucket, k);
    }
    if o.Share? && (bucket.None? || bucket.value == o.bucket) {
      TabulateStep(ks, f, g, o.key);
      if o.key !in ks {
        AbsentRow(h, bucket, o.key);
      }
    } else {
      TabulateSame(ks, f, g);
    }
  }

  lemma TrafficStep(h: seq<Observation>, o: Observation, bucket: Option<nat>)
    ensures TrafficOf(h + [o], bucket) ==
      if o.Traffic? && (bucket.None? || bucket.value == o.bucket)
      then AddBytes(TrafficOf(h, bucket), o.dir, o.bytes) else TrafficOf(h, bucket)
  {
  }

  ghost function BucketTable(h: seq<Observation>): map<nat, Entry> {
    Tabulate(TrafficBuckets(h), b => TrafficOf(h, Some(b)))
  }

  lemma BucketTableStep(h: seq<Observation>, o: Observation)
    ensures BucketTable(h + [o]) ==
      if o.Traffic?
      then BucketTable(h)[o.bucket := AddBytes(GetOr(BucketTable(h), o.bucket, EMPTY_ENTRY), o.dir, o.bytes)]
      else BucketTable(h)
  {
    var bs, all := TrafficBuckets(h), h + [o];
    var f, g := b => TrafficOf(h, Some(b)), b => TrafficOf(h + [o], Some(b));
    assert TrafficBuckets(all) == bs + if o.Traffic? then {o.bucket} else {} by {
      assert forall i :: 0 <= i < |h| ==> all[i] == h[i];
      assert all[|h|] == o;
    }
    forall b: nat
      ensures g(b) == if o.Traffic? && b == o.bucket then AddBytes(f(b), o.dir, o.bytes) else f(b)
    {
      TrafficStep(h, o, Some(b));
    }
    if o.Traffic? {
      TabulateStep(bs, f, g, o.bucket);
      if o.bucket !in bs {
        QuietBucket(h, o.bucket);
      }
    } else {
      TabulateSame(bs, f, g);
    }
  }

  lemma QuietBucket(h: seq<Observation>, b: nat)
    requires b !in TrafficBuckets(h)
    ensures TrafficOf(h, Some(b)) == EMPTY_ENTRY
  {
    assert forall i :: 0 <= i < |h| && h[i].Traffic? ==> h[i].bucket in TrafficBuckets(h);
    SumZero(h, Query(true, Some(b), None, BytesIn));
    SumZero(h, Query(true, Some(b), None, BytesOut));
  }

  ghost function BucketRows(h: seq<Observation>): map<nat, map<Key, Row>> {
    Tabulate(ShareBuckets(h), b => RowsOf(h, Some(b)))
  }

  lemma BucketRowsStep(h: seq<Observation>, o: Observation)
    ensures BucketRows(h + [o]) ==
      if o.Share?
      then var rows := GetOr(BucketRows(h), o.bucket, map[]);
        BucketRows(h)[o.bucket := rows[o.key := AddToRow(GetOr(rows, o.key, EMPTY_ROW), o.dir, o.bytes, o.distance)]]
      else BucketRows(h)
  {
    var bs, all := ShareBuckets(h), h + [o];
    var f, g := b => RowsOf(h, Some(b)), b => RowsOf(h + [o], Some(b));
    assert ShareBuckets(all) == bs + if o.Share? then {o.bucket} else {} by {
      assert forall i :: 0 <= i < |h| ==> all[i] == h[i];
      assert all[|h|] == o;
    }
    forall b: nat
      ensures g(b) == if o.Share? && b == o.bucket
        then f(b)[o.key := AddToRow(GetOr(f(b), o.key, EMPTY_ROW), o.dir, o.bytes, o.distance)] else f(b)
    {
      RowsStep(h, o, Some(b));
    }
    if o.Share? {
      TabulateStep(bs, f, g, o.bucket);
      if o.bucket !in bs {
        assert Keys(h, Some(o.bucket)) == {} by {
          assert forall i :: 0 <= i < |h| && h[i].Share? ==> h[i].bucket in ShareBuckets(h);
        }
        assert RowsOf(h, Some(o.bucket)) == map[];
      }
    } else {
      TabulateSame(bs, f, g);
    }
  }

  lemma BleedStep(h: seq<Observation>, o: Observation, dir: Direction, m: Measure)
    requires (dir == In && m == BleedIn) || (dir == Out && m == BleedOut)
    ensures BleedOf(h + [o], dir, m) ==
      if o.Share? && o.distance > 0 && o.dir == dir then AddOptional(BleedOf(h, dir, m), o.bytes)
      else BleedOf(h, dir, m)
  {
    var g := h + [o];
    var q := Query(false, None, None, m);
    SumStep(h, o, q);
    assert forall i :: 0 <= i < |h| ==> g[i] == h[i];
    assert g[|h|] == o;
    if Bled(h, dir) {
      var i :| 0 <= i < |h| && h[i].Share? && h[i].dir == dir && h[i].distance > 0;
      assert g[i].Share? && g[i].dir == dir && g[i].distance > 0;
    } else {
      SumZero(h, q);
    }
  }

  /** One observation: updating the recomputed tables gives the tables recomputed. */
  lemma RecomputeStep(r: SlotRef, h: seq<Observation>, o: Observation)
    ensures Recompute(r, h + [o]) == Add(Recompute(r, h), o)
  {
    var g := h + [o];
    assert g[..|h|] == h && g[|h|] == o;
    TrafficStep(h, o, None);
    BucketTableStep(h, o);
    RowsStep(h, o, None);
    BucketRowsStep(h, o);
    BleedStep(h, o, In, BleedIn);
    BleedStep(h, o, Out, BleedOut);
  }

  /** Incremental aggregation refines history: after any observations every table equals its recomputation. */
  lemma {:induction false} TablesRefineHistory(r: SlotRef, h: seq<Observation>)
    ensures AddAll(NewTable(r), h) == Recompute(r, h)
    decreases |h|
  {
    if h == [] {
      assert Recompute(r, h) == NewTable(r) by {
        assert !Bled(h, In) && !Bled(h, Out);
        assert BucketTable(h) == map[] && RowsOf(h, None) == map[] && BucketRows(h) == map[];
      }
    } else {
      TablesRefineHistory(r, h[..|h| - 1]);
      RecomputeStep(r, h[..|h| - 1], h[|h| - 1]);
      assert h[..|h| - 1] + [h[|h| - 1]] == h;
    }
  }

  // ---- The tables agree with each other ----------------------------------------------------------

  /** A sum splits over any set of buckets that covers the observations. */
  lemma {:induction false} SplitByBucket(h: seq<Observation>, q: Query, buckets: set<nat>, part: nat -> int)
    requires q.bucket.None?
    requires forall i :: 0 <= i < |h| && Weight(q, h[i]) > 0 ==> h[i].bucket in buckets
    requires forall b :: b in buckets ==> part(b) == Sum(h, q.(bucket := Some(b)))
    ensures Sum(h, q) == SumOver(buckets, part)
    decreases |h|
  {
    if h == [] {
      SumOverZero(buckets, part);
    } else {
      var pre, o := h[..|h| - 1], h[|h| - 1];
      var before := (b: nat) => Sum(pre, q.(bucket := Some(b)));
      SplitByBucket(pre, q, buckets, before);
      if o.bucket in buckets {
        SumOverChange(buckets, before, part, o.bucket);
      } else {
        SumOverSame(buckets, before, part);
      }
    }
  }

  /** A sum over shares splits over any set of keys that covers them. */
  lemma {:induction false} SplitByKey(h: seq<Observation>, q: Query, keys: set<Key>, part: Key -> int)
    requires q.key.None? && !q.traffic
    requires forall i :: 0 <= i < |h| && h[i].Share? ==> h[i].key in keys
    requires forall k :: k in keys ==> part(k) == Sum(h, q.(key := Some(k)))
    ensures Sum(h, q) == SumOver(keys, part)
    decreases |h|
  {
    if h == [] {
      SumOverZero(keys, part);
    } else {
      var pre, o := h[..|h| - 1], h[|h| - 1];
      var before := (k: Key) => Sum(pre, q.(key := Some(k)));
      SplitByKey(pre, q, keys, before);
      if o.Share? {
        SumOverChange(keys, before, part, o.key);
      } else {
        SumOverSame(keys, before, part);
      }
    }
  }

  lemma {:induction false} SplitByDistanceIn(h: seq<Observation>, bucket: Option<nat>, key: Key)
    ensures var q := (m: Measure) => Sum(h, Query(false, bucket, Some(key), m));
      q(BleedIn) == q(DistanceIn(One)) + q(DistanceIn(Two)) + q(DistanceIn(Three)) + q(DistanceIn(FourPlus))
    decreases |h|
  {
    if h != [] {
      SplitByDistanceIn(h[..|h| - 1], bucket, key);
    }
  }

  lemma {:induction false} SplitByDistanceOut(h: seq<Observation>, bucket: Option<nat>, key: Key)
    ensures var q := (m: Measure) => Sum(h, Query(false, bucket, Some(key), m));
      q(BleedOut) == q(DistanceOut(One)) + q(DistanceOut(Two)) + q(DistanceOut(Three)) + q(DistanceOut(FourPlus))
    decreases |h|
  {
    if h != [] {
      SplitByDistanceOut(h[..|h| - 1], bucket, key);
    }
  }

  /** The numbers of a row, by measure. */
  function RowMeasure(r: Row, m: Measure): nat {
    match m
    case BytesIn => r.bytesIn
    case BytesOut => r.bytesOut
    case Messages => r.msgCount
    case BleedIn => r.bleedIn
    case BleedOut => r.bleedOut
    case DistanceIn(d) => GetOr(r.byDistance, d, EMPTY_ENTRY).bytesIn
    case DistanceOut(d) => GetOr(r.byDistance, d, EMPTY_ENTRY).bytesOut
  }

  /** What bucket b contributes to row k; zero when it has no such row. */
  function BucketRowMeasure(t: Table, b: nat, k: Key, m: Measure): nat {
    RowMeasure(GetOr(GetOr(t.bucketBreakdown, b, map[]), k, EMPTY_ROW), m)
  }

  lemma RowMeasureIsSum(h: seq<Observation>, bucket: Option<nat>, k: Key, m: Measure)
    ensures RowMeasure(GetOr(RowsOf(h, bucket), k, EMPTY_ROW), m) == Sum(h, Query(false, bucket, Some(k), m))
  {
    if k !in Keys(h, bucket) {
      AbsentRow(h, bucket, k);
      assert RowOf(h, bucket, k) == EMPTY_ROW;
      if m.DistanceIn? || m.DistanceOut? {
        assert m.d !in DistanceTable(h, bucket, k);
        AbsentDistance(h, bucket, k, m.d);
      }
    } else if (m.DistanceIn? || m.DistanceOut?) && m.d !in Distances(h, bucket, k) {
      AbsentDistance(h, bucket, k, m.d);
    }
  }

  /** Every slot row is the sum of its bucket rows, in every measure: bytes, messages, bleed and each distance. */
  lemma RowsAgree(r: SlotRef, h: seq<Observation>, k: Key, m: Measure)
    ensures var t := AddAll(NewTable(r), h);
      RowMeasure(GetOr(t.breakdown, k, EMPTY_ROW), m)
      == SumOver(t.bucketBreakdown.Keys, b => BucketRowMeasure(t, b, k, m))
  {
    TablesRefineHistory(r, h);
    var t := AddAll(NewTable(r), h);
    var part := (b: nat) => BucketRowMeasure(t, b, k, m);
    var q := Query(false, None, Some(k), m);
    RowMeasureIsSum(h, None, k, m);
    assert t.bucketBreakdown.Keys == ShareBuckets(h);
    forall b | b in ShareBuckets(h)
      ensures part(b) == Sum(h, q.(bucket := Some(b)))
    {
      assert t.bucketBreakdown[b] == RowsOf(h, Some(b));
      RowMeasureIsSum(h, Some(b), k, m);
    }
    forall i | 0 <= i < |h| && Weight(q, h[i]) > 0
      ensures h[i].bucket in ShareBuckets(h)
    {
    }
    SplitByBucket(h, q, ShareBuckets(h), part);
    SumOverSame(ShareBuckets(h), part, b => BucketRowMeasure(t, b, k, m));
  }

  function DirectionBytes(e: Entry, dir: Direction): nat {
    match dir
    case In => e.bytesIn
    case Out => e.bytesOut
    case Unknown => 0
  }

  /** The slot's bytes in one direction, added up over its buckets. */
  ghost function BucketTotal(t: Table, dir: Direction): int {
    SumOver(t.buckets.Keys, b => DirectionBytes(GetOr(t.buckets, b, EMPTY_ENTRY), dir))
  }

  /** One measure, added up over all rows of the slot. */
  ghost function RowTotal(t: Table, m: Measure): int {
    SumOver(t.breakdown.Keys, k => RowMeasure(GetOr(t.breakdown, k, EMPTY_ROW), m))
  }

  /** The summary's bytes are the sum of the buckets' bytes. */
  lemma SummaryIsBucketTotal(r: SlotRef, h: seq<Observation>, dir: Direction)
    ensures var t := AddAll(NewTable(r), h); DirectionBytes(t.bytes, dir) == BucketTotal(t, dir)
  {
    TablesRefineHistory(r, h);
    var t := AddAll(NewTable(r), h);
    var bs := TrafficBuckets(h);
    var part := (b: nat) => DirectionBytes(GetOr(t.buckets, b, EMPTY_ENTRY), dir);
    assert t.buckets.Keys == bs;
    assert BucketTotal(t, dir) == SumOver(bs, part) by {
      SumOverSame(bs, part, b => DirectionBytes(GetOr(t.buckets, b, EMPTY_ENTRY), dir));
    }
    if dir == Unknown {
      SumOverZero(bs, part);
    } else {
      var q := Query(true, None, None, if dir == In then BytesIn else BytesOut);
      assert forall i :: 0 <= i < |h| && h[i].Traffic? ==> h[i].bucket in bs;
      assert forall b :: b in bs ==> part(b) == Sum(h, q.(bucket := Some(b)));
      SplitByBucket(h, q, bs, part);
    }
  }

  /** The rows together hold everything that was attributed. */
  lemma RowsHoldAllShares(r: SlotRef, h: seq<Observation>, m: Measure)
    ensures RowTotal(AddAll(NewTable(r), h), m) == Sum(h, Query(false, None, None, m))
  {
    TablesRefineHistory(r, h);
    var t := AddAll(NewTable(r), h);
    var ks := Keys(h, None);
    var q := Query(false, None, None, m);
    var part := (k: Key) => RowMeasure(GetOr(t.breakdown, k, EMPTY_ROW), m);
    assert t.breakdown.Keys == ks;
    assert RowTotal(t, m) == SumOver(ks, part) by {
      SumOverSame(ks, part, k => RowMeasure(GetOr(t.breakdown, k, EMPTY_ROW), m));
    }
    assert forall i :: 0 <= i < |h| && h[i].Share? ==> h[i].key in ks;
    forall k | k in ks
      ensures part(k) == Sum(h, q.(key := Some(k)))
    {
      RowMeasureIsSum(h, None, k, m);
    }
    SplitByKey(h, q, ks, part);
  }

  /** The slot's bleed is the sum of its rows' bleed. */
  lemma BleedIsRowTotal(r: SlotRef, h: seq<Observation>)
    ensures var t := AddAll(NewTable(r), h);
      && (if t.bleedIn.Some? then t.bleedIn.value else 0) == RowTotal(t, BleedIn)
      && (if t.bleedOut.Some? then t.bleedOut.value else 0) == RowTotal(t, BleedOut)
  {
    TablesRefineHistory(r, h);
    RowsHoldAllShares(r, h, BleedIn);
    RowsHoldAllShares(r, h, BleedOut);
    BleedValue(h, In, BleedIn);
    BleedValue(h, Out, BleedOut);
  }

  lemma BleedValue(h: seq<Observation>, dir: Direction, m: Measure)
    requires (dir == In && m == BleedIn) || (dir == Out && m == BleedOut)
    ensures var b := BleedOf(h, dir, m);
      (if b.Some? then b.value else 0) == Sum(h, Query(false, None, None, m))
  {
  }

  /** A row's bleed, in the slot or in one bucket, is the sum over its four distance classes. */
  lemma DistancesAgree(r: SlotRef, h: seq<Observation>, k: Key, b: nat)
    ensures var t := AddAll(NewTable(r), h);
      && DistancesAddUp(GetOr(t.breakdown, k, EMPTY_ROW))
      && DistancesAddUp(GetOr(GetOr(t.bucketBreakdown, b, map[]), k, EMPTY_ROW))
  {
    var t := AddAll(NewTable(r), h);
    TablesRefineHistory(r, h);
    RowDistances(h, None, k);
    BucketRowDistances(t.bucketBreakdown, h, k, b);
  }

  lemma BucketRowDistances(bucketBreakdown: map<nat, map<Key, Row>>, h: seq<Observation>, k: Key, b: nat)
    requires bucketBreakdown == BucketRows(h)
    ensures DistancesAddUp(GetOr(GetOr(bucketBreakdown, b, map[]), k, EMPTY_ROW))
  {
    if b in bucketBreakdown {
      assert bucketBreakdown[b] == RowsOf(h, Some(b));
      RowDistances(h, Some(b), k);
    } else {
      assert DistancesAddUp(EMPTY_ROW);
    }
  }

  ghost predicate DistancesAddUp(r: Row) {
    && r.bleedIn == RowMeasure(r, DistanceIn(One)) + RowMeasure(r, DistanceIn(Two))
                    + RowMeasure(r, DistanceIn(Three)) + RowMeasure(r, DistanceIn(FourPlus))
    && r.bleedOut == RowMeasure(r, DistanceOut(One)) + RowMeasure(r, DistanceOut(Two))
                     + RowMeasure(r, DistanceOut(Three)) + RowMeasure(r, DistanceOut(FourPlus))
  }

  lemma RowDistances(h: seq<Observation>, bucket: Option<nat>, k: Key)
    ensures DistancesAddUp(GetOr(RowsOf(h, bucket), k, EMPTY_ROW))
  {
    var r := GetOr(RowsOf(h, bucket), k, EMPTY_ROW);
    forall m: Measure
      ensures RowMeasure(r, m) == Sum(h, Query(false, bucket, Some(k), m))
    {
      RowMeasureIsSum(h, bucket, k, m);
    }
    SplitByDistanceIn(h, bucket, k);
    SplitByDistanceOut(h, bucket, k);
    assert r.bleedIn == RowMeasure(r, BleedIn) && r.bleedOut == RowMeasure(r, BleedOut);
  }

  // ---- Told from the list of observations alone ------------------------------------------------------------------

  /** Bytes attributed to a key in one direction from one distance on, up to another if there is one. */
  function LateBytes(h: seq<Observation>, key: Key, dir: Direction, from: nat, upTo: Option<nat>): nat {
    if h == [] then 0 else
      var o := h[|h| - 1];
      var counts := o.Share? && o.key == key && o.dir == dir && from <= o.distance
        && (upTo.None? || o.distance <= upTo.value);
      LateBytes(h[..|h| - 1], key, dir, from, upTo) + if counts then o.bytes else 0
  }

  lemma {:induction false} ClassSum(h: seq<Observation>, key: Key, d: Distance, from: nat, upTo: Option<nat>)
    requires (d == One && from == 1 && upTo == Some(1)) || (d == Two && from == 2 && upTo == Some(2))
          || (d == Three && from == 3 && upTo == Some(3)) || (d == FourPlus && from == 4 && upTo == None)
    ensures Sum(h, Query(false, None, Some(key), DistanceIn(d))) == LateBytes(h, key, In, from, upTo)
    ensures Sum(h, Query(false, None, Some(key), DistanceOut(d))) == LateBytes(h, key, Out, from, upTo)
    decreases |h|
  {
    if h != [] {
      ClassSum(h[..|h| - 1], key, d, from, upTo);
    }
  }

  /** The bytes of one distance class of a row. */
  function ClassBytes(t: Table, key: Key, d: Distance): Entry {
    GetOr(GetOr(t.breakdown, key, EMPTY_ROW).byDistance, d, EMPTY_ENTRY)
  }

  lemma ClassIsSum(r: SlotRef, h: seq<Observation>, key: Key, d: Distance)
    ensures ClassBytes(AddAll(NewTable(r), h), key, d) ==
      Entry(Sum(h, Query(false, None, Some(key), DistanceIn(d))), Sum(h, Query(false, None, Some(key), DistanceOut(d))))
  {
    BreakdownIsRows(r, h);
    RowMeasureIsSum(h, None, key, DistanceIn(d));
    RowMeasureIsSum(h, None, key, DistanceOut(d));
    RowClass(GetOr(RowsOf(h, None), key, EMPTY_ROW), d);
  }

  lemma BreakdownIsRows(r: SlotRef, h: seq<Observation>)
    ensures AddAll(NewTable(r), h).breakdown == RowsOf(h, None)
  {
    TablesRefineHistory(r, h);
  }

  lemma RowClass(row: Row, d: Distance)
    ensures GetOr(row.byDistance, d, EMPTY_ENTRY) ==
      Entry(RowMeasure(row, DistanceIn(d)), RowMeasure(row, DistanceOut(d)))
  {
  }

  /** The distance classes of every row hold the bytes that were one, two, three, and four or more slots late. */
  lemma ClassesAreExact(r: SlotRef, h: seq<Observation>, key: Key)
    ensures var t := AddAll(NewTable(r), h);
      && ClassBytes(t, key, One) == Entry(LateBytes(h, key, In, 1, Some(1)), LateBytes(h, key, Out, 1, Some(1)))
      && ClassBytes(t, key, Two) == Entry(LateBytes(h, key, In, 2, Some(2)), LateBytes(h, key, Out, 2, Some(2)))
      && ClassBytes(t, key, Three) == Entry(LateBytes(h, key, In, 3, Some(3)), LateBytes(h, key, Out, 3, Some(3)))
      && ClassBytes(t, key, FourPlus) == Entry(LateBytes(h, key, In, 4, None), LateBytes(h, key, Out, 4, None))
  {
    ClassIsSum(r, h, key, One);
    ClassIsSum(r, h, key, Two);
    ClassIsSum(r, h, key, Three);
    ClassIsSum(r, h, key, FourPlus);
    ClassSum(h, key, One, 1, Some(1));
    ClassSum(h, key, Two, 2, Some(2));
    ClassSum(h, key, Three, 3, Some(3));
    ClassSum(h, key, FourPlus, 4, None);
  }

  datatype Fact = Proposer | Attestations | Commitments | Transactions

  function Stated(facts: BlockFacts, fact: Fact): Option<nat> {
    match fact
    case Proposer => facts.proposer
    case Attestations => facts.attestations
    case Commitments => facts.commitments
    case Transactions => facts.transactions
  }

  /** An inbound block publication that states the fact. */
  ghost predicate States(o: Observation, fact: Fact) {
    && o.Share? && o.dir == In && o.key.topic == "beacon_block" && o.key.kind == "PUBLISH"
    && Stated(o.facts, fact).Some?
  }

  /** The value is what the last such publication states, or none if there is none. */
  ghost predicate LastStated(h: seq<Observation>, fact: Fact, value: Option<nat>) {
    if value.None? then forall i :: 0 <= i < |h| ==> !States(h[i], fact)
    else exists i :: 0 <= i < |h| && States(h[i], fact)
           && Stated(h[i].facts, fact) == value && forall j :: i < j < |h| ==> !States(h[j], fact)
  }

  lemma LastStatedStep(h: seq<Observation>, o: Observation, g: seq<Observation>, fact: Fact, value: Option<nat>)
    requires LastStated(h, fact, value) && g == h + [o]
    ensures LastStated(g, fact, if States(o, fact) then Stated(o.facts, fact) else value)
  {
    assert g[|h|] == o && forall i :: 0 <= i < |h| ==> g[i] == h[i];
    if !States(o, fact) && value.Some? {
      var i :| 0 <= i < |h| && States(h[i], fact) && Stated(h[i].facts, fact) == value
               && forall j :: i < j < |h| ==> !States(h[j], fact);
      assert States(g[i], fact);
    }
  }

  lemma FactStep(t: Table, o: Observation, fact: Fact)
    ensures Stated(Add(t, o).facts, fact) == if States(o, fact) then Stated(o.facts, fact) else Stated(t.facts, fact)
  {
  }

  /** Every fact a slot shows about its block is the one stated by the last inbound publication of a block that states
      it, and none if there is none. */
  lemma {:induction false} FactsAreLatest(r: SlotRef, h: seq<Observation>, fact: Fact)
    ensures LastStated(h, fact, Stated(AddAll(NewTable(r), h).facts, fact))
    decreases |h|
  {
    if h == [] {
      assert AddAll(NewTable(r), h).facts == NO_FACTS;
    } else {
      var n := |h| - 1;
      FactsAreLatest(r, h[..n], fact);
      var before := AddAll(NewTable(r), h[..n]);
      FactStep(before, h[n], fact);
      LastStatedStep(h[..n], h[n], h, fact, Stated(before.facts, fact));
    }
  }
}
