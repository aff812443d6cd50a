/** Mapping wall-clock time to beacon-chain slots. Times are nanoseconds, unbounded. */
module SlotClock {
  import opened Basics

  const DEFAULT_SLOTS_PER_EPOCH: nat := 32
  const NS_PER_SECOND: nat := 1_000_000_000
  const NS_PER_MILLI: nat := 1_000_000
  const BUCKET_WIDTH_MS: nat := 100

  datatype Clock = Clock(genesisNs: int, secondsPerSlot: nat, slotsPerEpoch: nat)

  datatype SlotRef = SlotRef(slot: nat, epoch: nat, startNs: int, endNs: int, offsetNs: nat, offsetMillis: nat)

  function SlotDuration(c: Clock): nat {
    c.secondsPerSlot * NS_PER_SECOND
  }

  function At(c: Clock, t: int): Option<SlotRef> {
    if c.secondsPerSlot == 0 || t < c.genesisNs then None else
      var perEpoch := if c.slotsPerEpoch == 0 then DEFAULT_SLOTS_PER_EPOCH else c.slotsPerEpoch;
      var duration := SlotDuration(c);
      var elapsed := t - c.genesisNs;
      var slot := elapsed / duration;
      var offset := elapsed % duration;
      var start := c.genesisNs + slot * duration;
      Some(SlotRef(slot, slot / perEpoch, start, start + duration, offset, offset / NS_PER_MILLI))
  }

  /** The 100 ms bucket an observation falls into. */
  function Bucket(r: SlotRef): nat {
    r.offsetMillis / BUCKET_WIDTH_MS * BUCKET_WIDTH_MS
  }

  /** Quotients are ordered like their dividends. */
  lemma DivMonotone(a: nat, b: nat, d: nat)
    requires d > 0 && a <= b
    ensures a / d <= b / d
  {
    var p, q := a / d, b / d;
    assert a == d * p + a % d && b == d * q + b % d;
    assert p >= q + 1 ==> d * p >= d * (q + 1);
    assert d * (q + 1) == d * q + d;
  }

  /** Slot intervals tile time: a slot contains exactly the instants of its own half-open interval. */
  lemma SlotsTileTime(c: Clock, t: int, k: nat)
    requires c.secondsPerSlot > 0 && t >= c.genesisNs
    ensures var r := At(c, t).value;
      && r.startNs <= t < r.endNs && r.startNs + r.offsetNs == t
      && r.startNs == c.genesisNs + r.slot * SlotDuration(c)
      && r.endNs == c.genesisNs + (r.slot + 1) * SlotDuration(c)
      && (r.slot == k <==> c.genesisNs + k * SlotDuration(c) <= t < c.genesisNs + (k + 1) * SlotDuration(c))
  {
    var d := SlotDuration(c);
    var r := At(c, t).value;
    assert t - c.genesisNs == d * r.slot + r.offsetNs && 0 <= r.offsetNs < d;
    Intervals(d, r.slot, k, r.offsetNs);
  }

  /** Intervals of length d do not overlap. */
  lemma Intervals(d: nat, q: nat, k: nat, rest: nat)
    requires rest < d
    ensures d * q == q * d && (q == k <==> k * d <= d * q + rest < (k + 1) * d)
  {
    assert (k + 1) * d == k * d + d;
    if k < q {
      assert (k + 1) * d <= q * d;
    } else if k > q {
      assert k * d >= (q + 1) * d;
      assert (q + 1) * d == q * d + d;
    }
  }

  /** Epochs tile slots, by default 32 of them each. */
  lemma EpochsTileSlots(c: Clock, t: int, k: nat)
    requires At(c, t).Some?
    ensures var r, perEpoch := At(c, t).value, if c.slotsPerEpoch == 0 then 32 else c.slotsPerEpoch;
      r.epoch == k <==> k * perEpoch <= r.slot < (k + 1) * perEpoch
  {
    var r, perEpoch := At(c, t).value, if c.slotsPerEpoch == 0 then 32 else c.slotsPerEpoch;
    assert r.slot == perEpoch * r.epoch + r.slot % perEpoch;
    Intervals(perEpoch, r.epoch, k, r.slot % perEpoch);
  }

  /** Later observations never fall into earlier slots or epochs. */
  lemma SlotsAreMonotone(c: Clock, t: int, u: int)
    requires t <= u && At(c, t).Some?
    ensures At(c, u).Some?
    ensures At(c, t).value.slot <= At(c, u).value.slot && At(c, t).value.epoch <= At(c, u).value.epoch
  {
    DivMonotone(t - c.genesisNs, u - c.genesisNs, SlotDuration(c));
    var perEpoch := if c.slotsPerEpoch == 0 then DEFAULT_SLOTS_PER_EPOCH else c.slotsPerEpoch;
    DivMonotone(At(c, t).value.slot, At(c, u).value.slot, perEpoch);
  }

  /** The first n bucket keys. */
  ghost function BucketKeys(n: nat): set<nat> {
    set i | 0 <= i < n :: i * BUCKET_WIDTH_MS
  }

  lemma {:induction false} BucketKeysCount(n: nat)
    ensures |BucketKeys(n)| == n
  {
    if n > 0 {
      BucketKeysCount(n - 1);
      assert BucketKeys(n) == BucketKeys(n - 1) + {(n - 1) * BUCKET_WIDTH_MS};
    }
  }

  /** A bucket contains its instant, so a slot has at most ten buckets per second. */
  lemma BucketsAreBounded(c: Clock, t: int)
    requires At(c, t).Some?
    ensures var r := At(c, t).value;
      && Bucket(r) in BucketKeys(10 * c.secondsPerSlot)
      && |BucketKeys(10 * c.secondsPerSlot)| == 10 * c.secondsPerSlot
      && Bucket(r) * NS_PER_MILLI <= r.offsetNs < (Bucket(r) + BUCKET_WIDTH_MS) * NS_PER_MILLI
  {
    BucketKeysCount(10 * c.secondsPerSlot);
    var r := At(c, t).value;
    var i := r.offsetMillis / BUCKET_WIDTH_MS;
    assert r.offsetNs < c.secondsPerSlot * NS_PER_SECOND;
    assert r.offsetMillis < 1000 * c.secondsPerSlot;
    assert i < 10 * c.secondsPerSlot;
  }
}
