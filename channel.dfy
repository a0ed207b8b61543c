/**
 * The data channel of the publish/subscribe distributor (`DataChannel` of
 * src/store/pubsub/DataProvider.ts): an ordered buffer of timestamped items.
 * Items are appended by `Add`/`AddMany` and taken out, destructively, by
 * `ConsumeTimeChunk`. The clock is the parameter `now`.
 */
module Channel {
  import opened JsArray

  /** A channel entry: the published value (copied by value) and the time it was added. */
  datatype DataItem<T> = DataItem(data: T, timestamp: int)

  /** The items `addMany` appends: every value of `xs`, in order, all stamped with the one instant `now`. */
  function Stamped<T>(xs: seq<T>, now: int): (r: seq<DataItem<T>>)
    ensures |r| == |xs|
    ensures forall i :: 0 <= i < |xs| ==> r[i].data == xs[i] && r[i].timestamp == now
  {
    if xs == [] then [] else [DataItem(xs[0], now)] + Stamped(xs[1..], now)
  }

  /**
   * The bounds `consumeTimeChunk` searches with. A start of 0 means "from the
   * beginning" and stays 0; an end of 0 (JavaScript `endTime || Date.now()`)
   * becomes `now`; reversed bounds are swapped.
   */
  function EffectiveBounds(startTime: int, endTime: int, now: int): (b: (int, int))
    ensures b.0 <= b.1
    ensures var end := if endTime == 0 then now else endTime;
      (b.0 == startTime && b.1 == end) || (b.0 == end && b.1 == startTime)
  {
    var end := if endTime == 0 then now else endTime;
    if startTime > end then (end, startTime) else (startTime, end)
  }

  /** The first position at or after `from` whose timestamp is at least `lo`, or |items| when there is none. */
  function FirstStampAtLeast<T>(items: seq<DataItem<T>>, lo: int, from: nat): (k: nat)
    requires from <= |items|
    ensures from <= k <= |items|
    ensures forall i :: from <= i < k ==> items[i].timestamp < lo
    ensures k < |items| ==> items[k].timestamp >= lo
    decreases |items| - from
  {
    if from == |items| then from
    else if items[from].timestamp >= lo then from
    else FirstStampAtLeast(items, lo, from + 1)
  }

  /** The first position at or after `from` whose timestamp is beyond `hi`, or |items| when there is none. */
  function FirstStampAbove<T>(items: seq<DataItem<T>>, hi: int, from: nat): (k: nat)
    requires from <= |items|
    ensures from <= k <= |items|
    ensures forall i :: from <= i < k ==> items[i].timestamp <= hi
    ensures k < |items| ==> items[k].timestamp > hi
    decreases |items| - from
  {
    if from == |items| then from
    else if items[from].timestamp > hi then from
    else FirstStampAbove(items, hi, from + 1)
  }

  /**
   * The (startIndex, endIndex) pair the search in `consumeTimeChunk` ends with,
   * for ordered bounds lo <= hi. Bounds (0, 0) select everything. Otherwise
   * startIndex is the first item stamped at or after lo (-1 when none is), and
   * endIndex is one PAST the first later item stamped after hi, so that item is
   * consumed too; with no such item it is |items|.
   */
  function ChunkIndices<T>(items: seq<DataItem<T>>, lo: int, hi: int): (r: (int, int))
    ensures -1 <= r.0 <= r.1 <= |items|
  {
    if lo == 0 && hi == 0 then (0, |items|)
    else
      var s := FirstStampAtLeast(items, lo, 0);
      if s == |items| then (-1 as int, |items| as int)
      else
        var e := FirstStampAbove(items, hi, s + 1);
        (s as int, if e == |items| then |items| else e + 1)
  }

  /**
   * What the two indices mean: where the first item in range is, that
   * everything between it and the end index is within the end bound, and
   * that the end index is one past the first later item beyond the end bound,
   * or the length when there is none.
   */
  lemma ChunkIndicesMeaning<T>(items: seq<DataItem<T>>, lo: int, hi: int)
    requires lo <= hi
    ensures var r := ChunkIndices(items, lo, hi);
      && -1 <= r.0 && r.1 <= |items|
      && (r.0 == -1 ==> r.1 == |items|)
      && (0 <= r.0 ==> r.0 <= r.1)
      && (lo == 0 && hi == 0 ==> r == (0, |items|))
      && (!(lo == 0 && hi == 0) ==>
            (r.0 == -1 <==> forall i :: 0 <= i < |items| ==> items[i].timestamp < lo))
      && (!(lo == 0 && hi == 0) && r.0 >= 0 ==>
            && r.0 < r.1
            && items[r.0].timestamp >= lo
            && (forall i :: 0 <= i < r.0 ==> items[i].timestamp < lo)
            && (forall i :: r.0 < i < r.1 - 1 ==> items[i].timestamp <= hi)
            && ((forall i :: r.0 < i < |items| ==> items[i].timestamp <= hi) ==> r.1 == |items|)
            && ((exists i :: r.0 < i < |items| && items[i].timestamp > hi) ==>
                  r.0 < r.1 - 1 && items[r.1 - 1].timestamp > hi))
  {
    if !(lo == 0 && hi == 0) {
      var s := FirstStampAtLeast(items, lo, 0);
      if s < |items| {
        var e := FirstStampAbove(items, hi, s + 1);
      }
    }
  }

  /** Where, in the items left behind, the chunk `Consume` takes out used to start. */
  function ChunkPosition<T>(items: seq<DataItem<T>>, startTime: int, endTime: int, now: int): nat
  {
    var b := EffectiveBounds(startTime, endTime, now);
    SpliceStart(|items|, ChunkIndices(items, b.0, b.1).0)
  }

  /** The splice `consumeTimeChunk` ends with, for ordered bounds. */
  function ConsumeBetween<T>(items: seq<DataItem<T>>, lo: int, hi: int): (seq<DataItem<T>>, seq<DataItem<T>>)
  {
    var ix := ChunkIndices(items, lo, hi);
    Splice(items, ix.0, ix.1 - ix.0)
  }

  /**
   * What `consumeTimeChunk(startTime, endTime)` at time `now` does to a channel
   * holding `items`: the pair (chunk returned, items left).
   */
  function Consume<T>(items: seq<DataItem<T>>, startTime: int, endTime: int, now: int): (r: (seq<DataItem<T>>, seq<DataItem<T>>))
    ensures |r.0| + |r.1| == |items|
  {
    var b := EffectiveBounds(startTime, endTime, now);
    ConsumeBetween(items, b.0, b.1)
  }

  /**
   * Consuming loses nothing and duplicates nothing: the chunk is one contiguous
   * run of the items, and putting it back where it was taken from gives the
   * items again.
   */
  lemma ConsumeRestores<T>(items: seq<DataItem<T>>, startTime: int, endTime: int, now: int)
    ensures var r := Consume(items, startTime, endTime, now);
      var k := ChunkPosition(items, startTime, endTime, now);
      k <= |r.1| && items == r.1[..k] + r.0 + r.1[k..]
  {
    var b := EffectiveBounds(startTime, endTime, now);
    var ix := ChunkIndices(items, b.0, b.1);
    var r := Splice(items, ix.0, ix.1 - ix.0);
    assert Consume(items, startTime, endTime, now) == r;
  }

  /**
   * The index search of `consumeTimeChunk` (the special case and the loop that
   * looks for the first item at or after the start and the first item after
   * the end, then the fallback to the end of the data).
   */
  method LocateChunk<T>(items: seq<DataItem<T>>, lo: int, hi: int) returns (startIndex: int, endIndex: int)
    requires lo <= hi
    ensures (startIndex, endIndex) == ChunkIndices(items, lo, hi)
  {
    startIndex, endIndex := -1, -1;
    if lo == 0 && hi == 0 {
      startIndex, endIndex := 0, |items|;
    } else {
      var i := 0;
      while i < |items|
        invariant 0 <= i <= |items|
        invariant endIndex == -1
        invariant startIndex == -1 ==> forall j :: 0 <= j < i ==> items[j].timestamp < lo
        invariant startIndex != -1 ==>
          && 0 <= startIndex < i
          && items[startIndex].timestamp >= lo
          && (forall j :: 0 <= j < startIndex ==> items[j].timestamp < lo)
          && (forall j :: startIndex < j < i ==> items[j].timestamp <= hi)
      {
        if startIndex < 0 && items[i].timestamp >= lo {
          startIndex := i;
        } else if endIndex < 0 && items[i].timestamp > hi {
          endIndex := i + 1;
          break;
        }
        i := i + 1;
      }
    }
    if endIndex < 0 {
      endIndex := |items|;
    }
  }

  /** A named channel whose items are changed in place, as `DataChannel._data` is. */
  class DataChannel<T> {
    const name: string
    var data: seq<DataItem<T>>

    constructor (name: string)
      ensures this.name == name && data == []
    {
      this.name := name;
      data := [];
    }

    /** Returns the items between the bounds and removes them from the channel. */
    method ConsumeTimeChunk(startTime: int, endTime: int, now: int) returns (chunk: seq<DataItem<T>>)
      modifies this
      ensures (chunk, data) == Consume(old(data), startTime, endTime, now)
    {
      var b := EffectiveBounds(startTime, endTime, now);
      var startIndex, endIndex := LocateChunk(data, b.0, b.1);
      var r := Splice(data, startIndex, endIndex - startIndex);
      chunk, data := r.0, r.1;
    }

    /** Appends one item: a copy of `x`, stamped `now`. */
    method Add(x: T, now: int)
      modifies this
      ensures data == old(data) + [DataItem(x, now)]
    {
      data := data + [DataItem(x, now)];
    }

    /** Appends every value of `xs`, in order, under one shared timestamp. */
    method AddMany(xs: seq<T>, now: int)
      modifies this
      ensures data == old(data) + Stamped(xs, now)
    {
      data := data + Stamped(xs, now);
    }

    /** Drops every item. */
    method Clear()
      modifies this
      ensures data == []
    {
      data := Splice(data, 0, |data|).1;
    }
  }

  /** An empty channel gives an empty chunk and stays empty. */
  lemma ConsumeNothing<T>(startTime: int, endTime: int, now: int)
    ensures Consume<T>([], startTime, endTime, now) == ([], [])
  {
  }

  /** With both bounds given (nonzero), their order does not matter. */
  lemma SwappedBoundsAgree<T>(items: seq<DataItem<T>>, a: int, b: int, now: int)
    requires a != 0 && b != 0
    ensures Consume(items, a, b, now) == Consume(items, b, a, now)
  {
    var eb := EffectiveBounds(a, b, now);
    assert eb == EffectiveBounds(b, a, now);
    assert Consume(items, a, b, now) == ConsumeBetween(items, eb.0, eb.1);
    assert Consume(items, b, a, now) == ConsumeBetween(items, eb.0, eb.1);
  }

  /**
   * The call the distributor makes, `consumeTimeChunk(0, now)`, drains a channel
   * whose timestamps all lie between 0 and `now`: every item comes back, in order,
   * and the channel is left empty.
   */
  lemma ConsumeUpToNowDrains<T>(items: seq<DataItem<T>>, now: int)
    requires forall i :: 0 <= i < |items| ==> 0 <= items[i].timestamp <= now
    ensures Consume(items, 0, now, now) == (items, [])
  {
    if items == [] {
      ConsumeNothing<T>(0, now, now);
    } else {
      assert 0 <= items[0].timestamp <= now;
      assert EffectiveBounds(0, now, now) == (0, now);
      if now != 0 {
        assert FirstStampAtLeast(items, 0, 0) == 0;
        assert FirstStampAbove(items, now, 1) == |items|;
      }
      assert ChunkIndices(items, 0, now) == (0, |items|);
      assert Consume(items, 0, now, now) == Splice(items, 0, |items|);
      SpliceWithin(items, 0, |items|);
      assert items[0..|items|] == items;
      assert items[..0] + items[|items|..] == [];
    }
  }

  /**
   * When no item is stamped at or after the start, the search leaves startIndex
   * at -1 and `splice(-1, …)` takes the LAST item of a nonempty channel.
   */
  lemma UnmatchedStartTakesLast<T>(items: seq<DataItem<T>>, startTime: int, endTime: int, now: int)
    requires |items| > 0
    requires EffectiveBounds(startTime, endTime, now) != (0, 0)
    requires forall i :: 0 <= i < |items| ==>
      items[i].timestamp < EffectiveBounds(startTime, endTime, now).0
    ensures Consume(items, startTime, endTime, now) == ([items[|items| - 1]], items[..|items| - 1])
  {
    var b := EffectiveBounds(startTime, endTime, now);
    var n := |items|;
    assert FirstStampAtLeast(items, b.0, 0) == n;
    assert ChunkIndices(items, b.0, b.1) == (-1, n);
    assert Consume(items, startTime, endTime, now) == Splice(items, -1, n + 1);
    SpliceWithin(items, n - 1, 1);
    assert items[n - 1..n] == [items[n - 1]];
    assert items[..n - 1] + items[n..] == items[..n - 1];
  }

  /**
   * When some item after the first one in range is stamped beyond the end, the
   * chunk overruns: its last item is stamped after the end bound.
   */
  lemma ChunkOverrunsEnd<T>(items: seq<DataItem<T>>, startTime: int, endTime: int, now: int, i: nat, j: nat)
    requires EffectiveBounds(startTime, endTime, now) != (0, 0)
    requires i < j < |items|
    requires items[i].timestamp >= EffectiveBounds(startTime, endTime, now).0
    requires items[j].timestamp > EffectiveBounds(startTime, endTime, now).1
    ensures var chunk := Consume(items, startTime, endTime, now).0;
      |chunk| > 0 && chunk[|chunk| - 1].timestamp > EffectiveBounds(startTime, endTime, now).1
  {
    var b := EffectiveBounds(startTime, endTime, now);
    var s, e := OverrunIndices(items, b.0, b.1, i, j);
    assert Consume(items, startTime, endTime, now) == Splice(items, s, e + 1 - s);
    SpliceWithin(items, s, e + 1 - s);
    var chunk := items[s..e + 1];
    assert chunk[|chunk| - 1] == items[e];
  }

  /** The indices in the situation of `ChunkOverrunsEnd`: the chunk runs up to and including an item stamped after `hi`. */
  lemma OverrunIndices<T>(items: seq<DataItem<T>>, lo: int, hi: int, i: nat, j: nat) returns (s: nat, e: nat)
    requires lo <= hi && (lo, hi) != (0, 0)
    requires i < j < |items| && items[i].timestamp >= lo && items[j].timestamp > hi
    ensures s < e < |items| && items[e].timestamp > hi
    ensures ChunkIndices(items, lo, hi) == (s, e + 1)
  {
    s := FirstStampAtLeast(items, lo, 0);
    assert s <= i;
    e := FirstStampAbove(items, hi, s + 1);
    assert e <= j;
  }
}
