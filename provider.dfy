/**
 * The publish/subscribe distributor (`DataProvider` of
 * src/store/pubsub/DataProvider.ts). It keeps a map from channel name to
 * channel, the publisher registrations and the subscriber registrations, in
 * registration order, and a "ready" flag. Publishing appends to the channel
 * and then drains the whole channel to every subscriber.
 *
 * Subscriber callbacks are not called: `Publish` returns the list of
 * deliveries it would make, one per callback invocation, in order.
 * Handles returned by the registrations are the (id, channel) key that
 * their closures capture.
 */
module Provider {
  import opened Wrappers
  import opened JsArray
  import opened Channel

  /** The channel used when none (or the empty string) is given. */
  const DefaultChannel: string := "__default__"

  /** JavaScript `channel || '__default__'`. */
  function ChannelName(channel: string): (n: string)
    ensures n != ""
    ensures channel != "" ==> n == channel
  {
    if channel == "" then DefaultChannel else channel
  }

  datatype UpdateType = Stream | Digest

  /** A registration's identity: unique per (id, channel). */
  datatype Key = Key(id: string, channel: string)

  datatype Subscriber = Subscriber(key: Key, updateType: Option<UpdateType>)

  datatype Publisher = Publisher(key: Key, lastPublishedTime: int)

  /** The argument of `publish`: one value (`add`) or an array of values (`addMany`). */
  datatype Payload<T> = One(item: T) | Many(items: seq<T>)

  /** One call `subscriber.onDataChanged(chunk, channel, provider)`. */
  datatype Delivery<T> = Delivery(subscriber: Key, chunk: seq<DataItem<T>>, channel: string)

  /** What `registerSubscriber` and `registerPublisher` throw. */
  datatype RegistrationError = DuplicateRegistration(key: Key)

  function SubscriberKeys(subs: seq<Subscriber>): (ks: seq<Key>)
    ensures |ks| == |subs|
    ensures forall i :: 0 <= i < |subs| ==> ks[i] == subs[i].key
  {
    if subs == [] then [] else [subs[0].key] + SubscriberKeys(subs[1..])
  }

  function PublisherKeys(pubs: seq<Publisher>): (ks: seq<Key>)
    ensures |ks| == |pubs|
    ensures forall i :: 0 <= i < |pubs| ==> ks[i] == pubs[i].key
  {
    if pubs == [] then [] else [pubs[0].key] + PublisherKeys(pubs[1..])
  }

  ghost predicate Unique<X>(s: seq<X>)
  {
    forall i, j :: 0 <= i < j < |s| ==> s[i] != s[j]
  }

  lemma UniqueWithout<X>(s: seq<X>, k: nat)
    requires Unique(s) && k < |s|
    ensures Unique(s[..k] + s[k + 1..])
  {
    var t := s[..k] + s[k + 1..];
    forall i, j | 0 <= i < j < |t|
      ensures t[i] != t[j]
    {
      var i' := if i < k then i else i + 1;
      var j' := if j < k then j else j + 1;
      assert t[i] == s[i'] && t[j] == s[j'];
    }
  }

  lemma MembersWithout<X>(s: seq<X>, k: nat)
    requires k < |s|
    ensures forall x :: x in s[..k] + s[k + 1..] ==> x in s
  {
    forall x | x in s[..k] + s[k + 1..]
      ensures x in s
    {
      if x in s[..k] {
        var i :| 0 <= i < k && s[..k][i] == x;
        assert s[i] == x;
      } else {
        var i :| 0 <= i < |s[k + 1..]| && s[k + 1..][i] == x;
        assert s[k + 1 + i] == x;
      }
    }
  }

  lemma SubscriberKeysWithout(subs: seq<Subscriber>, k: nat)
    requires k < |subs|
    ensures SubscriberKeys(subs[..k] + subs[k + 1..]) == SubscriberKeys(subs)[..k] + SubscriberKeys(subs)[k + 1..]
  {
    var rest := subs[..k] + subs[k + 1..];
    var ks := SubscriberKeys(subs);
    var lhs := SubscriberKeys(rest);
    var rhs := ks[..k] + ks[k + 1..];
    assert |lhs| == |rhs|;
    forall i | 0 <= i < |lhs|
      ensures lhs[i] == rhs[i]
    {
      if i < k {
        assert rest[i] == subs[i] && rhs[i] == ks[i];
      } else {
        assert rest[i] == subs[i + 1] && rhs[i] == ks[i + 1];
      }
    }
  }

  lemma PublisherKeysWithout(pubs: seq<Publisher>, k: nat)
    requires k < |pubs|
    ensures PublisherKeys(pubs[..k] + pubs[k + 1..]) == PublisherKeys(pubs)[..k] + PublisherKeys(pubs)[k + 1..]
  {
    var rest := pubs[..k] + pubs[k + 1..];
    var ks := PublisherKeys(pubs);
    var lhs := PublisherKeys(rest);
    var rhs := ks[..k] + ks[k + 1..];
    assert |lhs| == |rhs|;
    forall i | 0 <= i < |lhs|
      ensures lhs[i] == rhs[i]
    {
      if i < k {
        assert rest[i] == pubs[i] && rhs[i] == ks[i];
      } else {
        assert rest[i] == pubs[i + 1] && rhs[i] == ks[i + 1];
      }
    }
  }

  /** The `find` of the guard of `publish`: the first publisher with a truthy id and a truthy channel, or -1. */
  function FirstActive(pubs: seq<Publisher>): (k: int)
    ensures -1 <= k < |pubs|
    ensures k == -1 <==> forall i :: 0 <= i < |pubs| ==> pubs[i].key.id == "" || pubs[i].key.channel == ""
    ensures 0 <= k ==> pubs[k].key.id != "" && pubs[k].key.channel != ""
  {
    if pubs == [] then -1
    else if pubs[0].key.id != "" && pubs[0].key.channel != "" then 0
    else
      var k := FirstActive(pubs[1..]);
      if k < 0 then -1 else k + 1
  }

  /**
   * The guard of `publish`: SOME registered publisher has a truthy id and a
   * truthy channel, not necessarily the one publishing.
   */
  predicate PublishGuard(pubs: seq<Publisher>): (b: bool)
    ensures b <==> exists p :: p in pubs && p.key.id != "" && p.key.channel != ""
  {
    var k := FirstActive(pubs);
    assert k >= 0 ==> pubs[k] in pubs;
    k >= 0
  }

  /** The items one `publish` call appends: one item, or one per array element, all stamped `now`. */
  function Appended<T>(payload: Payload<T>, now: int): (r: seq<DataItem<T>>)
    ensures forall i :: 0 <= i < |r| ==> r[i].timestamp == now
    ensures payload.One? ==> r == [DataItem(payload.item, now)]
    ensures payload.Many? ==>
      && |r| == |payload.items|
      && forall i :: 0 <= i < |r| ==> r[i].data == payload.items[i]
  {
    match payload
    case One(x) => [DataItem(x, now)]
    case Many(xs) => Stamped(xs, now)
  }

  /** The fan-out loop of `onPublish`: every subscriber, in registration order, gets the same chunk and channel. */
  method FanOut<T>(subs: seq<Subscriber>, chunk: seq<DataItem<T>>, channel: string) returns (ds: seq<Delivery<T>>)
    ensures |ds| == |subs|
    ensures forall i :: 0 <= i < |subs| ==> ds[i] == Delivery(subs[i].key, chunk, channel)
  {
    ds := [];
    for i := 0 to |subs|
      invariant |ds| == i
      invariant forall k :: 0 <= k < i ==> ds[k] == Delivery(subs[k].key, chunk, channel)
    {
      // both update types ('stream' and 'digest') make the same call
      ds := ds + [Delivery(subs[i].key, chunk, channel)];
    }
  }

  /**
   * A publish call appends to channel data `before` and then drains the channel
   * with `consumeTimeChunk(0, now)`. When every earlier timestamp lies between 0
   * and `now`, the chunk handed out is everything: the earlier items and the new
   * ones, in order, and the channel is left empty.
   */
  lemma PublishedChunkIsEverything<T>(before: seq<DataItem<T>>, payload: Payload<T>, now: int)
    requires 0 <= now
    requires forall i :: 0 <= i < |before| ==> 0 <= before[i].timestamp <= now
    ensures var added := before + Appended(payload, now);
      Consume(added, 0, now, now) == (added, [])
  {
    var added := before + Appended(payload, now);
    forall i | 0 <= i < |added|
      ensures 0 <= added[i].timestamp <= now
    {
      if i >= |before| {
        assert added[i] == Appended(payload, now)[i - |before|];
      }
    }
    ConsumeUpToNowDrains(added, now);
  }

  /**
   * The registry's invariant, on its values: each channel is stored under its
   * own name, which is never empty (so distinct names hold distinct channels);
   * every publisher's channel exists; registration keys are unique.
   */
  ghost predicate Wellformed<T>(channels: map<string, DataChannel<T>>, subs: seq<Subscriber>, pubs: seq<Publisher>)
  {
    && "" !in channels
    && (forall n :: n in channels ==> channels[n].name == n)
    && (forall p :: p in pubs ==> p.key.channel in channels)
    && Unique(SubscriberKeys(subs))
    && Unique(PublisherKeys(pubs))
  }

  /** Distinct names hold distinct channels. */
  lemma ChannelsDistinct<T>(channels: map<string, DataChannel<T>>, subs: seq<Subscriber>, pubs: seq<Publisher>, m: string, n: string)
    requires Wellformed(channels, subs, pubs) && m in channels && n in channels && m != n
    ensures channels[m] != channels[n]
  {
    assert channels[m].name == m && channels[n].name == n;
  }

  /**
   * Under the registry invariant every publisher's channel is a stored, hence
   * non-empty, name, so the guard of `publish` holds as soon as ANY registered
   * publisher has a non-empty id, whichever handle is publishing.
   */
  lemma GuardOfAnyPublisher<T>(channels: map<string, DataChannel<T>>, subs: seq<Subscriber>, pubs: seq<Publisher>, i: nat)
    requires Wellformed(channels, subs, pubs) && i < |pubs| && pubs[i].key.id != ""
    ensures PublishGuard(pubs)
  {
    assert pubs[i] in pubs;
    assert pubs[i].key.channel in channels;
  }

  lemma UniqueSnoc<X>(s: seq<X>, x: X)
    requires Unique(s) && x !in s
    ensures Unique(s + [x])
  {
    var t := s + [x];
    forall i, j | 0 <= i < j < |t|
      ensures t[i] != t[j]
    {
      if j == |s| {
        assert t[i] == s[i];
      } else {
        assert t[i] == s[i] && t[j] == s[j];
      }
    }
  }

  lemma WithSubscriber<T>(channels: map<string, DataChannel<T>>, subs: seq<Subscriber>, pubs: seq<Publisher>, sub: Subscriber)
    requires Wellformed(channels, subs, pubs) && sub.key !in SubscriberKeys(subs)
    ensures SubscriberKeys(subs + [sub]) == SubscriberKeys(subs) + [sub.key]
    ensures Wellformed(channels, subs + [sub], pubs)
  {
    assert SubscriberKeys(subs + [sub]) == SubscriberKeys(subs) + [sub.key];
    UniqueSnoc(SubscriberKeys(subs), sub.key);
  }

  lemma WithoutSubscriber<T>(channels: map<string, DataChannel<T>>, subs: seq<Subscriber>, pubs: seq<Publisher>, k: nat)
    requires Wellformed(channels, subs, pubs) && k < |subs|
    ensures Wellformed(channels, subs[..k] + subs[k + 1..], pubs)
  {
    SubscriberKeysWithout(subs, k);
    UniqueWithout(SubscriberKeys(subs), k);
  }

  lemma WithPublisher<T>(channels: map<string, DataChannel<T>>, subs: seq<Subscriber>, pubs: seq<Publisher>, pub: Publisher)
    requires Wellformed(channels, subs, pubs) && pub.key !in PublisherKeys(pubs) && pub.key.channel in channels
    ensures Wellformed(channels, subs, pubs + [pub])
  {
    assert PublisherKeys(pubs + [pub]) == PublisherKeys(pubs) + [pub.key];
    UniqueSnoc(PublisherKeys(pubs), pub.key);
  }

  lemma WithoutPublisher<T>(channels: map<string, DataChannel<T>>, subs: seq<Subscriber>, pubs: seq<Publisher>, k: nat)
    requires Wellformed(channels, subs, pubs) && k < |pubs|
    ensures Wellformed(channels, subs, pubs[..k] + pubs[k + 1..])
  {
    PublisherKeysWithout(pubs, k);
    UniqueWithout(PublisherKeys(pubs), k);
    MembersWithout(pubs, k);
  }

  lemma WithChannel<T>(channels: map<string, DataChannel<T>>, subs: seq<Subscriber>, pubs: seq<Publisher>, c: DataChannel<T>)
    requires Wellformed(channels, subs, pubs) && c.name != ""
    ensures Wellformed(channels[c.name := c], subs, pubs)
  {
  }

  class DataProvider<T> {
    var channels: map<string, DataChannel<T>>
    var subscribers: seq<Subscriber>
    var publishers: seq<Publisher>
    var isReady: bool

    ghost predicate Valid()
      reads this
    {
      Wellformed(channels, subscribers, publishers)
    }

    /** The data of every channel, by name. */
    ghost function Contents(): map<string, seq<DataItem<T>>>
      reads this, channels.Values
    {
      map n | n in channels :: channels[n].data
    }

    constructor ()
      ensures Valid()
      ensures channels == map[] && subscribers == [] && publishers == [] && isReady
    {
      channels := map[];
      subscribers := [];
      publishers := [];
      isReady := true;
    }

    /** The `ready()` of a publisher handle: no publish is in progress. */
    function Ready(): bool
      reads this
    {
      isReady
    }

    /** True when the channel exists and holds at least one item. */
    function IsDataAvailable(channel: string): (b: bool)
      reads this, channels.Values
      ensures b <==> ChannelName(channel) in Contents() && Contents()[ChannelName(channel)] != []
    {
      var ch := ChannelName(channel);
      ch in channels && |channels[ch].data| > 0
    }

    /**
     * Registers a subscriber for (id, channel). A duplicate registration fails
     * and changes nothing; otherwise one record is appended. The channel is not
     * created.
     */
    method RegisterSubscriber(id: string, channel: string, updateType: Option<UpdateType>)
      returns (r: Result<Key, RegistrationError>)
      requires Valid()
      modifies this
      ensures Valid()
      ensures var key := Key(id, ChannelName(channel));
        if key in old(SubscriberKeys(subscribers)) then
          r == Failure(DuplicateRegistration(key)) && subscribers == old(subscribers)
        else
          r == Success(key) && subscribers == old(subscribers) + [Subscriber(key, updateType)]
      ensures channels == old(channels) && publishers == old(publishers) && isReady == old(isReady)
    {
      var key := Key(id, ChannelName(channel));
      if IndexOf(SubscriberKeys(subscribers), key) >= 0 {
        return Failure(DuplicateRegistration(key));
      }
      WithSubscriber(channels, subscribers, publishers, Subscriber(key, updateType));
      subscribers := subscribers + [Subscriber(key, updateType)];
      r := Success(key);
    }

    /**
     * The `unsubscribe` of a subscriber handle: when the channel exists, removes
     * the first record with the handle's key, keeping the others in order.
     * When the channel was never created, nothing happens.
     */
    method Unsubscribe(handle: Key)
      requires Valid()
      modifies this
      ensures Valid()
      ensures var key := Key(handle.id, ChannelName(handle.channel));
        var k := IndexOf(old(SubscriberKeys(subscribers)), key);
        subscribers == if key.channel in channels && 0 <= k then old(subscribers)[..k] + old(subscribers)[k + 1..]
                       else old(subscribers)
      ensures channels == old(channels) && publishers == old(publishers) && isReady == old(isReady)
    {
      var ch := ChannelName(handle.channel);
      if ch in channels {
        var index := IndexOf(SubscriberKeys(subscribers), Key(handle.id, ch));
        if index >= 0 {
          SpliceOne(subscribers, index);
          WithoutSubscriber(channels, subscribers, publishers, index);
          subscribers := Splice(subscribers, index, 1).1;
        }
      }
    }

    /** Creates an empty channel under `name` unless one exists. */
    method CreateChannel(name: string)
      requires Valid() && name != ""
      modifies this
      ensures Valid()
      ensures name in channels
      ensures name in old(channels) ==> channels == old(channels)
      ensures name !in old(channels) ==>
        && fresh(channels[name])
        && channels == old(channels)[name := channels[name]]
        && Contents() == old(Contents())[name := []]
      ensures subscribers == old(subscribers) && publishers == old(publishers) && isReady == old(isReady)
    {
      if name in channels {
        return;
      }
      var c := new DataChannel<T>(name);
      WithChannel(channels, subscribers, publishers, c);
      channels := channels[name := c];
      forall n | n in old(channels) && n != name
        ensures channels[n].data == old(channels[n].data)
      {
        assert channels[n] == old(channels[n]);
      }
      assert Contents() == old(Contents())[name := []];
    }

    /**
     * Registers a publisher for (id, channel). A duplicate registration fails and
     * changes nothing; otherwise the channel is created if absent and one record,
     * never yet published, is appended.
     */
    method RegisterPublisher(id: string, channel: string) returns (r: Result<Key, RegistrationError>)
      requires Valid()
      modifies this
      ensures Valid()
      ensures var key := Key(id, ChannelName(channel));
        if key in old(PublisherKeys(publishers)) then
          && r == Failure(DuplicateRegistration(key))
          && publishers == old(publishers)
          && channels == old(channels)
        else
          && r == Success(key)
          && publishers == old(publishers) + [Publisher(key, 0)]
          && key.channel in channels
          && (key.channel in old(channels) ==> channels == old(channels))
          && (key.channel !in old(channels) ==>
                && fresh(channels[key.channel])
                && channels == old(channels)[key.channel := channels[key.channel]]
                && Contents() == old(Contents())[key.channel := []])
      ensures subscribers == old(subscribers) && isReady == old(isReady)
    {
      var key := Key(id, ChannelName(channel));
      if IndexOf(PublisherKeys(publishers), key) >= 0 {
        return Failure(DuplicateRegistration(key));
      }
      CreateChannel(key.channel);
      WithPublisher(channels, subscribers, publishers, Publisher(key, 0));
      publishers := publishers + [Publisher(key, 0)];
      r := Success(key);
    }

    /** The `unpublish` of a publisher handle: removes the first record with the handle's key, keeping the others in order. */
    method Unpublish(handle: Key)
      requires Valid()
      modifies this
      ensures Valid()
      ensures var k := IndexOf(old(PublisherKeys(publishers)), handle);
        publishers == if 0 <= k then old(publishers)[..k] + old(publishers)[k + 1..] else old(publishers)
      ensures channels == old(channels) && subscribers == old(subscribers) && isReady == old(isReady)
    {
      var index := IndexOf(PublisherKeys(publishers), handle);
      if index >= 0 {
        SpliceOne(publishers, index);
        WithoutPublisher(channels, subscribers, publishers, index);
        publishers := Splice(publishers, index, 1).1;
      }
    }

    /**
     * Called after data was added to a channel: when the channel holds data, it
     * is drained with `consumeTimeChunk(0, now)` and the chunk goes to every
     * subscriber, whatever channel the subscriber registered for.
     */
    method OnPublish(channel: string, now: int) returns (deliveries: seq<Delivery<T>>)
      modifies if ChannelName(channel) in channels then {channels[ChannelName(channel)]} else {}
      ensures var ch := ChannelName(channel);
        if ch in channels && old(channels[ch].data) != [] then
          var r := Consume(old(channels[ch].data), 0, now, now);
          && channels[ch].data == r.1
          && |deliveries| == |subscribers|
          && forall i :: 0 <= i < |subscribers| ==> deliveries[i] == Delivery(subscribers[i].key, r.0, ch)
        else
          && deliveries == []
          && (ch in channels ==> channels[ch].data == old(channels[ch].data))
    {
      var ch := ChannelName(channel);
      deliveries := [];
      if IsDataAvailable(channel) {
        var dataChannel := channels[ch];
        var chunk := dataChannel.ConsumeTimeChunk(0, now, now);
        deliveries := FanOut(subscribers, chunk, ch);
      }
    }

    /**
     * The body of a guarded `publish`: the payload is appended to the channel
     * (`add` for one value, `addMany` for an array) and the channel is drained
     * to the subscribers.
     */
    method AddAndDeliver(ch: string, payload: Payload<T>, now: int) returns (deliveries: seq<Delivery<T>>)
      requires Valid() && ch in channels
      modifies channels[ch]
      ensures channels[ch].data == Consume(old(channels[ch].data) + Appended(payload, now), 0, now, now).1
      ensures |deliveries| == (if old(channels[ch].data) + Appended(payload, now) == [] then 0 else |subscribers|)
      ensures forall i :: 0 <= i < |deliveries| ==>
        deliveries[i] == Delivery(subscribers[i].key, Consume(old(channels[ch].data) + Appended(payload, now), 0, now, now).0, ch)
    {
      var dataChannel := channels[ch];
      ghost var added := dataChannel.data + Appended(payload, now);
      assert ChannelName(ch) == ch;
      if payload.Many? {
        dataChannel.AddMany(payload.items, now);
      } else {
        dataChannel.Add(payload.item, now);
      }
      assert dataChannel.data == added;
      ghost var subs := subscribers;
      deliveries := OnPublish(ch, now);
      assert subscribers == subs;
      if added == [] {
        ConsumeNothing<T>(0, now, now);
      }
    }

    /**
     * The `publish` of a publisher handle. The ready flag is lowered; when the
     * guard holds, the data is appended to the handle's channel, the channel is
     * drained to every subscriber and the flag is raised again. When the guard
     * fails, nothing is added and the flag stays lowered. No other channel changes.
     */
    method Publish(handle: Key, payload: Payload<T>, now: int) returns (deliveries: seq<Delivery<T>>)
      requires Valid() && handle.channel in channels
      modifies this, channels[handle.channel]
      ensures Valid()
      ensures channels == old(channels) && subscribers == old(subscribers) && publishers == old(publishers)
      ensures forall n :: n in channels && n != handle.channel ==> channels[n].data == old(channels[n].data)
      ensures var ch := handle.channel;
        var added := old(channels[ch].data) + Appended(payload, now);
        var r := Consume(added, 0, now, now);
        if PublishGuard(old(publishers)) then
          && isReady
          && channels[ch].data == r.1
          && |deliveries| == (if added == [] then 0 else |subscribers|)
          && forall i :: 0 <= i < |deliveries| ==> deliveries[i] == Delivery(subscribers[i].key, r.0, ch)
        else
          !isReady && channels[ch].data == old(channels[ch].data) && deliveries == []
    {
      forall n | n in channels && n != handle.channel
        ensures channels[n] != channels[handle.channel]
      {
        ChannelsDistinct(channels, subscribers, publishers, n, handle.channel);
      }
      var active := PublishGuard(publishers);
      isReady := false;
      deliveries := [];
      if active {
        deliveries := AddAndDeliver(handle.channel, payload, now);
        isReady := true;
      }
    }
  }
}
