/**
 * The view-synchronisation dispatcher (`MapViewEventDispatcher` of
 * src/components/Map/MapViewEventDispatcher.ts).
 *
 * Views are opaque identities; the viewpoints of all views are a map from view
 * to value, where a missing entry is an unset (falsy) viewpoint. A subscriber
 * record is an object the source mutates and shares between the list, the
 * active-listener field and the closures it hands to the views; here every
 * record ever created lives in the table `records`, under the number it was
 * allocated with, and the list, the active listener and the queue of deferred
 * callbacks hold those numbers. A watch handle is a boolean: whether the
 * record holds one. The zero-delay `setTimeout` of `setListener` is the queue
 * `pending`, and a timer tick is `FireDeferred`. A watch callback is a call of
 * the matching handler method with the record's number.
 */
module ViewDispatcher {
  import opened Wrappers
  import opened JsArray

  /** The identity of a view (`Object.is`). */
  type ViewId = nat

  /** The allocation number of a subscriber record. */
  type RecordId = nat

  /**
   * `IMapViewEventSubscriber`: the view, and which watch handles and schedule
   * id the record holds. A watch flag means the field holds a LIVE handle: once
   * a handle is removed its flag is false, although the source's field still
   * holds the removed handle object (MapViewEventDispatcher.ts:43-45).
   */
  datatype Record = Record(
    target: ViewId,
    interactWatch: bool,
    propertyWatch: bool,
    stationaryWatch: bool,
    scheduled: bool)

  /** The record after `removePropertyWatchers`: no property and no stationary handle, the rest as before. */
  function WithoutPropertyWatches(r: Record): (r': Record)
    ensures !r'.propertyWatch && !r'.stationaryWatch
    ensures r'.target == r.target && r'.interactWatch == r.interactWatch && r'.scheduled == r.scheduled
  {
    r.(propertyWatch := false, stationaryWatch := false)
  }

  /** Dropping the property watches twice is the same as dropping them once. */
  lemma WithoutPropertyWatchesIdempotent(r: Record)
    ensures WithoutPropertyWatches(WithoutPropertyWatches(r)) == WithoutPropertyWatches(r)
  {
  }

  /** The viewpoint of `view`, or None when it is unset. */
  function ViewpointOf<VP>(vps: map<ViewId, VP>, view: ViewId): Option<VP>
  {
    if view in vps then Some(vps[view]) else None
  }

  /** The view map after `view.viewpoint = value` (an unset value unsets it). */
  function Assign<VP>(vps: map<ViewId, VP>, view: ViewId, value: Option<VP>): (out: map<ViewId, VP>)
    ensures ViewpointOf(out, view) == value
    ensures forall t :: t != view ==> ViewpointOf(out, t) == ViewpointOf(vps, t)
  {
    match value
    case Some(v) => vps[view := v]
    case None => vps - {view}
  }

  /** Every record is numbered below `next` and holds no schedule id. */
  ghost predicate Numbered(records: map<RecordId, Record>, next: RecordId)
  {
    forall r :: r in records ==> r < next && !records[r].scheduled
  }

  /** Every number in `ids` names a record. */
  ghost predicate Names(records: map<RecordId, Record>, ids: seq<RecordId>)
  {
    forall i :: 0 <= i < |ids| ==> ids[i] in records
  }

  /** The list names records for distinct views, each holding its interaction handle. */
  ghost predicate ListValid(records: map<RecordId, Record>, subscribers: seq<RecordId>)
  {
    && Names(records, subscribers)
    && (forall i, j :: 0 <= i < j < |subscribers| ==>
          records[subscribers[i]].target != records[subscribers[j]].target)
    && (forall i :: 0 <= i < |subscribers| ==> records[subscribers[i]].interactWatch)
  }

  /** The first position in `ids` whose record is for `target`, or -1 (`subscribers.find(…)`). */
  function IndexOfTarget(records: map<RecordId, Record>, ids: seq<RecordId>, target: ViewId): (k: int)
    requires Names(records, ids)
    ensures -1 <= k < |ids|
    ensures k == -1 <==> forall i :: 0 <= i < |ids| ==> records[ids[i]].target != target
    ensures 0 <= k ==> records[ids[k]].target == target
    ensures 0 <= k ==> forall i :: 0 <= i < k ==> records[ids[i]].target != target
  {
    if ids == [] then -1
    else if records[ids[0]].target == target then 0
    else
      var k := IndexOfTarget(records, ids[1..], target);
      if k < 0 then -1 else k + 1
  }

  /** Changing the property and stationary handles of one record keeps the list, the numbering and the names valid. */
  lemma FlagsKeepValid(records: map<RecordId, Record>, next: RecordId, subscribers: seq<RecordId>, pending: seq<RecordId>, id: RecordId, r: Record)
    requires Numbered(records, next) && ListValid(records, subscribers) && Names(records, pending) && id in records
    requires r.target == records[id].target && r.interactWatch == records[id].interactWatch && !r.scheduled
    ensures var records' := records[id := r];
      Numbered(records', next) && ListValid(records', subscribers) && Names(records', pending) && records'.Keys == records.Keys
  {
  }

  /** A new record for a view not in the list, appended with its interaction handle, keeps everything valid. */
  lemma EnlistKeepsValid(records: map<RecordId, Record>, subscribers: seq<RecordId>, next: RecordId, pending: seq<RecordId>, target: ViewId)
    requires Numbered(records, next) && ListValid(records, subscribers) && Names(records, pending)
    requires forall i :: 0 <= i < |subscribers| ==> records[subscribers[i]].target != target
    ensures var records' := records[next := Record(target, true, false, false, false)];
      && Numbered(records', next + 1)
      && ListValid(records', subscribers + [next])
      && Names(records', pending)
  {
    assert next !in records;
  }

  /** The record stripped of all three watch handles, as `unsubscribe` leaves it. */
  function Unwatched(r: Record): (r': Record)
    ensures !r'.interactWatch && !r'.propertyWatch && !r'.stationaryWatch
    ensures r'.target == r.target && r'.scheduled == r.scheduled
  {
    r.(interactWatch := false, propertyWatch := false, stationaryWatch := false)
  }

  /**
   * Taking the record at position `k` out of the list, stripped of its
   * handles, keeps everything valid, and leaves no record for its view.
   */
  lemma UnlistKeepsValid(records: map<RecordId, Record>, next: RecordId, subscribers: seq<RecordId>, pending: seq<RecordId>, k: nat)
    requires Numbered(records, next) && ListValid(records, subscribers) && Names(records, pending) && k < |subscribers|
    ensures var id := subscribers[k];
      var records' := records[id := Unwatched(records[id])];
      var rest := subscribers[..k] + subscribers[k + 1..];
      && Numbered(records', next)
      && ListValid(records', rest)
      && Names(records', pending)
      && records'.Keys == records.Keys
      && IndexOfTarget(records', rest, records[id].target) == -1
  {
    var id := subscribers[k];
    var records' := records[id := Unwatched(records[id])];
    var rest := subscribers[..k] + subscribers[k + 1..];
    assert forall i :: 0 <= i < |rest| ==> rest[i] == if i < k then subscribers[i] else subscribers[i + 1];
    assert forall i :: 0 <= i < |subscribers| && i != k ==> subscribers[i] != id;
  }

  /**
   * The records and the list after `unsubscribe(target)`: the first record in
   * the list for the view loses its three handles and leaves the list; when
   * there is none, nothing changes.
   */
  function Unlisted(records: map<RecordId, Record>, subscribers: seq<RecordId>, target: ViewId): (r: (map<RecordId, Record>, seq<RecordId>))
    requires Names(records, subscribers)
    ensures r.0.Keys == records.Keys
  {
    var k := IndexOfTarget(records, subscribers, target);
    if k < 0 then (records, subscribers)
    else
      var id := subscribers[k];
      (records[id := Unwatched(records[id])], Splice(subscribers, k, 1).1)
  }

  /**
   * Unsubscribing removes exactly the view's record from the list, keeping the
   * others in order, strips that record of its handles, leaves the view
   * unlisted and keeps everything valid.
   */
  lemma UnlistedValid(records: map<RecordId, Record>, next: RecordId, subscribers: seq<RecordId>, pending: seq<RecordId>, target: ViewId)
    requires Numbered(records, next) && ListValid(records, subscribers) && Names(records, pending)
    ensures var k := IndexOfTarget(records, subscribers, target);
      var r := Unlisted(records, subscribers, target);
      && (k < 0 ==> r == (records, subscribers))
      && (k >= 0 ==>
            var id := subscribers[k];
            && r.0 == records[id := Unwatched(records[id])]
            && r.1 == subscribers[..k] + subscribers[k + 1..])
      && Numbered(r.0, next) && ListValid(r.0, r.1) && Names(r.0, pending)
      && IndexOfTarget(r.0, r.1, target) == -1
  {
    var k := IndexOfTarget(records, subscribers, target);
    if k >= 0 {
      SpliceOne(subscribers, k);
      UnlistKeepsValid(records, next, subscribers, pending, k);
    }
  }

  class MapViewEventDispatcher {
    var records: map<RecordId, Record>
    var nextRecord: RecordId
    var subscribers: seq<RecordId>
    var activeListener: Option<RecordId>
    /** The deferred callbacks `setListener` scheduled and that have not run yet, oldest first. */
    var pending: seq<RecordId>
    /** The views whose animation `switchListener` asked to finish, in order. */
    var finished: seq<ViewId>

    /**
     * Every number in use names a record; records are numbered below
     * `nextRecord`; the list holds each view once and every record in it holds
     * its interaction handle; and no record ever keeps a schedule id, because
     * `setListener` clears it right after setting it.
     */
    ghost predicate Valid()
      reads this
    {
      && Numbered(records, nextRecord)
      && ListValid(records, subscribers)
      && Names(records, pending)
      && (activeListener.Some? ==> activeListener.value in records)
    }

    /** The views that have a record in the list. */
    ghost function Targets(): set<ViewId>
      reads this
      requires Valid()
    {
      set i | 0 <= i < |subscribers| :: records[subscribers[i]].target
    }

    constructor ()
      ensures Valid()
      ensures records == map[] && subscribers == [] && activeListener == None
      ensures pending == [] && finished == []
    {
      records := map[];
      nextRecord := 0;
      subscribers := [];
      activeListener := None;
      pending := [];
      finished := [];
    }

    /** Whether some record in the list is for `target`. */
    function IsSubscribed(target: ViewId): (b: bool)
      reads this
      requires Valid()
      ensures b <==> exists i :: 0 <= i < |subscribers| && records[subscribers[i]].target == target
    {
      IndexOfTarget(records, subscribers, target) >= 0
    }

    /**
     * Adds a record for `target`, with an interaction watch, unless one is in
     * the list already; subscribing twice is the same as subscribing once.
     */
    method Subscribe(target: ViewId)
      requires Valid()
      modifies this
      ensures Valid()
      ensures IsSubscribed(target)
      ensures old(IsSubscribed(target)) ==>
        && subscribers == old(subscribers) && records == old(records)
      ensures !old(IsSubscribed(target)) ==>
        && subscribers == old(subscribers) + [old(nextRecord)]
        && records == old(records)[old(nextRecord) := Record(target, true, false, false, false)]
      ensures activeListener == old(activeListener) && pending == old(pending) && finished == old(finished)
    {
      var k := IndexOfTarget(records, subscribers, target);
      if k < 0 {
        var id := nextRecord;
        EnlistKeepsValid(records, subscribers, id, pending, target);
        nextRecord := nextRecord + 1;
        records := records[id := Record(target, true, false, false, false)];
        subscribers := subscribers + [id];
        assert records[subscribers[|subscribers| - 1]].target == target;
      }
    }

    /**
     * `removePropertyWatchers`: releases the property and stationary handles the
     * record holds, and unregisters their watches.
     */
    method RemovePropertyWatchers(id: RecordId)
      requires Valid() && id in records
      modifies this
      ensures Valid()
      ensures records == old(records)[id := WithoutPropertyWatches(old(records[id]))]
      ensures subscribers == old(subscribers) && activeListener == old(activeListener)
      ensures pending == old(pending) && finished == old(finished) && nextRecord == old(nextRecord)
    {
      var r := records[id];
      FlagsKeepValid(records, nextRecord, subscribers, pending, id, WithoutPropertyWatches(r));
      records := records[id := WithoutPropertyWatches(r)];
    }

    /**
     * Removes the record for `target`, after releasing its property and
     * stationary watches (what `removePropertyWatchers` does) and its
     * interaction watch; the other records keep their order. An absent
     * target changes nothing. Neither the active listener nor a pending
     * deferred callback is touched.
     */
    method Unsubscribe(target: ViewId)
      requires Valid()
      modifies this
      ensures Valid()
      ensures (records, subscribers) == Unlisted(old(records), old(subscribers), target)
      ensures activeListener == old(activeListener) && pending == old(pending) && finished == old(finished)
      ensures !IsSubscribed(target)
    {
      UnlistedValid(records, nextRecord, subscribers, pending, target);
      var index := IndexOfTarget(records, subscribers, target);
      if index >= 0 {
        var id := subscribers[index];
        records := records[id := Unwatched(records[id])];
        subscribers := Splice(subscribers, index, 1).1;
      }
    }

    /** `addPropertyWatchers`: watches the viewpoint of the record's view. A handle held already is overwritten. */
    method AddPropertyWatchers(id: RecordId)
      requires Valid() && id in records
      modifies this
      ensures Valid()
      ensures records == old(records)[id := old(records[id]).(propertyWatch := true)]
      ensures subscribers == old(subscribers) && activeListener == old(activeListener)
      ensures pending == old(pending) && finished == old(finished) && nextRecord == old(nextRecord)
    {
      FlagsKeepValid(records, nextRecord, subscribers, pending, id, records[id].(propertyWatch := true));
      records := records[id := records[id].(propertyWatch := true)];
    }

    /**
     * `setListener`: schedules the deferred activation (property watch, then
     * active listener) and attaches the stationary watch at once. The schedule
     * id is set and immediately cleared, so afterwards the record holds none.
     */
    method SetListener(id: RecordId)
      requires Valid() && id in records
      modifies this
      ensures Valid()
      ensures pending == old(pending) + [id]
      ensures records == old(records)[id := old(records[id]).(stationaryWatch := true)]
      ensures subscribers == old(subscribers) && activeListener == old(activeListener)
      ensures finished == old(finished) && nextRecord == old(nextRecord)
    {
      var r := records[id];
      pending := pending + [id];
      records := records[id := r.(scheduled := true)];
      records := records[id := r];
      FlagsKeepValid(records, nextRecord, subscribers, pending, id, r.(stationaryWatch := true));
      records := records[id := r.(stationaryWatch := true)];
    }

    /**
     * `switchListener`: strips the active listener (if any) of its property and
     * stationary watches, finishes its animation if its view is animating, then
     * arms `id` with `setListener`.
     */
    method SwitchListener(id: RecordId, animating: set<ViewId>)
      requires Valid() && id in records
      modifies this
      ensures Valid()
      ensures pending == old(pending) + [id]
      ensures activeListener == old(activeListener)
      ensures old(activeListener).None? ==>
        && finished == old(finished)
        && records == old(records)[id := old(records[id]).(stationaryWatch := true)]
      ensures old(activeListener).Some? ==>
        var a := old(activeListener).value;
        var stripped := old(records)[a := WithoutPropertyWatches(old(records[a]))];
        && records == stripped[id := stripped[id].(stationaryWatch := true)]
        && finished == old(finished) + (if old(records[a].target) in animating then [old(records[a].target)] else [])
      ensures subscribers == old(subscribers)
    {
      if activeListener.Some? {
        var a := activeListener.value;
        RemovePropertyWatchers(a);
        if records[a].target in animating {
          finished := finished + [records[a].target];
        }
      }
      SetListener(id);
    }

    /**
     * The handler of the interaction/animation watch of record `id`. A falsy new
     * value, or a record that holds a property watch or a schedule id, is
     * ignored. With no active listener the record is armed directly; with an
     * active listener for another view, that listener is switched out first;
     * with an active listener for the same view nothing happens.
     */
    method InteractHandler(id: RecordId, newValue: bool, animating: set<ViewId>)
      requires Valid() && id in records
      modifies this
      ensures Valid()
      ensures subscribers == old(subscribers) && activeListener == old(activeListener)
      ensures var ignored := !newValue || old(records[id].propertyWatch) || old(records[id].scheduled)
        || (old(activeListener).Some? && old(records[activeListener.value].target) == old(records[id].target));
        if ignored then
          records == old(records) && pending == old(pending) && finished == old(finished)
        else if old(activeListener).None? then
          && pending == old(pending) + [id]
          && records == old(records)[id := old(records[id]).(stationaryWatch := true)]
          && finished == old(finished)
        else
          var a := old(activeListener).value;
          var stripped := old(records)[a := WithoutPropertyWatches(old(records[a]))];
          && pending == old(pending) + [id]
          && records == stripped[id := stripped[id].(stationaryWatch := true)]
          && finished == old(finished) + (if old(records[a].target) in animating then [old(records[a].target)] else [])
    {
      if !newValue {
        return;
      }
      var r := records[id];
      if r.propertyWatch || r.scheduled {
        return;
      } else if activeListener.None? {
        SetListener(id);
        return;
      } else if records[activeListener.value].target != r.target {
        SwitchListener(id, animating);
      }
    }

    /**
     * One tick of the timer: the oldest deferred callback of `setListener` runs,
     * attaching the property watch of its record and making that record the
     * active listener. Returns false when nothing was pending.
     */
    method FireDeferred() returns (fired: bool)
      requires Valid()
      modifies this
      ensures Valid()
      ensures fired == (old(pending) != [])
      ensures !fired ==> activeListener == old(activeListener) && records == old(records) && pending == old(pending)
      ensures fired ==>
        var id := old(pending[0]);
        && pending == old(pending[1..])
        && activeListener == Some(id)
        && records == old(records)[id := old(records[id]).(propertyWatch := true)]
      ensures subscribers == old(subscribers) && finished == old(finished) && nextRecord == old(nextRecord)
    {
      if pending == [] {
        return false;
      }
      var id := pending[0];
      pending := pending[1..];
      AddPropertyWatchers(id);
      activeListener := Some(id);
      fired := true;
    }

    /** The views the records `ids` are for. */
    ghost function SubsTargets(ids: seq<RecordId>): set<ViewId>
      reads this
      requires Names(records, ids)
    {
      set i | 0 <= i < |ids| :: records[ids[i]].target
    }

    /**
     * `updateViews`: assigns `value` to the viewpoint of every view in the list
     * other than `source`, but only where that viewpoint is currently set.
     */
    method UpdateViews<VP>(value: Option<VP>, source: ViewId, vps: map<ViewId, VP>) returns (out: map<ViewId, VP>)
      requires Valid()
      ensures forall t :: t in vps && t in Targets() && t != source ==> ViewpointOf(out, t) == value
      ensures forall t :: !(t in vps && t in Targets() && t != source) ==> ViewpointOf(out, t) == ViewpointOf(vps, t)
    {
      out := vps;
      for i := 0 to |subscribers|
        invariant forall t :: t in vps && t != source && t in SubsTargets(subscribers[..i]) ==> ViewpointOf(out, t) == value
        invariant forall t :: !(t in vps && t != source && t in SubsTargets(subscribers[..i])) ==> ViewpointOf(out, t) == ViewpointOf(vps, t)
      {
        var target := records[subscribers[i]].target;
        assert SubsTargets(subscribers[..i + 1]) == SubsTargets(subscribers[..i]) + {target} by {
          assert subscribers[..i + 1] == subscribers[..i] + [subscribers[i]];
        }
        if target != source {
          if target in out {
            out := Assign(out, target, value);
          }
        }
      }
      assert subscribers[..|subscribers|] == subscribers;
    }

    /**
     * The handler of the viewpoint watch of record `id`: the change is forwarded
     * to the other views only when the active listener is for this record's view.
     */
    method UpdateHandler<VP>(id: RecordId, newValue: Option<VP>, vps: map<ViewId, VP>) returns (out: map<ViewId, VP>)
      requires Valid() && id in records
      ensures var source := records[id].target;
        if activeListener.Some? && records[activeListener.value].target == source then
          && (forall t :: t in vps && t in Targets() && t != source ==> ViewpointOf(out, t) == newValue)
          && (forall t :: !(t in vps && t in Targets() && t != source) ==> ViewpointOf(out, t) == ViewpointOf(vps, t))
        else
          out == vps
    {
      out := vps;
      if activeListener.Some? && records[activeListener.value].target == records[id].target {
        out := UpdateViews(newValue, records[id].target, vps);
      }
    }

    /**
     * The handler of the stationary watch of record `id`: pushes the viewpoint of
     * its view to the others, drops its property and stationary watches and
     * leaves no active listener.
     */
    method StationaryHandler<VP>(id: RecordId, vps: map<ViewId, VP>) returns (out: map<ViewId, VP>)
      requires Valid() && id in records
      modifies this
      ensures Valid()
      ensures activeListener == None
      ensures records == old(records)[id := WithoutPropertyWatches(old(records[id]))]
      ensures var source := old(records[id].target);
        && (forall t :: t in vps && t in old(Targets()) && t != source ==> ViewpointOf(out, t) == ViewpointOf(vps, source))
        && (forall t :: !(t in vps && t in old(Targets()) && t != source) ==> ViewpointOf(out, t) == ViewpointOf(vps, t))
      ensures subscribers == old(subscribers) && pending == old(pending) && finished == old(finished)
    {
      var source := records[id].target;
      out := UpdateViews(ViewpointOf(vps, source), source, vps);
      RemovePropertyWatchers(id);
      activeListener := None;
    }
  }
}
