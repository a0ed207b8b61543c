/**
 * The fleet layer updater (`FleetLayerManager` of
 * src/components/Map/FleetLayerManager.ts): the bounded buffer of the
 * telemetry handler, its drain loop, and `updateFeatures`, which turns one
 * batch of telemetry into edits of the vehicle layer of the active view.
 *
 * The layer is not modelled as a data structure: every request sent to it is
 * appended to a log. What the environment decides is a parameter (`BatchEnv`):
 * the active view, the features the layer query returns, the first change
 * the view reports to the stationary watch, counted in edits applied before
 * it arrives, and the first layer request whose promise is rejected.
 */
module FleetLayer {
  import opened Wrappers
  import opened Channel

  datatype VehicleType = Truck | Van

  /** `ITelemetry`: one vehicle report. Coordinates and readings are reals, compared only for equality. */
  datatype Telemetry = Telemetry(
    objectId: int,
    vehicleId: string,
    vehicleType: VehicleType,
    longitude: real,
    latitude: real,
    heading: real,
    speed: real,
    fuelLevel: real,
    telemetryUpdateTime: Option<real>)

  /** One delivery of the telemetry channel. */
  type Batch = seq<DataItem<Telemetry>>

  /** Batches held at most, counting the one being processed. */
  const MaxBufferSize: nat := 2

  datatype Point = Point(latitude: real, longitude: real)

  /** The attributes a layer query returns (`outFields`). */
  datatype FeatureAttributes = FeatureAttributes(objectId: int, heading: real, depth: real, vehicleId: string)

  /** A feature already on the layer. */
  datatype Feature = Feature(geometry: Point, attributes: FeatureAttributes)

  /** A new graphic: the vehicle's location and a copy of its whole report. */
  datatype Graphic = Graphic(geometry: Point, attributes: Telemetry)

  /** The 2D and the 3D view each have their own vehicle layer. */
  datatype ViewKind = TwoD | ThreeD

  datatype Request = Query | AddFeature(graphic: Graphic) | UpdateFeature(feature: Feature)

  /** A request sent to the vehicle layer of one kind of view. */
  datatype LayerOp = LayerOp(layer: ViewKind, request: Request)

  datatype View = View(kind: ViewKind, ready: bool, stationary: bool)

  /** A change of the view's `stationary` property, arriving after `afterEdits` edits. */
  datatype Change = Change(afterEdits: nat, value: bool)

  /**
   * What one run of `updateFeatures` sees: the active view (None when there is
   * none), the queried features, the first change of `stationary`, and the
   * number of the first layer request that is rejected, if any: 0 is the
   * query, k + 1 the edit of the k-th vehicle.
   */
  datatype BatchEnv = BatchEnv(activeView: Option<View>, snapshot: seq<Feature>, firstChange: Option<Change>, rejectAt: Option<nat>)

  // ---------------------------------------------------------------- the watch

  /** The stationary watch of one update: whether it is still registered, and the cancel flag. */
  datatype StationaryWatch = StationaryWatch(live: bool, cancel: bool)

  const Armed := StationaryWatch(true, false)

  /** One notification: a registered watch removes itself, and sets the cancel flag if the view stopped being stationary. */
  function Notify(w: StationaryWatch, value: bool): (w': StationaryWatch)
    ensures !w'.live
    ensures w'.cancel <==> w.cancel || (w.live && !value)
  {
    if !w.live then w
    else if !value then StationaryWatch(false, true)
    else StationaryWatch(false, w.cancel)
  }

  /** The watch after a series of notifications. */
  function NotifyAll(w: StationaryWatch, values: seq<bool>): (r: StationaryWatch)
    ensures r.live <==> w.live && values == []
    ensures w.cancel ==> r.cancel
    decreases |values|
  {
    if values == [] then w else NotifyAll(Notify(w, values[0]), values[1..])
  }

  /** A removed watch ignores every later notification. */
  lemma {:induction false} RemovedStaysRemoved(cancel: bool, values: seq<bool>)
    ensures NotifyAll(StationaryWatch(false, cancel), values) == StationaryWatch(false, cancel)
    decreases |values|
  {
    if values != [] {
      RemovedStaysRemoved(cancel, values[1..]);
    }
  }

  /**
   * The watch is one-shot: only the first notification matters, and it cancels
   * exactly when its value is false. This is why one optional first change is
   * all the environment needs to supply.
   */
  lemma OneShot(values: seq<bool>)
    ensures NotifyAll(Armed, values) ==
      if values == [] then Armed else StationaryWatch(false, !values[0])
  {
    if values != [] {
      RemovedStaysRemoved(!values[0], values[1..]);
    }
  }

  /** The watch after `edits` edits, in terms of the first change. */
  function WatchAfter(env: BatchEnv, edits: nat): (w: StationaryWatch)
    ensures w.cancel <==> env.firstChange.Some? && env.firstChange.value.afterEdits <= edits && !env.firstChange.value.value
  {
    match env.firstChange
    case Some(c) => if c.afterEdits <= edits then Notify(Armed, c.value) else Armed
    case None => Armed
  }

  /** The notification, if any, that arrives when `edits` edits have been applied. */
  function Deliver(w: StationaryWatch, change: Option<Change>, edits: nat): StationaryWatch
  {
    if change.Some? && change.value.afterEdits == edits then Notify(w, change.value.value) else w
  }

  // ---------------------------------------------------------- the edits

  /** Whether `updateFeatures` goes ahead: there is an active view, and it is ready and stationary. */
  predicate CanUpdate(env: BatchEnv)
  {
    env.activeView.Some? && env.activeView.value.ready && env.activeView.value.stationary
  }

  function Location(v: Telemetry): Point
  {
    Point(v.latitude, v.longitude)
  }

  /** The feature moved to the vehicle's location and given its heading. */
  function Moved(f: Feature, v: Telemetry): (f': Feature)
    ensures f'.geometry == Location(v) && f'.attributes.heading == v.heading
    ensures f'.attributes.objectId == f.attributes.objectId && f'.attributes.depth == f.attributes.depth
    ensures f'.attributes.vehicleId == f.attributes.vehicleId
  {
    f.(geometry := Location(v), attributes := f.attributes.(heading := v.heading))
  }

  /** The first feature at or after `from` with the given object id, or `|features|`. */
  function FirstMatch(features: seq<Feature>, objectId: int, from: nat): (j: nat)
    requires from <= |features|
    ensures from <= j <= |features|
    ensures forall k :: from <= k < j ==> features[k].attributes.objectId != objectId
    ensures j < |features| ==> features[j].attributes.objectId == objectId
    decreases |features| - from
  {
    if from == |features| then from
    else if features[from].attributes.objectId == objectId then from
    else FirstMatch(features, objectId, from + 1)
  }

  /** The edit for one vehicle (the body of the search-and-edit loop). */
  function EditFor(v: Telemetry, snapshot: seq<Feature>): Request
  {
    var j := FirstMatch(snapshot, v.objectId, 0);
    if j < |snapshot| then UpdateFeature(Moved(snapshot[j], v)) else AddFeature(Graphic(Location(v), v))
  }

  /**
   * A vehicle's edit updates a feature exactly when some feature has its object
   * id, and then it moves the first such feature; otherwise it adds a new
   * graphic at the vehicle's location carrying the whole report.
   */
  lemma EditForMatches(v: Telemetry, snapshot: seq<Feature>)
    ensures var r := EditFor(v, snapshot);
      && (r.UpdateFeature? <==> exists j :: 0 <= j < |snapshot| && snapshot[j].attributes.objectId == v.objectId)
      && (r.AddFeature? <==> !r.UpdateFeature?)
      && (r.AddFeature? ==> r.graphic == Graphic(Location(v), v))
      && (r.UpdateFeature? ==>
            var j := FirstMatch(snapshot, v.objectId, 0);
            && j < |snapshot|
            && (forall k :: 0 <= k < j ==> snapshot[k].attributes.objectId != v.objectId)
            && r.feature == Moved(snapshot[j], v))
  {
    var j := FirstMatch(snapshot, v.objectId, 0);
    if j == |snapshot| {
      assert forall k :: 0 <= k < |snapshot| ==> snapshot[k].attributes.objectId != v.objectId;
    }
  }

  /** The edits for the first `n` vehicles of `items`, in order, on `layer`. */
  function Edits(layer: ViewKind, items: Batch, n: nat, snapshot: seq<Feature>): (r: seq<LayerOp>)
    requires n <= |items|
    ensures |r| == n
    ensures forall i :: 0 <= i < n ==> r[i] == LayerOp(layer, EditFor(items[i].data, snapshot))
  {
    if n == 0 then [] else Edits(layer, items, n - 1, snapshot) + [LayerOp(layer, EditFor(items[n - 1].data, snapshot))]
  }

  /**
   * How many vehicles are edited: all of them, unless the view stopped being
   * stationary after `c < |items|` edits and the layer had features, in which
   * case the update returns before the vehicle at `c`. With no features the
   * search loop never runs, so the cancel flag is never looked at.
   */
  function Processed(items: Batch, env: BatchEnv): (n: nat)
    ensures n <= |items|
    ensures |env.snapshot| == 0 ==> n == |items|
  {
    match env.firstChange
    case Some(c) =>
      if !c.value && |env.snapshot| > 0 && c.afterEdits < |items| then c.afterEdits else |items|
    case None => |items|
  }

  /**
   * Whether a rejected request ends the run with an error: the rejected
   * request is one the run sends, that is, the query or the edit of a
   * vehicle it gets to.
   */
  predicate Rejected(items: Batch, env: BatchEnv)
  {
    CanUpdate(env) && env.rejectAt.Some? && env.rejectAt.value <= Processed(items, env)
  }

  /** How many edits are sent: those up to and including the rejected one, or one per processed vehicle. */
  function Sent(items: Batch, env: BatchEnv): (n: nat)
    ensures n <= Processed(items, env)
    ensures Rejected(items, env) ==> n == env.rejectAt.value
    ensures !Rejected(items, env) ==> n == Processed(items, env)
  {
    if Rejected(items, env) then env.rejectAt.value else Processed(items, env)
  }

  /**
   * The requests of one `updateFeatures`: nothing when the guard fails, else
   * the query and the edits of the vehicles it gets to, stopping after a
   * rejected request.
   */
  function BatchOps(items: Batch, env: BatchEnv): (r: seq<LayerOp>)
    ensures !CanUpdate(env) ==> r == []
    ensures CanUpdate(env) ==> |r| == Sent(items, env) + 1 && r[0] == LayerOp(env.activeView.value.kind, Query)
  {
    if !CanUpdate(env) then []
    else
      var layer := env.activeView.value.kind;
      [LayerOp(layer, Query)] + Edits(layer, items, Sent(items, env), env.snapshot)
  }

  /** Without a ready, stationary active view nothing is sent to any layer. */
  lemma NoViewNoRequests(items: Batch, env: BatchEnv)
    requires !CanUpdate(env)
    ensures BatchOps(items, env) == []
  {
  }

  /**
   * When the view stays stationary and the layer accepts every request, every
   * vehicle gets exactly one edit after the query, in order: an update of its
   * first matching feature or an addition.
   */
  lemma UncancelledEditsEveryVehicle(items: Batch, env: BatchEnv)
    requires CanUpdate(env) && !Rejected(items, env)
    requires env.firstChange.None? || env.firstChange.value.value
    ensures var ops := BatchOps(items, env);
      && |ops| == |items| + 1
      && ops[0] == LayerOp(env.activeView.value.kind, Query)
      && forall i :: 0 <= i < |items| ==> ops[i + 1] == LayerOp(env.activeView.value.kind, EditFor(items[i].data, env.snapshot))
  {
    var layer := env.activeView.value.kind;
    var ops := BatchOps(items, env);
    var edits := Edits(layer, items, |items|, env.snapshot);
    assert ops == [LayerOp(layer, Query)] + edits;
    forall i | 0 <= i < |items|
      ensures ops[i + 1] == LayerOp(layer, EditFor(items[i].data, env.snapshot))
    {
      assert ops[i + 1] == edits[i];
    }
  }

  /** A cancellation after `c` edits leaves the vehicles from `c` on untouched, when the layer had features and accepted the requests. */
  lemma CancelledEditsPrefix(items: Batch, env: BatchEnv)
    requires CanUpdate(env) && |env.snapshot| > 0 && !Rejected(items, env)
    requires env.firstChange.Some? && !env.firstChange.value.value && env.firstChange.value.afterEdits <= |items|
    ensures var c := env.firstChange.value.afterEdits;
      var ops := BatchOps(items, env);
      && |ops| == c + 1
      && forall i :: 0 <= i < c ==> ops[i + 1] == LayerOp(env.activeView.value.kind, EditFor(items[i].data, env.snapshot))
  {
    var layer := env.activeView.value.kind;
    var c := env.firstChange.value.afterEdits;
    var ops := BatchOps(items, env);
    var edits := Edits(layer, items, c, env.snapshot);
    assert ops == [LayerOp(layer, Query)] + edits;
    forall i | 0 <= i < c
      ensures ops[i + 1] == LayerOp(layer, EditFor(items[i].data, env.snapshot))
    {
      assert ops[i + 1] == edits[i];
    }
  }

  /** With no features on the layer a cancellation is never observed: every vehicle is added, unless a request is rejected. */
  lemma EmptyLayerAddsAll(items: Batch, env: BatchEnv)
    requires CanUpdate(env) && env.snapshot == [] && !Rejected(items, env)
    ensures var ops := BatchOps(items, env);
      && |ops| == |items| + 1
      && forall i :: 0 <= i < |items| ==>
           ops[i + 1] == LayerOp(env.activeView.value.kind, AddFeature(Graphic(Location(items[i].data), items[i].data)))
  {
    var layer := env.activeView.value.kind;
    assert Processed(items, env) == |items|;
    var edits := Edits(layer, items, |items|, env.snapshot);
    assert BatchOps(items, env) == [LayerOp(layer, Query)] + edits;
  }

  /**
   * A rejected request ends the run: the requests sent are the query and the
   * edits of the vehicles before the rejected one, the rejected request last.
   */
  lemma RejectionCutsShort(items: Batch, env: BatchEnv)
    requires Rejected(items, env)
    ensures var f := env.rejectAt.value;
      var ops := BatchOps(items, env);
      && f <= |items|
      && |ops| == f + 1
      && ops[0] == LayerOp(env.activeView.value.kind, Query)
      && forall i :: 0 <= i < f ==> ops[i + 1] == LayerOp(env.activeView.value.kind, EditFor(items[i].data, env.snapshot))
  {
    var layer := env.activeView.value.kind;
    var f := env.rejectAt.value;
    var ops := BatchOps(items, env);
    var edits := Edits(layer, items, f, env.snapshot);
    assert ops == [LayerOp(layer, Query)] + edits;
    forall i | 0 <= i < f
      ensures ops[i + 1] == LayerOp(layer, EditFor(items[i].data, env.snapshot))
    {
      assert ops[i + 1] == edits[i];
    }
  }

  /** A rejection the run never gets to changes nothing. */
  lemma UnreachedRejectionIrrelevant(items: Batch, env: BatchEnv)
    requires env.rejectAt.Some? && env.rejectAt.value > Processed(items, env)
    ensures BatchOps(items, env) == BatchOps(items, env.(rejectAt := None))
  {
  }

  /** Two features that agree on everything `Moved` keeps. */
  predicate SameIdentity(f: Feature, g: Feature)
  {
    f.attributes.objectId == g.attributes.objectId
    && f.attributes.depth == g.attributes.depth
    && f.attributes.vehicleId == g.attributes.vehicleId
  }

  /** The search gives the same position in features that agree on object ids. */
  lemma {:induction false} FirstMatchSameIds(features: seq<Feature>, snapshot: seq<Feature>, objectId: int, from: nat)
    requires |features| == |snapshot| && from <= |features|
    requires forall k :: 0 <= k < |features| ==> features[k].attributes.objectId == snapshot[k].attributes.objectId
    ensures FirstMatch(features, objectId, from) == FirstMatch(snapshot, objectId, from)
    decreases |features| - from
  {
    if from < |features| && features[from].attributes.objectId != objectId {
      FirstMatchSameIds(features, snapshot, objectId, from + 1);
    }
  }

  // ---------------------------------------------------------- the buffer

  /** The buffer after a batch arrives, and whether it was accepted. */
  function Offer(buffer: seq<Batch>, items: Batch): (r: (seq<Batch>, bool))
    ensures r.1 <==> |buffer| < MaxBufferSize
    ensures r.0 == if r.1 then buffer + [items] else buffer
  {
    if |buffer| < MaxBufferSize then (buffer + [items], true) else (buffer, false)
  }

  /** The buffer never holds more than two batches. */
  lemma OfferBounded(buffer: seq<Batch>, items: Batch)
    requires |buffer| <= MaxBufferSize
    ensures |Offer(buffer, items).0| <= MaxBufferSize
  {
  }

  /** Of three batches arriving while none is drained, the third is dropped. */
  lemma ThirdBatchDropped(a: Batch, b: Batch, c: Batch)
    ensures Offer(Offer(Offer([], a).0, b).0, c) == ([a, b], false)
  {
    assert [] + [a] + [b] == [a, b];
  }

  /** What the successive runs of `updateFeatures` in one drain see: the k-th sees `perBatch[k]`, or `otherwise` past its end. */
  datatype Timeline = Timeline(perBatch: seq<BatchEnv>, otherwise: BatchEnv)

  function EnvAt(envs: Timeline, k: nat): BatchEnv
  {
    if k < |envs.perBatch| then envs.perBatch[k] else envs.otherwise
  }

  /**
   * The drain loop over `batches`, the first of them run as the k-th run and
   * seeing `EnvAt(envs, k)`: the requests sent, and how many batches were
   * completed and shifted out. A rejected run ends the loop with its batch
   * still at the head.
   */
  function DrainRun(batches: seq<Batch>, envs: Timeline, k: nat): (r: (seq<LayerOp>, nat))
    ensures r.1 <= |batches|
    decreases |batches|
  {
    if batches == [] then ([], 0)
    else
      var ops := BatchOps(batches[0], EnvAt(envs, k));
      if Rejected(batches[0], EnvAt(envs, k)) then (ops, 0)
      else
        var rest := DrainRun(batches[1..], envs, k + 1);
        (ops + rest.0, rest.1 + 1)
  }

  /** Every batch the drain gets past was accepted. */
  lemma {:induction false} DrainRunAccepted(batches: seq<Batch>, envs: Timeline, k: nat, i: nat)
    requires i < DrainRun(batches, envs, k).1
    ensures !Rejected(batches[i], EnvAt(envs, k + i))
    decreases i
  {
    if i > 0 {
      DrainRunAccepted(batches[1..], envs, k + 1, i - 1);
      assert batches[1..][i - 1] == batches[i];
      assert k + 1 + (i - 1) == k + i;
    }
  }

  /** The drain halts only at a rejected batch, or when nothing is left. */
  lemma {:induction false} DrainRunHalts(batches: seq<Batch>, envs: Timeline, k: nat)
    ensures var n := DrainRun(batches, envs, k).1;
      n < |batches| ==> Rejected(batches[n], EnvAt(envs, k + n))
    decreases |batches|
  {
    if batches != [] && !Rejected(batches[0], EnvAt(envs, k)) {
      DrainRunHalts(batches[1..], envs, k + 1);
      var n := DrainRun(batches[1..], envs, k + 1).1;
      if n < |batches[1..]| {
        assert batches[1..][n] == batches[n + 1];
        assert k + 1 + n == k + (n + 1);
      }
    }
  }

  /** One step of the drain loop: the oldest batch's requests, then, if it was accepted, the rest. */
  lemma DrainRunStep(batches: seq<Batch>, envs: Timeline, k: nat)
    requires batches != []
    ensures var ops := BatchOps(batches[0], EnvAt(envs, k));
      var rest := DrainRun(batches[1..], envs, k + 1);
      DrainRun(batches, envs, k) == if Rejected(batches[0], EnvAt(envs, k)) then (ops, 0) else (ops + rest.0, rest.1 + 1)
  {
  }

  /**
   * Two pending batches are handled oldest first: when the older one is
   * accepted, every request of it precedes every request of the newer one,
   * and the newer one stays pending exactly when it is rejected.
   */
  lemma DrainTwoInOrder(a: Batch, b: Batch, envs: Timeline)
    requires !Rejected(a, EnvAt(envs, 0))
    ensures DrainRun([a, b], envs, 0) ==
      (BatchOps(a, EnvAt(envs, 0)) + BatchOps(b, EnvAt(envs, 1)), if Rejected(b, EnvAt(envs, 1)) then 1 else 2)
  {
    assert [a, b][1..] == [b];
    assert [b][1..] == [];
    if !Rejected(b, EnvAt(envs, 1)) {
      assert DrainRun([b], envs, 1) == (BatchOps(b, EnvAt(envs, 1)) + [], 1);
      assert BatchOps(b, EnvAt(envs, 1)) + [] == BatchOps(b, EnvAt(envs, 1));
    }
  }

  /** The telemetry handler for one arriving batch, on values: the buffer it leaves and the requests it sends. */
  function HandleStep(buffer: seq<Batch>, items: Batch, envs: Timeline): (r: (seq<Batch>, seq<LayerOp>))
    ensures |buffer| <= MaxBufferSize ==> |r.0| <= MaxBufferSize
    ensures |buffer| >= MaxBufferSize ==> r == (buffer, [])
  {
    var o := Offer(buffer, items);
    if !o.1 then (buffer, [])
    else
      var d := DrainRun(o.0, envs, 0);
      (o.0[d.1..], d.0)
  }

  /** The handler over a series of arrivals, each batch with what its drain sees: the final buffer and all requests sent. */
  function HandleAll(buffer: seq<Batch>, arrivals: seq<(Batch, Timeline)>): (r: seq<Batch>)
    ensures |buffer| <= MaxBufferSize ==> |r| <= MaxBufferSize
    decreases |arrivals|
  {
    if arrivals == [] then buffer
    else HandleAll(HandleStep(buffer, arrivals[0].0, arrivals[0].1).0, arrivals[1..])
  }

  /** The requests sent over a series of arrivals, in order. */
  function HandleAllOps(buffer: seq<Batch>, arrivals: seq<(Batch, Timeline)>): seq<LayerOp>
    decreases |arrivals|
  {
    if arrivals == [] then []
    else
      var s := HandleStep(buffer, arrivals[0].0, arrivals[0].1);
      s.1 + HandleAllOps(s.0, arrivals[1..])
  }

  /** Handling one series of arrivals and then another is handling the two series joined. */
  lemma {:induction false} HandleAllAppend(buffer: seq<Batch>, a: seq<(Batch, Timeline)>, b: seq<(Batch, Timeline)>)
    ensures HandleAll(buffer, a + b) == HandleAll(HandleAll(buffer, a), b)
    ensures HandleAllOps(buffer, a + b) == HandleAllOps(buffer, a) + HandleAllOps(HandleAll(buffer, a), b)
    decreases |a|
  {
    if a == [] {
      assert a + b == b;
    } else {
      var s := HandleStep(buffer, a[0].0, a[0].1);
      assert (a + b)[0] == a[0];
      assert (a + b)[1..] == a[1..] + b;
      HandleAllAppend(s.0, a[1..], b);
      AppendStep(s.1, HandleAllOps(s.0, a[1..]), HandleAllOps(HandleAll(s.0, a[1..]), b), HandleAllOps(s.0, a[1..] + b));
    }
  }

  /** A full buffer stays full: every later batch is dropped and nothing is sent, however many arrive. */
  lemma {:induction false} FullBufferStaysFull(buffer: seq<Batch>, arrivals: seq<(Batch, Timeline)>)
    requires |buffer| >= MaxBufferSize
    ensures HandleAll(buffer, arrivals) == buffer
    ensures HandleAllOps(buffer, arrivals) == []
    decreases |arrivals|
  {
    if arrivals != [] {
      FullBufferStaysFull(buffer, arrivals[1..]);
    }
  }

  /**
   * Two rejections in a row wedge the handler. Batch `a` is rejected on its
   * own run and stays at the head; when `b` arrives the drain re-runs `a`
   * first, which is rejected again, so both stay pending. From then on every
   * later batch is dropped and no request is sent again.
   */
  lemma TwoRejectionsBlock(a: Batch, b: Batch, first: Timeline, second: Timeline, later: seq<(Batch, Timeline)>)
    requires Rejected(a, EnvAt(first, 0)) && Rejected(a, EnvAt(second, 0))
    ensures HandleStep([], a, first) == ([a], BatchOps(a, EnvAt(first, 0)))
    ensures HandleStep([a], b, second) == ([a, b], BatchOps(a, EnvAt(second, 0)))
    ensures HandleAll([a, b], later) == [a, b] && HandleAllOps([a, b], later) == []
  {
    assert [] + [a] == [a];
    assert [a] + [b] == [a, b];
    assert [a][0..] == [a];
    assert [a, b][0..] == [a, b];
    FullBufferStaysFull([a, b], later);
  }

  /** A run that reached vehicle i with no cancellation observed gets past it. */
  lemma ProcessedPast(items: Batch, env: BatchEnv, i: nat)
    requires i < |items|
    requires !(WatchAfter(env, i).cancel && |env.snapshot| > 0)
    requires |env.snapshot| > 0 && env.firstChange.Some? && !env.firstChange.value.value ==> i <= env.firstChange.value.afterEdits
    ensures Processed(items, env) > i
  {
  }

  /** A run that observes the cancellation at vehicle i has processed exactly i vehicles. */
  lemma ProcessedUpTo(items: Batch, env: BatchEnv, i: nat)
    requires i < |items|
    requires WatchAfter(env, i).cancel && |env.snapshot| > 0
    requires env.firstChange.Some? && !env.firstChange.value.value ==> i <= env.firstChange.value.afterEdits
    ensures Processed(items, env) == i
  {
  }

  /** The log of a run that stopped after `n` edits, with `n` the number `Sent` gives. */
  lemma Finished(before: seq<LayerOp>, log: seq<LayerOp>, items: Batch, env: BatchEnv, n: nat)
    requires CanUpdate(env) && n == Sent(items, env)
    requires log == (before + [LayerOp(env.activeView.value.kind, Query)]) + Edits(env.activeView.value.kind, items, n, env.snapshot)
    ensures log == before + BatchOps(items, env)
  {
    AppendStep(before, [LayerOp(env.activeView.value.kind, Query)], Edits(env.activeView.value.kind, items, n, env.snapshot), BatchOps(items, env));
  }

  /** A log that was `start + done` and then got `next` appended is `start + all`, when `all` is `done + next`: sequence associativity, stated once so that the log proofs below stay small. */
  lemma AppendStep<X>(start: seq<X>, done: seq<X>, next: seq<X>, all: seq<X>)
    requires all == done + next
    ensures (start + done) + next == start + all
  {
  }

  class FleetLayerManager {
    /** The pending batches of the telemetry handler; the head is the one being processed. */
    var buffer: seq<Batch>
    /** Every request sent to a vehicle layer, in order. */
    var log: seq<LayerOp>

    ghost predicate Valid()
      reads this
    {
      |buffer| <= MaxBufferSize
    }

    constructor ()
      ensures Valid() && buffer == [] && log == []
    {
      buffer := [];
      log := [];
    }

    /**
     * The search loop of `updateFeatures`: looks for the first feature with the
     * vehicle's object id, giving up before each comparison if the cancel flag
     * is set. With no features there is no comparison, so no give-up either.
     */
    method FindFeature(features: seq<Feature>, objectId: int, cancel: bool) returns (j: nat, addValue: bool, cancelled: bool)
      ensures cancelled <==> cancel && |features| > 0
      ensures !cancelled ==> j == FirstMatch(features, objectId, 0) && (addValue <==> j == |features|)
    {
      j := 0;
      addValue := true;
      cancelled := false;
      while j < |features|
        invariant 0 <= j <= |features|
        invariant forall k :: 0 <= k < j ==> features[k].attributes.objectId != objectId
        invariant addValue
        invariant j > 0 ==> !cancel
      {
        if cancel {
          cancelled := true;
          return;
        }
        if objectId == features[j].attributes.objectId {
          addValue := false;
          break;
        }
        j := j + 1;
      }
    }

    /**
     * One vehicle of the loop of `updateFeatures`: the search, then either a new
     * graphic or an update of the matching feature, which is also changed in
     * the queried list. The list only ever differs from the query's result in
     * what `Moved` changes, so the edit is the one `EditFor` gives.
     */
    method EditVehicle(layer: ViewKind, vehicle: Telemetry, features: seq<Feature>, snapshot: seq<Feature>, cancel: bool)
      returns (features': seq<Feature>, cancelled: bool)
      requires |features| == |snapshot|
      requires forall k :: 0 <= k < |features| ==> SameIdentity(features[k], snapshot[k])
      modifies this
      ensures cancelled <==> cancel && |features| > 0
      ensures |features'| == |snapshot|
      ensures forall k :: 0 <= k < |features'| ==> SameIdentity(features'[k], snapshot[k])
      ensures log == if cancelled then old(log) else old(log) + [LayerOp(layer, EditFor(vehicle, snapshot))]
      ensures buffer == old(buffer)
    {
      features' := features;
      var location := Point(vehicle.latitude, vehicle.longitude);
      var j, addValue;
      j, addValue, cancelled := FindFeature(features, vehicle.objectId, cancel);
      if cancelled {
        return;
      }
      FirstMatchSameIds(features, snapshot, vehicle.objectId, 0);
      if addValue {
        log := log + [LayerOp(layer, AddFeature(Graphic(location, vehicle)))];
      } else {
        var featureToUpdate := features[j].(geometry := location, attributes := features[j].attributes.(heading := vehicle.heading));
        assert featureToUpdate == Moved(snapshot[j], vehicle);
        features' := features[j := featureToUpdate];
        log := log + [LayerOp(layer, UpdateFeature(featureToUpdate))];
      }
    }

    /**
     * `updateFeatures`: checks the view, arms the one-shot stationary watch,
     * queries the layer, then for each vehicle searches the queried features
     * for its object id (returning at once if the cancel flag is set) and sends
     * either an update of that feature or a new graphic. The updated feature is
     * also changed in the queried list. A rejected request ends the run with an
     * error: `ok` is false.
     */
    method UpdateFeatures(items: Batch, env: BatchEnv) returns (ok: bool)
      modifies this
      ensures ok <==> !Rejected(items, env)
      ensures log == old(log) + BatchOps(items, env)
      ensures buffer == old(buffer)
    {
      if env.activeView.None? || !env.activeView.value.ready || !env.activeView.value.stationary {
        return true;
      }
      var layer := env.activeView.value.kind;
      var watch := Deliver(Armed, env.firstChange, 0);
      log := log + [LayerOp(layer, Query)];
      if env.rejectAt == Some(0) {
        Finished(old(log), log + [], items, env, 0);
        return false;
      }
      var features := env.snapshot;
      ghost var start := log;
      for i := 0 to |items|
        invariant buffer == old(buffer)
        invariant |features| == |env.snapshot|
        invariant forall k :: 0 <= k < |features| ==> SameIdentity(features[k], env.snapshot[k])
        invariant watch == WatchAfter(env, i)
        invariant |env.snapshot| > 0 && env.firstChange.Some? && !env.firstChange.value.value ==>
          i <= env.firstChange.value.afterEdits
        invariant env.rejectAt.Some? ==> env.rejectAt.value > i
        invariant log == start + Edits(layer, items, i, env.snapshot)
      {
        var cancelled;
        features, cancelled := EditVehicle(layer, items[i].data, features, env.snapshot, watch.cancel);
        if cancelled {
          ProcessedUpTo(items, env, i);
          Finished(old(log), log, items, env, i);
          return true;
        }
        ProcessedPast(items, env, i);
        AppendStep(start, Edits(layer, items, i, env.snapshot), [LayerOp(layer, EditFor(items[i].data, env.snapshot))], Edits(layer, items, i + 1, env.snapshot));
        if env.rejectAt == Some(i + 1) {
          Finished(old(log), log, items, env, i + 1);
          return false;
        }
        watch := Deliver(watch, env.firstChange, i + 1);
      }
      Finished(old(log), log, items, env, |items|);
      ok := true;
    }

    /**
     * The drain loop: while batches are pending, the head is processed and only
     * then removed. The k-th batch processed sees `EnvAt(envs, k)`. A rejected
     * run leaves the loop with its batch still at the head, since the shift
     * after the `await` is never reached.
     */
    method Drain(envs: Timeline)
      modifies this
      ensures var r := DrainRun(old(buffer), envs, 0);
        buffer == old(buffer)[r.1..] && log == old(log) + r.0
    {
      var k := 0;
      ghost var done: seq<LayerOp> := [];
      ghost var all := DrainRun(buffer, envs, 0);
      assert done + all.0 == all.0;
      while |buffer| > 0
        invariant k <= |old(buffer)| && buffer == old(buffer)[k..]
        invariant log == old(log) + done
        invariant all.0 == done + DrainRun(buffer, envs, k).0
        invariant all.1 == k + DrainRun(buffer, envs, k).1
        decreases |buffer|
      {
        var updates := buffer[0];
        ghost var ops := BatchOps(updates, EnvAt(envs, k));
        var ok := UpdateFeatures(updates, EnvAt(envs, k));
        DrainRunStep(buffer, envs, k);
        AppendStep(old(log), done, ops, done + ops);
        if !ok {
          return;
        }
        ghost var rest := DrainRun(buffer[1..], envs, k + 1);
        AppendStep(done, ops, rest.0, ops + rest.0);
        done := done + ops;
        buffer := buffer[1..];
        k := k + 1;
      }
    }

    /** The synchronous start of the telemetry handler: a batch is buffered only while fewer than two are pending. */
    method Receive(items: Batch) returns (accepted: bool)
      requires Valid()
      modifies this
      ensures Valid()
      ensures (buffer, accepted) == Offer(old(buffer), items)
      ensures log == old(log)
    {
      if |buffer| < MaxBufferSize {
        buffer := buffer + [items];
        accepted := true;
      } else {
        accepted := false;
      }
    }

    /**
     * The telemetry handler as a whole: a batch that finds the buffer full is
     * dropped and nothing is drained; otherwise it is buffered and the buffer
     * is drained, oldest batch first, until it is empty or a run is rejected.
     */
    method HandleBatch(items: Batch, envs: Timeline)
      requires Valid()
      modifies this
      ensures Valid()
      ensures var r := HandleStep(old(buffer), items, envs);
        buffer == r.0 && log == old(log) + r.1
    {
      var accepted := Receive(items);
      if !accepted {
        assert log == old(log) + [];
        return;
      }
      Drain(envs);
    }
  }
}
