/**
 * The MongoDB provider: it walks every observe handle of every observe
 * multiplexer, picks the handle's observe driver (its own, or else its
 * multiplexer's), and counts the handle overall, per observation strategy
 * (oplog tailing or polling) and per observed collection.
 */
module Mongo {
  import opened Wrappers
  import opened Counters
  import opened Info

  /** The fields of an observe driver that the provider reads. */
  datatype Driver = Driver(usesOplog: bool, collectionName: string)

  /** An observe handle: its own `_observeDriver`, and its multiplexer's. */
  datatype Handle = Handle(ownDriver: Option<Driver>, muxDriver: Option<Driver>)

  /** A handle the provider can classify: it has a driver of its own or through its multiplexer. */
  predicate HasDriver(h: Handle)
  {
    h.ownDriver.Some? || h.muxDriver.Some?
  }

  predicate AllHaveDrivers(hs: seq<Handle>)
  {
    forall i :: 0 <= i < |hs| ==> HasDriver(hs[i])
  }

  predicate MuxesHaveDrivers(muxes: seq<seq<Handle>>)
  {
    forall i, j :: 0 <= i < |muxes| && 0 <= j < |muxes[i]| ==> HasDriver(muxes[i][j])
  }

  /** The handle provides its own driver, or inherits its multiplexer's. */
  function DriverOf(h: Handle): Driver
    requires HasDriver(h)
  {
    if h.ownDriver.Some? then h.ownDriver.value else h.muxDriver.value
  }

  /** The two `info` keys a handle can be counted under. */
  datatype ObserverType = PollingObserveHandles | OplogObserveHandles

  function TypeOf(d: Driver): ObserverType
  {
    if d.usesOplog then OplogObserveHandles else PollingObserveHandles
  }

  /** What `getInfo` reports. */
  datatype MongoInfoData = MongoInfoData(
    nObserveHandles: nat,
    oplogObserveHandles: Counter,
    oplogObserveHandlesCount: nat,
    pollingObserveHandles: Counter,
    pollingObserveHandlesCount: nat)

  /** The `info` the constructor starts from. */
  const EMPTY_INFO := MongoInfoData(0, [], 0, [], 0)

  function CounterOf(info: MongoInfoData, t: ObserverType): Counter
  {
    match t
    case PollingObserveHandles => info.pollingObserveHandles
    case OplogObserveHandles => info.oplogObserveHandles
  }

  function CountOf(info: MongoInfoData, t: ObserverType): nat
  {
    match t
    case PollingObserveHandles => info.pollingObserveHandlesCount
    case OplogObserveHandles => info.oplogObserveHandlesCount
  }

  function Other(t: ObserverType): ObserverType
  {
    match t
    case PollingObserveHandles => OplogObserveHandles
    case OplogObserveHandles => PollingObserveHandles
  }

  /** Each strategy total is the sum of its Counter, and each Counter is a proper Map. */
  predicate Consistent(info: MongoInfoData)
  {
    && UniqueKeys(info.oplogObserveHandles)
    && UniqueKeys(info.pollingObserveHandles)
    && info.oplogObserveHandlesCount == Sum(info.oplogObserveHandles)
    && info.pollingObserveHandlesCount == Sum(info.pollingObserveHandles)
  }

  /** The overall total is the oplog total plus the polling total. */
  predicate Balanced(info: MongoInfoData)
  {
    info.nObserveHandles == info.oplogObserveHandlesCount + info.pollingObserveHandlesCount
  }

  /** The zeroed `info` satisfies the conservation invariant. */
  lemma EmptyInfoInvariant()
    ensures Consistent(EMPTY_INFO) && Balanced(EMPTY_INFO)
    ensures forall t, k :: Count(CounterOf(EMPTY_INFO, t), k) == 0 && CountOf(EMPTY_INFO, t) == 0
  {
  }

  /** The `info` that `buildCollectionInfo(t, name)` leaves behind. */
  function Collected(info: MongoInfoData, t: ObserverType, name: string): MongoInfoData
  {
    match t
    case PollingObserveHandles =>
      info.(pollingObserveHandlesCount := info.pollingObserveHandlesCount + 1,
            pollingObserveHandles := Increment(info.pollingObserveHandles, StrKey(name)))
    case OplogObserveHandles =>
      info.(oplogObserveHandlesCount := info.oplogObserveHandlesCount + 1,
            oplogObserveHandles := Increment(info.oplogObserveHandles, StrKey(name)))
  }

  /** The `info` that `buildHandleInfo(h)` leaves behind. */
  function HandleBuilt(info: MongoInfoData, h: Handle): MongoInfoData
    requires HasDriver(h)
  {
    var d := DriverOf(h);
    Collected(info.(nObserveHandles := info.nObserveHandles + 1), TypeOf(d), d.collectionName)
  }

  /** The `info` after `buildHandleInfo` on each of `hs`, in order. */
  function Tally(info: MongoInfoData, hs: seq<Handle>): MongoInfoData
    requires AllHaveDrivers(hs)
  {
    if |hs| == 0 then info else HandleBuilt(Tally(info, hs[..|hs| - 1]), hs[|hs| - 1])
  }

  /** The handles of all multiplexers, multiplexer by multiplexer. */
  function AllHandles(muxes: seq<seq<Handle>>): seq<Handle>
  {
    if |muxes| == 0 then [] else AllHandles(muxes[..|muxes| - 1]) + muxes[|muxes| - 1]
  }

  /** How many of `hs` are observed with strategy `t`. */
  function OfType(hs: seq<Handle>, t: ObserverType): nat
    requires AllHaveDrivers(hs)
  {
    if |hs| == 0 then 0
    else OfType(hs[..|hs| - 1], t) + (if TypeOf(DriverOf(hs[|hs| - 1])) == t then 1 else 0)
  }

  /** How many of `hs` observe collection `name` with strategy `t`. */
  function Occurrences(hs: seq<Handle>, t: ObserverType, name: string): nat
    requires AllHaveDrivers(hs)
  {
    if |hs| == 0 then 0
    else
      var d := DriverOf(hs[|hs| - 1]);
      Occurrences(hs[..|hs| - 1], t, name) + (if TypeOf(d) == t && d.collectionName == name then 1 else 0)
  }

  /** The collections that some of `hs` observe with strategy `t`, as Counter keys. */
  function Observed(hs: seq<Handle>, t: ObserverType): set<Key>
    requires AllHaveDrivers(hs)
  {
    if |hs| == 0 then {}
    else
      var d := DriverOf(hs[|hs| - 1]);
      Observed(hs[..|hs| - 1], t) + (if TypeOf(d) == t then {StrKey(d.collectionName)} else {})
  }

  /** A collection is observed with a strategy exactly when some handle observes it that way. */
  lemma {:induction false} ObservedSpec(hs: seq<Handle>, t: ObserverType, k: Key)
    requires AllHaveDrivers(hs)
    ensures k in Observed(hs, t) <==> k.StrKey? && Occurrences(hs, t, k.s) > 0
  {
    if |hs| > 0 {
      ObservedSpec(hs[..|hs| - 1], t, k);
    }
  }

  /**
   * `buildCollectionInfo` raises exactly the matching strategy total, adds one
   * to the collection's entry of the matching Counter (creating it at 1),
   * leaves every other entry, the other Counter and the overall total alone,
   * and keeps each strategy total equal to the sum of its Counter.
   */
  lemma CollectedSpec(info: MongoInfoData, t: ObserverType, name: string)
    ensures CountOf(Collected(info, t, name), t) == CountOf(info, t) + 1
    ensures CountOf(Collected(info, t, name), Other(t)) == CountOf(info, Other(t))
    ensures forall k :: Count(CounterOf(Collected(info, t, name), t), k)
                        == Count(CounterOf(info, t), k) + (if k == StrKey(name) then 1 else 0)
    ensures KeySet(CounterOf(Collected(info, t, name), t)) == KeySet(CounterOf(info, t)) + {StrKey(name)}
    ensures CounterOf(Collected(info, t, name), Other(t)) == CounterOf(info, Other(t))
    ensures Collected(info, t, name).nObserveHandles == info.nObserveHandles
    ensures Consistent(info) ==> Consistent(Collected(info, t, name))
  {
    IncrementSpec(CounterOf(info, t), StrKey(name));
  }

  /**
   * `buildHandleInfo` adds one to the overall total, counts the handle under
   * its driver's strategy and collection, and keeps the conservation invariant.
   */
  lemma HandleBuiltSpec(info: MongoInfoData, h: Handle)
    requires HasDriver(h)
    ensures HandleBuilt(info, h).nObserveHandles == info.nObserveHandles + 1
    ensures var d := DriverOf(h);
      && d == (if h.ownDriver.Some? then h.ownDriver.value else h.muxDriver.value)
      && CountOf(HandleBuilt(info, h), TypeOf(d)) == CountOf(info, TypeOf(d)) + 1
      && (TypeOf(d) == OplogObserveHandles <==> d.usesOplog)
      && Count(CounterOf(HandleBuilt(info, h), TypeOf(d)), StrKey(d.collectionName))
         == Count(CounterOf(info, TypeOf(d)), StrKey(d.collectionName)) + 1
    ensures Consistent(info) && Balanced(info) ==> Consistent(HandleBuilt(info, h)) && Balanced(HandleBuilt(info, h))
  {
    var d := DriverOf(h);
    CollectedSpec(info.(nObserveHandles := info.nObserveHandles + 1), TypeOf(d), d.collectionName);
  }

  /** Every handle is counted once overall and once under its own strategy. */
  lemma {:induction false} TallyTotals(info: MongoInfoData, hs: seq<Handle>)
    requires AllHaveDrivers(hs)
    ensures Tally(info, hs).nObserveHandles == info.nObserveHandles + |hs|
    ensures forall t :: CountOf(Tally(info, hs), t) == CountOf(info, t) + OfType(hs, t)
    ensures OfType(hs, OplogObserveHandles) + OfType(hs, PollingObserveHandles) == |hs|
  {
    if |hs| > 0 {
      var p := hs[..|hs| - 1];
      TallyTotals(info, p);
      var d := DriverOf(hs[|hs| - 1]);
      CollectedSpec(Tally(info, p).(nObserveHandles := Tally(info, p).nObserveHandles + 1), TypeOf(d), d.collectionName);
    }
  }

  /**
   * Every Counter entry is the number of handles observing that collection
   * with that strategy, on top of what the Counter held before.
   */
  lemma {:induction false} TallyCounters(info: MongoInfoData, hs: seq<Handle>, t: ObserverType, name: string)
    requires AllHaveDrivers(hs)
    ensures Count(CounterOf(Tally(info, hs), t), StrKey(name))
            == Count(CounterOf(info, t), StrKey(name)) + Occurrences(hs, t, name)
  {
    if |hs| > 0 {
      var p := hs[..|hs| - 1];
      TallyCounters(info, p, t, name);
      var d := DriverOf(hs[|hs| - 1]);
      var mid := Tally(info, p).(nObserveHandles := Tally(info, p).nObserveHandles + 1);
      CollectedSpec(mid, TypeOf(d), d.collectionName);
      if TypeOf(d) != t {
        assert t == Other(TypeOf(d));
      }
    }
  }

  /** A Counter gains exactly the keys of the collections observed with its strategy. */
  lemma {:induction false} TallyKeys(info: MongoInfoData, hs: seq<Handle>, t: ObserverType)
    requires AllHaveDrivers(hs)
    ensures KeySet(CounterOf(Tally(info, hs), t)) == KeySet(CounterOf(info, t)) + Observed(hs, t)
  {
    if |hs| > 0 {
      var p := hs[..|hs| - 1];
      TallyKeys(info, p, t);
      var d := DriverOf(hs[|hs| - 1]);
      var mid := Tally(info, p).(nObserveHandles := Tally(info, p).nObserveHandles + 1);
      CollectedSpec(mid, TypeOf(d), d.collectionName);
      if TypeOf(d) != t {
        assert t == Other(TypeOf(d));
      }
    }
  }

  /** Counting handles never breaks the conservation invariant. */
  lemma {:induction false} TallyPreservesInvariant(info: MongoInfoData, hs: seq<Handle>)
    requires AllHaveDrivers(hs)
    requires Consistent(info) && Balanced(info)
    ensures Consistent(Tally(info, hs)) && Balanced(Tally(info, hs))
  {
    if |hs| > 0 {
      TallyPreservesInvariant(info, hs[..|hs| - 1]);
      HandleBuiltSpec(Tally(info, hs[..|hs| - 1]), hs[|hs| - 1]);
    }
  }

  /** Counting a run of handles twice is counting the doubled run: nothing resets. */
  lemma {:induction false} TallyAppend(info: MongoInfoData, a: seq<Handle>, b: seq<Handle>)
    requires AllHaveDrivers(a) && AllHaveDrivers(b)
    ensures AllHaveDrivers(a + b)
    ensures Tally(info, a + b) == Tally(Tally(info, a), b)
  {
    if |b| > 0 {
      var b' := b[..|b| - 1];
      assert (a + b)[..|a + b| - 1] == a + b';
      TallyAppend(info, a, b');
    } else {
      assert a + b == a;
    }
  }

  /** Counting one more handle of `hs` is one more `buildHandleInfo`. */
  lemma TallyStep(info: MongoInfoData, hs: seq<Handle>, j: nat)
    requires AllHaveDrivers(hs) && j < |hs|
    ensures AllHaveDrivers(hs[..j]) && AllHaveDrivers(hs[..j + 1]) && HasDriver(hs[j])
    ensures Tally(info, hs[..j + 1]) == HandleBuilt(Tally(info, hs[..j]), hs[j])
  {
    assert hs[..j + 1][..j] == hs[..j];
  }

  lemma {:induction false} AllHandlesHaveDrivers(muxes: seq<seq<Handle>>)
    requires MuxesHaveDrivers(muxes)
    ensures AllHaveDrivers(AllHandles(muxes))
  {
    if |muxes| > 0 {
      var p := muxes[..|muxes| - 1];
      assert MuxesHaveDrivers(p) by {
        forall i, j | 0 <= i < |p| && 0 <= j < |p[i]| ensures HasDriver(p[i][j]) {
          assert p[i] == muxes[i];
        }
      }
      AllHandlesHaveDrivers(p);
      var last := muxes[|muxes| - 1];
      assert AllHandles(muxes) == AllHandles(p) + last;
      forall k | 0 <= k < |AllHandles(muxes)| ensures HasDriver(AllHandles(muxes)[k]) {
        if k >= |AllHandles(p)| {
          assert AllHandles(muxes)[k] == muxes[|muxes| - 1][k - |AllHandles(p)|];
        }
      }
    }
  }

  /** The names of the metrics `getInfo` reports. */
  const METRICS: set<string> := {"nObserveHandles", "oplogObserveHandles", "oplogObserveHandlesCount",
                                 "pollingObserveHandles", "pollingObserveHandlesCount"}

  /** What `getInfo` of a freshly built instance reports for these multiplexers. */
  function FreshInfo(muxes: seq<seq<Handle>>): (r: MongoInfoData)
    requires MuxesHaveDrivers(muxes)
    ensures AllHaveDrivers(AllHandles(muxes))
  {
    AllHandlesHaveDrivers(muxes);
    Tally(EMPTY_INFO, AllHandles(muxes))
  }

  /**
   * A fresh instance's report keeps the invariant, counts every handle once,
   * and splits them by strategy and by collection.
   */
  lemma FreshInfoSpec(muxes: seq<seq<Handle>>, t: ObserverType, name: string)
    requires MuxesHaveDrivers(muxes)
    ensures Consistent(FreshInfo(muxes)) && Balanced(FreshInfo(muxes))
    ensures FreshInfo(muxes).nObserveHandles == |AllHandles(muxes)|
    ensures CountOf(FreshInfo(muxes), t) == OfType(AllHandles(muxes), t)
    ensures Count(CounterOf(FreshInfo(muxes), t), StrKey(name)) == Occurrences(AllHandles(muxes), t, name)
    ensures KeySet(CounterOf(FreshInfo(muxes), t)) == Observed(AllHandles(muxes), t)
  {
    var hs := AllHandles(muxes);
    AllHandlesHaveDrivers(muxes);
    var r := Tally(EMPTY_INFO, hs);
    assert FreshInfo(muxes) == r;
    assert Consistent(r) && Balanced(r) by {
      EmptyInfoInvariant();
      TallyPreservesInvariant(EMPTY_INFO, hs);
    }
    assert r.nObserveHandles == |hs| && CountOf(r, t) == OfType(hs, t) by {
      TallyTotals(EMPTY_INFO, hs);
    }
    assert Count(CounterOf(r, t), StrKey(name)) == Occurrences(hs, t, name) by {
      TallyCounters(EMPTY_INFO, hs, t, name);
    }
    assert KeySet(CounterOf(r, t)) == Observed(hs, t) by {
      TallyKeys(EMPTY_INFO, hs, t);
    }
  }

  /** `getInfo`'s result as the `IInfoData` the aggregator reduces. */
  function ToInfoData(d: MongoInfoData): InfoData
  {
    [
      ("nObserveHandles", Scalar(d.nObserveHandles as real)),
      ("oplogObserveHandles", Ctr(d.oplogObserveHandles)),
      ("oplogObserveHandlesCount", Scalar(d.oplogObserveHandlesCount as real)),
      ("pollingObserveHandles", Ctr(d.pollingObserveHandles)),
      ("pollingObserveHandlesCount", Scalar(d.pollingObserveHandlesCount as real))
    ]
  }

  /**
   * `getInfo` reports exactly the metrics the description documents, each
   * once, and a consistent report is a well-formed `IInfoData`.
   */
  lemma DataMatchesMetrics(d: MongoInfoData)
    ensures Names(ToInfoData(d)) == METRICS
    ensures UniqueNames(ToInfoData(d))
    ensures Consistent(d) ==> WellFormed(ToInfoData(d))
  {
    var data := ToInfoData(d);
    assert data[0].0 == "nObserveHandles" && data[1].0 == "oplogObserveHandles";
    assert data[2].0 == "oplogObserveHandlesCount" && data[3].0 == "pollingObserveHandles";
    assert data[4].0 == "pollingObserveHandlesCount";
  }

  class MongoInfo {
    var info: MongoInfoData
    /** The observe multiplexers, each as its handles, read once at construction. */
    const muxes: seq<seq<Handle>>

    predicate Valid()
      reads this
    {
      Consistent(info) && Balanced(info)
    }

    constructor (muxes: seq<seq<Handle>>)
      ensures info == EMPTY_INFO && this.muxes == muxes
    {
      info := EMPTY_INFO;
      this.muxes := muxes;
    }

    method BuildCollectionInfo(observerType: ObserverType, collectionName: string)
      modifies this
      ensures info == Collected(old(info), observerType, collectionName)
      ensures CountOf(info, observerType) == CountOf(old(info), observerType) + 1
      ensures CountOf(info, Other(observerType)) == CountOf(old(info), Other(observerType))
      ensures forall k :: Count(CounterOf(info, observerType), k)
                          == Count(CounterOf(old(info), observerType), k) + (if k == StrKey(collectionName) then 1 else 0)
      ensures CounterOf(info, Other(observerType)) == CounterOf(old(info), Other(observerType))
      ensures Consistent(old(info)) ==> Consistent(info)
    {
      ghost var info0 := info;
      match observerType {
        case PollingObserveHandles =>
          info := info.(pollingObserveHandlesCount := info.pollingObserveHandlesCount + 1);
        case OplogObserveHandles =>
          info := info.(oplogObserveHandlesCount := info.oplogObserveHandlesCount + 1);
      }
      var key := StrKey(collectionName);
      var counter := CounterOf(info, observerType);
      ghost var counter0 := counter;
      if !Has(counter, key) {
        counter := Set(counter, key, 0);
        SetTwice(counter0, key, 0, 1);
      }
      SetGet(counter0, key, 0, key);
      counter := Set(counter, key, Get(counter, key).value + 1);
      assert counter == Increment(counter0, key);
      match observerType {
        case PollingObserveHandles =>
          info := info.(pollingObserveHandles := counter);
        case OplogObserveHandles =>
          info := info.(oplogObserveHandles := counter);
      }
      CollectedSpec(info0, observerType, collectionName);
    }

    method BuildHandleInfo(handle: Handle)
      requires HasDriver(handle)
      modifies this
      ensures info == HandleBuilt(old(info), handle)
      ensures info.nObserveHandles == old(info.nObserveHandles) + 1
      ensures old(Valid()) ==> Valid()
    {
      ghost var info0 := info;
      info := info.(nObserveHandles := info.nObserveHandles + 1);
      var driver := if handle.ownDriver.Some? then handle.ownDriver.value else handle.muxDriver.value;
      var collectionName := driver.collectionName;
      var observerType := if driver.usesOplog then OplogObserveHandles else PollingObserveHandles;
      BuildCollectionInfo(observerType, collectionName);
      HandleBuiltSpec(info0, handle);
    }

    /** The provider's `getDescription`: one entry per reported key. */
    static function GetDescription(): (r: InfoDescription)
      ensures r.Keys == METRICS
    {
      map[
        "nObserveHandles" := Info.Description("integer", "Overall observers count"),
        "oplogObserveHandles" := Info.Description("array", "Oplog-based observers[]"),
        "oplogObserveHandlesCount" := Info.Description("integer", "Oplog-based observers"),
        "pollingObserveHandles" := Info.Description("array", "Polling-based observers[]"),
        "pollingObserveHandlesCount" := Info.Description("integer", "Polling-based observers")
      ]
    }

    /** Counts every handle of every multiplexer into `info`, which is never reset. */
    method GetInfo() returns (r: MongoInfoData)
      requires MuxesHaveDrivers(muxes)
      modifies this
      ensures AllHaveDrivers(AllHandles(muxes))
      ensures info == Tally(old(info), AllHandles(muxes)) && r == info
      ensures old(Valid()) ==> Valid()
    {
      AllHandlesHaveDrivers(muxes);
      for i := 0 to |muxes|
        invariant AllHaveDrivers(AllHandles(muxes[..i]))
        invariant info == Tally(old(info), AllHandles(muxes[..i]))
      {
        var mux := muxes[i];
        ghost var done := AllHandles(muxes[..i]);
        assert AllHandles(muxes[..i + 1]) == done + mux by {
          assert muxes[..i + 1][..i] == muxes[..i];
        }
        ghost var start := info;
        assert AllHaveDrivers(mux) by {
          assert forall k :: 0 <= k < |mux| ==> mux[k] == muxes[i][k];
        }
        for j := 0 to |mux|
          invariant info == Tally(start, mux[..j])
        {
          TallyStep(start, mux, j);
          BuildHandleInfo(mux[j]);
        }
        assert mux[..|mux|] == mux;
        TallyAppend(old(info), done, mux);
      }
      assert muxes[..|muxes|] == muxes;
      r := info;
      if old(Valid()) {
        TallyPreservesInvariant(old(info), AllHandles(muxes));
      }
    }
  }

  /**
   * Two oplog handles on "orders" and one polling handle on "users", counted
   * from the zeroed `info`: 3 handles, {orders: 2} with total 2 for oplog and
   * {users: 1} with total 1 for polling.
   */
  lemma TallyExample()
    ensures Tally(EMPTY_INFO, [Handle(None, Some(Driver(true, "orders"))),
                               Handle(None, Some(Driver(true, "orders"))),
                               Handle(Some(Driver(false, "users")), None)])
            == MongoInfoData(3, [(StrKey("orders"), 2)], 2, [(StrKey("users"), 1)], 1)
  {
    var orders := Handle(None, Some(Driver(true, "orders")));
    var users := Handle(Some(Driver(false, "users")), None);
    var hs := [orders, orders, users];
    assert hs[..2] == [orders, orders] && hs[..2][..1] == [orders] && [orders][..0] == [];
    var o1: Counter := [(StrKey("orders"), 1)];
    assert Increment([], StrKey("orders")) == o1 by {
      assert Find([], StrKey("orders")) == None;
    }
    assert Increment(o1, StrKey("orders")) == [(StrKey("orders"), 2)] by {
      assert Find(o1, StrKey("orders")) == Some(0);
    }
    assert Increment([], StrKey("users")) == [(StrKey("users"), 1)] by {
      assert Find([], StrKey("users")) == None;
    }
    var one := MongoInfoData(1, o1, 1, [], 0);
    var two := MongoInfoData(2, [(StrKey("orders"), 2)], 2, [], 0);
    assert HandleBuilt(EMPTY_INFO, orders) == one;
    assert HandleBuilt(one, orders) == two;
    assert Tally(EMPTY_INFO, [orders]) == one by {
      assert Tally(EMPTY_INFO, [orders][..0]) == EMPTY_INFO;
    }
    assert Tally(EMPTY_INFO, [orders, orders]) == two;
    assert HandleBuilt(two, users) == MongoInfoData(3, [(StrKey("orders"), 2)], 2, [(StrKey("users"), 1)], 1);
  }

  lemma TallyOfExample(muxes: seq<seq<Handle>>)
    requires MuxesHaveDrivers(muxes)
    requires AllHandles(muxes) == [Handle(None, Some(Driver(true, "orders"))),
                                   Handle(None, Some(Driver(true, "orders"))),
                                   Handle(Some(Driver(false, "users")), None)]
    ensures AllHaveDrivers(AllHandles(muxes))
    ensures Tally(EMPTY_INFO, AllHandles(muxes))
            == MongoInfoData(3, [(StrKey("orders"), 2)], 2, [(StrKey("users"), 1)], 1)
  {
    TallyExample();
  }

  /**
   * A fresh provider's `getInfo` over multiplexers holding, in order, two
   * oplog handles on "orders" (driver inherited from the multiplexer) and
   * one polling handle on "users" (driver of its own).
   */
  method CollectExample(muxes: seq<seq<Handle>>) returns (data: MongoInfoData)
    requires MuxesHaveDrivers(muxes)
    requires AllHandles(muxes) == [Handle(None, Some(Driver(true, "orders"))),
                                   Handle(None, Some(Driver(true, "orders"))),
                                   Handle(Some(Driver(false, "users")), None)]
    ensures data == MongoInfoData(3, [(StrKey("orders"), 2)], 2, [(StrKey("users"), 1)], 1)
  {
    TallyOfExample(muxes);
    var provider := new MongoInfo(muxes);
    data := provider.GetInfo();
  }

  /**
   * `getInfo` never resets `info`: a second call on the same instance
   * counts every handle again on top of the first report.
   */
  method GetInfoTwice(muxes: seq<seq<Handle>>) returns (first: MongoInfoData, second: MongoInfoData)
    requires MuxesHaveDrivers(muxes)
    ensures first == FreshInfo(muxes)
    ensures second == Tally(first, AllHandles(muxes))
    ensures second.nObserveHandles == 2 * first.nObserveHandles
  {
    var provider := new MongoInfo(muxes);
    first := provider.GetInfo();
    second := provider.GetInfo();
    assert second.nObserveHandles == first.nObserveHandles + |AllHandles(muxes)| by {
      TallyTotals(first, AllHandles(muxes));
    }
    assert first.nObserveHandles == |AllHandles(muxes)| by {
      FreshInfoSpec(muxes, OplogObserveHandles, "");
    }
  }
}
