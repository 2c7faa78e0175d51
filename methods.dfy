/** The recording front end (method.go): name registration and the calls
    that route a value into the current bucket. */
module Methods {
  import opened Prelude
  import opened Errors
  import opened StoreStruct
  import opened MinStorage
  import opened StorageCore

  /** The describe string every timing average is registered with. */
  const AvgDescribe := "Record a func time avg metric"

  /** A persistent slot as registration stores it: the initial value, or nil
      when the kind has none. */
  function SlotOf(r: Result<SpecValue, Error>): (s: Slot)
    ensures s.Some? <==> r.Ok?
    ensures r.Ok? ==> s.value == r.value
  {
    if r.Ok? then Some(r.value) else None
  }

  /** What a Record* call hands back: the closure the caller runs when the
      measured work ends, told apart by what it will do. */
  datatype Recording =
    | AddOnDone(name: string, value: real)   // Add(name, value)
    | SetOnDone(name: string, value: real)   // Set(name, value)
    | TimesOnDone(name: string)              // Add(name, elapsed ms)
    | AvgOnDone(id: int)                     // AddPersistent(id, Avg, elapsed ms)

  /** MONITOR: every call goes to the current bucket and registry of `core`. */
  class Monitor {
    const core: Storage

    ghost predicate Valid()
      reads this, core, core.metricMap, core.nowMonitor, core.historyMonitor
    {
      core.Valid()
    }

    constructor (core: Storage)
      requires core.Valid()
      ensures this.core == core && Valid()
    {
      this.core := core;
    }

    /** getCallNameMaeID: the identity bound to `callName`, or -1 and false. */
    method GetCallNameMaeID(callName: string) returns (id: int, ok: bool)
      requires Valid()
      ensures ok <==> callName in core.metricMap.callNames
      ensures ok ==> id == core.metricMap.callNames[callName] && id in core.metricMap.byId
      ensures !ok ==> id == -1
    {
      if callName in core.metricMap.callNames {
        id, ok := core.metricMap.callNames[callName], true;
      } else {
        id, ok := -1, false;
      }
    }

    /** initNewMetricName: hand out the next identity, bind the name to it
        (re-binding a name already bound), record its description and give the
        current bucket its initial slot; an unsupported kind still registers,
        with a nil slot and the error. */
    method InitNewMetricName(name: string, kind: int, describe: string, tags: map<string, string>)
        returns (id: int, err: Option<Error>)
      requires Valid()
      modifies core.metricMap, core.nowMonitor
      ensures Valid()
      ensures id == old(core.metricMap.lastId) + 1 && core.metricMap.lastId == id
      ensures id !in old(core.metricMap.byId)
      ensures core.metricMap.callNames == old(core.metricMap.callNames)[name := id]
      ensures core.metricMap.byId == old(core.metricMap.byId)[id := InitMetricName(name, kind, describe, tags)]
      ensures core.nowMonitor.persistentData == old(core.nowMonitor.persistentData)[id := SlotOf(InitSpecValue(kind))]
      ensures core.nowMonitor.data == old(core.nowMonitor.data)
      ensures err == None <==> IsKind(kind)
      ensures err != None ==> err == Some(ErrUnexpectMetricType)
    {
      var mStruct := InitMetricName(name, kind, describe, tags);
      var vStruct := InitSpecValue(kind);
      var registry := core.metricMap;
      registry.lastId := registry.lastId + 1;
      id := registry.lastId;
      registry.callNames := registry.callNames[name := id];
      registry.byId := registry.byId[id := mStruct];
      var bucket := core.nowMonitor;
      bucket.persistentData := bucket.persistentData[id := SlotOf(vStruct)];
      err := if vStruct.Err? then Some(vStruct.error) else None;
    }

    /** Add: the current bucket's ad-hoc entry grows by `value`. */
    method Add(name: string, value: real)
      requires Valid()
      modifies core.nowMonitor
      ensures Valid()
      ensures core.nowMonitor.data == old(core.nowMonitor.data)[name := ValueOr0(old(core.nowMonitor.data), name) + value]
      ensures core.nowMonitor.persistentData == old(core.nowMonitor.persistentData)
    {
      core.nowMonitor.Add(name, value);
    }

    /** Set: the current bucket's ad-hoc entry becomes `value`. */
    method Set(name: string, value: real)
      requires Valid()
      modifies core.nowMonitor
      ensures Valid()
      ensures core.nowMonitor.data == old(core.nowMonitor.data)[name := value]
      ensures core.nowMonitor.persistentData == old(core.nowMonitor.persistentData)
    {
      core.nowMonitor.Set(name, value);
    }

    /** AddPersistent: combine into the current bucket's slot. */
    method AddPersistent(mapId: int, metricType: int, value: real) returns (outcome: Outcome)
      requires Valid()
      modifies core.nowMonitor
      ensures Valid()
      ensures core.nowMonitor.data == old(core.nowMonitor.data)
      ensures (outcome, core.nowMonitor.persistentData)
           == AddPersistentTo(old(core.nowMonitor.persistentData), mapId, metricType, value)
    {
      outcome := core.nowMonitor.AddPersistent(mapId, metricType, value);
    }

    /** SetPersistent: overwrite the current bucket's slot. */
    method SetPersistent(mapId: int, metricType: int, value: real) returns (outcome: Outcome)
      requires Valid()
      modifies core.nowMonitor
      ensures Valid()
      ensures core.nowMonitor.data == old(core.nowMonitor.data)
      ensures (outcome, core.nowMonitor.persistentData)
           == SetPersistentTo(old(core.nowMonitor.persistentData), mapId, metricType, value)
    {
      outcome := core.nowMonitor.SetPersistent(mapId, metricType, value);
    }

    /** RecordMetircTimeAvg (and RecordFuncTimeAvg, whose name is the caller's
        function name): look the name up, registering it as an Avg metric with
        no tags the first time, and hand back a closure for that identity. */
    method RecordMetircTimeAvg(callName: string) returns (rec: Recording)
      requires Valid()
      modifies core.metricMap, core.nowMonitor
      ensures Valid()
      ensures callName in core.metricMap.callNames && rec == AvgOnDone(core.metricMap.callNames[callName])
      ensures callName in old(core.metricMap.callNames) ==>
        && rec.id == old(core.metricMap.callNames[callName])
        && unchanged(core.metricMap) && unchanged(core.nowMonitor)
      ensures callName !in old(core.metricMap.callNames) ==>
        && rec.id == old(core.metricMap.lastId) + 1
        && core.metricMap.lastId == rec.id
        && core.metricMap.callNames == old(core.metricMap.callNames)[callName := rec.id]
        && core.metricMap.byId == old(core.metricMap.byId)[rec.id := InitMetricName(callName, AvgMetric, AvgDescribe, map[])]
        && core.nowMonitor.persistentData == old(core.nowMonitor.persistentData)[rec.id := Some(NewBaseSpecValue())]
        && core.nowMonitor.data == old(core.nowMonitor.data)
    {
      var id, ok := GetCallNameMaeID(callName);
      if !ok {
        var err;
        id, err := InitNewMetricName(callName, AvgMetric, AvgDescribe, map[]);
      }
      rec := AvgOnDone(id);
    }

    /** RecordFuncCount and RecordMetricCount: a closure adding 1. */
    method RecordMetricCount(name: string) returns (rec: Recording)
      ensures rec == AddOnDone(name, 1.0)
    {
      rec := AddOnDone(name, 1.0);
    }

    /** RecordMetricSum: a closure adding `value`. */
    method RecordMetricSum(name: string, value: real) returns (rec: Recording)
      ensures rec == AddOnDone(name, value)
    {
      rec := AddOnDone(name, value);
    }

    /** RecordMetric: a closure setting `value`. */
    method RecordMetric(name: string, value: real) returns (rec: Recording)
      ensures rec == SetOnDone(name, value)
    {
      rec := SetOnDone(name, value);
    }

    /** RecordFuncTimes: a closure adding the elapsed milliseconds under the
        caller's function name. */
    method RecordFuncTimes(callFuncName: string) returns (rec: Recording)
      ensures rec == TimesOnDone(callFuncName)
    {
      rec := TimesOnDone(callFuncName);
    }

    /** Running a closure, `elapsedMs` after its Record* call. */
    method Finish(rec: Recording, elapsedMs: real) returns (outcome: Outcome)
      requires Valid()
      modifies core.nowMonitor
      ensures Valid()
      ensures rec.AddOnDone? ==>
        && outcome == Applied
        && core.nowMonitor.data == old(core.nowMonitor.data)[rec.name := ValueOr0(old(core.nowMonitor.data), rec.name) + rec.value]
        && core.nowMonitor.persistentData == old(core.nowMonitor.persistentData)
      ensures rec.SetOnDone? ==>
        && outcome == Applied
        && core.nowMonitor.data == old(core.nowMonitor.data)[rec.name := rec.value]
        && core.nowMonitor.persistentData == old(core.nowMonitor.persistentData)
      ensures rec.TimesOnDone? ==>
        && outcome == Applied
        && core.nowMonitor.data == old(core.nowMonitor.data)[rec.name := ValueOr0(old(core.nowMonitor.data), rec.name) + elapsedMs]
        && core.nowMonitor.persistentData == old(core.nowMonitor.persistentData)
      ensures rec.AvgOnDone? ==>
        && core.nowMonitor.data == old(core.nowMonitor.data)
        && (outcome, core.nowMonitor.persistentData)
           == AddPersistentTo(old(core.nowMonitor.persistentData), rec.id, AvgMetric, elapsedMs)
    {
      match rec
      case AddOnDone(name, value) =>
        Add(name, value);
        outcome := Applied;
      case SetOnDone(name, value) =>
        Set(name, value);
        outcome := Applied;
      case TimesOnDone(name) =>
        Add(name, elapsedMs);
        outcome := Applied;
      case AvgOnDone(id) =>
        outcome := AddPersistent(id, AvgMetric, elapsedMs);
    }
  }

  /** A timing average recorded through a fresh name always lands: the slot
      registration created is there, holds a digest-free value, and the
      closure adds the elapsed time to its sum and one to its count. */
  method TimeAvgLands(m: Monitor, callName: string, elapsedMs: real) returns (id: int, outcome: Outcome)
    requires m.Valid()
    requires callName !in m.core.metricMap.callNames
    modifies m.core.metricMap, m.core.nowMonitor
    ensures m.Valid()
    ensures outcome == Applied
    ensures callName in m.core.metricMap.callNames && m.core.metricMap.callNames[callName] == id
    ensures id in m.core.nowMonitor.persistentData
    ensures m.core.nowMonitor.persistentData[id] == Some(SpecValue(elapsedMs, 1, NoSketch))
  {
    var rec := m.RecordMetircTimeAvg(callName);
    id := rec.id;
    outcome := m.Finish(rec, elapsedMs);
  }

  /** Registering a name twice hands out two distinct identities; both stay
      registered and the name ends bound to the second. */
  method RegisterTwice(m: Monitor, name: string, kind: int) returns (first: int, second: int)
    requires m.Valid()
    modifies m.core.metricMap, m.core.nowMonitor
    ensures m.Valid()
    ensures first != second
    ensures first in m.core.metricMap.byId && second in m.core.metricMap.byId
    ensures name in m.core.metricMap.callNames && m.core.metricMap.callNames[name] == second
  {
    var err;
    first, err := m.InitNewMetricName(name, kind, "", map[]);
    second, err := m.InitNewMetricName(name, kind, "", map[]);
  }
}
