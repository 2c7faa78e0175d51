/** The interval bucket (min_storage.go): ad-hoc values by name and
    persistent accumulators by metric identity. */
module MinStorage {
  import opened Prelude
  import opened Errors
  import opened StoreStruct

  /** What a persistent update did. The source logs `MissingId` and
      `SetUnsupported`; `NilValue` and `NilDigest` are the nil-pointer panics
      of locking an empty slot and of feeding a value that has no t-digest. */
  datatype Outcome = Applied | MissingId | NilValue | NilDigest | SetUnsupported

  /** A persistent slot as Go stores it: a `*SpecValue` that may be nil. */
  type Slot = Option<SpecValue>

  /** Go's read of a missing map key: the zero value. */
  function ValueOr0(data: map<string, real>, name: string): (r: real) {
    if name in data then data[name] else 0.0
  }

  /** One AddPersistent step on an existing value, by the kind the CALLER
      passes; None is the panic of adding to a value without a digest. */
  function Combine(sv: SpecValue, kind: int, v: real): (r: Option<SpecValue>)
    ensures r.None? <==> kind == QuantileMetric && sv.otd.NoSketch?
    ensures (kind == BaseMetric || kind == SumMetric) ==>
      r.Some? && r.value.sum == sv.sum + v && r.value.count == sv.count && r.value.otd == sv.otd
    ensures (kind == AvgMetric || kind == CountSumMetric || kind == CountAvgMetric) ==>
      r.Some? && r.value.sum == sv.sum + v && r.value.count == Inc64(sv.count) && r.value.otd == sv.otd
    ensures kind == CountMetric ==>
      r.Some? && r.value.sum == sv.sum && r.value.count == Inc64(sv.count) && r.value.otd == sv.otd
    ensures kind == QuantileMetric && r.Some? ==>
      && sv.otd.Digest? && r.value.sum == sv.sum && r.value.count == sv.count
      && r.value.otd == Digest(sv.otd.inserted + [v])
    ensures !IsKind(kind) ==> r == Some(sv)
  {
    if kind == BaseMetric || kind == SumMetric then
      Some(sv.(sum := sv.sum + v))
    else if kind == AvgMetric || kind == CountSumMetric || kind == CountAvgMetric then
      Some(sv.(sum := sv.sum + v, count := Inc64(sv.count)))
    else if kind == CountMetric then
      Some(sv.(count := Inc64(sv.count)))
    else if kind == QuantileMetric then
      match sv.otd
      case NoSketch => None
      case Digest(s) => Some(sv.(otd := Digest(s + [v])))
    else
      Some(sv)
  }

  /** One SetPersistent step on an existing value; Quantile falls through
      unchanged (the source logs that Set is not supported for it). */
  function Overwrite(sv: SpecValue, kind: int, v: real): (r: SpecValue)
    ensures r.otd == sv.otd
    ensures (kind == BaseMetric || kind == SumMetric) ==> r.sum == v && r.count == sv.count
    ensures kind == CountMetric ==> r.sum == sv.sum && r.count == 1
    ensures (kind == AvgMetric || kind == CountSumMetric || kind == CountAvgMetric) ==> r.sum == v && r.count == 1
    ensures (kind == QuantileMetric || !IsKind(kind)) ==> r == sv
  {
    if kind == BaseMetric || kind == SumMetric then
      sv.(sum := v)
    else if kind == CountMetric then
      sv.(count := 1)
    else if kind == AvgMetric || kind == CountSumMetric || kind == CountAvgMetric then
      sv.(sum := v, count := 1)
    else
      sv
  }

  /** The result of AddPersistent applied with each of `vs` in turn. */
  function Fold(sv: SpecValue, kind: int, vs: seq<real>): (r: Option<SpecValue>)
    decreases |vs|
  {
    if vs == [] then Some(sv)
    else match Combine(sv, kind, vs[0])
      case None => None
      case Some(next) => Fold(next, kind, vs[1..])
  }

  /** Count ignores the values: n additions raise the count by n and touch
      nothing else (below the int64 limit). */
  lemma {:induction false} FoldCount(sv: SpecValue, vs: seq<real>)
    requires sv.count as int + |vs| <= MaxInt64
    ensures Fold(sv, CountMetric, vs) == Some(sv.(count := (sv.count as int + |vs|) as int64))
    decreases |vs|
  {
    if vs != [] {
      FoldCount(sv.(count := sv.count + 1), vs[1..]);
    }
  }

  /** Avg, CountSum and CountAvg add every value to the sum and count one
      per value. */
  lemma {:induction false} FoldSumCount(sv: SpecValue, kind: int, vs: seq<real>)
    requires kind == AvgMetric || kind == CountSumMetric || kind == CountAvgMetric
    requires sv.count as int + |vs| <= MaxInt64
    ensures Fold(sv, kind, vs) == Some(sv.(sum := sv.sum + Sum(vs), count := (sv.count as int + |vs|) as int64))
    decreases |vs|
  {
    if vs != [] {
      FoldSumCount(sv.(sum := sv.sum + vs[0], count := sv.count + 1), kind, vs[1..]);
    }
  }

  /** Base and Sum add every value to the sum and leave the count alone. */
  lemma {:induction false} FoldSum(sv: SpecValue, kind: int, vs: seq<real>)
    requires kind == BaseMetric || kind == SumMetric
    ensures Fold(sv, kind, vs) == Some(sv.(sum := sv.sum + Sum(vs)))
    decreases |vs|
  {
    if vs != [] {
      FoldSum(sv.(sum := sv.sum + vs[0]), kind, vs[1..]);
    }
  }

  /** Quantile feeds every value, in order, to the digest; with no digest the
      first value already panics. */
  lemma {:induction false} FoldQuantile(sv: SpecValue, vs: seq<real>)
    ensures sv.otd.Digest? ==> Fold(sv, QuantileMetric, vs) == Some(sv.(otd := Digest(sv.otd.inserted + vs)))
    ensures sv.otd.NoSketch? && vs != [] ==> Fold(sv, QuantileMetric, vs).None?
    decreases |vs|
  {
    if vs == [] {
      assert sv.otd.Digest? ==> sv.otd.inserted + vs == sv.otd.inserted;
    } else if sv.otd.Digest? {
      var next := sv.(otd := Digest(sv.otd.inserted + [vs[0]]));
      FoldQuantile(next, vs[1..]);
      assert sv.otd.inserted + [vs[0]] + vs[1..] == sv.otd.inserted + vs;
    }
  }

  /** Kinds outside the enumeration never change the value. */
  lemma {:induction false} FoldUnknownKind(sv: SpecValue, kind: int, vs: seq<real>)
    requires !IsKind(kind)
    ensures Fold(sv, kind, vs) == Some(sv)
    decreases |vs|
  {
    if vs != [] {
      FoldUnknownKind(sv, kind, vs[1..]);
    }
  }

  /** AddPersistent on a whole persistent map: the outcome and the new map.
      Only the addressed slot can change, and no slot appears or vanishes. */
  function AddPersistentTo(pd: map<int, Slot>, id: int, kind: int, v: real): (r: (Outcome, map<int, Slot>))
    ensures r.1.Keys == pd.Keys
    ensures forall k :: k in pd && k != id ==> r.1[k] == pd[k]
    ensures r.0 == Applied <==> id in pd && pd[id].Some? && Combine(pd[id].value, kind, v).Some?
    ensures r.0 != Applied ==> r.1 == pd
    ensures r.0 == MissingId <==> id !in pd
    ensures r.0 == NilValue <==> id in pd && pd[id].None?
    ensures r.0 == NilDigest <==> id in pd && pd[id].Some? && Combine(pd[id].value, kind, v).None?
    ensures r.0 == Applied ==> r.1[id] == Combine(pd[id].value, kind, v)
  {
    if id !in pd then (MissingId, pd)
    else if pd[id].None? then (NilValue, pd)
    else match Combine(pd[id].value, kind, v)
      case None => (NilDigest, pd)
      case Some(sv) => (Applied, pd[id := Some(sv)])
  }

  /** SetPersistent on a whole persistent map, in the same shape. */
  function SetPersistentTo(pd: map<int, Slot>, id: int, kind: int, v: real): (r: (Outcome, map<int, Slot>))
    ensures r.1.Keys == pd.Keys
    ensures forall k :: k in pd && k != id ==> r.1[k] == pd[k]
    ensures r.0 == MissingId <==> id !in pd
    ensures r.0 == SetUnsupported <==> id in pd && pd[id].Some? && kind == QuantileMetric
    ensures r.0 == NilValue <==> id in pd && pd[id].None?
    ensures r.0 == Applied <==> id in pd && pd[id].Some? && kind != QuantileMetric
    ensures r.0 != Applied ==> r.1 == pd
    ensures r.0 == Applied ==> r.1[id] == Some(Overwrite(pd[id].value, kind, v))
  {
    if id !in pd then (MissingId, pd)
    else if pd[id].None? then (NilValue, pd)
    else (if kind == QuantileMetric then SetUnsupported else Applied,
          pd[id := Some(Overwrite(pd[id].value, kind, v))])
  }

  /** SetPersistent then AddPersistent on an averaging kind: the set value
      restarts the accumulator at one observation, and every later addition
      counts on top of it (below the int64 limit). */
  lemma SetThenAdds(sv: SpecValue, kind: int, v: real, vs: seq<real>)
    requires kind == AvgMetric || kind == CountSumMetric || kind == CountAvgMetric
    requires 1 + |vs| <= MaxInt64
    ensures Fold(Overwrite(sv, kind, v), kind, vs) == Some(sv.(sum := v + Sum(vs), count := (1 + |vs|) as int64))
  {
    FoldSumCount(Overwrite(sv, kind, v), kind, vs);
  }

  /** Setting twice with the same value is setting once. */
  lemma SetPersistentIdempotent(pd: map<int, Slot>, id: int, kind: int, v: real)
    ensures SetPersistentTo(SetPersistentTo(pd, id, kind, v).1, id, kind, v) == SetPersistentTo(pd, id, kind, v)
  {
    if id in pd && pd[id].Some? {
      var once := Overwrite(pd[id].value, kind, v);
      assert Overwrite(once, kind, v) == once;
      assert pd[id := Some(once)][id := Some(once)] == pd[id := Some(once)];
    }
  }

  /** The ad-hoc map after Add(name, v) for each v of `vs` in turn. */
  function AddAll(data: map<string, real>, name: string, vs: seq<real>): (r: map<string, real>)
    decreases |vs|
  {
    if vs == [] then data
    else AddAll(data[name := ValueOr0(data, name) + vs[0]], name, vs[1..])
  }

  /** One more Add at the end of a run is one more step of AddAll: a run of
      OneMinStorage.Add (or Monitor.Add) calls on `name` leaves the map at
      AddAll of their values. */
  lemma {:induction false} AddAllSnoc(data: map<string, real>, name: string, vs: seq<real>, v: real)
    ensures AddAll(data, name, vs + [v]) == AddAll(data, name, vs)[name := ValueOr0(AddAll(data, name, vs), name) + v]
    decreases |vs|
  {
    if vs == [] {
      assert [] + [v] == [v];
    } else {
      assert (vs + [v])[1..] == vs[1..] + [v];
      AddAllSnoc(data[name := ValueOr0(data, name) + vs[0]], name, vs[1..], v);
    }
  }

  /** Repeated Add accumulates the sum of the values onto the old entry
      (zero if absent) and leaves every other name as it was. */
  lemma {:induction false} AddAllSums(data: map<string, real>, name: string, vs: seq<real>)
    ensures name in AddAll(data, name, vs) || vs == []
    ensures ValueOr0(AddAll(data, name, vs), name) == ValueOr0(data, name) + Sum(vs)
    ensures forall n :: n != name ==> (n in AddAll(data, name, vs) <==> n in data)
    ensures forall n :: n != name && n in data ==> AddAll(data, name, vs)[n] == data[n]
    decreases |vs|
  {
    if vs != [] {
      AddAllSums(data[name := ValueOr0(data, name) + vs[0]], name, vs[1..]);
    }
  }

  /** OneMinStorage: one accumulation interval. `Ts` is not modelled. */
  class OneMinStorage {
    var persistentData: map<int, Slot>
    var data: map<string, real>

    /** NewOneMinStorage: both maps empty. */
    constructor ()
      ensures persistentData == map[] && data == map[]
    {
      persistentData := map[];
      data := map[];
    }

    /** Add: the entry grows by `value`, starting from zero when absent. */
    method Add(name: string, value: real)
      modifies this
      ensures data == old(data)[name := ValueOr0(old(data), name) + value]
      ensures persistentData == old(persistentData)
    {
      data := data[name := ValueOr0(data, name) + value];
    }

    /** Set: the entry becomes `value`. */
    method Set(name: string, value: real)
      modifies this
      ensures data == old(data)[name := value]
      ensures persistentData == old(persistentData)
    {
      data := data[name := value];
    }

    /** AddPersistent: combine `value` into the slot of `mapId` by the kind
      the caller passes; a missing id is logged, nil values panic. */
    method AddPersistent(mapId: int, metricType: int, value: real) returns (outcome: Outcome)
      modifies this
      ensures data == old(data)
      ensures (outcome, persistentData) == AddPersistentTo(old(persistentData), mapId, metricType, value)
    {
      if mapId !in persistentData {
        return MissingId;
      }
      var slot := persistentData[mapId];
      if slot.None? {
        return NilValue;
      }
      var sv := slot.value;
      if metricType == BaseMetric || metricType == SumMetric {
        sv := sv.(sum := sv.sum + value);
      } else if metricType == AvgMetric || metricType == CountSumMetric || metricType == CountAvgMetric {
        sv := sv.(sum := sv.sum + value, count := Inc64(sv.count));
      } else if metricType == CountMetric {
        sv := sv.(count := Inc64(sv.count));
      } else if metricType == QuantileMetric {
        if sv.otd.NoSketch? {
          return NilDigest;
        }
        sv := sv.(otd := Digest(sv.otd.inserted + [value]));
      }
      persistentData := persistentData[mapId := Some(sv)];
      outcome := Applied;
    }

    /** SetPersistent: overwrite the slot of `mapId` by the kind the caller
      passes; Quantile is refused and changes nothing. */
    method SetPersistent(mapId: int, metricType: int, value: real) returns (outcome: Outcome)
      modifies this
      ensures data == old(data)
      ensures (outcome, persistentData) == SetPersistentTo(old(persistentData), mapId, metricType, value)
    {
      if mapId !in persistentData {
        return MissingId;
      }
      var slot := persistentData[mapId];
      if slot.None? {
        return NilValue;
      }
      var sv := slot.value;
      outcome := Applied;
      if metricType == BaseMetric || metricType == SumMetric {
        sv := sv.(sum := value);
      } else if metricType == CountMetric {
        sv := sv.(count := 1);
      } else if metricType == AvgMetric || metricType == CountSumMetric || metricType == CountAvgMetric {
        sv := sv.(sum := value, count := 1);
      } else if metricType == QuantileMetric {
        outcome := SetUnsupported;
      }
      persistentData := persistentData[mapId := Some(sv)];
    }

    /** Get: the ad-hoc value, or zero and a not-found error carrying id -1. */
    method Get(name: string) returns (value: real, err: Option<Error>)
      ensures name in data ==> value == data[name] && err == None
      ensures name !in data ==> value == 0.0 && err == Some(ErrNotFoundMetric(-1, name))
    {
      if name in data {
        value, err := data[name], None;
      } else {
        value, err := 0.0, Some(ErrNotFoundMetric(-1, name));
      }
    }

    /** GetPersistent: the slot, nil (None) when the id is absent. */
    method GetPersistent(mapId: int) returns (sv: Slot)
      ensures mapId in persistentData ==> sv == persistentData[mapId]
      ensures mapId !in persistentData ==> sv == None
    {
      sv := if mapId in persistentData then persistentData[mapId] else None;
    }

    /** Len: ad-hoc entries plus persistent entries. */
    method Len() returns (n: int)
      ensures n == |data| + |persistentData|
    {
      n := |data| + |persistentData|;
    }
  }
}
