/** The HTTP view (web.go): the port check, the key lookup of the current
    and historical queries, and the history slot arithmetic. */
module Web {
  import opened Prelude
  import opened Errors
  import opened StoreStruct
  import opened MinStorage
  import opened StorageCore
  import opened Methods
  import opened MonitorConfig

  /** StartHTTPModule's port check: 1024..65535, both ends included. */
  function StartHTTPModule(port: int): (r: Option<Error>)
    ensures r.None? <==> 1024 <= port <= 65535
    ensures r.Some? ==> r == Some(ErrHTTPPort)
  {
    if port < 1024 || port > 65535 then Some(ErrHTTPPort) else None
  }

  /** The server accepts every port the config accepts, and exactly two the
      config refuses: 1024 and 65535. */
  lemma PortChecksDiffer(port: int)
    ensures HTTPPortInRange(port) ==> StartHTTPModule(port).None?
    ensures StartHTTPModule(port).None? && !HTTPPortInRange(port) <==> port == 1024 || port == 65535
  {
  }

  /** monitor.New builds the store from the configured revisions and later
      starts the server on the configured port without checking either,
      relying on the validators: a config they keep valid gives a ring with
      a slot for the first rotation and a port the server accepts. */
  lemma ValidConfigStarts(conf: Config)
    requires conf.Valid()
    ensures RingLength(conf.revisions).Some? && RingLength(conf.revisions).value >= 1
    ensures StartHTTPModule(conf.port).None?
  {
    PortChecksDiffer(conf.port);
  }

  /** What a query shows about the persistent side of a key. */
  datatype SpecReply = NoSpec | SpecShown(metric: MetricName, value: Slot)

  /** What a query shows: the ad-hoc value and the persistent value. */
  datatype Reply = Reply(adhoc: Option<real>, spec: SpecReply)

  /** The key lookup both handlers perform on one bucket: the ad-hoc entry
      when present, and the accumulator when the key is a registered name
      whose identity the bucket has. */
  function Lookup(data: map<string, real>, pd: map<int, Slot>, callNames: map<string, int>,
                  byId: map<int, MetricName>, k: string): (r: Reply)
    requires forall n :: n in callNames ==> callNames[n] in byId
    ensures r.adhoc.Some? <==> k in data
    ensures r.adhoc.Some? ==> r.adhoc.value == data[k]
    ensures r.spec.SpecShown? <==> k in callNames && callNames[k] in pd
    ensures r.spec.SpecShown? ==> r.spec.metric == byId[callNames[k]] && r.spec.value == pd[callNames[k]]
  {
    var adhoc := if k in data then Some(data[k]) else None;
    var spec := if k in callNames && callNames[k] in pd then SpecShown(byId[callNames[k]], pd[callNames[k]]) else NoSpec;
    Reply(adhoc, spec)
  }

  /** HandleMonitor: the lookup on the current bucket. Printing a nil
      persistent value panics the handler (after the ad-hoc part). */
  method HandleMonitor(m: Monitor, k: string) returns (reply: Reply, panicked: bool)
    requires m.Valid()
    ensures reply == Lookup(m.core.nowMonitor.data, m.core.nowMonitor.persistentData,
                            m.core.metricMap.callNames, m.core.metricMap.byId, k)
    ensures panicked <==> reply.spec.SpecShown? && reply.spec.value.None?
  {
    var now := m.core.nowMonitor;
    var registry := m.core.metricMap;
    var adhoc := None;
    if k in now.data {
      adhoc := Some(now.data[k]);
    }
    var spec := NoSpec;
    panicked := false;
    if k in registry.callNames {
      var intK := registry.callNames[k];
      if intK in now.persistentData {
        spec := SpecShown(registry.byId[intK], now.persistentData[intK]);
        panicked := now.persistentData[intK].None?;
      }
    }
    reply := Reply(adhoc, spec);
  }

  /** The history index loop as written: add `history` while negative, with
      `fuel` bounding the iterations; None when the fuel runs out. */
  function HistoryLoopAsWritten(idx: int, history: int, fuel: nat): (r: Option<int>)
    ensures r.Some? ==> 0 <= r.value
    ensures idx >= 0 ==> r == Some(idx)
    ensures idx < 0 && r.Some? ==> r.value < history
    decreases fuel
  {
    if idx >= 0 then Some(idx)
    else if fuel == 0 then None
    else HistoryLoopAsWritten(idx + history, history, fuel - 1)
  }

  /** With history 0 a negative start never becomes non-negative: the loop
      does not terminate, on any bound. */
  lemma {:induction false} ZeroHistoryLoops(idx: int, fuel: nat)
    requires idx < 0
    ensures HistoryLoopAsWritten(idx, 0, fuel) == None
    decreases fuel
  {
    if fuel > 0 {
      ZeroHistoryLoops(idx, fuel - 1);
    }
  }

  /** With history at least 1 and enough fuel the written loop ends on the
      Euclidean remainder. */
  lemma {:induction false} HistoryLoopMod(idx: int, history: int, fuel: nat)
    requires 1 <= history && idx < history && -idx <= fuel
    ensures HistoryLoopAsWritten(idx, history, fuel) == Some(idx % history)
    decreases fuel
  {
    if idx >= 0 {
      ModUnique(idx, history, 0, idx);
    } else {
      HistoryLoopMod(idx + history, history, fuel - 1);
      var q, r := (idx + history) / history, (idx + history) % history;
      assert idx + history == history * q + r;
      ModUnique(idx, history, q - 1, r);
    }
  }

  /** The slot a history query reads: the cursor minus |hv|, lifted by the
      ring size until non-negative; the ring has one slot when `history` is
      0, where the written loop would add 0 forever. */
  method HistorySlot(cur: int, hv: int, history: nat) returns (idx: int)
    requires 0 <= cur < Ring(history)
    ensures idx == (cur - Abs(hv)) % Ring(history)
    ensures 0 <= idx < Ring(history)
  {
    var step := Ring(history);
    idx := cur - Abs(hv);
    ghost var lifts: int := 0;
    while idx < 0
      invariant idx == cur - Abs(hv) + step * lifts
      invariant idx < step
      decreases -idx
    {
      idx := idx + step;
      lifts := lifts + 1;
    }
    ModUnique(cur - Abs(hv), step, -lifts, idx);
  }

  /** Query 0 reads the cursor's slot, which the next rotation overwrites;
      query 1 reads the slot written by the last rotation. */
  lemma QueryAges(cur: int, n: nat)
    requires 1 <= n && 0 <= cur < n
    ensures Age(0, n) == n && Back(cur, Age(0, n), n) == cur
    ensures Age(1, n) == 1 && Back(cur, Age(1, n), n) == (if cur == 0 then n - 1 else cur - 1)
  {
  }

  /** HandleHistory: the version text failing to parse is reported and the
      query goes on with the parser's value; the slot |hv| rotations back
      (modulo the ring) is read, an empty slot gives no reply, and
      otherwise the lookup runs on that bucket with the current registry. */
  method HandleHistory(m: Monitor, hv: int, parseFailed: bool, k: string)
      returns (versionError: bool, slot: int, reply: Option<Reply>)
    requires m.Valid()
    ensures versionError == parseFailed
    ensures 0 <= slot < m.core.historyMonitor.Length
    ensures slot == Back(m.core.cursor, Age(hv, Ring(m.core.historyVersionNumber)), Ring(m.core.historyVersionNumber))
    ensures m.core.historyMonitor[slot] == Retained(m.core.retired, Age(hv, Ring(m.core.historyVersionNumber)))
    ensures reply.None? <==> m.core.historyMonitor[slot] == null
    ensures reply.Some? ==>
      && m.core.historyMonitor[slot] != null
      && reply.value == Lookup(m.core.historyMonitor[slot].data, m.core.historyMonitor[slot].persistentData,
                            m.core.metricMap.callNames, m.core.metricMap.byId, k)
  {
    versionError := parseFailed;
    var core := m.core;
    var n := Ring(core.historyVersionNumber);
    slot := HistorySlot(core.cursor, hv, core.historyVersionNumber);
    BackIsIndex(core.cursor, hv, n);
    var hd := core.historyMonitor[slot];
    if hd == null {
      return versionError, slot, None;
    }
    var registry := core.metricMap;
    var adhoc := None;
    if k in hd.data {
      adhoc := Some(hd.data[k]);
    }
    var spec := NoSpec;
    if k in registry.callNames {
      var intK := registry.callNames[k];
      if intK in hd.persistentData {
        spec := SpecShown(registry.byId[intK], hd.persistentData[intK]);
      }
    }
    reply := Some(Reply(adhoc, spec));
  }

  /** Right after a rotation, query 1 shows the bucket that was retired. */
  method LatestRetiredAtOne(m: Monitor, k: string) returns (retiredNow: OneMinStorage, reply: Option<Reply>)
    requires m.Valid()
    modifies m.core, m.core.historyMonitor
    ensures m.Valid()
    ensures retiredNow == old(m.core.nowMonitor)
    ensures m.core.retired == old(m.core.retired) + [retiredNow]
    ensures reply == Some(Lookup(retiredNow.data, retiredNow.persistentData,
                                 m.core.metricMap.callNames, m.core.metricMap.byId, k))
  {
    retiredNow := m.core.NextMonitor();
    assert m.Valid();
    var n := Ring(m.core.historyVersionNumber);
    assert Age(1, n) == 1;
    assert Retained(m.core.retired, 1) == retiredNow;
    var versionError, slot;
    versionError, slot, reply := HandleHistory(m, 1, false, k);
  }
}
