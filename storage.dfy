/** The rotation store (storage.go): the registry, the current bucket, the
    ring of retired buckets and its write cursor. */
module StorageCore {
  import opened Prelude
  import opened StoreStruct
  import opened MinStorage

  /** The write-cursor step exactly as NextMonitor spells it: back to 0
      after slot history-1, otherwise one up. */
  function NextCursorAsWritten(cursor: int, history: int): (r: int)
    ensures 0 <= cursor < history ==> 0 <= r < history
    ensures 0 <= cursor < history ==> (r == 0 <==> cursor == history - 1)
    ensures history <= 0 && 0 <= cursor ==> r == cursor + 1
  {
    if cursor == history - 1 then 0 else cursor + 1
  }

  /** The number of ring slots the cursor visits: `history`, and the single
      slot 0 when `history` is 0. Slot `history` of the `history+1` slots
      is never visited when `history >= 1`. */
  function Ring(history: nat): (r: nat)
    ensures 1 <= r <= history + 1
  {
    if history == 0 then 1 else history
  }

  /** The cursor step the model uses: identical to the written one for
      `history >= 1`, and staying on slot 0 when `history` is 0. */
  function NextCursor(cursor: int, history: nat): (r: int)
    ensures 0 <= cursor < Ring(history) ==> 0 <= r < Ring(history)
    ensures 0 <= cursor < Ring(history) ==> (r == 0 <==> cursor == Ring(history) - 1)
  {
    if cursor + 1 >= history then 0 else cursor + 1
  }

  /** For every history depth of at least one the two steps agree. */
  lemma NextCursorAgrees(cursor: int, history: nat)
    requires 1 <= history && 0 <= cursor < history
    ensures NextCursor(cursor, history) == NextCursorAsWritten(cursor, history)
  {
  }

  /** With history 0 the written step moves the cursor to 1 on the first
      rotation, and the second rotation writes index 1 of a one-slot array. */
  lemma ZeroHistoryOverruns()
    ensures NextCursorAsWritten(0, 0) == 1
    ensures !(NextCursorAsWritten(0, 0) < 0 + 1)
  {
  }

  /** The length of the ring `make` builds for a history depth, or None for
      the panic `make` raises on a negative length. */
  function RingLength(history: int): (r: Option<nat>)
    ensures r.None? <==> history + 1 < 0
    ensures r.Some? ==> r.value == history + 1
  {
    if history + 1 < 0 then None else Some(history + 1)
  }

  /** A negative history depth never yields a usable ring: -1 builds a ring
      with no slot, so the first rotation's write at cursor 0 is out of
      range, and anything lower panics in `make`. A non-negative depth always
      has slot 0. */
  lemma NegativeHistoryUnusable(history: int)
    ensures history < 0 <==> !(RingLength(history).Some? && 0 < RingLength(history).value)
    ensures history == -1 ==> RingLength(history) == Some(0)
  {
  }

  /** n * d is at least n for a positive factor d. */
  lemma {:induction false} MulAtLeast(n: nat, d: int)
    requires 1 <= d
    ensures n * d >= n
    decreases d
  {
    if d > 1 {
      MulAtLeast(n, d - 1);
      assert n * d == n * (d - 1) + n;
    }
  }

  /** Euclidean remainder by its defining equation. */
  lemma ModUnique(x: int, n: int, q: int, r: int)
    requires 0 < n && x == n * q + r && 0 <= r < n
    ensures x % n == r
  {
    var q', r' := x / n, x % n;
    assert x == n * q' + r';
    var d := q - q';
    assert n * d == r' - r by {
      assert n * q - n * q' == n * (q - q');
    }
    if d > 0 {
      MulAtLeast(n, d);
    } else if d < 0 {
      MulAtLeast(n, -d);
    }
  }

  /** The corrected step is "one up, modulo the ring". */
  lemma NextCursorMod(k: nat, history: nat)
    ensures NextCursor(k % Ring(history), history) == (k + 1) % Ring(history)
  {
    var n := Ring(history);
    var q, c := k / n, k % n;
    assert k == n * q + c;
    if c + 1 < n {
      ModUnique(k + 1, n, q, c + 1);
    } else {
      ModUnique(k + 1, n, q + 1, 0);
    }
  }

  /** The slot `a` rotations behind cursor `c` in a ring of `n` slots
      (1 <= a <= n): one subtraction, lifted once into range. */
  function Back(c: int, a: int, n: int): (slot: int)
  {
    if c - a >= 0 then c - a else c - a + n
  }

  /** Stepping the cursor moves every age up by one: the just-written slot
      is one behind, and what was a-1 behind is now a behind. */
  lemma BackStep(c: int, history: nat, a: int)
    requires 0 <= c < Ring(history) && 1 <= a <= Ring(history)
    ensures a == 1 ==> Back(NextCursor(c, history), a, Ring(history)) == c
    ensures a >= 2 ==> Back(NextCursor(c, history), a, Ring(history)) == Back(c, a - 1, Ring(history))
    ensures a >= 2 ==> Back(c, a - 1, Ring(history)) != c
  {
  }

  /** The age (1..n) of the slot a history query for `hv` lands on: |hv| modulo
      the ring, with 0 standing for n, the oldest retained bucket. */
  function Age(hv: int, n: nat): (a: nat)
    requires 1 <= n
    ensures 1 <= a <= n
  {
    var x := Abs(hv) % n;
    if x == 0 then n else x
  }

  /** The query's modular index is the slot Age(hv) rotations behind. */
  lemma BackIsIndex(c: int, hv: int, n: nat)
    requires 1 <= n && 0 <= c < n
    ensures (c - Abs(hv)) % n == Back(c, Age(hv, n), n)
  {
    var x := Abs(hv);
    var q, r := x / n, x % n;
    assert x == n * q + r;
    if r == 0 {
      ModUnique(c - x, n, -q, c);
    } else if c - r >= 0 {
      ModUnique(c - x, n, -q, c - r);
    } else {
      ModUnique(c - x, n, -q - 1, c - r + n);
    }
  }

  /** The bucket retired `a` rotations ago, or nil before that many rotations. */
  ghost function Retained(retired: seq<OneMinStorage>, a: int): OneMinStorage?
    requires 1 <= a
  {
    if a <= |retired| then retired[|retired| - a] else null
  }

  /** Template restricted to the identities in `ids`. */
  function TemplateOver(byId: map<int, MetricName>, ids: set<int>): (template: map<int, Slot>)
  {
    map id | id in ids && id in byId && InitSpecValue(byId[id].kind).Ok? :: Some(InitSpecValue(byId[id].kind).value)
  }

  /** The persistent map of a fresh bucket: one zeroed accumulator for each
      registered identity whose kind initSpecValue accepts. */
  function Template(byId: map<int, MetricName>): (t: map<int, Slot>)
    ensures t.Keys == set id | id in byId && IsKind(byId[id].kind)
    ensures forall id :: id in t ==>
              && t[id].Some? && t[id].value.sum == 0.0 && t[id].value.count == 0
              && t[id].value.otd == (if byId[id].kind == QuantileMetric then Digest([]) else NoSketch)
  {
    var t := TemplateOver(byId, byId.Keys);
    assert forall id :: id in t <==> id in byId && IsKind(byId[id].kind);
    t
  }

  /** No recording is lost across a rotation: whatever point `j` of a run of
      Add(x, _) calls the swap falls at, the retired bucket's entry plus
      the fresh bucket's entry carry all of the run. */
  lemma {:induction false} NoObservationLost(d: map<string, real>, x: string, vs: seq<real>, j: nat)
    requires j <= |vs|
    ensures ValueOr0(AddAll(d, x, vs[..j]), x) + ValueOr0(AddAll(map[], x, vs[j..]), x)
            == ValueOr0(d, x) + Sum(vs)
  {
    AddAllSums(d, x, vs[..j]);
    AddAllSums(map[], x, vs[j..]);
    assert vs[..j] + vs[j..] == vs;
    SumAppend(vs[..j], vs[j..]);
  }

  /** Storage: the registry, the bucket being filled, `history+1` history
      slots and the cursor of the slot the next retired bucket goes to. */
  class Storage {
    const metricMap: MetricNameMap
    var nowMonitor: OneMinStorage
    const historyMonitor: array<OneMinStorage?>
    const historyVersionNumber: nat
    var cursor: int
    /** Every bucket retired so far, oldest first (a model-only record). */
    ghost var retired: seq<OneMinStorage>

    /** The slot `a` rotations behind the cursor holds the bucket retired `a`
        rotations ago (nil if there was none), for every age the ring keeps;
        the cursor counts rotations modulo the ring; the current bucket has
        a slot for every registered identity of a supported kind, and only
        for registered identities. */
    ghost predicate Valid()
      reads this, metricMap, nowMonitor, historyMonitor
    {
      && metricMap.Valid()
      && historyMonitor.Length == historyVersionNumber + 1
      && 0 <= cursor < Ring(historyVersionNumber)
      && cursor == |retired| % Ring(historyVersionNumber)
      && (forall a :: 1 <= a <= Ring(historyVersionNumber) ==>
            historyMonitor[Back(cursor, a, Ring(historyVersionNumber))] == Retained(retired, a))
      && (historyVersionNumber >= 1 ==> historyMonitor[historyVersionNumber] == null)
      && nowMonitor !in retired
      && nowMonitor.persistentData.Keys <= metricMap.byId.Keys
      && (forall id :: id in metricMap.byId && IsKind(metricMap.byId[id].kind) ==> id in nowMonitor.persistentData)
    }

    /** NewStorage: an empty registry, an empty bucket, every slot empty, the
        cursor at 0. */
    constructor (history: nat)
      ensures Valid()
      ensures fresh(metricMap) && fresh(nowMonitor) && fresh(historyMonitor)
      ensures metricMap.byId == map[] && metricMap.callNames == map[] && metricMap.lastId == 0
      ensures nowMonitor.data == map[] && nowMonitor.persistentData == map[]
      ensures historyMonitor.Length == history + 1
      ensures forall i :: 0 <= i < history + 1 ==> historyMonitor[i] == null
      ensures historyVersionNumber == history && cursor == 0 && retired == []
    {
      metricMap := new MetricNameMap();
      historyMonitor := new OneMinStorage?[history + 1](_ => null);
      historyVersionNumber := history;
      cursor := 0;
      retired := [];
      nowMonitor := new OneMinStorage();
    }

    /** nextSpecValue: walk the registry and collect a fresh accumulator for
        each identity whose kind is supported, skipping the others. */
    method NextSpecValue() returns (template: map<int, Slot>)
      ensures template == Template(metricMap.byId)
    {
      var byId := metricMap.byId;
      template := map[];
      var pending := byId.Keys;
      while pending != {}
        invariant pending <= byId.Keys
        invariant template == TemplateOver(byId, byId.Keys - pending)
        decreases pending
      {
        ghost var someId := NonEmptyHasMember(pending);
        var k :| k in pending;
        var v := InitSpecValue(byId[k].kind);
        if v.Ok? {
          template := template[k := Some(v.value)];
        }
        pending := pending - {k};
      }
    }

    /** NextMonitor: install a fresh bucket seeded from the registry, file the
        old one at the cursor, step the cursor, and hand the old one back. */
    method NextMonitor() returns (now: OneMinStorage)
      requires Valid()
      modifies this, historyMonitor
      ensures Valid()
      ensures now == old(nowMonitor) && retired == old(retired) + [now]
      ensures fresh(nowMonitor)
      ensures nowMonitor.data == map[] && nowMonitor.persistentData == Template(metricMap.byId)
      ensures historyMonitor[..] == old(historyMonitor[..])[old(cursor) := now]
      ensures cursor == NextCursor(old(cursor), historyVersionNumber)
      ensures unchanged(metricMap)
    {
      var next := new OneMinStorage();
      var template := NextSpecValue();
      next.persistentData := template;
      now := nowMonitor;
      nowMonitor := next;
      ghost var c := cursor;
      historyMonitor[cursor] := now;
      cursor := NextCursor(cursor, historyVersionNumber);
      retired := retired + [now];
      NextCursorMod(|old(retired)|, historyVersionNumber);
      var n := Ring(historyVersionNumber);
      forall a | 1 <= a <= n
        ensures historyMonitor[Back(cursor, a, n)] == Retained(retired, a)
      {
        BackStep(c, historyVersionNumber, a);
      }
    }
  }
}
