/** The text writer (text_writer.go): its registration, the tag string and
    the line assembly of one interval's output, with number formatting
    passed in as functions. */
module TextWriters {
  import opened Prelude
  import opened StoreStruct
  import opened MinStorage
  import opened Writers

  /** The byte that precedes every tag. */
  const Semicolon: char := ';'

  /** The writer names the text writer registers at start-up. */
  function RegisterWriterName(): (r: map<string, Factory>)
    ensures r.Keys == {"TextWriter"}
    ensures r["TextWriter"] == TextWriterFactory
  {
    map["TextWriter" := TextWriterFactory]
  }

  /** The tags string: ';' and the tag, for each tag in order. */
  function JoinTags(tags: seq<string>): (r: string)
    decreases |tags|
  {
    if tags == [] then "" else [Semicolon] + tags[0] + JoinTags(tags[1..])
  }

  /** The width of the tags string: each tag and its separator. */
  function TagsWidth(tags: seq<string>): (width: nat)
    decreases |tags|
  {
    if tags == [] then 0 else |tags[0]| + 1 + TagsWidth(tags[1..])
  }

  lemma {:induction false} JoinTagsLength(tags: seq<string>)
    ensures |JoinTags(tags)| == TagsWidth(tags)
    ensures JoinTags(tags) == "" <==> tags == []
    decreases |tags|
  {
    if tags != [] {
      JoinTagsLength(tags[1..]);
    }
  }

  /** Joining distributes over concatenation of tag lists. */
  lemma {:induction false} JoinTagsAppend(a: seq<string>, b: seq<string>)
    ensures JoinTags(a + b) == JoinTags(a) + JoinTags(b)
    decreases |a|
  {
    if a == [] {
      assert a + b == b;
    } else {
      assert (a + b)[1..] == a[1..] + b;
      JoinTagsAppend(a[1..], b);
    }
  }

  /** `t` sits in `s` right after the ';' at position `p`. */
  predicate TagAt(s: string, p: int, t: string) {
    0 <= p && p + 1 + |t| <= |s| && s[p] == Semicolon && s[p + 1..p + 1 + |t|] == t
  }

  /** A tag found in a string is still found, further on, after a prefix. */
  lemma TagAtShift(head: string, rest: string, p: int, t: string)
    requires TagAt(rest, p, t)
    ensures TagAt(head + rest, |head| + p, t)
  {
    var whole := head + rest;
    assert whole[|head| + p] == rest[p];
    assert whole[|head| + p + 1..|head| + p + 1 + |t|] == rest[p + 1..p + 1 + |t|];
  }

  /** Every tag of the list appears in the string right after a ';'. */
  lemma {:induction false} JoinTagsHasTag(tags: seq<string>, i: nat)
    requires i < |tags|
    ensures exists p :: TagAt(JoinTags(tags), p, tags[i])
    decreases i
  {
    var head := [Semicolon] + tags[0];
    var rest := JoinTags(tags[1..]);
    assert JoinTags(tags) == head + rest;
    if i == 0 {
      assert (head + rest)[1..1 + |tags[0]|] == tags[0];
      assert TagAt(JoinTags(tags), 0, tags[0]);
    } else {
      assert tags[i] == tags[1..][i - 1];
      JoinTagsHasTag(tags[1..], i - 1);
      var p :| TagAt(rest, p, tags[i]);
      TagAtShift(head, rest, p, tags[i]);
    }
  }

  /** GetSortedTagsString: the buffer grows by ';' and one tag per step. */
  method GetSortedTagsString(sortedTags: seq<string>) returns (ret: string)
    ensures ret == JoinTags(sortedTags)
  {
    if |sortedTags| == 0 {
      return "";
    }
    var buf := "";
    var i := 0;
    while i < |sortedTags|
      invariant 0 <= i <= |sortedTags|
      invariant buf == JoinTags(sortedTags[..i])
    {
      JoinTagsAppend(sortedTags[..i], [sortedTags[i]]);
      assert sortedTags[..i + 1] == sortedTags[..i] + [sortedTags[i]];
      buf := buf + [Semicolon] + sortedTags[i];
      i := i + 1;
    }
    assert sortedTags[..i] == sortedTags;
    ret := buf;
  }

  /** One line of an accumulator: name, suffix, tags, '=', value, LF. */
  function SpecLine(m: MetricName, suffix: string, value: string): (line: string)
  {
    m.name + suffix + JoinTags(m.GetSortedTags()) + "=" + value + "\n"
  }

  /** The lines of one accumulator, value i paired with suffix i. */
  function IdLines(m: MetricName, cells: seq<Cell>, suffix: seq<string>, fmt: Cell -> string): (r: seq<string>)
    requires |cells| <= |suffix|
    ensures |r| == |cells|
    ensures forall i :: 0 <= i < |r| ==> r[i] == SpecLine(m, suffix[i], fmt(cells[i]))
    decreases |cells|
  {
    if cells == [] then []
    else [SpecLine(m, suffix[0], fmt(cells[0]))] + IdLines(m, cells[1..], suffix[1..], fmt)
  }

  /** An accumulator the spec writer can print without panicking: its
      identity is registered and its kind renders through its suffixes. */
  predicate Renderable(byId: map<int, MetricName>, data: map<int, Slot>, id: int)
  {
    && id in byId && id in data
    && GetValueString(byId[id].kind, data[id]).Some?
    && |GetValueString(byId[id].kind, data[id]).value| <= |SuffixMap(byId[id].kind)|
  }

  /** Exactly the registered accumulators of a supported kind with a value
      (and, for Quantile, a digest) print; an unsupported kind always
      panics, because its single blank value has no suffix. */
  lemma RenderableIff(byId: map<int, MetricName>, data: map<int, Slot>, id: int)
    requires id in data
    ensures Renderable(byId, data, id) <==>
      && id in byId && IsKind(byId[id].kind) && data[id].Some?
      && !(byId[id].kind == QuantileMetric && data[id].value.otd.NoSketch?)
  {
    if id in byId && !IsKind(byId[id].kind) {
      assert |SuffixMap(byId[id].kind)| == 0;
    }
  }

  /** Every identity in `order` can print. */
  predicate AllRenderable(byId: map<int, MetricName>, data: map<int, Slot>, order: seq<int>) {
    forall id :: id in order ==> Renderable(byId, data, id)
  }

  /** The spec lines of the accumulators in `order`, one block per id. */
  function SpecText(byId: map<int, MetricName>, data: map<int, Slot>, order: seq<int>, fmt: Cell -> string): (lines: seq<string>)
    requires AllRenderable(byId, data, order)
    decreases |order|
  {
    if order == [] then []
    else
      var id := order[0];
      assert id in order;
      IdLines(byId[id], GetValueString(byId[id].kind, data[id]).value, SuffixMap(byId[id].kind), fmt)
        + SpecText(byId, data, order[1..], fmt)
  }

  /** The number of spec lines: one per suffix of each accumulator's kind. */
  function LineCount(byId: map<int, MetricName>, order: seq<int>): (n: nat)
    requires forall id :: id in order ==> id in byId
    decreases |order|
  {
    if order == [] then 0
    else
      var id := order[0];
      assert id in order;
      |SuffixMap(byId[id].kind)| + LineCount(byId, order[1..])
  }

  lemma {:induction false} SpecTextCount(byId: map<int, MetricName>, data: map<int, Slot>, order: seq<int>, fmt: Cell -> string)
    requires AllRenderable(byId, data, order)
    ensures |SpecText(byId, data, order, fmt)| == LineCount(byId, order)
    decreases |order|
  {
    if order != [] {
      var id := order[0];
      assert id in order;
      RenderableIff(byId, data, id);
      SpecTextCount(byId, data, order[1..], fmt);
    }
  }

  /** Printing one more accumulator appends its block. */
  lemma {:induction false} SpecTextSnoc(byId: map<int, MetricName>, data: map<int, Slot>, order: seq<int>, id: int, fmt: Cell -> string)
    requires AllRenderable(byId, data, order)
    requires Renderable(byId, data, id)
    ensures AllRenderable(byId, data, order + [id])
    ensures SpecText(byId, data, order + [id], fmt) ==
            SpecText(byId, data, order, fmt)
            + IdLines(byId[id], GetValueString(byId[id].kind, data[id]).value, SuffixMap(byId[id].kind), fmt)
    decreases |order|
  {
    if order == [] {
      assert [] + [id] == [id];
    } else {
      assert (order + [id])[1..] == order[1..] + [id];
      SpecTextSnoc(byId, data, order[1..], id, fmt);
    }
  }

  /** The elements of `s` are pairwise different. */
  predicate Distinct<T(==)>(s: seq<T>) {
    forall i, j :: 0 <= i < j < |s| ==> s[i] != s[j]
  }

  /** The inner loop of writeTextSpecMetrics: one line per value, value i
      with suffix i. */
  method WriteIdLines(metric: MetricName, values: seq<Cell>, suffix: seq<string>, fmt: Cell -> string)
      returns (block: seq<string>)
    requires |values| <= |suffix|
    ensures block == IdLines(metric, values, suffix, fmt)
  {
    block := [];
    var i := 0;
    while i < |values|
      invariant 0 <= i <= |values|
      invariant block == IdLines(metric, values[..i], suffix, fmt)
    {
      var next := IdLines(metric, values[..i + 1], suffix, fmt);
      assert next == block + [SpecLine(metric, suffix[i], fmt(values[i]))];
      block := block + [SpecLine(metric, suffix[i], fmt(values[i]))];
      i := i + 1;
    }
    assert values[..i] == values;
  }

  /** writeTextSpecMetrics: every accumulator of the bucket, in some order of
      its identities, contributes its block of lines; the first one that
      cannot print panics, and then nothing is written. */
  method WriteTextSpecMetrics(byId: map<int, MetricName>, data: map<int, Slot>, fmt: Cell -> string)
      returns (ok: bool, order: seq<int>, lines: seq<string>)
    ensures ok <==> forall id :: id in data ==> Renderable(byId, data, id)
    ensures !ok ==> lines == []
    ensures ok ==> Distinct(order) && forall id :: id in data <==> id in order
    ensures ok ==> AllRenderable(byId, data, order)
    ensures ok ==> lines == SpecText(byId, data, order, fmt)
  {
    var pending := data.Keys;
    order, lines := [], [];
    while pending != {}
      invariant pending <= data.Keys
      invariant forall id :: id in data ==> (id in pending <==> id !in order)
      invariant forall id :: id in pending ==> id in data
      invariant forall id :: id in order ==> id in data
      invariant Distinct(order)
      invariant AllRenderable(byId, data, order)
      invariant lines == SpecText(byId, data, order, fmt)
      decreases |pending|
    {
      ghost var someId := NonEmptyHasMember(pending);
      var id :| id in pending;
      if id !in byId {
        return false, order, [];
      }
      var metric := byId[id];
      var values := GetValueString(metric.kind, data[id]);
      if values.None? {
        return false, order, [];
      }
      var suffix := SuffixMap(metric.kind);
      if |values.value| > |suffix| {
        return false, order, [];
      }
      var block := WriteIdLines(metric, values.value, suffix, fmt);
      SpecTextSnoc(byId, data, order, id, fmt);
      lines := lines + block;
      order := order + [id];
      pending := pending - {id};
    }
    ok := true;
  }

  /** writeTextBasicMetrics: one "name=value" line per ad-hoc entry, in some
      order of the names. */
  method WriteTextBasicMetrics(data: map<string, real>, fmtF: real -> string)
      returns (order: seq<string>, lines: seq<string>)
    ensures Distinct(order) && forall n :: n in data <==> n in order
    ensures |lines| == |order|
    ensures forall i :: 0 <= i < |order| ==> order[i] in data && lines[i] == order[i] + "=" + fmtF(data[order[i]]) + "\n"
  {
    var pending := data.Keys;
    order, lines := [], [];
    while pending != {}
      invariant pending <= data.Keys
      invariant forall n :: n in data ==> (n in pending <==> n !in order)
      invariant forall n :: n in order ==> n in data
      invariant Distinct(order)
      invariant |lines| == |order|
      invariant forall i :: 0 <= i < |order| ==> lines[i] == order[i] + "=" + fmtF(data[order[i]]) + "\n"
      decreases |pending|
    {
      ghost var someName := NonEmptyHasMember(pending);
      var name :| name in pending;
      lines := lines + [name + "=" + fmtF(data[name]) + "\n"];
      order := order + [name];
      pending := pending - {name};
    }
  }
}
