/** The writer layer (writer.go): suffix lists, the writer configuration and
    its validators, the shape of a rendered accumulator, and writer lookup. */
module Writers {
  import opened Prelude
  import opened Errors
  import opened StoreStruct
  import opened MinStorage

  // Writer modes, by number and by name.
  const ALL := 0
  const UP := 1
  const DOWN := 2
  const AllStr := "all"
  const UpStr := "up"
  const DownStr := "down"

  const ModeError := "mode must in (int(0, 1, 2) or string(\"all\", \"up\", \"down\") not case sensitive)"
  const UPloadRetryError := "Upload Retry in 0-10, if n>10 please use force=true argument."

  // Line suffixes, one per rendered value, in value order.
  const BaseSuffix: seq<string> := ["_Sum"]
  const SumSuffix: seq<string> := ["_Sum"]
  const CountSuffix: seq<string> := ["_Count"]
  const AvgSuffix: seq<string> := ["_Avg"]
  const CountSumSuffix: seq<string> := ["_Count", "_Sum"]
  const CountAvgSuffix: seq<string> := ["_Count", "_Avg"]
  const QuantileSuffix: seq<string> := ["_MinP50", "_MinP90", "_MinP95", "_MinP99"]

  /** The suffix list of each kind; a kind outside the enumeration has none
      (a missing key of a Go map of slices reads as the nil slice). */
  function SuffixMap(kind: int): (r: seq<string>)
    ensures IsKind(kind) ==> 1 <= |r| <= 4
    ensures !IsKind(kind) ==> r == []
  {
    if kind == BaseMetric then BaseSuffix
    else if kind == SumMetric then SumSuffix
    else if kind == AvgMetric then AvgSuffix
    else if kind == CountMetric then CountSuffix
    else if kind == CountSumMetric then CountSumSuffix
    else if kind == CountAvgMetric then CountAvgSuffix
    else if kind == QuantileMetric then QuantileSuffix
    else []
  }

  /** One rendered value before number formatting. */
  datatype Cell =
    | FloatCell(x: real)                      // a sum
    | CountCell(n: int64)                     // a count
    | AvgCell(sum: real, count: int64)        // sum divided by count
    | QuantileCell(inserted: seq<real>, q: real)  // the digest's q-quantile
    | BlankCell                               // the empty string

  /** getValueString: the values of one accumulator as its kind renders them;
      None is the panic of reading through a nil value or a nil digest. */
  function GetValueString(kind: int, spv: Slot): (r: Option<seq<Cell>>)
    ensures r.None? <==> IsKind(kind) && (spv.None? || (kind == QuantileMetric && spv.value.otd.NoSketch?))
    ensures r.Some? && IsKind(kind) ==> |r.value| == |SuffixMap(kind)|
    ensures !IsKind(kind) ==> r == Some([BlankCell])
    ensures r.Some? && (kind == CountSumMetric || kind == CountAvgMetric) ==> r.value[0] == CountCell(spv.value.count)
    // Each value carries the quantity its suffix names.
    ensures r.Some? && IsKind(kind) ==> forall i :: 0 <= i < |r.value| ==>
              && (SuffixMap(kind)[i] == "_Sum" ==> r.value[i] == FloatCell(spv.value.sum))
              && (SuffixMap(kind)[i] == "_Count" ==> r.value[i] == CountCell(spv.value.count))
              && (SuffixMap(kind)[i] == "_Avg" ==> r.value[i] == AvgCell(spv.value.sum, spv.value.count))
    ensures r.Some? && kind == QuantileMetric ==>
              r.value == QuantileCells(spv.value.otd.inserted, [0.50, 0.90, 0.95, 0.99])
  {
    if !IsKind(kind) then Some([BlankCell])
    else if spv.None? then None
    else
      var sv := spv.value;
      if kind == BaseMetric || kind == SumMetric then Some([FloatCell(sv.sum)])
      else if kind == AvgMetric then Some([AvgCell(sv.sum, sv.count)])
      else if kind == CountMetric then Some([CountCell(sv.count)])
      else if kind == CountSumMetric then Some([CountCell(sv.count), FloatCell(sv.sum)])
      else if kind == CountAvgMetric then Some([CountCell(sv.count), AvgCell(sv.sum, sv.count)])
      else match sv.otd
        case NoSketch => None
        case Digest(s) => Some([QuantileCell(s, 0.50), QuantileCell(s, 0.90), QuantileCell(s, 0.95), QuantileCell(s, 0.99)])
  }

  /** The quantile values of a digest fed `inserted`, one per requested quantile. */
  function QuantileCells(inserted: seq<real>, qs: seq<real>): (r: seq<Cell>)
    ensures |r| == |qs|
    ensures forall i :: 0 <= i < |qs| ==> r[i] == QuantileCell(inserted, qs[i])
  {
    if qs == [] then [] else [QuantileCell(inserted, qs[0])] + QuantileCells(inserted, qs[1..])
  }

  /** A Count accumulator that started at zero and took `vs` renders their
      number, whatever the values were. */
  lemma RenderCount(vs: seq<real>)
    requires |vs| <= MaxInt64
    ensures var folded := Fold(NewBaseSpecValue(), CountMetric, vs);
            folded.Some? && GetValueString(CountMetric, folded) == Some([CountCell(|vs| as int64)])
  {
    FoldCount(NewBaseSpecValue(), vs);
  }

  /** A CountSum accumulator that started at zero and took the values `vs`
      renders as their number and then their sum. */
  lemma RenderCountSum(vs: seq<real>)
    requires |vs| <= MaxInt64
    ensures var folded := Fold(NewBaseSpecValue(), CountSumMetric, vs);
            folded.Some? && GetValueString(CountSumMetric, folded) == Some([CountCell(|vs| as int64), FloatCell(Sum(vs))])
  {
    FoldSumCount(NewBaseSpecValue(), CountSumMetric, vs);
  }

  /** An Avg accumulator that started at zero renders the sum of its values
      over their number. */
  lemma RenderAvg(vs: seq<real>)
    requires |vs| <= MaxInt64
    ensures var folded := Fold(NewBaseSpecValue(), AvgMetric, vs);
            folded.Some? && GetValueString(AvgMetric, folded) == Some([AvgCell(Sum(vs), |vs| as int64)])
  {
    FoldSumCount(NewBaseSpecValue(), AvgMetric, vs);
  }

  /** A Quantile accumulator renders four quantiles of exactly the values it
      was fed, in order. */
  lemma RenderQuantile(vs: seq<real>)
    ensures var folded := Fold(NewQuantileSpecValue(), QuantileMetric, vs);
            && folded.Some?
            && GetValueString(QuantileMetric, folded) ==
               Some([QuantileCell(vs, 0.50), QuantileCell(vs, 0.90), QuantileCell(vs, 0.95), QuantileCell(vs, 0.99)])
  {
    FoldQuantile(NewQuantileSpecValue(), vs);
    assert [] + vs == vs;
  }

  /** The argument of ValidateMode: Go's interface{} seen through its two
      type assertions. */
  datatype ModeArg = IntMode(i: int) | StringMode(s: string) | OtherMode

  /** ASCII lower case; the mode names are ASCII, and no other character
      lower-cases onto one of their letters. */
  function ToLower(s: string): (r: string)
    ensures |r| == |s|
    ensures forall i :: 0 <= i < |s| ==> ('A' <= s[i] <= 'Z' ==> r[i] as int == s[i] as int + 32)
    ensures forall i :: 0 <= i < |s| ==> (!('A' <= s[i] <= 'Z') ==> r[i] == s[i])
  {
    if s == [] then []
    else [if 'A' <= s[0] <= 'Z' then (s[0] as int + 32) as char else s[0]] + ToLower(s[1..])
  }

  /** The mode a string selects: the named mode, and otherwise 0, the value
      the failed int assertion left behind. */
  function ModeOfString(s: string): (mi: int)
    ensures 0 <= mi <= 2
    ensures mi == UP <==> ToLower(s) == UpStr
    ensures mi == DOWN <==> ToLower(s) == DownStr
  {
    var l := ToLower(s);
    if l == AllStr then ALL else if l == UpStr then UP else if l == DownStr then DOWN else 0
  }

  /** A writer factory in the name registry. */
  datatype Factory = TextWriterFactory

  /** A configured writer. */
  datatype Writer = TextWriter(conf: WriterConfig, describe: string)

  /** What a factory builds from a configuration. */
  function Build(f: Factory, conf: WriterConfig): (w: Writer)
    ensures w.conf == conf
  {
    match f
    case TextWriterFactory => TextWriter(conf, "A Text type writer")
  }

  /** WriterConfig: one writer's settings. */
  class WriterConfig {
    var name: string
    var mode: int
    var upLoadHost: string
    var upLoadPort: int
    var uploadRetry: int
    var downPath: string

    /** NewWriterConfig: write to the local file ./go-monitor.txt. */
    constructor ()
      ensures name == "" && mode == DOWN && upLoadHost == "" && upLoadPort == 2003
      ensures uploadRetry == 0 && downPath == "./go-monitor.txt"
    {
      name := "";
      mode := 2;
      upLoadHost := "";
      upLoadPort := 2003;
      uploadRetry := 0;
      downPath := "./go-monitor.txt";
    }

    /** ValidWriterName: adopt a registered name, refuse any other. */
    method ValidWriterName(registry: map<string, Factory>, n: string) returns (err: Option<Error>)
      modifies this
      ensures err.None? <==> n in registry
      ensures err.Some? ==> err == Some(ErrorWriterConfig("Can't find This Writer"))
      ensures name == (if n in registry then n else old(name))
      ensures mode == old(mode) && upLoadHost == old(upLoadHost) && upLoadPort == old(upLoadPort)
      ensures uploadRetry == old(uploadRetry) && downPath == old(downPath)
    {
      if n in registry {
        name := n;
        return None;
      }
      return Some(ErrorWriterConfig("Can't find This Writer"));
    }

    /** ValidateIntMode: 0, 1 and 2 are adopted, anything else refused. */
    method ValidateIntMode(m: int) returns (err: Option<Error>)
      modifies this
      ensures err.None? <==> 0 <= m <= 2
      ensures err.Some? ==> err == Some(ErrorWriterConfig(ModeError))
      ensures mode == (if 0 <= m <= 2 then m else old(mode))
      ensures name == old(name) && upLoadHost == old(upLoadHost) && upLoadPort == old(upLoadPort)
      ensures uploadRetry == old(uploadRetry) && downPath == old(downPath)
    {
      if m == 0 || m == 1 || m == 2 {
        mode := m;
        return None;
      }
      return Some(ErrorWriterConfig(ModeError));
    }

    /** ValidateMode: an int goes to ValidateIntMode, a string by its name
        (any unknown string selects mode 0), anything else is refused. */
    method ValidateMode(arg: ModeArg) returns (err: Option<Error>)
      modifies this
      ensures arg.IntMode? ==> (err.None? <==> 0 <= arg.i <= 2)
      ensures arg.IntMode? ==> mode == (if 0 <= arg.i <= 2 then arg.i else old(mode))
      ensures arg.StringMode? ==> err.None? && mode == ModeOfString(arg.s)
      ensures arg.OtherMode? ==> err == Some(ErrorWriterConfig(ModeError)) && mode == old(mode)
      ensures err.Some? ==> err == Some(ErrorWriterConfig(ModeError))
      ensures name == old(name) && upLoadHost == old(upLoadHost) && upLoadPort == old(upLoadPort)
      ensures uploadRetry == old(uploadRetry) && downPath == old(downPath)
    {
      match arg
      case IntMode(i) =>
        err := ValidateIntMode(i);
      case StringMode(s) =>
        err := ValidateIntMode(ModeOfString(s));
      case OtherMode =>
        err := Some(ErrorWriterConfig(ModeError));
    }

    /** ValidateUpLoadHost: accepts every host and records nothing. */
    method ValidateUpLoadHost(host: string) returns (err: Option<Error>)
      ensures err == None
    {
      err := None;
    }

    /** ValidateUpLoadPort: ignored in DOWN mode; otherwise a port in
        0..65535 is adopted and any other refused. */
    method ValidateUpLoadPort(port: int) returns (err: Option<Error>)
      modifies this
      ensures err.Some? <==> mode != DOWN && (port < 0 || port > 65535)
      ensures err.Some? ==> err == Some(ErrorWriterConfig("Upload Port must be > 0 and < 65535"))
      ensures upLoadPort == (if mode != DOWN && 0 <= port <= 65535 then port else old(upLoadPort))
      ensures name == old(name) && mode == old(mode) && upLoadHost == old(upLoadHost)
      ensures uploadRetry == old(uploadRetry) && downPath == old(downPath)
    {
      if mode == DOWN {
        return None;
      }
      if port < 0 || port > 65535 {
        return Some(ErrorWriterConfig("Upload Port must be > 0 and < 65535"));
      }
      upLoadPort := port;
      return None;
    }

    /** ValidateUploadRetry: 0..10 is adopted, more only when forced. */
    method ValidateUploadRetry(n: int, force: bool) returns (err: Option<Error>)
      modifies this
      ensures err.None? <==> 0 <= n && (n <= 10 || force)
      ensures err.Some? ==> err == Some(ErrorWriterConfig(UPloadRetryError))
      ensures uploadRetry == (if err.None? then n else old(uploadRetry))
      ensures name == old(name) && mode == old(mode) && upLoadHost == old(upLoadHost)
      ensures upLoadPort == old(upLoadPort) && downPath == old(downPath)
    {
      if n < 0 {
        return Some(ErrorWriterConfig(UPloadRetryError));
      }
      if n > 10 && !force {
        return Some(ErrorWriterConfig(UPloadRetryError));
      }
      uploadRetry := n;
      return None;
    }

    /** ValidateDownPath: accepts every path and records nothing. */
    method ValidateDownPath(path: string) returns (err: Option<Error>)
      ensures err == None
    {
      err := None;
    }
  }

  /** InitWriter: the writer the registry builds for the configured name, or
      a not-found error naming it. */
  function InitWriter(registry: map<string, Factory>, conf: WriterConfig): (r: Result<Writer, Error>)
    reads conf
    ensures r.Ok? <==> conf.name in registry
    ensures r.Ok? ==> r.value == Build(registry[conf.name], conf)
    ensures r.Err? ==> r.error == ErrWriterNotFound(conf.name)
  {
    if conf.name in registry then Ok(Build(registry[conf.name], conf))
    else Err(ErrWriterNotFound(conf.name))
  }
}
