/** The monitor configuration (config.go) and its validators. */
module MonitorConfig {
  import opened Prelude
  import opened Errors
  import opened Writers

  /** time.Second in nanoseconds; a duration is a count of nanoseconds. */
  const Second: int64 := 1_000_000_000

  /** The range ValidateHTTPPort accepts besides the current port: strictly
      between 1024 and 65535. */
  predicate HTTPPortInRange(port: int) {
    1024 < port < 65535
  }

  /** Config: aggregation interval, retained revisions, HTTP port, writer
      configurations and the path the web view reads. */
  class Config {
    var interval: int64
    var revisions: int
    var port: int
    var writers: seq<WriterConfig>
    var webPath: string

    /** What the validators keep: an interval of at least a second, a
        non-negative revision count and a port in the accepted range. */
    ghost predicate Valid()
      reads this
    {
      && interval >= Second
      && revisions >= 0
      && HTTPPortInRange(port)
    }

    /** NewConfig: one minute, three revisions, port 9999, no writers. */
    constructor ()
      ensures Valid()
      ensures interval == 60 * Second && revisions == 3 && port == 9999
      ensures writers == [] && webPath == "./go-monitor.txt"
    {
      interval := 60 * Second;
      revisions := 3;
      port := 9999;
      writers := [];
      webPath := "./go-monitor.txt";
    }

    /** ValidateRevisions: a negative count is replaced by 0 and reported. */
    method ValidateRevisions(num: int) returns (err: Option<Error>)
      modifies this
      ensures num < 0 ==> revisions == 0 && err == Some(ErrMonitorConfig("Revisions Conf error, use default 0"))
      ensures num >= 0 ==> revisions == num && err == None
      ensures interval == old(interval) && port == old(port) && writers == old(writers) && webPath == old(webPath)
      ensures old(Valid()) ==> Valid()
    {
      if num < 0 {
        revisions := 0;
        return Some(ErrMonitorConfig("Revisions Conf error, use default 0"));
      }
      revisions := num;
      return None;
    }

    /** ValidateInterval: an interval under a second is refused. */
    method ValidateInterval(duration: int64) returns (err: Option<Error>)
      modifies this
      ensures err.None? <==> duration >= Second
      ensures err.Some? ==> err == Some(ErrMonitorConfig("monitor aggregate Interval to small, must >= 1s"))
      ensures interval == (if duration >= Second then duration else old(interval))
      ensures revisions == old(revisions) && port == old(port) && writers == old(writers) && webPath == old(webPath)
      ensures old(Valid()) ==> Valid()
    {
      if duration < Second {
        return Some(ErrMonitorConfig("monitor aggregate Interval to small, must >= 1s"));
      }
      interval := duration;
      return None;
    }

    /** ValidateHTTPPort: the current port is always accepted; another is
        adopted only strictly between 1024 and 65535. */
    method ValidateHTTPPort(p: int) returns (err: Option<Error>)
      modifies this
      ensures err.None? <==> p == old(port) || HTTPPortInRange(p)
      ensures err.Some? ==> err == Some(ErrMonitorConfig("Http Port must > 1024 and < 65535"))
      ensures port == (if err.None? then p else old(port))
      ensures interval == old(interval) && revisions == old(revisions) && writers == old(writers) && webPath == old(webPath)
      ensures old(Valid()) ==> Valid()
    {
      if port == p {
        return None;
      }
      if p > 1024 && p < 65535 {
        port := p;
        return None;
      }
      return Some(ErrMonitorConfig("Http Port must > 1024 and < 65535"));
    }

    /** AddWriter: append, keeping every writer already configured. */
    method AddWriter(wc: WriterConfig)
      modifies this
      ensures writers == old(writers) + [wc]
      ensures interval == old(interval) && revisions == old(revisions) && port == old(port) && webPath == old(webPath)
      ensures old(Valid()) ==> Valid()
    {
      writers := writers + [wc];
    }
  }
}
