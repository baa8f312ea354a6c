/**
 * LogService: a level-filtered logger that hands each passing entry to every
 * configured appender in order, catching what an appender throws.
 *
 * An appender is modelled by whether its `log` call throws; what it writes is
 * left out. The service records each `log` call it makes in `deliveries`.
 */
module Logging {

  /** LogLevel with its numeric values: Off = 0, Error = 1, Warn = 2, Info = 3, Debug = 4, Trace = 5. */
  datatype LogLevel = Off | Error | Warn | Info | Debug | Trace {
    function Value(): nat {
      match this
      case Off => 0
      case Error => 1
      case Warn => 2
      case Info => 3
      case Debug => 4
      case Trace => 5
    }
  }

  datatype Appender = Appender(name: string, throws: bool)

  /** LogEntry without its timestamp. */
  datatype LogEntry = LogEntry(level: LogLevel, message: string, params: seq<string>)

  /** One `appender.log(entry)` call; `threw` when the appender raised and the error was caught. */
  datatype Delivery = Delivery(appender: nat, entry: LogEntry, threw: bool)

  /** LogConfig is an object: the service keeps a shallow copy, so the appenders array is shared with it. */
  class LogConfig {
    var level: LogLevel
    var appenders: array<Appender>

    constructor(level: LogLevel, appenders: array<Appender>)
      ensures this.level == level && this.appenders == appenders
    {
      this.level := level;
      this.appenders := appenders;
    }
  }

  /** The calls `writeLog` makes for a passing entry: each appender in order, once, whether or not it throws. */
  function FanOut(appenders: seq<Appender>, entry: LogEntry): seq<Delivery>
    decreases |appenders|
  {
    if appenders == [] then []
    else
      var n := |appenders| - 1;
      FanOut(appenders[..n], entry) + [Delivery(n, entry, appenders[n].throws)]
  }

  /**
   * Each appender receives the entry exactly once, in configured order, and a
   * throwing appender does not keep the ones after it from receiving it.
   */
  lemma {:induction false} FanOutReachesEveryAppender(appenders: seq<Appender>, entry: LogEntry)
    ensures |FanOut(appenders, entry)| == |appenders|
    ensures forall i :: 0 <= i < |appenders| ==>
      FanOut(appenders, entry)[i] == Delivery(i, entry, appenders[i].throws)
    decreases |appenders|
  {
    if appenders != [] {
      FanOutReachesEveryAppender(appenders[..|appenders| - 1], entry);
    }
  }

  /** `shouldLog`: nothing passes when the threshold is `Off`; otherwise levels up to the threshold pass. */
  predicate Passes(threshold: LogLevel, level: LogLevel)
    ensures threshold == Off ==> !Passes(threshold, level)
    ensures Passes(threshold, level) ==> level.Value() <= threshold.Value()
    ensures threshold != Off && level == Error ==> Passes(threshold, level)
  {
    threshold != Off && level.Value() <= threshold.Value()
  }

  /**
   * `Off` blocks every level; `Trace` lets every real level through; `Error` lets
   * only errors through. An entry written at `Off` itself would pass every other
   * threshold, since its value 0 is below all of them; the public entry points
   * never write at `Off`.
   */
  lemma PassesSpec(threshold: LogLevel, level: LogLevel)
    ensures !Passes(Off, level)
    ensures Passes(threshold, Off) <==> threshold != Off
    ensures level != Off ==> Passes(Trace, level)
    ensures level != Off ==> (Passes(Error, level) <==> level == Error)
  {
  }

  /** A higher threshold lets through everything a lower one does. */
  lemma PassesMonotone(lower: LogLevel, higher: LogLevel, level: LogLevel)
    requires lower.Value() <= higher.Value()
    ensures Passes(lower, level) ==> Passes(higher, level)
  {
  }

  class LogService {
    var config: LogConfig
    /** Every `appender.log` call made so far, in order. */
    var deliveries: seq<Delivery>

    /** The injected config is copied field by field: the level is the service's own, the appenders array is shared. */
    constructor(config: LogConfig)
      ensures fresh(this.config)
      ensures this.config.level == config.level && this.config.appenders == config.appenders
      ensures deliveries == []
    {
      this.config := new LogConfig(config.level, config.appenders);
      deliveries := [];
    }

    /** `writeLog`: return at once when the level does not pass; otherwise hand the entry to every appender. */
    method WriteLog(level: LogLevel, message: string, params: seq<string>)
      modifies this`deliveries
      ensures deliveries == old(deliveries) +
        if Passes(config.level, level) then FanOut(config.appenders[..], LogEntry(level, message, params)) else []
    {
      if !Passes(config.level, level) {
        return;
      }
      var entry := LogEntry(level, message, params);
      var appenders := config.appenders;
      for i := 0 to appenders.Length
        invariant deliveries == old(deliveries) + FanOut(appenders[..i], entry)
      {
        var threw := appenders[i].throws;
        deliveries := deliveries + [Delivery(i, entry, threw)];
        assert appenders[..i + 1][..i] == appenders[..i];
      }
      assert appenders[..appenders.Length] == appenders[..];
    }

    method Trace(message: string, params: seq<string>)
      modifies this`deliveries
      ensures deliveries == old(deliveries) +
        if Passes(config.level, LogLevel.Trace) then FanOut(config.appenders[..], LogEntry(LogLevel.Trace, message, params)) else []
    {
      WriteLog(LogLevel.Trace, message, params);
    }

    method Debug(message: string, params: seq<string>)
      modifies this`deliveries
      ensures deliveries == old(deliveries) +
        if Passes(config.level, LogLevel.Debug) then FanOut(config.appenders[..], LogEntry(LogLevel.Debug, message, params)) else []
    {
      WriteLog(LogLevel.Debug, message, params);
    }

    method Info(message: string, params: seq<string>)
      modifies this`deliveries
      ensures deliveries == old(deliveries) +
        if Passes(config.level, LogLevel.Info) then FanOut(config.appenders[..], LogEntry(LogLevel.Info, message, params)) else []
    {
      WriteLog(LogLevel.Info, message, params);
    }

    method Warn(message: string, params: seq<string>)
      modifies this`deliveries
      ensures deliveries == old(deliveries) +
        if Passes(config.level, LogLevel.Warn) then FanOut(config.appenders[..], LogEntry(LogLevel.Warn, message, params)) else []
    {
      WriteLog(LogLevel.Warn, message, params);
    }

    method Error(message: string, params: seq<string>)
      modifies this`deliveries
      ensures deliveries == old(deliveries) +
        if Passes(config.level, LogLevel.Error) then FanOut(config.appenders[..], LogEntry(LogLevel.Error, message, params)) else []
    {
      WriteLog(LogLevel.Error, message, params);
    }

    /** `setLevel`: only the threshold changes; the appenders stay the same. */
    method SetLevel(level: LogLevel)
      modifies config`level
      ensures config.level == level
      ensures config.appenders == old(config.appenders)
    {
      config.level := level;
    }
  }

  /**
   * A client run, for every configuration and level: after the service is built,
   * reassigning the caller's config level leaves the service's own level as it was
   * at construction, while `SetLevel` changes it for the calls that follow; the
   * appenders array stays shared throughout.
   */
  method ConfigCopyIsolatesLevel(original: LogConfig, reassigned: LogLevel, newLevel: LogLevel, message: string)
    returns (service: LogService, levelAfterReassign: LogLevel)
    modifies original
    ensures fresh(service) && fresh(service.config)
    ensures levelAfterReassign == old(original.level)
    ensures original.level == reassigned && service.config.level == newLevel
    ensures service.config.appenders == original.appenders
    ensures var entry := LogEntry(LogLevel.Info, message, []);
      service.deliveries ==
        (if Passes(old(original.level), LogLevel.Info) then FanOut(original.appenders[..], entry) else [])
        + (if Passes(newLevel, LogLevel.Info) then FanOut(original.appenders[..], entry) else [])
  {
    service := new LogService(original);
    original.level := reassigned;
    levelAfterReassign := service.config.level;
    service.Info(message, []);
    service.SetLevel(newLevel);
    service.Info(message, []);
  }
}
