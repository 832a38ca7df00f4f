/** `ExecuteMultipleRequestSettings`: the configuration a batch orchestrator
    reads. Five independent properties with plain getters and setters, and
    defaults of a no-op error callback, parallelism -1, a no-op progress
    callback, a progress interval of one second and a request size of 60.

    A callback is either the default no-op or a caller-supplied delegate,
    whose effect is recorded as an event in an external trace because its
    body is not known. */
module BatchSettings {
  import opened Types

  newtype Int32 = x: int | -0x8000_0000 <= x < 0x8000_0000

  /** A `TimeSpan`, as its count of 100-nanosecond ticks (a 64-bit integer). */
  newtype Ticks = x: int | -0x8000_0000_0000_0000 <= x < 0x8000_0000_0000_0000

  const TicksPerSecond: Ticks := 10_000_000

  /** A delegate: the default `(_, _) => { }`, or one the caller supplied. */
  datatype Callback = NoOp | Delegate(handler: nat)

  /** What a caller-supplied delegate was invoked with. */
  datatype Event =
    | ErrorReported(handler: nat, request: OrgRequest, message: string)
    | ProgressReported(handler: nat, done: Int32, total: Int32)

  datatype ExecuteMultipleRequestSettings = ExecuteMultipleRequestSettings(
    errorReport: Callback,
    maxDegreeOfParallelism: Int32,
    reportProgress: Callback,
    reportProgressInterval: Ticks,
    requestSize: Int32)

  /** A freshly constructed settings object. */
  const Defaults: ExecuteMultipleRequestSettings :=
    ExecuteMultipleRequestSettings(NoOp, -1, NoOp, TicksPerSecond, 60)

  /** Invoking the `ErrorReport` callback. */
  function ReportError(callback: Callback, request: OrgRequest, message: string, trace: seq<Event>): seq<Event> {
    match callback
    case NoOp => trace
    case Delegate(h) => trace + [ErrorReported(h, request, message)]
  }

  /** Invoking the `ReportProgress` callback. */
  function ReportProgress(callback: Callback, done: Int32, total: Int32, trace: seq<Event>): seq<Event> {
    match callback
    case NoOp => trace
    case Delegate(h) => trace + [ProgressReported(h, done, total)]
  }

  /** The defaults: request size 60, parallelism -1, a one-second progress
      interval, and callbacks that accept any arguments and change nothing. */
  lemma DefaultValues()
    ensures Defaults.requestSize == 60
    ensures Defaults.maxDegreeOfParallelism == -1
    ensures Defaults.reportProgressInterval == TicksPerSecond
    ensures forall request, message, trace :: ReportError(Defaults.errorReport, request, message, trace) == trace
    ensures forall done, total, trace :: ReportProgress(Defaults.reportProgress, done, total, trace) == trace
  {
  }

  /** `ErrorReport { set; }`. */
  function SetErrorReport(s: ExecuteMultipleRequestSettings, v: Callback): (r: ExecuteMultipleRequestSettings)
    ensures r.errorReport == v
    ensures r.maxDegreeOfParallelism == s.maxDegreeOfParallelism && r.reportProgress == s.reportProgress
    ensures r.reportProgressInterval == s.reportProgressInterval && r.requestSize == s.requestSize
  {
    s.(errorReport := v)
  }

  /** `MaxDegreeOfParallelism { set; }`. */
  function SetMaxDegreeOfParallelism(s: ExecuteMultipleRequestSettings, v: Int32): (r: ExecuteMultipleRequestSettings)
    ensures r.maxDegreeOfParallelism == v
    ensures r.errorReport == s.errorReport && r.reportProgress == s.reportProgress
    ensures r.reportProgressInterval == s.reportProgressInterval && r.requestSize == s.requestSize
  {
    s.(maxDegreeOfParallelism := v)
  }

  /** `ReportProgress { set; }`. */
  function SetReportProgress(s: ExecuteMultipleRequestSettings, v: Callback): (r: ExecuteMultipleRequestSettings)
    ensures r.reportProgress == v
    ensures r.errorReport == s.errorReport && r.maxDegreeOfParallelism == s.maxDegreeOfParallelism
    ensures r.reportProgressInterval == s.reportProgressInterval && r.requestSize == s.requestSize
  {
    s.(reportProgress := v)
  }

  /** `ReportProgressInterval { set; }`. */
  function SetReportProgressInterval(s: ExecuteMultipleRequestSettings, v: Ticks): (r: ExecuteMultipleRequestSettings)
    ensures r.reportProgressInterval == v
    ensures r.errorReport == s.errorReport && r.maxDegreeOfParallelism == s.maxDegreeOfParallelism
    ensures r.reportProgress == s.reportProgress && r.requestSize == s.requestSize
  {
    s.(reportProgressInterval := v)
  }

  /** `RequestSize { set; }`. */
  function SetRequestSize(s: ExecuteMultipleRequestSettings, v: Int32): (r: ExecuteMultipleRequestSettings)
    ensures r.requestSize == v
    ensures r.errorReport == s.errorReport && r.maxDegreeOfParallelism == s.maxDegreeOfParallelism
    ensures r.reportProgress == s.reportProgress && r.reportProgressInterval == s.reportProgressInterval
  {
    s.(requestSize := v)
  }

  /** One property assignment, `settings.Property = value`. */
  datatype Assignment =
    | ErrorReportTo(errorReport: Callback)
    | MaxDegreeOfParallelismTo(maxDegreeOfParallelism: Int32)
    | ReportProgressTo(reportProgress: Callback)
    | ReportProgressIntervalTo(reportProgressInterval: Ticks)
    | RequestSizeTo(requestSize: Int32)

  /** Running the setter an assignment names. */
  function Assign(s: ExecuteMultipleRequestSettings, a: Assignment): ExecuteMultipleRequestSettings {
    match a
    case ErrorReportTo(v) => SetErrorReport(s, v)
    case MaxDegreeOfParallelismTo(v) => SetMaxDegreeOfParallelism(s, v)
    case ReportProgressTo(v) => SetReportProgress(s, v)
    case ReportProgressIntervalTo(v) => SetReportProgressInterval(s, v)
    case RequestSizeTo(v) => SetRequestSize(s, v)
  }

  /** Two assignments to the same property. */
  predicate SameProperty(a: Assignment, b: Assignment) {
    (a.ErrorReportTo? && b.ErrorReportTo?) || (a.MaxDegreeOfParallelismTo? && b.MaxDegreeOfParallelismTo?)
    || (a.ReportProgressTo? && b.ReportProgressTo?) || (a.ReportProgressIntervalTo? && b.ReportProgressIntervalTo?)
    || (a.RequestSizeTo? && b.RequestSizeTo?)
  }

  /** The five properties are independent: assignments to different
      properties commute (all ten pairs), and of two assignments to the same
      property the later one wins. */
  lemma SettersCommute(s: ExecuteMultipleRequestSettings, a: Assignment, b: Assignment)
    ensures !SameProperty(a, b) ==> Assign(Assign(s, a), b) == Assign(Assign(s, b), a)
    ensures SameProperty(a, b) ==> Assign(Assign(s, a), b) == Assign(s, b)
  {
  }
}
