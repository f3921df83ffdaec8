/**
 * The Appsignal logger: every log type takes a `metrics` argument and turns
 * it into calls on the Appsignal client. A list of names increments one
 * counter per name; a Hash from metric name to `{type, value}` sends each
 * value through the client method its type selects, and stops with a
 * failure at the first entry whose type it does not know.
 *
 * The Appsignal client is a trace: the calls a log call emits are returned
 * beside its result. A Hash argument is a sequence of entries, in the
 * insertion order in which Ruby iterates it.
 */
module AppsignalLogger {
  import opened EventTracer

  /** The client methods a metric can be sent through. */
  datatype Backend = IncrementCounter | AddDistributionValue | SetGauge

  /** `SUPPORTED_METRIC_TYPES`: metric type name to client method. */
  const SupportedMetricTypes: map<string, Backend> :=
    map["counter" := IncrementCounter, "distribution" := AddDistributionValue, "gauge" := SetGauge]

  /** Names in a list argument are sent through this method with this value. */
  const DefaultMetricType: Backend := IncrementCounter
  const DefaultCounter: Val := Num(1)

  const InvalidConfigMessage: string := "Invalid appsignal config"

  /** The `type` of a Hash entry: a Symbol, a String, or some other value, kept as its `to_s`. */
  datatype MetricType = SymbolType(name: string) | StringType(text: string) | OtherType(shown: string)

  datatype MetricPayload = MetricPayload(kind: MetricType, value: Val)

  /** One entry of a Hash argument: the metric's name and its payload. */
  datatype Metric = Metric(name: string, payload: MetricPayload)

  /**
   * The `metrics` argument: an Array of names, a Hash of entries, or an
   * argument that `valid_args?` rejects.
   */
  datatype Metrics = Names(names: seq<string>) | Entries(entries: seq<Metric>) | Rejected

  /** One call on the Appsignal client. */
  datatype MetricCall = MetricCall(backend: Backend, name: string, value: Val, tags: map<string, Val>)

  /** The client method for a metric type: only a Symbol or String naming an entry of the table has one. */
  function BackendFor(kind: MetricType): (b: Option<Backend>)
    ensures b.Some? <==>
      ((kind.SymbolType? && kind.name in SupportedMetricTypes) || (kind.StringType? && kind.text in SupportedMetricTypes))
    ensures kind.SymbolType? && b.Some? ==> b.value == SupportedMetricTypes[kind.name]
    ensures kind.StringType? && b.Some? ==> b.value == SupportedMetricTypes[kind.text]
  {
    match kind
    case SymbolType(name) => if name in SupportedMetricTypes then Some(SupportedMetricTypes[name]) else None
    case StringType(text) => if text in SupportedMetricTypes then Some(SupportedMetricTypes[text]) else None
    case OtherType(_) => None
  }

  predicate Supported(m: Metric)
  {
    BackendFor(m.payload.kind).Some?
  }

  /** How a metric type reads when interpolated into a message. */
  function Shown(kind: MetricType): string
  {
    match kind
    case SymbolType(name) => name
    case StringType(text) => text
    case OtherType(shown) => shown
  }

  function InvalidMetricMessage(kind: MetricType): string
  {
    "Appsignal metric " + Shown(kind) + " invalid"
  }

  /**
   * The tags sent with every call: none when no tags are allowed, and
   * otherwise exactly the arguments whose names are allowed, with their values.
   */
  function Tags(allowedTags: seq<string>, args: map<string, Val>): (tags: map<string, Val>)
    ensures allowedTags == [] ==> tags == map[]
    ensures forall k :: k in tags <==> k in args && k in allowedTags
    ensures forall k :: k in tags ==> tags[k] == args[k]
  {
    if allowedTags == [] then map[] else map k | k in args && k in allowedTags :: args[k]
  }

  /** The index of the first entry whose type has no client method, or the number of entries if there is none. */
  function FirstUnsupported(entries: seq<Metric>): (i: nat)
    ensures i <= |entries|
    ensures forall j :: 0 <= j < i ==> Supported(entries[j])
    ensures i < |entries| ==> !Supported(entries[i])
  {
    if entries == [] || !Supported(entries[0]) then 0 else 1 + FirstUnsupported(entries[1..])
  }

  /** The call for each entry: its type's client method, its name and value, and the tags. */
  function EntryCalls(entries: seq<Metric>, tags: map<string, Val>): (calls: seq<MetricCall>)
    requires forall j :: 0 <= j < |entries| ==> Supported(entries[j])
  {
    seq(|entries|, j requires 0 <= j < |entries| && Supported(entries[j]) =>
      MetricCall(BackendFor(entries[j].payload.kind).value, entries[j].name, entries[j].payload.value, tags))
  }

  /** One increment of the default counter per name, in order. */
  function NameCalls(names: seq<string>, tags: map<string, Val>): (calls: seq<MetricCall>)
  {
    seq(|names|, j requires 0 <= j < |names| => MetricCall(DefaultMetricType, names[j], DefaultCounter, tags))
  }

  /** What a Hash argument returns and emits: the calls up to the first unknown type, and a failure naming it. */
  function EntriesOutcome(entries: seq<Metric>, tags: map<string, Val>): (LogResult, seq<MetricCall>)
  {
    var i := FirstUnsupported(entries);
    if i < |entries| then (Failure(InvalidMetricMessage(entries[i].payload.kind)), EntryCalls(entries[..i], tags))
    else (Success, EntryCalls(entries, tags))
  }

  /** What a log call returns and emits. */
  function Outcome(allowedTags: seq<string>, metrics: Metrics, args: map<string, Val>): (LogResult, seq<MetricCall>)
  {
    match metrics
    case Rejected => (Failure(InvalidConfigMessage), [])
    case Names(names) => (Success, NameCalls(names, Tags(allowedTags, args)))
    case Entries(entries) => EntriesOutcome(entries, Tags(allowedTags, args))
  }

  /** The loop over an Array argument: one increment of the default counter per name. */
  method SendNames(names: seq<string>, tags: map<string, Val>) returns (emitted: seq<MetricCall>)
    ensures emitted == NameCalls(names, tags)
  {
    emitted := [];
    for i := 0 to |names|
      invariant emitted == NameCalls(names[..i], tags)
    {
      emitted := emitted + [MetricCall(DefaultMetricType, names[i], DefaultCounter, tags)];
    }
    assert names[..|names|] == names;
  }

  /** The first unknown type is at `i` when every entry before `i` is known and the one at `i` is not. */
  lemma FirstUnsupportedAt(entries: seq<Metric>, i: nat)
    requires i < |entries| && !Supported(entries[i])
    requires forall j :: 0 <= j < i ==> Supported(entries[j])
    ensures FirstUnsupported(entries) == i
  {
  }

  /** Sending one more known entry adds its call at the end. */
  lemma EntryCallsSnoc(entries: seq<Metric>, i: nat, tags: map<string, Val>)
    requires i < |entries|
    requires forall j :: 0 <= j <= i ==> Supported(entries[j])
    ensures EntryCalls(entries[..i + 1], tags)
      == EntryCalls(entries[..i], tags)
         + [MetricCall(BackendFor(entries[i].payload.kind).value, entries[i].name, entries[i].payload.value, tags)]
  {
  }

  /** The loop over a Hash argument, returning a failure at the first entry whose type has no client method. */
  method SendEntries(entries: seq<Metric>, tags: map<string, Val>) returns (result: LogResult, emitted: seq<MetricCall>)
    ensures (result, emitted) == EntriesOutcome(entries, tags)
  {
    emitted := [];
    for i := 0 to |entries|
      invariant forall j :: 0 <= j < i ==> Supported(entries[j])
      invariant emitted == EntryCalls(entries[..i], tags)
    {
      var kind := entries[i].payload.kind;
      if !(kind.SymbolType? || kind.StringType?) {
        FirstUnsupportedAt(entries, i);
        return Failure(InvalidMetricMessage(kind)), emitted;
      }
      var typeName := if kind.SymbolType? then kind.name else kind.text;
      if typeName !in SupportedMetricTypes {
        FirstUnsupportedAt(entries, i);
        return Failure(InvalidMetricMessage(kind)), emitted;
      }
      EntryCallsSnoc(entries, i, tags);
      emitted := emitted + [MetricCall(SupportedMetricTypes[typeName], entries[i].name, entries[i].payload.value, tags)];
    }
    assert entries[..|entries|] == entries;
    result := Success;
  }

  class AppsignalLogger {
    const allowedTags: seq<string>

    constructor (allowedTags: seq<string>)
      ensures this.allowedTags == allowedTags
    {
      this.allowedTags := allowedTags;
    }

    /**
     * The method every log type defines (they all behave alike). It
     * validates the argument, returns early on an empty one, computes the
     * tags and then emits one call per name or per Hash entry, returning a
     * failure at the first entry whose type has no client method.
     */
    method Log(logType: LogType, metrics: Metrics, args: map<string, Val>)
      returns (result: LogResult, emitted: seq<MetricCall>)
      ensures (result, emitted) == Outcome(allowedTags, metrics, args)
    {
      emitted := [];
      if metrics.Rejected? {
        return Failure(InvalidConfigMessage), emitted;
      }
      if (metrics.Names? && metrics.names == []) || (metrics.Entries? && metrics.entries == []) {
        assert NameCalls([], Tags(allowedTags, args)) == [] && EntryCalls([], Tags(allowedTags, args)) == [];
        return Success, emitted;
      }
      var tags := Tags(allowedTags, args);
      match metrics {
        case Names(names) =>
          emitted := SendNames(names, tags);
          result := Success;
        case Entries(entries) =>
          result, emitted := SendEntries(entries, tags);
      }
    }
  }

  // ---------------------------------------------------------------------
  // Properties of a log call

  /** A rejected argument fails with 'Invalid appsignal config' and emits nothing. */
  lemma RejectedFails(allowedTags: seq<string>, args: map<string, Val>)
    ensures Outcome(allowedTags, Rejected, args) == (Failure("Invalid appsignal config"), [])
  {
  }

  /** An empty list or Hash succeeds and emits nothing. */
  lemma EmptySucceeds(allowedTags: seq<string>, args: map<string, Val>)
    ensures Outcome(allowedTags, Names([]), args) == (Success, [])
    ensures Outcome(allowedTags, Entries([]), args) == (Success, [])
  {
    var tags := Tags(allowedTags, args);
    assert NameCalls([], tags) == [] && EntryCalls([], tags) == [];
  }

  /** A list succeeds and increments the counter of each name by 1, in order, with the tags. */
  lemma NamesIncrementEachCounter(allowedTags: seq<string>, names: seq<string>, args: map<string, Val>)
    ensures Outcome(allowedTags, Names(names), args).0 == Success
    ensures var calls := Outcome(allowedTags, Names(names), args).1;
      && |calls| == |names|
      && forall j :: 0 <= j < |names| ==>
        calls[j] == MetricCall(IncrementCounter, names[j], Num(1), Tags(allowedTags, args))
  {
  }

  /**
   * A Hash whose entries all have known types succeeds and sends each
   * value, in order, through the method of its type: counter to
   * increment_counter, distribution to add_distribution_value, gauge to
   * set_gauge, whether the type is a Symbol or a String.
   */
  lemma {:induction false} SupportedEntriesAreSent(allowedTags: seq<string>, entries: seq<Metric>, args: map<string, Val>)
    requires forall j :: 0 <= j < |entries| ==> Supported(entries[j])
    ensures Outcome(allowedTags, Entries(entries), args).0 == Success
    ensures var calls := Outcome(allowedTags, Entries(entries), args).1;
      && |calls| == |entries|
      && forall j :: 0 <= j < |entries| ==>
        && calls[j].name == entries[j].name
        && calls[j].value == entries[j].payload.value
        && calls[j].tags == Tags(allowedTags, args)
        && (Shown(entries[j].payload.kind) == "counter" ==> calls[j].backend == IncrementCounter)
        && (Shown(entries[j].payload.kind) == "distribution" ==> calls[j].backend == AddDistributionValue)
        && (Shown(entries[j].payload.kind) == "gauge" ==> calls[j].backend == SetGauge)
  {
    assert FirstUnsupported(entries) == |entries|;
  }

  /**
   * An entry with an unknown type, or a type that is neither a Symbol nor
   * a String, fails naming that type; the calls for the entries before it
   * stay emitted and no later entry is looked at.
   */
  lemma {:induction false} UnsupportedEntryStops(
    allowedTags: seq<string>, before: seq<Metric>, bad: Metric, after: seq<Metric>, args: map<string, Val>)
    requires forall j :: 0 <= j < |before| ==> Supported(before[j])
    requires !Supported(bad)
    ensures Outcome(allowedTags, Entries(before + [bad] + after), args)
      == (Failure("Appsignal metric " + Shown(bad.payload.kind) + " invalid"), EntryCalls(before, Tags(allowedTags, args)))
  {
    var entries := before + [bad] + after;
    assert entries[|before|] == bad;
    assert forall j :: 0 <= j < |before| ==> entries[j] == before[j];
    assert FirstUnsupported(entries) == |before|;
    assert entries[..|before|] == before;
  }

  /** A call succeeds exactly when its argument is accepted and every Hash entry has a known type. */
  lemma SuccessIffAllSupported(allowedTags: seq<string>, metrics: Metrics, args: map<string, Val>)
    ensures Outcome(allowedTags, metrics, args).0 == Success <==>
      && !metrics.Rejected?
      && (metrics.Entries? ==> forall j :: 0 <= j < |metrics.entries| ==> Supported(metrics.entries[j]))
  {
  }
}
