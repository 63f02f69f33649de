/**
 * `JaahasOtlpExporterOptions`: the mutable settings of one OTLP exporter, with their
 * documented defaults, and the value types it is made of.
 */
module ExporterOptions {
  import opened Wrappers
  import SignalKinds

  /** `OtlpExportProtocol`. */
  datatype Protocol = Grpc | HttpProtobuf

  /**
   * A `System.Uri`: its `AbsoluteUri` text (already in normalised form) and whether it is
   * absolute. The text of a relative URI is never read.
   */
  datatype Uri = Uri(text: string, isAbsolute: bool)

  /** A header dictionary: key/value pairs in enumeration order, each key at most once. */
  type Headers = seq<(string, string)>

  /** The value of every property of an options object at one moment. */
  datatype OptionsState = OptionsState(
    enabled: bool,
    protocol: Protocol,
    endpoint: Option<Uri>,
    signals: SignalKinds.SignalKind,
    headers: Option<Headers>,
    timeoutMilliseconds: int,
    appendSignalPathToEndpoint: bool)

  /** Ten seconds. */
  const DefaultTimeoutMilliseconds := 10000

  /** The state of a freshly constructed options object. */
  const DefaultOptions := OptionsState(
    enabled := false,
    protocol := HttpProtobuf,
    endpoint := None,
    signals := SignalKinds.Traces,
    headers := None,
    timeoutMilliseconds := DefaultTimeoutMilliseconds,
    appendSignalPathToEndpoint := true)

  /**
   * What the configuration binder found for the scalar properties: `Some` for each key the
   * configuration section holds, already converted to the property's type.
   */
  datatype ScalarUpdate = ScalarUpdate(
    enabled: Option<bool>,
    protocol: Option<Protocol>,
    endpoint: Option<Uri>,
    signals: Option<SignalKinds.SignalKind>,
    timeoutMilliseconds: Option<int>,
    appendSignalPathToEndpoint: Option<bool>)
  {
    /** Overwrites exactly the properties the configuration holds a value for. */
    function ApplyTo(o: OptionsState): (r: OptionsState)
      ensures r.headers == o.headers
      ensures this == NoValues ==> r == o
    {
      OptionsState(
        enabled.GetOr(o.enabled),
        protocol.GetOr(o.protocol),
        if endpoint.Some? then endpoint else o.endpoint,
        signals.GetOr(o.signals),
        o.headers,
        timeoutMilliseconds.GetOr(o.timeoutMilliseconds),
        appendSignalPathToEndpoint.GetOr(o.appendSignalPathToEndpoint))
    }
  }

  /** A configuration section that holds none of the scalar properties. */
  const NoValues := ScalarUpdate(None, None, None, None, None, None)

  /** Binding the same values twice is binding them once. */
  lemma ApplyToIdempotent(u: ScalarUpdate, o: OptionsState)
    ensures u.ApplyTo(u.ApplyTo(o)) == u.ApplyTo(o)
  {
  }

  /**
   * A property the configuration holds a value for comes out the same whatever it was before;
   * a property it holds nothing for keeps its old value.
   */
  lemma ApplyToOverwritesExactlyHeld(u: ScalarUpdate, o1: OptionsState, o2: OptionsState)
    ensures u.enabled.Some? ==> u.ApplyTo(o1).enabled == u.ApplyTo(o2).enabled
    ensures u.enabled.None? ==> u.ApplyTo(o1).enabled == o1.enabled
    ensures u.protocol.Some? ==> u.ApplyTo(o1).protocol == u.ApplyTo(o2).protocol
    ensures u.protocol.None? ==> u.ApplyTo(o1).protocol == o1.protocol
    ensures u.endpoint.Some? ==> u.ApplyTo(o1).endpoint == u.ApplyTo(o2).endpoint
    ensures u.endpoint.None? ==> u.ApplyTo(o1).endpoint == o1.endpoint
    ensures u.signals.Some? ==> u.ApplyTo(o1).signals == u.ApplyTo(o2).signals
    ensures u.signals.None? ==> u.ApplyTo(o1).signals == o1.signals
    ensures u.timeoutMilliseconds.Some? ==> u.ApplyTo(o1).timeoutMilliseconds == u.ApplyTo(o2).timeoutMilliseconds
    ensures u.timeoutMilliseconds.None? ==> u.ApplyTo(o1).timeoutMilliseconds == o1.timeoutMilliseconds
    ensures u.appendSignalPathToEndpoint.Some? ==>
      u.ApplyTo(o1).appendSignalPathToEndpoint == u.ApplyTo(o2).appendSignalPathToEndpoint
    ensures u.appendSignalPathToEndpoint.None? ==> u.ApplyTo(o1).appendSignalPathToEndpoint == o1.appendSignalPathToEndpoint
  {
  }

  /** The options object: a property bag that binding and configure callbacks update in place. */
  class JaahasOtlpExporterOptions {
    var enabled: bool
    var protocol: Protocol
    var endpoint: Option<Uri>
    var signals: SignalKinds.SignalKind
    var headers: Option<Headers>
    var timeoutMilliseconds: int
    var appendSignalPathToEndpoint: bool

    function State(): OptionsState
      reads this
    {
      OptionsState(enabled, protocol, endpoint, signals, headers, timeoutMilliseconds, appendSignalPathToEndpoint)
    }

    /** A fresh options object: disabled, HTTP/protobuf, no endpoint, traces only, no headers,
        a ten-second timeout and the signal path appended to the endpoint. */
    constructor ()
      ensures !enabled && protocol == HttpProtobuf && endpoint.None?
      ensures signals == SignalKinds.Traces && headers.None?
      ensures timeoutMilliseconds == 10000 && appendSignalPathToEndpoint
      ensures State() == DefaultOptions
    {
      enabled := false;
      protocol := HttpProtobuf;
      endpoint := None;
      signals := SignalKinds.Traces;
      headers := None;
      timeoutMilliseconds := DefaultTimeoutMilliseconds;
      appendSignalPathToEndpoint := true;
    }

    /** Replaces every property with the given value. */
    method Assign(s: OptionsState)
      modifies this
      ensures State() == s
    {
      enabled, protocol, endpoint, signals := s.enabled, s.protocol, s.endpoint, s.signals;
      headers, timeoutMilliseconds := s.headers, s.timeoutMilliseconds;
      appendSignalPathToEndpoint := s.appendSignalPathToEndpoint;
    }

    /** Runs a configure callback on this object: its effect is a function of the old state. */
    method Update(configure: OptionsState -> OptionsState)
      modifies this
      ensures State() == configure(old(State()))
    {
      Assign(configure(State()));
    }
  }
}
