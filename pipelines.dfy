/**
 * The OpenTelemetry SDK as the extensions see it: pipeline builders reduced to the list of OTLP
 * exporters registered on them, the logger options' `IncludeScopes` switch, and the SDK's own
 * OTLP exporter options object.
 */
module Pipelines {
  import opened Wrappers
  import opened ExporterOptions
  import SignalKinds

  /**
   * One OTLP exporter added to a pipeline: the name it is registered under (`None` for the
   * unnamed registration) and the configuration callback the SDK will run, which applies
   * `options` to the SDK options for `signal`.
   */
  datatype Registration = Registration(name: Option<string>, options: OptionsState, signal: SignalKinds.SignalKind)

  /** The registrations an `Enabled && Signals.HasFlag(signal)` gate adds: one, or none. */
  function Gated(name: Option<string>, o: OptionsState, signal: SignalKinds.SignalKind): (r: seq<Registration>)
    ensures |r| <= 1
    ensures |r| == 1 <==> o.enabled && SignalKinds.HasFlag(o.signals, signal)
    ensures forall reg :: reg in r ==> reg.name == name && reg.options == o && reg.signal == signal
  {
    if o.enabled && SignalKinds.HasFlag(o.signals, signal) then [Registration(name, o, signal)] else []
  }

  /** `TracerProviderBuilder`. */
  class TracerProviderBuilder {
    var exporters: seq<Registration>

    constructor ()
      ensures exporters == []
    {
      exporters := [];
    }

    method AddExporters(regs: seq<Registration>)
      modifies this
      ensures exporters == old(exporters) + regs
    {
      exporters := exporters + regs;
    }
  }

  /** `MeterProviderBuilder`. */
  class MeterProviderBuilder {
    var exporters: seq<Registration>

    constructor ()
      ensures exporters == []
    {
      exporters := [];
    }

    method AddExporters(regs: seq<Registration>)
      modifies this
      ensures exporters == old(exporters) + regs
    {
      exporters := exporters + regs;
    }
  }

  /** `OpenTelemetryLoggerOptions`. */
  class OpenTelemetryLoggerOptions {
    var exporters: seq<Registration>
    var includeScopes: bool

    constructor ()
      ensures exporters == [] && !includeScopes
    {
      exporters := [];
      includeScopes := false;
    }

    method AddExporters(regs: seq<Registration>)
      modifies this
      ensures exporters == old(exporters) + regs && includeScopes == old(includeScopes)
    {
      exporters := exporters + regs;
    }
  }

  /** `OpenTelemetryBuilder`: one pipeline per signal. */
  class OpenTelemetryBuilder {
    const tracing: TracerProviderBuilder
    const metering: MeterProviderBuilder
    const logging: OpenTelemetryLoggerOptions

    constructor ()
      ensures fresh(tracing) && fresh(metering) && fresh(logging)
      ensures tracing.exporters == [] && metering.exporters == []
      ensures logging.exporters == [] && !logging.includeScopes
    {
      tracing := new TracerProviderBuilder();
      metering := new MeterProviderBuilder();
      logging := new OpenTelemetryLoggerOptions();
    }
  }

  /** The SDK's `OtlpExporterOptions`, which the registration callback configures. */
  class OtlpExporterOptions {
    var protocol: Protocol
    var endpoint: Uri
    var headers: Option<string>
    var timeoutMilliseconds: int

    constructor (protocol: Protocol, endpoint: Uri, headers: Option<string>, timeoutMilliseconds: int)
      ensures this.protocol == protocol && this.endpoint == endpoint
      ensures this.headers == headers && this.timeoutMilliseconds == timeoutMilliseconds
    {
      this.protocol := protocol;
      this.endpoint := endpoint;
      this.headers := headers;
      this.timeoutMilliseconds := timeoutMilliseconds;
    }
  }
}
