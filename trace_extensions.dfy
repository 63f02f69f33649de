/**
 * The tracer-provider extensions: bind an options object from configuration and register an
 * unnamed OTLP trace exporter when the options enable traces.
 */
module TraceExtensions {
  import opened Wrappers
  import opened Text
  import opened Configuration
  import opened ExporterOptions
  import opened Pipelines
  import opened ConfigurationUtilities
  import SignalKinds

  /**
   * `ConfigureExporter(builder, options)`: adds one exporter for traces exactly when the options
   * are enabled and select traces; a null argument is refused before anything changes.
   */
  method ConfigureExporter(builder: TracerProviderBuilder?, options: JaahasOtlpExporterOptions?)
    returns (r: Result<TracerProviderBuilder, Exception>)
    modifies builder
    ensures builder == null ==> r == Failure(ArgumentNull("builder"))
    ensures builder != null && options == null ==>
      r == Failure(ArgumentNull("options")) && builder.exporters == old(builder.exporters)
    ensures builder != null && options != null ==>
      && r == Success(builder)
      && builder.exporters == old(builder.exporters) + Gated(None, options.State(), SignalKinds.Traces)
  {
    if builder == null {
      return Failure(ArgumentNull("builder"));
    }
    if options == null {
      return Failure(ArgumentNull("options"));
    }
    if options.enabled && SignalKinds.HasFlag(options.signals, SignalKinds.Traces) {
      builder.AddExporters([Registration(None, options.State(), SignalKinds.Traces)]);
    }
    return Success(builder);
  }

  /**
   * `ConfigureOtlpExporter(builder, configuration, sectionName)`: a fresh options object bound
   * from the selected section, then `ConfigureExporter`. A conversion failure while binding is
   * raised and registers nothing.
   */
  method ConfigureOtlpExporter(builder: TracerProviderBuilder?, configuration: Option<ConfigSection>,
                               sectionName: Option<string>, binder: ScalarBinder)
    returns (r: Result<TracerProviderBuilder, Exception>)
    modifies builder
    ensures builder == null ==> r == Failure(ArgumentNull("builder"))
    ensures builder != null && configuration.None? ==>
      r == Failure(ArgumentNull("configuration")) && builder.exporters == old(builder.exporters)
    ensures builder != null && configuration.Some? ==>
      var section := if IsNullOrWhiteSpace(sectionName) then configuration.value
                     else GetSection(configuration.value, sectionName.value);
      match BoundOptions(section, binder, None)
      case Failure(e) => r == Failure(e) && builder.exporters == old(builder.exporters)
      case Success(o) => r == Success(builder) && builder.exporters == old(builder.exporters) + Gated(None, o, SignalKinds.Traces)
  {
    if builder == null {
      return Failure(ArgumentNull("builder"));
    }
    if configuration.None? {
      return Failure(ArgumentNull("configuration"));
    }
    var options := new JaahasOtlpExporterOptions();
    var section := SelectSection(configuration.value, sectionName);
    var bound := Bind(options, section, binder);
    if bound.Failure? {
      return Failure(bound.error);
    }
    r := ConfigureExporter(builder, options);
  }
}
