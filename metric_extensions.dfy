/**
 * The meter-provider extensions: register a named OTLP metric exporter from an options object,
 * from a configure callback, or from configuration.
 */
module MetricExtensions {
  import opened Wrappers
  import opened Text
  import opened Configuration
  import opened ExporterOptions
  import opened Pipelines
  import opened ConfigurationUtilities
  import SignalKinds

  /**
   * `AddOtlpExporter(builder, name, options)`: adds one exporter under `name` exactly when the
   * options are enabled and select metrics.
   */
  method AddOtlpExporter(builder: MeterProviderBuilder?, name: Option<string>, options: JaahasOtlpExporterOptions?)
    returns (r: Result<MeterProviderBuilder, Exception>)
    modifies builder
    ensures builder == null ==> r == Failure(ArgumentNull("builder"))
    ensures builder != null && options == null ==>
      r == Failure(ArgumentNull("options")) && builder.exporters == old(builder.exporters)
    ensures builder != null && options != null ==>
      && r == Success(builder)
      && builder.exporters == old(builder.exporters) + Gated(name, options.State(), SignalKinds.Metrics)
  {
    if builder == null {
      return Failure(ArgumentNull("builder"));
    }
    if options == null {
      return Failure(ArgumentNull("options"));
    }
    if options.enabled && SignalKinds.HasFlag(options.signals, SignalKinds.Metrics) {
      builder.AddExporters([Registration(name, options.State(), SignalKinds.Metrics)]);
    }
    return Success(builder);
  }

  /** `AddOtlpExporter(builder, name, configure)`: the callback runs on a fresh options object. */
  method AddOtlpExporterWithConfigure(builder: MeterProviderBuilder?, name: Option<string>,
                                      configure: Option<OptionsState -> OptionsState>)
    returns (r: Result<MeterProviderBuilder, Exception>)
    modifies builder
    ensures builder == null ==> r == Failure(ArgumentNull("builder"))
    ensures builder != null && configure.None? ==>
      r == Failure(ArgumentNull("configure")) && builder.exporters == old(builder.exporters)
    ensures builder != null && configure.Some? ==>
      && r == Success(builder)
      && builder.exporters == old(builder.exporters) + Gated(name, configure.value(DefaultOptions), SignalKinds.Metrics)
  {
    if builder == null {
      return Failure(ArgumentNull("builder"));
    }
    if configure.None? {
      return Failure(ArgumentNull("configure"));
    }
    var options := new JaahasOtlpExporterOptions();
    options.Update(configure.value);
    r := AddOtlpExporter(builder, name, options);
  }

  /**
   * `AddOtlpExporter(builder, name, configuration, sectionName, configure)`: bind from the
   * selected section, run the optional callback, then register.
   */
  method AddOtlpExporterFromConfiguration(builder: MeterProviderBuilder?, name: Option<string>,
                                          configuration: Option<ConfigSection>, sectionName: Option<string>,
                                          configure: Option<OptionsState -> OptionsState>, binder: ScalarBinder)
    returns (r: Result<MeterProviderBuilder, Exception>)
    modifies builder
    ensures builder == null ==> r == Failure(ArgumentNull("builder"))
    ensures builder != null && configuration.None? ==>
      r == Failure(ArgumentNull("configuration")) && builder.exporters == old(builder.exporters)
    ensures builder != null && configuration.Some? ==>
      var section := if IsNullOrWhiteSpace(sectionName) then configuration.value
                     else GetSection(configuration.value, sectionName.value);
      match BoundOptions(section, binder, configure)
      case Failure(e) => r == Failure(e) && builder.exporters == old(builder.exporters)
      case Success(o) => r == Success(builder) && builder.exporters == old(builder.exporters) + Gated(name, o, SignalKinds.Metrics)
  {
    if builder == null {
      return Failure(ArgumentNull("builder"));
    }
    if configuration.None? {
      return Failure(ArgumentNull("configuration"));
    }
    var options := new JaahasOtlpExporterOptions();
    var section := SelectSection(configuration.value, sectionName);
    var bound := Bind(options, section, binder);
    if bound.Failure? {
      return Failure(bound.error);
    }
    if configure.Some? {
      options.Update(configure.value);
    }
    r := AddOtlpExporter(builder, name, options);
  }
}
