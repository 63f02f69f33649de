/**
 * The logger-options extensions: register a named OTLP log exporter from an options object,
 * from a configure callback, or from configuration. None of them touches `IncludeScopes`.
 */
module LogExtensions {
  import opened Wrappers
  import opened Text
  import opened Configuration
  import opened ExporterOptions
  import opened Pipelines
  import opened ConfigurationUtilities
  import SignalKinds

  /**
   * `AddOtlpExporter(loggerOptions, name, options)`: adds one exporter under `name` exactly when the
   * options are enabled and select logs.
   */
  method AddOtlpExporter(loggerOptions: OpenTelemetryLoggerOptions?, name: Option<string>, options: JaahasOtlpExporterOptions?)
    returns (r: Result<OpenTelemetryLoggerOptions, Exception>)
    modifies loggerOptions
    ensures loggerOptions == null ==> r == Failure(ArgumentNull("loggerOptions"))
    ensures loggerOptions != null ==> loggerOptions.includeScopes == old(loggerOptions.includeScopes)
    ensures loggerOptions != null && options == null ==>
      r == Failure(ArgumentNull("options")) && loggerOptions.exporters == old(loggerOptions.exporters)
    ensures loggerOptions != null && options != null ==>
      && r == Success(loggerOptions)
      && loggerOptions.exporters == old(loggerOptions.exporters) + Gated(name, options.State(), SignalKinds.Logs)
  {
    if loggerOptions == null {
      return Failure(ArgumentNull("loggerOptions"));
    }
    if options == null {
      return Failure(ArgumentNull("options"));
    }
    if options.enabled && SignalKinds.HasFlag(options.signals, SignalKinds.Logs) {
      loggerOptions.AddExporters([Registration(name, options.State(), SignalKinds.Logs)]);
    }
    return Success(loggerOptions);
  }

  /** `AddOtlpExporter(loggerOptions, name, configure)`: the callback runs on a fresh options object. */
  method AddOtlpExporterWithConfigure(loggerOptions: OpenTelemetryLoggerOptions?, name: Option<string>,
                                      configure: Option<OptionsState -> OptionsState>)
    returns (r: Result<OpenTelemetryLoggerOptions, Exception>)
    modifies loggerOptions
    ensures loggerOptions == null ==> r == Failure(ArgumentNull("loggerOptions"))
    ensures loggerOptions != null ==> loggerOptions.includeScopes == old(loggerOptions.includeScopes)
    ensures loggerOptions != null && configure.None? ==>
      r == Failure(ArgumentNull("configure")) && loggerOptions.exporters == old(loggerOptions.exporters)
    ensures loggerOptions != null && configure.Some? ==>
      && r == Success(loggerOptions)
      && loggerOptions.exporters == old(loggerOptions.exporters) + Gated(name, configure.value(DefaultOptions), SignalKinds.Logs)
  {
    if loggerOptions == null {
      return Failure(ArgumentNull("loggerOptions"));
    }
    if configure.None? {
      return Failure(ArgumentNull("configure"));
    }
    var options := new JaahasOtlpExporterOptions();
    options.Update(configure.value);
    r := AddOtlpExporter(loggerOptions, name, options);
  }

  /**
   * `AddOtlpExporter(loggerOptions, name, configuration, sectionName, configure)`: bind from the
   * selected section, run the optional callback, then register.
   */
  method AddOtlpExporterFromConfiguration(loggerOptions: OpenTelemetryLoggerOptions?, name: Option<string>,
                                          configuration: Option<ConfigSection>, sectionName: Option<string>,
                                          configure: Option<OptionsState -> OptionsState>, binder: ScalarBinder)
    returns (r: Result<OpenTelemetryLoggerOptions, Exception>)
    modifies loggerOptions
    ensures loggerOptions == null ==> r == Failure(ArgumentNull("loggerOptions"))
    ensures loggerOptions != null ==> loggerOptions.includeScopes == old(loggerOptions.includeScopes)
    ensures loggerOptions != null && configuration.None? ==>
      r == Failure(ArgumentNull("configuration")) && loggerOptions.exporters == old(loggerOptions.exporters)
    ensures loggerOptions != null && configuration.Some? ==>
      var section := if IsNullOrWhiteSpace(sectionName) then configuration.value
                     else GetSection(configuration.value, sectionName.value);
      match BoundOptions(section, binder, configure)
      case Failure(e) => r == Failure(e) && loggerOptions.exporters == old(loggerOptions.exporters)
      case Success(o) => r == Success(loggerOptions) && loggerOptions.exporters == old(loggerOptions.exporters) + Gated(name, o, SignalKinds.Logs)
  {
    if loggerOptions == null {
      return Failure(ArgumentNull("loggerOptions"));
    }
    if configuration.None? {
      return Failure(ArgumentNull("configuration"));
    }
    var options := new JaahasOtlpExporterOptions();
    var section := SelectSection(configuration.value, sectionName);
    var bound := Bind(options, section, binder);
    if bound.Failure? {
      return Failure(bound.error);
    }
    if configure.Some? {
      options.Update(configure.value);
    }
    r := AddOtlpExporter(loggerOptions, name, options);
  }
}
