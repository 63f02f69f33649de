# Jaahas OpenTelemetry extensions, modelled in Dafny

This project models the core of the Jaahas OpenTelemetry extensions for .NET. These extensions
add OTLP exporters to the OpenTelemetry SDK from configuration, tag spans with default tags,
and describe a service from an assembly. The model covers:

- **OTLP exporter options.** The mutable options object `JaahasOtlpExporterOptions` with its
  documented defaults. The `OtlpExporterSignalKind` flags enumeration. Binding options from a
  configuration tree, including the `Headers` dictionary. Translating the options into the SDK's
  own `OtlpExporterOptions`: protocol, endpoint with the signal path appended unless already
  present, the `k=v,k=v` header string, and the timeout.
- **Registration.** The trace, metric and log extension methods register an exporter when the
  options are enabled for their signal. The `OpenTelemetryBuilder` extension dispatches one
  options object to every pipeline whose signal it selects, and switches on `IncludeScopes` for
  logs. The named fan-out registers one exporter per child of a configuration section.
- **`DefaultTagsTraceProcessor`.** It appends default tags to the spans a predicate selects; by
  default, root spans.
- **Service attribute and detector.** `OpenTelemetryServiceAttribute` and
  `OpenTelemetryServiceAttributeDetector` derive the service name, namespace, version and
  instance id from an assembly.

Each source file is one module:

| module | file |
|---|---|
| `ConfigurationUtilities` | `configuration_utilities.dfy` |
| `SignalKinds` | `signal_kind.dfy` |
| `ExporterOptions` | `exporter_options.dfy` |
| `TraceExtensions` | `trace_extensions.dfy` |
| `MetricExtensions` | `metric_extensions.dfy` |
| `LogExtensions` | `log_extensions.dfy` |
| `BuilderExtensions` | `builder_extensions.dfy` |
| `DefaultTagsProcessor` | `default_tags_processor.dfy` |
| `ServiceAttributes` | `service_attribute.dfy` |
| `ServiceDetector` | `service_detector.dfy` |

Four supporting modules model what the core uses from its collaborators:

- `Wrappers`: `Option`, `Result` and the exceptions raised.
- `Text`: white space, ordinal and ignore-case suffix tests, and decimal formatting.
- `Configuration`: the `IConfiguration` tree, with case-insensitive keys and `:`-separated paths.
- `Pipelines`: the SDK builders, reduced to the exporter registrations they hold.

Objects the source updates in place are classes with `modifies` clauses:

- the options object;
- the SDK builders, the logger options and the SDK exporter options;
- spans (`Activity`).

Each such class has a snapshot function (`State()`, `View()`) that the pure specifications use.

Configure callbacks (`Action<JaahasOtlpExporterOptions>`) are functions from one options state
to the next. The library's reflection binder is a parameter, `ScalarBinder`: for a section, it
either fails or returns the scalar values found. A null argument is an `Option`/nullable
parameter, and a thrown exception is a `Failure` result.

## Model

Source paths are relative to the repository root.

| member | source | states |
|---|---|---|
| ConfigurationUtilities.Put | src/Jaahas.OpenTelemetry.Extensions/Exporters/OpenTelemetryProtocol/OtlpExporterConfigurationUtilities.cs:39 | dictionary indexer assignment: keys stay distinct, the key set gains the key, the key maps to the value, every other key keeps its value, and a new key goes at the end |
| ConfigurationUtilities.WithEmptyDefaults | src/Jaahas.OpenTelemetry.Extensions/Exporters/OpenTelemetryProtocol/OtlpExporterConfigurationUtilities.cs:39 | each header child becomes one pair, in order, with a null value read as "" |
| ConfigurationUtilities.HeaderDictionary | src/Jaahas.OpenTelemetry.Extensions/Exporters/OpenTelemetryProtocol/OtlpExporterConfigurationUtilities.cs:37-40 | the dictionary built from the header children never holds a key twice |
| ConfigurationUtilities.HeaderDictionaryKeys | src/Jaahas.OpenTelemetry.Extensions/Exporters/OpenTelemetryProtocol/OtlpExporterConfigurationUtilities.cs:37-40 | the dictionary's keys are exactly the keys of the header children |
| ConfigurationUtilities.HeaderDictionaryLookup | src/Jaahas.OpenTelemetry.Extensions/Exporters/OpenTelemetryProtocol/OtlpExporterConfigurationUtilities.cs:37-40 | with distinct keys, every configured key looks up its own value, a null value as "" |
| ConfigurationUtilities.HeaderDictionaryOfDistinctKeys | src/Jaahas.OpenTelemetry.Extensions/Exporters/OpenTelemetryProtocol/OtlpExporterConfigurationUtilities.cs:36-40 | with distinct child keys, the dictionary is the children in order with null values read as "" |
| ConfigurationUtilities.BuildHeaderDictionary | src/Jaahas.OpenTelemetry.Extensions/Exporters/OpenTelemetryProtocol/OtlpExporterConfigurationUtilities.cs:37-40 | the insertion loop computes `HeaderDictionary` of the children |
| ConfigurationUtilities.HeaderEntries | src/Jaahas.OpenTelemetry.Extensions/Exporters/OpenTelemetryProtocol/OtlpExporterConfigurationUtilities.cs:31-34 | entry i is child i of the `Headers` section: its key and its possibly null value, one entry per child |
| ConfigurationUtilities.BindHeaders | src/Jaahas.OpenTelemetry.Extensions/Exporters/OpenTelemetryProtocol/OtlpExporterConfigurationUtilities.cs:31-41 | with header children, `Headers` is replaced by exactly those pairs (null read as ""); without any, `Headers` is kept |
| ConfigurationUtilities.BindHeadersPerChild | src/Jaahas.OpenTelemetry.Extensions/Exporters/OpenTelemetryProtocol/OtlpExporterConfigurationUtilities.cs:31-41 | with header children, the bound `Headers` holds exactly the children's keys, each looking up that child's value, null as "" |
| ConfigurationUtilities.BindInto | src/Jaahas.OpenTelemetry.Extensions/Exporters/OpenTelemetryProtocol/OtlpExporterConfigurationUtilities.cs:28-42 | binding fails exactly when the binder fails on the section, with its error; on success every property but `Headers` is the binder's update over the old value, and without header children `Headers` is kept |
| ConfigurationUtilities.BindPropagatesFailure | src/Jaahas.OpenTelemetry.Extensions/Exporters/OpenTelemetryProtocol/OtlpExporterConfigurationUtilities.cs:29 | binding fails exactly when the scalar binder fails, with the binder's error |
| ConfigurationUtilities.Bind | src/Jaahas.OpenTelemetry.Extensions/Exporters/OpenTelemetryProtocol/OtlpExporterConfigurationUtilities.cs:28-42 | the options' new state is the bound state of the old one; on a binder failure the error is raised and the options are unchanged |
| ConfigurationUtilities.ConfigureOverridesBinding | src/Jaahas.OpenTelemetry.Extensions/JaahasOpenTelemetryBuilderExtensions.cs:196-199 | the configure callback runs on the bound options, so whatever it sets wins over bound values |
| ConfigurationUtilities.BoundOptions | src/Jaahas.OpenTelemetry.Extensions/JaahasOpenTelemetryBuilderExtensions.cs:196-199 | without a configure callback the registered options are exactly the section bound into fresh default options |
| ConfigurationUtilities.BoundOptionsFailsWithBinder | src/Jaahas.OpenTelemetry.Extensions/JaahasOpenTelemetryBuilderExtensions.cs:196-199 | whatever the callback, the registered options fail exactly when binding the section fails, with the binder's error |
| ConfigurationUtilities.SignalPath | src/Jaahas.OpenTelemetry.Extensions/Exporters/OpenTelemetryProtocol/OtlpExporterConfigurationUtilities.cs:77-84 | Logs gives `v1/logs` and only Logs; Metrics gives `v1/metrics` and only Metrics; every other value, None and composites included, gives `v1/traces` |
| ConfigurationUtilities.SignalPathShape | src/Jaahas.OpenTelemetry.Extensions/Exporters/OpenTelemetryProtocol/OtlpExporterConfigurationUtilities.cs:77-84 | every signal path is non-empty and has no trailing slash |
| ConfigurationUtilities.AppendPathIfNotPresent | src/Jaahas.OpenTelemetry.Extensions/Exporters/OpenTelemetryProtocol/OtlpExporterConfigurationUtilities.cs:86-97 | the URI is returned as is when it already ends (ignoring case) with `/path` or `/path/`; otherwise the path is appended after exactly one slash; the result is absolute |
| ConfigurationUtilities.WithPathIsPresent | src/Jaahas.OpenTelemetry.Extensions/Exporters/OpenTelemetryProtocol/OtlpExporterConfigurationUtilities.cs:86-97 | after appending a non-empty path without a trailing slash, the path counts as present |
| ConfigurationUtilities.AppendPathIdempotent | src/Jaahas.OpenTelemetry.Extensions/Exporters/OpenTelemetryProtocol/OtlpExporterConfigurationUtilities.cs:86-97 | appending the same path a second time changes nothing |
| ConfigurationUtilities.AppendPathExampleNoSlash | src/Jaahas.OpenTelemetry.Extensions/Exporters/OpenTelemetryProtocol/OtlpExporterConfigurationUtilities.cs:94-96 | `https://seq.example/ingest/otlp` with `v1/traces` gives `https://seq.example/ingest/otlp/v1/traces` |
| ConfigurationUtilities.AppendPathExampleSlash | src/Jaahas.OpenTelemetry.Extensions/Exporters/OpenTelemetryProtocol/OtlpExporterConfigurationUtilities.cs:88-92 | `http://otel/` with `v1/traces` gives `http://otel/v1/traces`, with no second slash |
| ConfigurationUtilities.AppendPathExampleCase | src/Jaahas.OpenTelemetry.Extensions/Exporters/OpenTelemetryProtocol/OtlpExporterConfigurationUtilities.cs:94-95 | `http://otel/V1/Traces` already holds `v1/traces` ignoring case and is kept |
| ConfigurationUtilities.ResolvedEndpoint | src/Jaahas.OpenTelemetry.Extensions/Exporters/OpenTelemetryProtocol/OtlpExporterConfigurationUtilities.cs:60-67 | an endpoint is produced exactly when the configured one is non-null and absolute; without HttpProtobuf and `AppendSignalPathToEndpoint` it is copied verbatim |
| ConfigurationUtilities.ResolvedEndpointHasSignalPath | src/Jaahas.OpenTelemetry.Extensions/Exporters/OpenTelemetryProtocol/OtlpExporterConfigurationUtilities.cs:60-67 | with HttpProtobuf and path appending on, the endpoint ends with the signal's path; one that lacked it gains it after exactly one slash, one that already ends with it is returned unchanged |
| ConfigurationUtilities.ResolvedEndpointIdempotent | src/Jaahas.OpenTelemetry.Extensions/Exporters/OpenTelemetryProtocol/OtlpExporterConfigurationUtilities.cs:60-67 | resolving an already-resolved endpoint again gives the same endpoint |
| ConfigurationUtilities.ParseHeaderText | src/Jaahas.OpenTelemetry.Extensions/Exporters/OpenTelemetryProtocol/OtlpExporterConfigurationUtilities.cs:70 | one `key=value` item splits back into its key and value when the key has no `=` |
| ConfigurationUtilities.ParseJoinedHeaders | src/Jaahas.OpenTelemetry.Extensions/Exporters/OpenTelemetryProtocol/OtlpExporterConfigurationUtilities.cs:69-71 | the comma-joined header string of a non-empty dictionary parses back to the same pairs in the same order, when keys have no `=` or `,` and values no `,` |
| ConfigurationUtilities.JoinHeaders | src/Jaahas.OpenTelemetry.Extensions/Exporters/OpenTelemetryProtocol/OtlpExporterConfigurationUtilities.cs:70 | the joined header string is empty exactly when the dictionary is empty |
| ConfigurationUtilities.JoinHeadersExample | src/Jaahas.OpenTelemetry.Extensions/Exporters/OpenTelemetryProtocol/OtlpExporterConfigurationUtilities.cs:70 | two headers, one with an empty value, are written `X-Api-Key=abc,X-Env=` |
| ConfigurationUtilities.ConfigureOtlpExporterOptions | src/Jaahas.OpenTelemetry.Extensions/Exporters/OpenTelemetryProtocol/OtlpExporterConfigurationUtilities.cs:57-76 | protocol always copied; endpoint set to the resolved endpoint or left alone; headers written only when non-null and non-empty; timeout written only when positive |
| ExporterOptions.ScalarUpdate.ApplyTo | src/Jaahas.OpenTelemetry.Extensions/Exporters/OpenTelemetryProtocol/OtlpExporterConfigurationUtilities.cs:29 | the scalar bind never touches `Headers`, and a section holding no scalar value leaves the options as they were |
| ExporterOptions.ApplyToIdempotent | src/Jaahas.OpenTelemetry.Extensions/Exporters/OpenTelemetryProtocol/OtlpExporterConfigurationUtilities.cs:29 | binding the same values twice gives what binding them once gives |
| ExporterOptions.ApplyToOverwritesExactlyHeld | src/Jaahas.OpenTelemetry.Extensions/Exporters/OpenTelemetryProtocol/OtlpExporterConfigurationUtilities.cs:29 | a property the section holds a value for comes out the same whatever it was before; one it holds nothing for keeps its old value |
| ExporterOptions.JaahasOtlpExporterOptions.constructor | src/Jaahas.OpenTelemetry.Extensions/Exporters/OpenTelemetryProtocol/JaahasOtlpExporterOptions.cs:13-71 | a new options object is disabled, HttpProtobuf, no endpoint, Traces only, no headers, 10000 ms timeout, signal path appended |
| ExporterOptions.JaahasOtlpExporterOptions.Update | src/Jaahas.OpenTelemetry.Extensions/JaahasOpenTelemetryBuilderExtensions.cs:277-278 | a configure callback's effect on the options is a function of their previous state |
| SignalKinds.NoneSelectsNothing | src/Jaahas.OpenTelemetry.Extensions/Exporters/OpenTelemetryProtocol/OtlpExporterSignalKind.cs:13 | None has none of Traces, Logs or Metrics |
| SignalKinds.BaseFlagsAreDistinctBits | src/Jaahas.OpenTelemetry.Extensions/Exporters/OpenTelemetryProtocol/OtlpExporterSignalKind.cs:18-28 | Traces, Logs, Metrics are 1, 2, 4, pairwise disjoint, none containing another |
| SignalKinds.Combine | src/Jaahas.OpenTelemetry.Extensions/Exporters/OpenTelemetryProtocol/OtlpExporterSignalKind.cs:33-48 | OR selects a signal exactly when one operand does |
| SignalKinds.CombineHoldsOperands | src/Jaahas.OpenTelemetry.Extensions/Exporters/OpenTelemetryProtocol/OtlpExporterSignalKind.cs:33-48 | the OR of two flag values contains each of them |
| SignalKinds.CompositesHoldTheirParts | src/Jaahas.OpenTelemetry.Extensions/Exporters/OpenTelemetryProtocol/OtlpExporterSignalKind.cs:33-48 | each named composite is the OR of the flags it names and holds no other base flag |
| SignalKinds.AllSignalsIsTop | src/Jaahas.OpenTelemetry.Extensions/Exporters/OpenTelemetryProtocol/OtlpExporterSignalKind.cs:33 | TracesAndLogsAndMetrics holds every base flag and OR-ing a base flag into it changes nothing |
| Configuration.GetSectionNested | src/Jaahas.OpenTelemetry.Extensions/Exporters/OpenTelemetryProtocol/OtlpExporterConfigurationUtilities.cs:15 | the section at `a:b` is the section `b` inside section `a`, as the default section path relies on |
| Text.EndsWithIgnoringCase | src/Jaahas.OpenTelemetry.Extensions/Exporters/OpenTelemetryProtocol/OtlpExporterConfigurationUtilities.cs:89 | an exact suffix is also a suffix under ordinal-ignore-case comparison |
| Text.ParseDecimalString | src/Jaahas.OpenTelemetry.Extensions/OpenTelemetryServiceAttributeDetector.cs:59 | decimal formatting of a version component reads back as the component |
| Pipelines.Gated | src/Jaahas.OpenTelemetry.Extensions/JaahasOpenTelemetryMetricExtensions.cs:224-226 | a per-signal gate adds one registration, under the name, for the signal, with the options, exactly when enabled and the signal's flag is set; otherwise none |
| TraceExtensions.ConfigureExporter | src/Jaahas.OpenTelemetry.Extensions/JaahasOpenTelemetryTraceExtensions.cs:65-83 | null builder or options refused before any change; otherwise one unnamed Traces registration exactly when enabled with Traces |
| TraceExtensions.ConfigureOtlpExporter | src/Jaahas.OpenTelemetry.Extensions/JaahasOpenTelemetryTraceExtensions.cs:28-50 | null checks in order; a null or white-space section name selects the root, any other name the sub-section at that path; fresh options bound from the selected section; a bind failure raises and registers nothing; then `ConfigureExporter` |
| MetricExtensions.AddOtlpExporter | src/Jaahas.OpenTelemetry.Extensions/JaahasOpenTelemetryMetricExtensions.cs:211-229 | null checks first; one Metrics registration under the name exactly when enabled with Metrics |
| MetricExtensions.AddOtlpExporterWithConfigure | src/Jaahas.OpenTelemetry.Extensions/JaahasOpenTelemetryMetricExtensions.cs:146-163 | null checks first; registers what the callback makes of default options |
| MetricExtensions.AddOtlpExporterFromConfiguration | src/Jaahas.OpenTelemetry.Extensions/JaahasOpenTelemetryMetricExtensions.cs:75-98 | null checks first; a null or white-space section name selects the root, any other name the sub-section at that path; bind from the selected section, then the optional callback, then register; a bind failure registers nothing |
| LogExtensions.AddOtlpExporter | src/Jaahas.OpenTelemetry.Extensions/JaahasOpenTelemetryLogExtensions.cs:204-222 | null checks first; one Logs registration under the name exactly when enabled with Logs; `IncludeScopes` untouched |
| LogExtensions.AddOtlpExporterWithConfigure | src/Jaahas.OpenTelemetry.Extensions/JaahasOpenTelemetryLogExtensions.cs:141-158 | null checks first; registers what the callback makes of default options; `IncludeScopes` untouched |
| LogExtensions.AddOtlpExporterFromConfiguration | src/Jaahas.OpenTelemetry.Extensions/JaahasOpenTelemetryLogExtensions.cs:73-95 | null checks first; a null or white-space section name selects the root, any other name the sub-section at that path; bind, then callback, then register; a bind failure registers nothing; `IncludeScopes` untouched |
| BuilderExtensions.AddOtlpExporter | src/Jaahas.OpenTelemetry.Extensions/JaahasOpenTelemetryBuilderExtensions.cs:346-377 | null checks first; disabled options leave all three pipelines unchanged; enabled options add one named registration to exactly the pipelines whose flag is set; a log registration also sets `IncludeScopes` |
| BuilderExtensions.AddOtlpExporterWithDefaults | src/Jaahas.OpenTelemetry.Extensions/JaahasOpenTelemetryBuilderExtensions.cs:80-81 | the overload with no options registers nothing, since fresh options are disabled |
| BuilderExtensions.AddOtlpExporterWithConfigure | src/Jaahas.OpenTelemetry.Extensions/JaahasOpenTelemetryBuilderExtensions.cs:264-281 | null checks first; dispatches what the callback makes of default options |
| BuilderExtensions.AddOtlpExporterFromConfiguration | src/Jaahas.OpenTelemetry.Extensions/JaahasOpenTelemetryBuilderExtensions.cs:179-200 | null checks first; a null or white-space section name selects the root, any other name the sub-section at that path; the selected section is bound, then the callback runs, then dispatch; a bind failure changes no pipeline |
| BuilderExtensions.BindAndConfigure | src/Jaahas.OpenTelemetry.Extensions/JaahasOpenTelemetryBuilderExtensions.cs:196-199 | the callback body yields a fresh options object in the bound-then-configured state, or the bind error |
| BuilderExtensions.FanOutAppend | src/Jaahas.OpenTelemetry.Extensions/JaahasOpenTelemetryBuilderExtensions.cs:472-481 | the fan-out over two runs of children is the first run's, followed by the second's only if the first raised nothing |
| BuilderExtensions.FanOutAt | src/Jaahas.OpenTelemetry.Extensions/JaahasOpenTelemetryBuilderExtensions.cs:472-481 | when no entry failed, entry i is a success and its gated registration sits between those of the entries before and after it |
| BuilderExtensions.FanOutPerChild | src/Jaahas.OpenTelemetry.Extensions/JaahasOpenTelemetryBuilderExtensions.cs:472-481 | with no failure, child i contributes its own registration, under its key, with options bound from it alone, between those of earlier and later children |
| BuilderExtensions.ChildResultsAt | src/Jaahas.OpenTelemetry.Extensions/JaahasOpenTelemetryBuilderExtensions.cs:472-480 | the result for child i is its key with the options bound from that child alone and passed to the hook under that key |
| BuilderExtensions.ChildOptions | src/Jaahas.OpenTelemetry.Extensions/JaahasOpenTelemetryBuilderExtensions.cs:472-480 | without a hook, a child is bound exactly as the configuration overload binds that section with no callback |
| BuilderExtensions.ChildFailsWithOwnSection | src/Jaahas.OpenTelemetry.Extensions/JaahasOpenTelemetryBuilderExtensions.cs:472-480 | a child fails exactly when binding its own section fails, with that error |
| BuilderExtensions.ChildHookSeesKey | src/Jaahas.OpenTelemetry.Extensions/JaahasOpenTelemetryBuilderExtensions.cs:472-480 | with a two-argument callback, a child's options are that callback applied to the child's key and the options bound from the child's section |
| BuilderExtensions.ChildResults | src/Jaahas.OpenTelemetry.Extensions/JaahasOpenTelemetryBuilderExtensions.cs:472-480 | one result per child, in child order, each under that child's key |
| BuilderExtensions.FanOut | src/Jaahas.OpenTelemetry.Extensions/JaahasOpenTelemetryBuilderExtensions.cs:472-481 | at most as many registrations as children, each for the requested signal, with options that are enabled and include that signal (the per-child layout is `FanOutAt` and `FanOutAppend`) |
| BuilderExtensions.FanOutError | src/Jaahas.OpenTelemetry.Extensions/JaahasOpenTelemetryBuilderExtensions.cs:472-481 | there is no error exactly when every child binds; an error is the binding error of some child |
| BuilderExtensions.ChildResultsAreChildResultsOf | src/Jaahas.OpenTelemetry.Extensions/JaahasOpenTelemetryBuilderExtensions.cs:472-480 | the child results are, child by child, what binding each child yields |
| BuilderExtensions.FanOutNamesChildren | src/Jaahas.OpenTelemetry.Extensions/JaahasOpenTelemetryBuilderExtensions.cs:472-481 | every fan-out registration is for the requested signal and carries some child's key and that child's bound options |
| BuilderExtensions.FanOutSuccessStep | src/Jaahas.OpenTelemetry.Extensions/JaahasOpenTelemetryBuilderExtensions.cs:472-481 | a first child that binds contributes its gated registration before the rest |
| BuilderExtensions.StepFanOutSuccessFor | src/Jaahas.OpenTelemetry.Extensions/JaahasOpenTelemetryBuilderExtensions.cs:472-481 | a child that binds extends the fan-out by its own gated registration and raises nothing |
| BuilderExtensions.StepFanOutSuccess | src/Jaahas.OpenTelemetry.Extensions/JaahasOpenTelemetryBuilderExtensions.cs:472-481 | the same step, stated for the trace, metric and log pipelines together |
| BuilderExtensions.StepFanOutFailureFor | src/Jaahas.OpenTelemetry.Extensions/JaahasOpenTelemetryBuilderExtensions.cs:472-481 | a child that fails ends the fan-out: nothing after the earlier children is registered and its error is raised |
| BuilderExtensions.StepFanOutFailure | src/Jaahas.OpenTelemetry.Extensions/JaahasOpenTelemetryBuilderExtensions.cs:472-481 | the same stop, stated for the trace, metric and log pipelines together |
| BuilderExtensions.SeqAndJaegerExample | src/Jaahas.OpenTelemetry.Extensions/JaahasOpenTelemetryBuilderExtensions.cs:424-447 | children in provider order, Jaeger (Traces) then Seq (TracesAndLogs), give trace registrations Jaeger, Seq, a log registration Seq, no metric registration |
| BuilderExtensions.AddChild | src/Jaahas.OpenTelemetry.Extensions/JaahasOpenTelemetryBuilderExtensions.cs:473-480 | child i is registered under its key, bound from its own section with no section name, or raises its bind error and changes no pipeline |
| BuilderExtensions.AddChildren | src/Jaahas.OpenTelemetry.Extensions/JaahasOpenTelemetryBuilderExtensions.cs:472-481 | the loop over the children: the pipelines gain exactly the fan-out's registrations, and the error returned is the first child's bind error, if any |
| BuilderExtensions.AddNamedOtlpExporters | src/Jaahas.OpenTelemetry.Extensions/JaahasOpenTelemetryBuilderExtensions.cs:450-484 | null checks first; a null or white-space section name selects the root, any other name the sub-section at that path; the pipelines gain exactly the fan-out's registrations in child order; the first bind failure is raised, keeping earlier children's registrations |
| DefaultTagsProcessor.DefaultTagsTraceProcessor.constructor | src/Jaahas.OpenTelemetry.Extensions/Trace/DefaultTagsTraceProcessor.cs:33-36 | keeps the tags; a missing predicate becomes "the span has no parent" |
| DefaultTagsProcessor.RootActivityHasNoParent | src/Jaahas.OpenTelemetry.Extensions/Trace/DefaultTagsTraceProcessor.cs:57 | the default predicate `IsRootActivity` selects a span exactly when it was started without a parent |
| DefaultTagsProcessor.DefaultTagsTraceProcessor.OnStart | src/Jaahas.OpenTelemetry.Extensions/Trace/DefaultTagsTraceProcessor.cs:40-54 | a null span is ignored; a rejected span keeps its tags; a selected span gets every default tag appended in list order; the processor's own fields are read-only |
| DefaultTagsProcessor.Activity.AddTag | src/Jaahas.OpenTelemetry.Extensions/Trace/DefaultTagsTraceProcessor.cs:52 | adding a tag appends it after the existing ones |
| DefaultTagsProcessor.RootAndChildSpans | test/Jaahas.OpenTelemetry.Extensions.Tests/TraceBuilderTests.cs:105-126 | with the default predicate a root span receives the tags and its child none |
| DefaultTagsProcessor.SpansMatchedByKind | test/Jaahas.OpenTelemetry.Extensions.Tests/TraceBuilderTests.cs:130-154 | processors for Client and Consumer kinds each tag only the span of their kind |
| ServiceAttributes.NewServiceAttribute | src/Jaahas.OpenTelemetry.Extensions/OpenTelemetryServiceAttribute.cs:24-33 | succeeds exactly for a non-null, non-white-space name (null: argument-null error; white space: argument error) and keeps the name as given; every attribute's name has a non-white-space character |
| ServiceAttributes.NameIsNotTrimmed | src/Jaahas.OpenTelemetry.Extensions/OpenTelemetryServiceAttribute.cs:32 | a name with surrounding spaces is accepted and stored with them |
| ServiceDetector.NewDetector | src/Jaahas.OpenTelemetry.Extensions/OpenTelemetryServiceAttributeDetector.cs:42-47 | a null assembly is refused; a null or white-space instance id is dropped, any other kept unchanged |
| ServiceDetector.Detect | src/Jaahas.OpenTelemetry.Extensions/OpenTelemetryServiceAttributeDetector.cs:51-62 | name from the attribute, else the assembly name, else an invalid-operation error; namespace only from the attribute; version present exactly when the assembly has one, as three components; instance id passed through |
| ServiceDetector.VersionStringComponents | src/Jaahas.OpenTelemetry.Extensions/OpenTelemetryServiceAttributeDetector.cs:59 | the version text splits at dots into major, minor and build, which read back as those numbers |
| ServiceDetector.VersionString | src/Jaahas.OpenTelemetry.Extensions/OpenTelemetryServiceAttributeDetector.cs:59 | the version text has at least five characters, only digits and dots, and neither starts nor ends with a dot |
| ServiceDetector.VersionStringDropsRevisionOnly | src/Jaahas.OpenTelemetry.Extensions/OpenTelemetryServiceAttributeDetector.cs:59 | two versions give the same text exactly when they agree on major, minor and build |
| ServiceDetector.DetectAnnotatedAssembly | test/Jaahas.OpenTelemetry.Extensions.Tests/ResourceBuilderTests.cs:20-26 | an annotated assembly is detected under the attribute's name, and the instance id reaches the resource exactly when it is not null or white space |
| ServiceDetector.DetectUnannotatedAssembly | test/Jaahas.OpenTelemetry.Extensions.Tests/ResourceBuilderTests.cs:30-36 | an assembly without the attribute is detected under its simple name, with no namespace, and with a version exactly when the assembly has one |

## Left out

- The reflection binder that `configuration.Bind(options)` uses is a parameter (`ScalarBinder`).
  The model does not parse strings into enums, URIs, booleans or time spans.
- Callbacks are assumed total and free of side effects. This covers the user's
  `Action<JaahasOtlpExporterOptions>` (`Update`, `BoundOptions`), the named hook
  `Action<string, JaahasOtlpExporterOptions>` (the per-child hook, `NamedHook`) and the `Func<Activity, bool>`
  predicate of `DefaultTagsTraceProcessor`. A callback that throws part-way, or that changes
  anything besides the options it is given, is not modelled.
- `Bind`: when the binder fails part-way, the properties it set before the failure are not
  modelled; the options are left as they were.
- `System.Uri` is not modelled: parsing, `AbsoluteUri` normalisation and escaping, queries and
  fragments. An endpoint is its already-normalised text plus an absolute flag.
- Ignore-case comparison folds ASCII letters only. An `AbsoluteUri` is ASCII after escaping, so
  the endpoint path test loses nothing. Configuration keys and section paths (`Configuration.Child`,
  `GetSection`) use the same comparison, while the configuration library folds non-ASCII letters
  too: keys that differ only in the case of a non-ASCII letter (`ä` and `Ä`) are not matched by
  the model, which then returns the empty section.
- `ConfigureOtlpExporterOptions`: `Timeout` is an integer number of milliseconds. The double
  conversion `(int) Timeout.TotalMilliseconds` is not modelled: no truncation, no 32-bit overflow.
- The SDK internals are not modelled: `WithTracing`, `WithMetrics`, `WithLogging`, the SDK's own
  `AddOtlpExporter`, and the exporters themselves.
  - A registration records the name, the options state at registration time and the signal.
    `ConfigureOtlpExporterOptions` models what its callback does to the SDK options.
  - The SDK runs these callbacks later, and the logging callback runs when the logger options
    are built. The model applies each one at registration.
  - A change made to an options object after it was registered is therefore not seen by the
    model (aliasing).
- BuilderExtensions.AddOtlpExporter: the trace branch calls an `AddOtlpExporter(name, options)`
  overload for tracer-provider builders. That overload is not among the trace extension methods
  shown, so it is modelled as one named Traces registration, mirroring the metric and log ones.
- The overloads without a `name` parameter only forward with a null name. Examples are
  `AddOtlpExporter(builder, configuration, ...)` and `AddOtlpExporter(builder, options)`, and their
  metric and log counterparts. They are the named members with `name == None`. The two builder
  overloads that also pass a no-op callback are `AddOtlpExporterWithDefaults`.
- Default parameter values are not modelled. A call that omits the section name passes the default
  section `"OpenTelemetry:Exporters:OTLP"` explicitly.
- `GetChildren()` order is the order of the modelled children list. The configuration provider's
  own ordering is not modelled.
- The `AddDefaultTags` extensions that build the processor are not part of this model. Tag values
  are modelled by their text, and the base `OnStart` (a no-op) is left out.
- Concurrency: `OnStart` runs on arbitrary threads. The model is one call on one span.
- Version components are natural numbers. An undefined build component (-1), for which
  `ToString(3)` throws, is not modelled.
- `ResourceBuilder.CreateDefault().AddService(...)` is reduced to the four service values it
  receives. A missing instance id is one the SDK generates at random. The SDK's default resource
  attributes are left out.
- `JaahasOpenTelemetryResourceBuilderExtensions.cs` is not part of this model. Its documentation
  promises an `unknown_service` fallback name, but the detector raises an invalid-operation error
  when there is no name. The model follows the detector.
- ServiceAttributes.NewServiceAttribute: builds older than .NET 8 raise an argument error for a
  null name too. The model follows the .NET 8 branch (an argument-null error); both errors are
  argument errors.
- The attribute class in the source has no `Namespace` property, although the detector reads one.
  The namespace is an optional field that the constructor leaves unset.
- Samples and host bootstrapping are not part of this model.
