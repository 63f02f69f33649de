/**
 * The `OpenTelemetryBuilder` extensions: one options object dispatched to every pipeline whose
 * signal it selects, and the fan-out that registers one named exporter per child of a
 * configuration section.
 */
module BuilderExtensions {
  import opened Wrappers
  import opened Text
  import opened Configuration
  import opened ExporterOptions
  import opened Pipelines
  import opened ConfigurationUtilities
  import opened SignalKinds
  import MetricExtensions
  import LogExtensions

  /**
   * The three pipelines of `b` gained exactly the given registrations, in order, and the log
   * pipeline's `IncludeScopes` was switched on if (and only if it was not already on and) a log
   * exporter was added.
   */
  twostate predicate Appended(b: OpenTelemetryBuilder, traces: seq<Registration>, metrics: seq<Registration>,
                              logs: seq<Registration>)
    reads b, b.tracing, b.metering, b.logging
  {
    && b.tracing.exporters == old(b.tracing.exporters) + traces
    && b.metering.exporters == old(b.metering.exporters) + metrics
    && b.logging.exporters == old(b.logging.exporters) + logs
    && b.logging.includeScopes == (old(b.logging.includeScopes) || logs != [])
  }

  /** The registrations one options value produces on the three pipelines. */
  twostate predicate Dispatched(b: OpenTelemetryBuilder, name: Option<string>, o: OptionsState)
    reads b, b.tracing, b.metering, b.logging
  {
    Appended(b, Gated(name, o, Traces), Gated(name, o, Metrics), Gated(name, o, Logs))
  }

  /**
   * `AddOtlpExporter(builder, name, options)`. Disabled options leave every pipeline as it was;
   * enabled options add one registration under `name` to exactly the pipelines whose signal
   * they select, and a log registration also switches on `IncludeScopes`.
   */
  method AddOtlpExporter(builder: OpenTelemetryBuilder?, name: Option<string>, options: JaahasOtlpExporterOptions?)
    returns (r: Result<OpenTelemetryBuilder, Exception>)
    modifies if builder == null then {} else {builder.tracing, builder.metering, builder.logging}
    ensures builder == null ==> r == Failure(ArgumentNull("builder"))
    ensures builder != null && options == null ==>
      r == Failure(ArgumentNull("options")) && unchanged(builder.tracing, builder.metering, builder.logging)
    ensures builder != null && options != null ==>
      r == Success(builder) && Dispatched(builder, name, old(options.State()))
    ensures builder != null && options != null && !old(options.enabled) ==>
      unchanged(builder.tracing, builder.metering, builder.logging)
  {
    if builder == null {
      return Failure(ArgumentNull("builder"));
    }
    if options == null {
      return Failure(ArgumentNull("options"));
    }
    if !options.enabled {
      return Success(builder);
    }
    if HasFlag(options.signals, Traces) {
      builder.tracing.AddExporters([Registration(name, options.State(), Traces)]);
    }
    if HasFlag(options.signals, Metrics) {
      var _ := MetricExtensions.AddOtlpExporter(builder.metering, name, options);
    }
    if HasFlag(options.signals, Logs) {
      builder.logging.includeScopes := true;
      var _ := LogExtensions.AddOtlpExporter(builder.logging, name, options);
    }
    return Success(builder);
  }

  /** `AddOtlpExporter(builder, name, configure)`: the callback runs on a fresh options object. */
  method AddOtlpExporterWithConfigure(builder: OpenTelemetryBuilder?, name: Option<string>,
                                      configure: Option<OptionsState -> OptionsState>)
    returns (r: Result<OpenTelemetryBuilder, Exception>)
    modifies if builder == null then {} else {builder.tracing, builder.metering, builder.logging}
    ensures builder == null ==> r == Failure(ArgumentNull("builder"))
    ensures builder != null && configure.None? ==>
      r == Failure(ArgumentNull("configure")) && unchanged(builder.tracing, builder.metering, builder.logging)
    ensures builder != null && configure.Some? ==>
      r == Success(builder) && Dispatched(builder, name, configure.value(DefaultOptions))
  {
    if builder == null {
      return Failure(ArgumentNull("builder"));
    }
    if configure.None? {
      return Failure(ArgumentNull("configure"));
    }
    var options := new JaahasOtlpExporterOptions();
    options.Update(configure.value);
    r := AddOtlpExporter(builder, name, options);
  }

  /**
   * `AddOtlpExporter(builder)` and `AddOtlpExporter(builder, name)`: the configure overload with a
   * callback that does nothing. A fresh options object is disabled, so no pipeline changes.
   */
  method AddOtlpExporterWithDefaults(builder: OpenTelemetryBuilder?, name: Option<string>)
    returns (r: Result<OpenTelemetryBuilder, Exception>)
    modifies if builder == null then {} else {builder.tracing, builder.metering, builder.logging}
    ensures builder == null ==> r == Failure(ArgumentNull("builder"))
    ensures builder != null ==> r == Success(builder) && Appended(builder, [], [], [])
  {
    var keep := (o: OptionsState) => o;
    assert keep(DefaultOptions) == DefaultOptions;
    r := AddOtlpExporterWithConfigure(builder, name, Some(keep));
  }

  /**
   * `AddOtlpExporter(builder, name, configuration, sectionName, configure)`: the options are
   * bound from the selected section and then handed to the optional callback, inside the
   * callback given to the configure overload.
   */
  method AddOtlpExporterFromConfiguration(builder: OpenTelemetryBuilder?, name: Option<string>,
                                          configuration: Option<ConfigSection>, sectionName: Option<string>,
                                          configure: Option<OptionsState -> OptionsState>, binder: ScalarBinder)
    returns (r: Result<OpenTelemetryBuilder, Exception>)
    modifies if builder == null then {} else {builder.tracing, builder.metering, builder.logging}
    ensures builder == null ==> r == Failure(ArgumentNull("builder"))
    ensures builder != null && configuration.None? ==>
      r == Failure(ArgumentNull("configuration")) && unchanged(builder.tracing, builder.metering, builder.logging)
    ensures builder != null && configuration.Some? ==>
      var section := if IsNullOrWhiteSpace(sectionName) then configuration.value
                     else GetSection(configuration.value, sectionName.value);
      var bound := BoundOptions(section, binder, configure);
      && (bound.Failure? ==> r == Failure(bound.error) && unchanged(builder.tracing, builder.metering, builder.logging))
      && (bound.Success? ==> r == Success(builder) && Dispatched(builder, name, bound.value))
  {
    if builder == null {
      return Failure(ArgumentNull("builder"));
    }
    if configuration.None? {
      return Failure(ArgumentNull("configuration"));
    }
    var section := SelectSection(configuration.value, sectionName);
    var options := BindAndConfigure(section, binder, configure);
    if options.Failure? {
      return Failure(options.error);
    }
    r := AddOtlpExporter(builder, name, options.value);
  }

  /** The callback the configuration overload hands to the configure overload, run on a fresh
      options object: bind from the section, then the optional callback. */
  method BindAndConfigure(section: ConfigSection, binder: ScalarBinder, configure: Option<OptionsState -> OptionsState>)
    returns (r: Result<JaahasOtlpExporterOptions, Exception>)
    ensures BoundOptions(section, binder, configure).Failure? ==> r == Failure(BoundOptions(section, binder, configure).error)
    ensures BoundOptions(section, binder, configure).Success? ==>
      r.Success? && fresh(r.value) && r.value.State() == BoundOptions(section, binder, configure).value
  {
    var options := new JaahasOtlpExporterOptions();
    var bound := Bind(options, section, binder);
    if bound.Failure? {
      return Failure(bound.error);
    }
    if configure.Some? {
      options.Update(configure.value);
    }
    return Success(options);
  }

  // ---------------------------------------------------------------------------
  // Named exporters

  /** The per-child callback: the fan-out's two-argument hook with the child's key filled in. */
  function NamedHook(configure: Option<(string, OptionsState) -> OptionsState>, name: string)
    : Option<OptionsState -> OptionsState>
  {
    if configure.Some? then Some(o => configure.value(name, o)) else None
  }

  /** The options one child of the section yields: bound from that child alone, then the hook
      called with the child's key. */
  function ChildOptions(child: (string, ConfigSection), binder: ScalarBinder,
                        configure: Option<(string, OptionsState) -> OptionsState>): (r: Result<OptionsState, Exception>)
    ensures configure.None? ==> r == BoundOptions(child.1, binder, None)
  {
    BoundOptions(child.1, binder, NamedHook(configure, child.0))
  }

  /** A child fails exactly when binding its own section fails, and with that error. */
  lemma ChildFailsWithOwnSection(child: (string, ConfigSection), binder: ScalarBinder,
                                 configure: Option<(string, OptionsState) -> OptionsState>)
    ensures ChildOptions(child, binder, configure).Failure? <==> binder(child.1).Failure?
    ensures ChildOptions(child, binder, configure).Failure? ==>
      ChildOptions(child, binder, configure).error == binder(child.1).error
  {
    BoundOptionsFailsWithBinder(child.1, binder, NamedHook(configure, child.0));
  }

  /** With a two-argument callback, each child's options are what that callback makes of the
      child's key and the options bound from the child's section. */
  lemma ChildHookSeesKey(child: (string, ConfigSection), binder: ScalarBinder,
                         configure: Option<(string, OptionsState) -> OptionsState>)
    ensures configure.Some? && binder(child.1).Success? ==>
      ChildOptions(child, binder, configure)
      == Success(configure.value(child.0, BindInto(DefaultOptions, child.1, binder).value))
  {
  }

  /** What binding each child yields, keyed by the child's key, in child order. */
  function ChildResults(children: seq<(string, ConfigSection)>, binder: ScalarBinder,
                        configure: Option<(string, OptionsState) -> OptionsState>)
    : (results: seq<(string, Result<OptionsState, Exception>)>)
    ensures |results| == |children|
    ensures forall i :: 0 <= i < |children| ==> results[i].0 == children[i].0
  {
    if children == [] then []
    else [(children[0].0, ChildOptions(children[0], binder, configure))] + ChildResults(children[1..], binder, configure)
  }

  /** Entry `i` of the results is child `i`'s key with what binding child `i` yields. */
  lemma {:induction false} ChildResultsAt(children: seq<(string, ConfigSection)>, i: nat, binder: ScalarBinder,
                                          configure: Option<(string, OptionsState) -> OptionsState>)
    requires i < |children|
    ensures ChildResults(children, binder, configure)[i] == (children[i].0, ChildOptions(children[i], binder, configure))
    decreases i
  {
    if i > 0 {
      ChildResultsAt(children[1..], i - 1, binder, configure);
    }
  }

  /** `results` holds what binding each child yields, keyed by the child's key. */
  ghost predicate ChildResultsOf(children: seq<(string, ConfigSection)>, results: seq<(string, Result<OptionsState, Exception>)>,
                                 binder: ScalarBinder, configure: Option<(string, OptionsState) -> OptionsState>)
  {
    && |results| == |children|
    && forall j {:trigger ChildOptions(children[j], binder, configure)} :: 0 <= j < |children| ==>
         results[j] == (children[j].0, ChildOptions(children[j], binder, configure))
  }

  /** The child results are what binding each child yields. */
  lemma ChildResultsAreChildResultsOf(children: seq<(string, ConfigSection)>, binder: ScalarBinder,
                                      configure: Option<(string, OptionsState) -> OptionsState>)
    ensures ChildResultsOf(children, ChildResults(children, binder, configure), binder, configure)
  {
    forall j | 0 <= j < |children| {
      ChildResultsAt(children, j, binder, configure);
    }
  }

  /** The registrations for `kind` that the children add, one child after the other, up to the
      first child whose binding fails. */
  function FanOut(results: seq<(string, Result<OptionsState, Exception>)>, kind: SignalKind): (r: seq<Registration>)
    ensures |r| <= |results|
    ensures forall k :: 0 <= k < |r| ==> r[k].signal == kind && r[k].options.enabled && HasFlag(r[k].options.signals, kind)
  {
    if results == [] then []
    else match results[0].1
      case Failure(_) => []
      case Success(o) => Gated(Some(results[0].0), o, kind) + FanOut(results[1..], kind)
  }

  /** The error of the first child whose binding fails, if any. */
  function FanOutError(results: seq<(string, Result<OptionsState, Exception>)>): (r: Option<Exception>)
    ensures r.None? <==> forall j :: 0 <= j < |results| ==> results[j].1.Success?
    ensures r.Some? ==> exists j :: 0 <= j < |results| && results[j].1 == Failure(r.value)
  {
    if results == [] then None
    else match results[0].1
      case Failure(e) => Some(e)
      case Success(_) => FanOutError(results[1..])
  }

  /** Fanning out over `a + b` is fanning out over `a`, then, if that raised nothing, over `b`. */
  lemma {:induction false} FanOutAppend(a: seq<(string, Result<OptionsState, Exception>)>,
                                        b: seq<(string, Result<OptionsState, Exception>)>, kind: SignalKind)
    ensures FanOutError(a).None? ==>
      FanOut(a + b, kind) == FanOut(a, kind) + FanOut(b, kind) && FanOutError(a + b) == FanOutError(b)
    ensures FanOutError(a).Some? ==>
      FanOut(a + b, kind) == FanOut(a, kind) && FanOutError(a + b) == FanOutError(a)
  {
    if a == [] {
      assert a + b == b;
    } else {
      assert (a + b)[0] == a[0];
      assert (a + b)[1..] == a[1..] + b;
      FanOutAppend(a[1..], b, kind);
      if a[0].1.Success? {
        var head := Gated(Some(a[0].0), a[0].1.value, kind);
        assert FanOut(a + b, kind) == head + FanOut(a[1..] + b, kind);
        assert FanOut(a, kind) == head + FanOut(a[1..], kind);
        AppendAssociative(head, FanOut(a[1..], kind), FanOut(b, kind));
      }
    }
  }

  /** When nothing in `results` failed, entry `i` contributes its gated registration between
      those of the entries before and after it. */
  lemma FanOutAt(results: seq<(string, Result<OptionsState, Exception>)>, i: nat, kind: SignalKind)
    requires i < |results| && FanOutError(results).None?
    ensures results[i].1.Success?
    ensures FanOut(results, kind)
      == FanOut(results[..i], kind) + Gated(Some(results[i].0), results[i].1.value, kind) + FanOut(results[i + 1..], kind)
  {
    var before, rest := results[..i], results[i..];
    assert results == before + rest;
    FanOutAppend(before, rest, kind);
    assert FanOutError(before).None? && FanOutError(rest).None?;
    assert rest[0] == results[i] && rest[1..] == results[i + 1..];
    FanOutSuccessStep(rest, kind);
  }

  /**
   * When no child fails, child `i` contributes its own registration, under its own key and with
   * the options bound from it alone, between those of the children before and after it.
   */
  lemma FanOutPerChild(children: seq<(string, ConfigSection)>, i: nat, binder: ScalarBinder,
                       configure: Option<(string, OptionsState) -> OptionsState>, kind: SignalKind)
    requires i < |children|
    requires FanOutError(ChildResults(children, binder, configure)).None?
    ensures ChildOptions(children[i], binder, configure).Success?
    ensures var results := ChildResults(children, binder, configure);
      FanOut(results, kind)
      == FanOut(results[..i], kind)
       + Gated(Some(children[i].0), ChildOptions(children[i], binder, configure).value, kind)
       + FanOut(results[i + 1..], kind)
  {
    var results := ChildResults(children, binder, configure);
    FanOutAt(results, i, kind);
    ChildResultsAt(children, i, binder, configure);
  }

  /**
   * Every registration of the fan-out is for `kind`, carries the key of some child as its name
   * and the options bound from that child.
   */
  lemma {:induction false} FanOutNamesChildren(results: seq<(string, Result<OptionsState, Exception>)>, kind: SignalKind)
    ensures forall reg :: reg in FanOut(results, kind) ==>
      && reg.signal == kind
      && (exists j :: 0 <= j < |results| && reg.name == Some(results[j].0) && results[j].1 == Success(reg.options))
  {
    if results != [] && results[0].1.Success? {
      FanOutNamesChildren(results[1..], kind);
      forall reg | reg in FanOut(results, kind)
        ensures reg.signal == kind
        ensures exists j :: 0 <= j < |results| && reg.name == Some(results[j].0) && results[j].1 == Success(reg.options)
      {
        if reg in Gated(Some(results[0].0), results[0].1.value, kind) {
          assert reg.name == Some(results[0].0);
        } else {
          assert reg in FanOut(results[1..], kind);
          var j :| 0 <= j < |results[1..]| && reg.name == Some(results[1..][j].0) && results[1..][j].1 == Success(reg.options);
          assert results[1..][j] == results[j + 1];
        }
      }
    }
  }

  /**
   * The example configuration of the fan-out's documentation: a `Seq` child enabled for traces
   * and logs and a `Jaeger` child enabled for traces, listed in the order the configuration
   * provider enumerates them (keys sorted, so `Jaeger` first). It yields trace exporters for
   * Jaeger then Seq, a log exporter for Seq only, and no metric exporter.
   */
  lemma SeqAndJaegerExample(seqSection: ConfigSection, jaegerSection: ConfigSection, binder: ScalarBinder)
    requires binder(seqSection).Success? && binder(seqSection).value.enabled == Some(true)
    requires binder(seqSection).value.signals == Some(TracesAndLogs)
    requires binder(jaegerSection).Success? && binder(jaegerSection).value.enabled == Some(true)
    requires binder(jaegerSection).value.signals == Some(Traces)
    ensures var results := ChildResults([("Jaeger", jaegerSection), ("Seq", seqSection)], binder, None);
      && FanOutError(results).None?
      && |FanOut(results, Traces)| == 2
      && FanOut(results, Traces)[0].name == Some("Jaeger") && FanOut(results, Traces)[1].name == Some("Seq")
      && |FanOut(results, Logs)| == 1 && FanOut(results, Logs)[0].name == Some("Seq")
      && FanOut(results, Metrics) == []
  {
    var children := [("Jaeger", jaegerSection), ("Seq", seqSection)];
    var results := ChildResults(children, binder, None);
    var seqOptions := BindInto(DefaultOptions, seqSection, binder).value;
    var jaegerOptions := BindInto(DefaultOptions, jaegerSection, binder).value;
    assert seqOptions.enabled && seqOptions.signals == TracesAndLogs;
    assert jaegerOptions.enabled && jaegerOptions.signals == Traces;
    ChildResultsAt(children, 0, binder, None);
    ChildResultsAt(children, 1, binder, None);
    assert results[0] == ("Jaeger", Success(jaegerOptions));
    assert results[1] == ("Seq", Success(seqOptions));
    var tail := results[1..];
    assert tail[0] == results[1] && tail[1..] == [];
    CompositesHoldTheirParts();
    BaseFlagsAreDistinctBits();
    forall kind ensures FanOut(tail, kind) == Gated(Some("Seq"), seqOptions, kind) {
      FanOutSuccessStep(tail, kind);
    }
    forall kind ensures FanOut(results, kind) == Gated(Some("Jaeger"), jaegerOptions, kind) + Gated(Some("Seq"), seqOptions, kind) {
      FanOutSuccessStep(results, kind);
    }
    FanOutSuccessStep(tail, Traces);
    FanOutSuccessStep(results, Traces);
  }

  /** Unfolds the fan-out at a first child whose binding succeeded. */
  lemma FanOutSuccessStep(results: seq<(string, Result<OptionsState, Exception>)>, kind: SignalKind)
    requires results != [] && results[0].1.Success?
    ensures FanOut(results, kind) == Gated(Some(results[0].0), results[0].1.value, kind) + FanOut(results[1..], kind)
    ensures FanOutError(results) == FanOutError(results[1..])
  {
  }

  /**
   * `AddNamedOtlpExporters(builder, configuration, sectionName, configure)`: one named
   * registration per child of the selected section, in child order, each bound from that child
   * alone; the first binding failure is raised and stops the loop, keeping what the children
   * before it registered.
   */
  method AddNamedOtlpExporters(builder: OpenTelemetryBuilder?, configuration: Option<ConfigSection>,
                               sectionName: Option<string>,
                               configure: Option<(string, OptionsState) -> OptionsState>, binder: ScalarBinder)
    returns (r: Result<OpenTelemetryBuilder, Exception>)
    modifies if builder == null then {} else {builder.tracing, builder.metering, builder.logging}
    ensures builder == null ==> r == Failure(ArgumentNull("builder"))
    ensures builder != null && configuration.None? ==>
      r == Failure(ArgumentNull("configuration")) && unchanged(builder.tracing, builder.metering, builder.logging)
    ensures builder != null && configuration.Some? ==>
      var section := if IsNullOrWhiteSpace(sectionName) then configuration.value
                     else GetSection(configuration.value, sectionName.value);
      var results := ChildResults(section.children, binder, configure);
      && Appended(builder, FanOut(results, Traces), FanOut(results, Metrics), FanOut(results, Logs))
      && match FanOutError(results)
         case None => r == Success(builder)
         case Some(e) => r == Failure(e)
  {
    if builder == null {
      return Failure(ArgumentNull("builder"));
    }
    if configuration.None? {
      return Failure(ArgumentNull("configuration"));
    }
    var children := SelectSection(configuration.value, sectionName).children;
    ChildResultsAreChildResultsOf(children, binder, configure);
    var error := AddChildren(builder, children, configure, binder, ChildResults(children, binder, configure));
    r := if error.None? then Success(builder) else Failure(error.value);
  }

  /** The loop of `AddNamedOtlpExporters`: each child in turn, stopping at the first failure,
      whose error it returns. */
  method AddChildren(builder: OpenTelemetryBuilder, children: seq<(string, ConfigSection)>,
                     configure: Option<(string, OptionsState) -> OptionsState>, binder: ScalarBinder,
                     ghost results: seq<(string, Result<OptionsState, Exception>)>)
    returns (error: Option<Exception>)
    requires ChildResultsOf(children, results, binder, configure)
    modifies builder.tracing, builder.metering, builder.logging
    ensures Appended(builder, FanOut(results, Traces), FanOut(results, Metrics), FanOut(results, Logs))
    ensures error == FanOutError(results)
  {
    ghost var traces0, metrics0, logs0 := builder.tracing.exporters, builder.metering.exporters, builder.logging.exporters;
    ghost var scopes0 := builder.logging.includeScopes;
    var i := 0;
    while i < |children|
      invariant 0 <= i <= |children|
      invariant FanOutError(results[..i]).None?
      invariant builder.tracing.exporters == traces0 + FanOut(results[..i], Traces)
      invariant builder.metering.exporters == metrics0 + FanOut(results[..i], Metrics)
      invariant builder.logging.exporters == logs0 + FanOut(results[..i], Logs)
      invariant builder.logging.includeScopes == (scopes0 || FanOut(results[..i], Logs) != [])
    {
      var added := AddChild(builder, children, i, configure, binder, results);
      if added.Failure? {
        StepFanOutFailure(results, i);
        return Some(added.error);
      }
      StepFanOutSuccess(results, i);
      AppendAssociative(traces0, FanOut(results[..i], Traces), Gated(Some(results[i].0), results[i].1.value, Traces));
      AppendAssociative(metrics0, FanOut(results[..i], Metrics), Gated(Some(results[i].0), results[i].1.value, Metrics));
      AppendAssociative(logs0, FanOut(results[..i], Logs), Gated(Some(results[i].0), results[i].1.value, Logs));
      i := i + 1;
    }
    assert results[..i] == results;
    return None;
  }

  /** One turn of the fan-out loop: the configuration overload for child `i`, under its key,
      with no section name and the hook for that key. */
  method AddChild(builder: OpenTelemetryBuilder, children: seq<(string, ConfigSection)>, i: nat,
                  configure: Option<(string, OptionsState) -> OptionsState>, binder: ScalarBinder,
                  ghost results: seq<(string, Result<OptionsState, Exception>)>)
    returns (r: Result<OpenTelemetryBuilder, Exception>)
    requires i < |children| && ChildResultsOf(children, results, binder, configure)
    modifies builder.tracing, builder.metering, builder.logging
    ensures results[i].0 == children[i].0
    ensures results[i].1.Failure? ==>
      r == Failure(results[i].1.error) && unchanged(builder.tracing, builder.metering, builder.logging)
    ensures results[i].1.Success? ==> r.Success? && Dispatched(builder, Some(results[i].0), results[i].1.value)
  {
    var child := children[i];
    ghost var bound := ChildOptions(child, binder, configure);
    assert results[i] == (child.0, bound);
    assert SelectSection(child.1, None) == child.1;
    r := AddOtlpExporterFromConfiguration(builder, Some(child.0), Some(child.1), None, NamedHook(configure, child.0), binder);
  }

  /** One step of the fan-out loop for a child whose binding succeeded: the fan-out gains that
      child's gated registration and still has no error. */
  lemma StepFanOutSuccessFor(results: seq<(string, Result<OptionsState, Exception>)>, i: nat, kind: SignalKind)
    requires i < |results| && FanOutError(results[..i]).None? && results[i].1.Success?
    ensures FanOutError(results[..i + 1]).None?
    ensures FanOut(results[..i + 1], kind) == FanOut(results[..i], kind) + Gated(Some(results[i].0), results[i].1.value, kind)
  {
    assert results[..i + 1] == results[..i] + [results[i]];
    FanOutAppend(results[..i], [results[i]], kind);
    FanOutSuccessStep([results[i]], kind);
    assert [results[i]][1..] == [];
  }

  /** One step of the fan-out loop for a child whose binding failed: the fan-out ends before it,
      with its error. */
  lemma StepFanOutFailureFor(results: seq<(string, Result<OptionsState, Exception>)>, i: nat, kind: SignalKind)
    requires i < |results| && FanOutError(results[..i]).None? && results[i].1.Failure?
    ensures FanOutError(results) == Some(results[i].1.error)
    ensures FanOut(results, kind) == FanOut(results[..i], kind)
  {
    assert results == results[..i] + results[i..];
    assert results[i..][0] == results[i];
    FanOutAppend(results[..i], results[i..], kind);
  }

  /** `StepFanOutSuccessFor` for the three pipelines at once. */
  lemma StepFanOutSuccess(results: seq<(string, Result<OptionsState, Exception>)>, i: nat)
    requires i < |results| && FanOutError(results[..i]).None? && results[i].1.Success?
    ensures FanOutError(results[..i + 1]).None?
    ensures FanOut(results[..i + 1], Traces) == FanOut(results[..i], Traces) + Gated(Some(results[i].0), results[i].1.value, Traces)
    ensures FanOut(results[..i + 1], Metrics) == FanOut(results[..i], Metrics) + Gated(Some(results[i].0), results[i].1.value, Metrics)
    ensures FanOut(results[..i + 1], Logs) == FanOut(results[..i], Logs) + Gated(Some(results[i].0), results[i].1.value, Logs)
  {
    StepFanOutSuccessFor(results, i, Traces);
    StepFanOutSuccessFor(results, i, Metrics);
    StepFanOutSuccessFor(results, i, Logs);
  }

  /** `StepFanOutFailureFor` for the three pipelines at once. */
  lemma StepFanOutFailure(results: seq<(string, Result<OptionsState, Exception>)>, i: nat)
    requires i < |results| && FanOutError(results[..i]).None? && results[i].1.Failure?
    ensures FanOutError(results) == Some(results[i].1.error)
    ensures FanOut(results, Traces) == FanOut(results[..i], Traces)
    ensures FanOut(results, Metrics) == FanOut(results[..i], Metrics)
    ensures FanOut(results, Logs) == FanOut(results[..i], Logs)
  {
    StepFanOutFailureFor(results, i, Traces);
    StepFanOutFailureFor(results, i, Metrics);
    StepFanOutFailureFor(results, i, Logs);
  }

  lemma AppendAssociative(a: seq<Registration>, b: seq<Registration>, c: seq<Registration>)
    ensures (a + b) + c == a + (b + c)
  {
  }
}
