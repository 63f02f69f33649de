/**
 * `OtlpExporterSignalKind`: a `[Flags]` enumeration over a 32-bit integer. The three base
 * values are single bits; the named composites are bitwise ORs of them; any other 32-bit value
 * is also a value of the enumeration.
 */
module SignalKinds {

  /** The underlying 32-bit value of the enumeration. */
  type SignalKind = bv32

  const None: SignalKind := 0
  const Traces: SignalKind := 1
  const Logs: SignalKind := 2
  const Metrics: SignalKind := 4
  const TracesAndLogsAndMetrics: SignalKind := Traces | Logs | Metrics
  const TracesAndLogs: SignalKind := Traces | Logs
  const TracesAndMetrics: SignalKind := Traces | Metrics
  const LogsAndMetrics: SignalKind := Logs | Metrics

  /** One of the three signals an exporter can be registered for. */
  predicate IsBaseFlag(f: SignalKind) {
    f == Traces || f == Logs || f == Metrics
  }

  /** `Enum.HasFlag`: every bit of `flag` is set in `value`. */
  predicate HasFlag(value: SignalKind, flag: SignalKind) {
    value & flag == flag
  }

  /** Bitwise OR, the way the composites are built: a signal is in the union exactly when it
      is in one of the operands. */
  function Combine(a: SignalKind, b: SignalKind): (r: SignalKind)
    ensures HasFlag(r, Traces) <==> HasFlag(a, Traces) || HasFlag(b, Traces)
    ensures HasFlag(r, Logs) <==> HasFlag(a, Logs) || HasFlag(b, Logs)
    ensures HasFlag(r, Metrics) <==> HasFlag(a, Metrics) || HasFlag(b, Metrics)
  {
    a | b
  }

  /** The union holds both of its operands. */
  lemma CombineHoldsOperands(a: SignalKind, b: SignalKind)
    ensures HasFlag(Combine(a, b), a) && HasFlag(Combine(a, b), b)
  {
  }

  /** None has no bit set, so it selects no signal. */
  lemma NoneSelectsNothing()
    ensures !HasFlag(None, Traces) && !HasFlag(None, Logs) && !HasFlag(None, Metrics)
    ensures forall v :: HasFlag(v, None)
  {
  }

  /** Traces, Logs and Metrics are the bits 1, 2 and 4: non-zero and pairwise disjoint. */
  lemma BaseFlagsAreDistinctBits()
    ensures Traces == 1 && Logs == 2 && Metrics == 4
    ensures Traces & Logs == 0 && Traces & Metrics == 0 && Logs & Metrics == 0
    ensures !HasFlag(Traces, Logs) && !HasFlag(Traces, Metrics) && !HasFlag(Logs, Traces)
    ensures !HasFlag(Logs, Metrics) && !HasFlag(Metrics, Traces) && !HasFlag(Metrics, Logs)
  {
  }

  /** Each named composite holds exactly the base flags it is named after. */
  lemma CompositesHoldTheirParts()
    ensures HasFlag(TracesAndLogs, Traces) && HasFlag(TracesAndLogs, Logs) && !HasFlag(TracesAndLogs, Metrics)
    ensures HasFlag(TracesAndMetrics, Traces) && !HasFlag(TracesAndMetrics, Logs) && HasFlag(TracesAndMetrics, Metrics)
    ensures !HasFlag(LogsAndMetrics, Traces) && HasFlag(LogsAndMetrics, Logs) && HasFlag(LogsAndMetrics, Metrics)
    ensures TracesAndLogs == Combine(Traces, Logs) && TracesAndMetrics == Combine(Traces, Metrics)
    ensures LogsAndMetrics == Combine(Logs, Metrics)
    ensures TracesAndLogsAndMetrics == Combine(TracesAndLogs, Metrics)
  {
  }

  /** The all-signals composite has every base flag, and adding any flag to it changes nothing. */
  lemma AllSignalsIsTop(f: SignalKind)
    requires IsBaseFlag(f)
    ensures HasFlag(TracesAndLogsAndMetrics, f)
    ensures Combine(TracesAndLogsAndMetrics, f) == TracesAndLogsAndMetrics
  {
  }
}
