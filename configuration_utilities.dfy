/**
 * `OtlpExporterConfigurationUtilities`: binding exporter options from configuration, and
 * translating them into the SDK's OTLP exporter options for one signal (protocol, endpoint
 * with the signal path of OTLP/HTTP appended, joined header string, timeout).
 */
module ConfigurationUtilities {
  import opened Wrappers
  import opened Text
  import opened Configuration
  import opened ExporterOptions
  import opened Pipelines
  import SignalKinds

  /** The configuration section bound when the caller does not name one. */
  const DefaultOtlpExporterConfigurationSection := "OpenTelemetry:Exporters:OTLP"

  /**
   * The configuration library's reflection binder (`configuration.Bind(options)`), for the
   * scalar properties: it reads a section and either yields the converted values it found or
   * fails on a value it cannot convert.
   */
  type ScalarBinder = ConfigSection -> Result<ScalarUpdate, Exception>

  // ---------------------------------------------------------------------------
  // Header dictionaries

  /** The keys of a list of key/value pairs. */
  function KeySet<V>(d: seq<(string, V)>): set<string> {
    set i | 0 <= i < |d| :: d[i].0
  }

  predicate DistinctKeys<V>(d: seq<(string, V)>) {
    forall i, j :: 0 <= i < j < |d| ==> d[i].0 != d[j].0
  }

  /** The value stored under `key`, if any. */
  function Lookup(d: Headers, key: string): Option<string> {
    if d == [] then None else if d[0].0 == key then Some(d[0].1) else Lookup(d[1..], key)
  }

  /**
   * The dictionary indexer `d[key] = value`: an existing key keeps its place and takes the
   * new value; a new key is added at the end of the enumeration order.
   */
  function Put(d: Headers, key: string, value: string): (r: Headers)
    requires DistinctKeys(d)
    ensures DistinctKeys(r)
    ensures KeySet(r) == KeySet(d) + {key}
    ensures Lookup(r, key) == Some(value)
    ensures forall k :: k != key ==> Lookup(r, k) == Lookup(d, k)
    ensures key !in KeySet(d) ==> r == d + [(key, value)]
  {
    if d == [] then
      KeySetCons((key, value), []);
      [(key, value)]
    else
      DistinctKeysUncons(d);
      if d[0].0 == key then
        DistinctKeysCons((key, value), d[1..]);
        [(key, value)] + d[1..]
      else
        var rest := Put(d[1..], key, value);
        DistinctKeysCons(d[0], rest);
        assert ([d[0]] + rest)[1..] == rest;
        assert key !in KeySet(d) ==> [d[0]] + rest == d + [(key, value)] by {
          if key !in KeySet(d) {
            assert key !in KeySet(d[1..]);
            assert [d[0]] + (d[1..] + [(key, value)]) == ([d[0]] + d[1..]) + [(key, value)];
          }
        }
        [d[0]] + rest
  }

  /** A list with distinct keys is its first pair, whose key is not among the rest's, before a
      rest whose keys are distinct too. */
  lemma DistinctKeysUncons(d: Headers)
    requires d != [] && DistinctKeys(d)
    ensures d == [d[0]] + d[1..]
    ensures DistinctKeys(d[1..]) && d[0].0 !in KeySet(d[1..])
    ensures KeySet(d) == {d[0].0} + KeySet(d[1..])
  {
    forall i | 0 <= i < |d[1..]| ensures d[1..][i].0 != d[0].0 {
      assert d[1..][i] == d[i + 1];
    }
    KeySetCons(d[0], d[1..]);
    assert d == [d[0]] + d[1..];
  }

  /** Putting a pair whose key is new in front of a list with distinct keys keeps them distinct. */
  lemma DistinctKeysCons(x: (string, string), d: Headers)
    requires DistinctKeys(d) && x.0 !in KeySet(d)
    ensures DistinctKeys([x] + d) && KeySet([x] + d) == {x.0} + KeySet(d)
  {
    var s := [x] + d;
    forall i, j | 0 <= i < j < |s| ensures s[i].0 != s[j].0 {
      assert s[j] == d[j - 1];
      if i > 0 {
        assert s[i] == d[i - 1];
      } else {
        assert d[j - 1].0 in KeySet(d);
      }
    }
    KeySetCons(x, d);
  }

  lemma KeySetCons<V>(x: (string, V), d: seq<(string, V)>)
    ensures KeySet([x] + d) == {x.0} + KeySet(d)
  {
    var s := [x] + d;
    forall k | k in KeySet(d) ensures k in KeySet(s) {
      var i :| 0 <= i < |d| && d[i].0 == k;
      assert s[i + 1].0 == k;
    }
    assert s[0].0 == x.0;
  }

  lemma KeySetSnoc<V>(d: seq<(string, V)>, x: (string, V))
    ensures KeySet(d + [x]) == KeySet(d) + {x.0}
  {
    var s := d + [x];
    forall k | k in KeySet(d) ensures k in KeySet(s) {
      var i :| 0 <= i < |d| && d[i].0 == k;
      assert s[i].0 == k;
    }
    assert s[|d|].0 == x.0;
  }

  /** The configured header pairs with a missing value written as the empty string. */
  function WithEmptyDefaults(entries: seq<(string, Option<string>)>): (r: Headers)
    ensures |r| == |entries|
    ensures forall i :: 0 <= i < |r| ==> r[i] == (entries[i].0, entries[i].1.GetOr(""))
  {
    if entries == [] then []
    else WithEmptyDefaults(entries[..|entries| - 1]) + [(entries[|entries| - 1].0, entries[|entries| - 1].1.GetOr(""))]
  }

  /** The dictionary the header loop builds: every pair stored in turn, null values as "". */
  function HeaderDictionary(entries: seq<(string, Option<string>)>): (r: Headers)
    ensures DistinctKeys(r)
    decreases |entries|
  {
    if entries == [] then []
    else
      var last := entries[|entries| - 1];
      Put(HeaderDictionary(entries[..|entries| - 1]), last.0, last.1.GetOr(""))
  }

  /** The dictionary holds exactly the configured keys. */
  lemma {:induction false} HeaderDictionaryKeys(entries: seq<(string, Option<string>)>)
    ensures KeySet(HeaderDictionary(entries)) == KeySet(entries)
    decreases |entries|
  {
    if entries != [] {
      var prefix := entries[..|entries| - 1];
      HeaderDictionaryKeys(prefix);
      assert entries == prefix + [entries[|entries| - 1]];
      KeySetSnoc(prefix, entries[|entries| - 1]);
    }
  }

  /**
   * With distinct keys (configuration keys are unique among siblings) the dictionary is the
   * configured pairs in order, each null value replaced by the empty string.
   */
  lemma {:induction false} HeaderDictionaryOfDistinctKeys(entries: seq<(string, Option<string>)>)
    requires DistinctKeys(entries)
    ensures HeaderDictionary(entries) == WithEmptyDefaults(entries)
    decreases |entries|
  {
    if entries != [] {
      var prefix := entries[..|entries| - 1];
      var last := entries[|entries| - 1];
      assert DistinctKeys(prefix);
      HeaderDictionaryOfDistinctKeys(prefix);
      HeaderDictionaryKeys(prefix);
      assert last.0 !in KeySet(prefix) by {
        forall i | 0 <= i < |prefix| ensures prefix[i].0 != last.0 {
          assert prefix[i] == entries[i];
        }
      }
    }
  }

  /** With distinct keys, every configured key looks up its own value, a null value as "". */
  lemma {:induction false} HeaderDictionaryLookup(entries: seq<(string, Option<string>)>, i: nat)
    requires DistinctKeys(entries) && i < |entries|
    ensures Lookup(HeaderDictionary(entries), entries[i].0) == Some(entries[i].1.GetOr(""))
    decreases |entries|
  {
    var prefix := entries[..|entries| - 1];
    if i < |entries| - 1 {
      assert DistinctKeys(prefix);
      assert prefix[i] == entries[i];
      HeaderDictionaryLookup(prefix, i);
      assert entries[|entries| - 1].0 != entries[i].0;
    }
  }

  /** The header loop of `Bind`: a new dictionary filled pair by pair. */
  method BuildHeaderDictionary(entries: seq<(string, Option<string>)>) returns (d: Headers)
    ensures d == HeaderDictionary(entries)
  {
    d := [];
    var i := 0;
    while i < |entries|
      invariant 0 <= i <= |entries|
      invariant d == HeaderDictionary(entries[..i])
    {
      assert entries[..i + 1][..i] == entries[..i];
      d := Put(d, entries[i].0, entries[i].1.GetOr(""));
      i := i + 1;
    }
    assert entries[..i] == entries;
  }

  // ---------------------------------------------------------------------------
  // Bind

  /** The children of the `Headers` sub-section, as key and (possibly null) value. */
  function HeaderEntries(configuration: ConfigSection): (entries: seq<(string, Option<string>)>)
    ensures var children := GetSection(configuration, "Headers").children;
      && |entries| == |children|
      && forall i :: 0 <= i < |children| ==> entries[i] == (children[i].0, children[i].1.value)
  {
    var children := GetSection(configuration, "Headers").children;
    seq(|children|, i requires 0 <= i < |children| => (children[i].0, children[i].1.value))
  }

  /** The options after `Bind`: scalars from the binder, then the headers, if any are configured. */
  function BindInto(o: OptionsState, configuration: ConfigSection, binder: ScalarBinder): (r: Result<OptionsState, Exception>)
    ensures r.Failure? <==> binder(configuration).Failure?
    ensures r.Failure? ==> r.error == binder(configuration).error
    ensures r.Success? ==> r.value.(headers := o.headers) == binder(configuration).value.ApplyTo(o)
    ensures r.Success? && |HeaderEntries(configuration)| == 0 ==> r.value.headers == o.headers
  {
    match binder(configuration)
    case Failure(e) => Failure(e)
    case Success(update) =>
      var bound := update.ApplyTo(o);
      var entries := HeaderEntries(configuration);
      Success(if |entries| > 0 then bound.(headers := Some(HeaderDictionary(entries))) else bound)
  }

  /**
   * Header binding: configured header children replace the dictionary with exactly those
   * pairs, null values read as ""; without header children the headers stay as they were.
   */
  lemma BindHeaders(o: OptionsState, configuration: ConfigSection, binder: ScalarBinder)
    requires binder(configuration).Success?
    requires DistinctKeys(HeaderEntries(configuration))
    ensures BindInto(o, configuration, binder).Success?
    ensures var entries := HeaderEntries(configuration);
      && (|entries| > 0 ==> BindInto(o, configuration, binder).value.headers == Some(WithEmptyDefaults(entries)))
      && (|entries| == 0 ==> BindInto(o, configuration, binder).value.headers == o.headers)
  {
    HeaderDictionaryOfDistinctKeys(HeaderEntries(configuration));
  }

  /**
   * Header binding, stated on the `Headers` children themselves: when there are any, the
   * bound dictionary holds exactly their keys, each with its own value and a null value as "".
   */
  lemma BindHeadersPerChild(o: OptionsState, configuration: ConfigSection, binder: ScalarBinder)
    requires binder(configuration).Success?
    requires DistinctKeys(GetSection(configuration, "Headers").children)
    ensures var children := GetSection(configuration, "Headers").children;
      var headers := BindInto(o, configuration, binder).value.headers;
      |children| > 0 ==>
        && headers.Some?
        && KeySet(headers.value) == KeySet(children)
        && forall i :: 0 <= i < |children| ==> Lookup(headers.value, children[i].0) == Some(children[i].1.value.GetOr(""))
  {
    var children := GetSection(configuration, "Headers").children;
    var entries := HeaderEntries(configuration);
    assert DistinctKeys(entries) by {
      forall i, j | 0 <= i < j < |entries| ensures entries[i].0 != entries[j].0 {
        assert entries[i].0 == children[i].0 && entries[j].0 == children[j].0;
      }
    }
    assert KeySet(entries) == KeySet(children) by {
      forall k | k in KeySet(children) ensures k in KeySet(entries) {
        var i :| 0 <= i < |children| && children[i].0 == k;
        assert entries[i].0 == k;
      }
      forall k | k in KeySet(entries) ensures k in KeySet(children) {
        var i :| 0 <= i < |entries| && entries[i].0 == k;
        assert children[i].0 == k;
      }
    }
    HeaderDictionaryKeys(entries);
    forall i | 0 <= i < |children|
      ensures Lookup(HeaderDictionary(entries), children[i].0) == Some(children[i].1.value.GetOr(""))
    {
      HeaderDictionaryLookup(entries, i);
    }
  }

  /** A value the binder cannot convert fails the bind; nothing is swallowed. */
  lemma BindPropagatesFailure(o: OptionsState, configuration: ConfigSection, binder: ScalarBinder)
    ensures BindInto(o, configuration, binder).Failure? <==> binder(configuration).Failure?
    ensures binder(configuration).Failure? ==> BindInto(o, configuration, binder).error == binder(configuration).error
  {
  }

  /** `Bind(options, configuration)`. On a conversion failure the options are left as they were. */
  method Bind(options: JaahasOtlpExporterOptions, configuration: ConfigSection, binder: ScalarBinder)
    returns (r: Result<(), Exception>)
    modifies options
    ensures BindInto(old(options.State()), configuration, binder).Failure? ==>
      r == Failure(BindInto(old(options.State()), configuration, binder).error) && options.State() == old(options.State())
    ensures BindInto(old(options.State()), configuration, binder).Success? ==>
      r.Success? && options.State() == BindInto(old(options.State()), configuration, binder).value
  {
    var scalars := binder(configuration);
    if scalars.Failure? {
      return Failure(scalars.error);
    }
    options.Assign(scalars.value.ApplyTo(options.State()));
    var headers := HeaderEntries(configuration);
    if |headers| > 0 {
      var d := BuildHeaderDictionary(headers);
      options.headers := Some(d);
    }
    r := Success(());
  }

  /** The options an extension method registers: a fresh object, bound, then the optional
      configure callback. */
  function BoundOptions(configuration: ConfigSection, binder: ScalarBinder, configure: Option<OptionsState -> OptionsState>)
    : (r: Result<OptionsState, Exception>)
    ensures configure.None? ==> r == BindInto(DefaultOptions, configuration, binder)
  {
    match BindInto(DefaultOptions, configuration, binder)
    case Failure(e) => Failure(e)
    case Success(o) => Success(if configure.Some? then configure.value(o) else o)
  }

  /** The registered options fail exactly when binding the section fails, with its error. */
  lemma BoundOptionsFailsWithBinder(configuration: ConfigSection, binder: ScalarBinder,
                                    configure: Option<OptionsState -> OptionsState>)
    ensures BoundOptions(configuration, binder, configure).Failure? <==> binder(configuration).Failure?
    ensures BoundOptions(configuration, binder, configure).Failure? ==>
      BoundOptions(configuration, binder, configure).error == binder(configuration).error
  {
  }

  /** The configure callback runs after binding, so what it sets wins over bound values. */
  lemma ConfigureOverridesBinding(configuration: ConfigSection, binder: ScalarBinder, set_: OptionsState -> OptionsState)
    requires binder(configuration).Success?
    ensures BoundOptions(configuration, binder, Some(set_)).Success?
    ensures BoundOptions(configuration, binder, Some(set_)).value
         == set_(BindInto(DefaultOptions, configuration, binder).value)
  {
  }

  // ---------------------------------------------------------------------------
  // Endpoint resolution

  /** The default path of a signal under OTLP/HTTP; anything but a single base flag falls
      back to the trace path. */
  function SignalPath(kind: SignalKinds.SignalKind): (path: string)
    ensures path == "v1/logs" <==> kind == SignalKinds.Logs
    ensures path == "v1/metrics" <==> kind == SignalKinds.Metrics
    ensures path == "v1/traces" <==> kind != SignalKinds.Logs && kind != SignalKinds.Metrics
  {
    if kind == SignalKinds.Traces then "v1/traces"
    else if kind == SignalKinds.Logs then "v1/logs"
    else if kind == SignalKinds.Metrics then "v1/metrics"
    else "v1/traces"
  }

  /** Whether the endpoint already ends with the path, in the form its trailing slash calls for. */
  predicate PathPresent(text: string, path: string) {
    if EndsWith(text, "/") then EndsWithIgnoreCase(text, "/" + path + "/")
    else EndsWithIgnoreCase(text, "/" + path)
  }

  /** The endpoint with the path written after exactly one slash. */
  function WithPath(text: string, path: string): string {
    if EndsWith(text, "/") then text + path else text + "/" + path
  }

  /** `AppendPathIfNotPresent`: the endpoint itself when the path is there, else the endpoint
      with the path appended. */
  function AppendPathIfNotPresent(uri: Uri, path: string): (r: Uri)
    requires uri.isAbsolute
    ensures r.isAbsolute
    ensures PathPresent(uri.text, path) ==> r == uri
    ensures !PathPresent(uri.text, path) ==> r.text == WithPath(uri.text, path)
  {
    var absoluteUri := uri.text;
    if EndsWith(absoluteUri, "/") then
      if EndsWithIgnoreCase(absoluteUri, "/" + path + "/") then uri else Uri(absoluteUri + path, true)
    else
      if EndsWithIgnoreCase(absoluteUri, "/" + path) then uri else Uri(absoluteUri + "/" + path, true)
  }

  /** After appending, the path is present. */
  lemma WithPathIsPresent(text: string, path: string)
    requires |path| > 0 && !EndsWith(path, "/")
    ensures PathPresent(WithPath(text, path), path)
  {
    var t := WithPath(text, path);
    assert t[|t| - 1] == path[|path| - 1];
    assert !EndsWith(t, "/");
    if EndsWith(text, "/") {
      assert text == text[..|text| - 1] + "/";
      assert t == text[..|text| - 1] + ("/" + path);
      EndsWithAppended(text[..|text| - 1], "/" + path);
    } else {
      assert t == text + ("/" + path);
      EndsWithAppended(text, "/" + path);
    }
    EndsWithIgnoringCase(t, "/" + path);
  }

  /** Appending a non-empty path that does not end in a slash is idempotent. */
  lemma AppendPathIdempotent(uri: Uri, path: string)
    requires uri.isAbsolute
    requires |path| > 0 && !EndsWith(path, "/")
    ensures AppendPathIfNotPresent(AppendPathIfNotPresent(uri, path), path) == AppendPathIfNotPresent(uri, path)
  {
    var r := AppendPathIfNotPresent(uri, path);
    if !PathPresent(uri.text, path) {
      WithPathIsPresent(uri.text, path);
    }
  }

  /** A signal path never ends in a slash. */
  lemma SignalPathShape(kind: SignalKinds.SignalKind)
    ensures !EndsWith(SignalPath(kind), "/") && |SignalPath(kind)| > 0
  {
  }

  /**
   * The endpoint the SDK is given: none when the configured endpoint is null or relative;
   * otherwise, for HTTP/protobuf with path appending on, the endpoint with the signal path,
   * and the endpoint verbatim in every other case.
   */
  function ResolvedEndpoint(o: OptionsState, kind: SignalKinds.SignalKind): (r: Option<Uri>)
    ensures r.Some? <==> o.endpoint.Some? && o.endpoint.value.isAbsolute
    ensures r.Some? ==> r.value.isAbsolute
    ensures r.Some? && !(o.protocol == HttpProtobuf && o.appendSignalPathToEndpoint) ==> r == o.endpoint
  {
    if o.endpoint.Some? && o.endpoint.value.isAbsolute then
      if o.protocol == HttpProtobuf && o.appendSignalPathToEndpoint
      then Some(AppendPathIfNotPresent(o.endpoint.value, SignalPath(kind)))
      else o.endpoint
    else None
  }

  /** For HTTP/protobuf with appending on, an absolute endpoint comes out ending with the
      signal's path; when the path is absent it is added after exactly one slash. */
  lemma ResolvedEndpointHasSignalPath(o: OptionsState, kind: SignalKinds.SignalKind)
    requires o.endpoint.Some? && o.endpoint.value.isAbsolute
    requires o.protocol == HttpProtobuf && o.appendSignalPathToEndpoint
    ensures PathPresent(ResolvedEndpoint(o, kind).value.text, SignalPath(kind))
    ensures !PathPresent(o.endpoint.value.text, SignalPath(kind)) ==>
      ResolvedEndpoint(o, kind).value.text == WithPath(o.endpoint.value.text, SignalPath(kind))
    ensures PathPresent(o.endpoint.value.text, SignalPath(kind)) ==> ResolvedEndpoint(o, kind) == o.endpoint
  {
    SignalPathShape(kind);
    if !PathPresent(o.endpoint.value.text, SignalPath(kind)) {
      WithPathIsPresent(o.endpoint.value.text, SignalPath(kind));
    }
  }

  /** Resolving an already resolved endpoint again changes nothing. */
  lemma ResolvedEndpointIdempotent(o: OptionsState, kind: SignalKinds.SignalKind)
    requires ResolvedEndpoint(o, kind).Some?
    ensures ResolvedEndpoint(o.(endpoint := ResolvedEndpoint(o, kind)), kind) == ResolvedEndpoint(o, kind)
  {
    if o.protocol == HttpProtobuf && o.appendSignalPathToEndpoint {
      SignalPathShape(kind);
      AppendPathIdempotent(o.endpoint.value, SignalPath(kind));
    }
  }

  /** Example: the trace path is added after a slash to an endpoint without one. */
  lemma AppendPathExampleNoSlash()
    ensures AppendPathIfNotPresent(Uri("https://seq.example/ingest/otlp", true), "v1/traces").text
         == "https://seq.example/ingest/otlp/v1/traces"
  {
    var a, path := "https://seq.example/ingest/otlp", "v1/traces";
    assert !EndsWith(a, "/") by { assert a[|a| - 1] == 'p'; }
    assert !EndsWithIgnoreCase(a, "/" + path) by {
      assert ToUpper(a[|a| - 10..][1]) != ToUpper(("/" + path)[1]);
    }
  }

  /** Example: the trace path is added directly to an endpoint ending in a slash. */
  lemma AppendPathExampleSlash()
    ensures AppendPathIfNotPresent(Uri("http://otel/", true), "v1/traces").text == "http://otel/v1/traces"
  {
    var b, path := "http://otel/", "v1/traces";
    assert EndsWith(b, "/");
    assert !EndsWithIgnoreCase(b, "/" + path + "/") by {
      assert ToUpper(b[|b| - 11..][1]) != ToUpper(("/" + path + "/")[1]);
    }
  }

  /** Example: an endpoint that already ends with the path in other letter case is kept. */
  lemma AppendPathExampleCase()
    ensures AppendPathIfNotPresent(Uri("http://otel/V1/Traces", true), "v1/traces").text == "http://otel/V1/Traces"
  {
    var c := "http://otel/V1/Traces";
    assert !EndsWith(c, "/") by { assert c[|c| - 1] == 's'; }
    assert EqualsIgnoreCase(c[|c| - 10..], "/v1/traces");
    assert PathPresent(c, "v1/traces");
  }

  // ---------------------------------------------------------------------------
  // Headers as the SDK receives them

  /** One header as `key=value`. */
  function HeaderText(h: (string, string)): string {
    h.0 + "=" + h.1
  }

  /** `string.Join(",", headers.Select(x => $"{x.Key}={x.Value}"))`. */
  function JoinHeaders(headers: Headers): (r: string)
    ensures r == [] <==> headers == []
  {
    if headers == [] then ""
    else if |headers| == 1 then HeaderText(headers[0])
    else HeaderText(headers[0]) + "," + JoinHeaders(headers[1..])
  }

  /** Reading one `key=value` item: the key ends at the first `=`. */
  function ParseHeader(item: string): (string, string) {
    if item == [] then ("", "")
    else if item[0] == '=' then ("", item[1..])
    else
      var rest := ParseHeader(item[1..]);
      ([item[0]] + rest.0, rest.1)
  }

  /** Reading a header string back: items separated by `,`, each split at its first `=`. */
  function ParseHeaders(s: string): (headers: Headers)
    ensures |headers| == |Split(s, ',')|
  {
    var items := Split(s, ',');
    seq(|items|, i requires 0 <= i < |items| => ParseHeader(items[i]))
  }

  /** A header whose key has no `,` or `=` and whose value has no `,`. */
  predicate WellFormedHeader(h: (string, string)) {
    ',' !in h.0 && '=' !in h.0 && ',' !in h.1
  }

  lemma {:induction false} ParseHeaderText(h: (string, string))
    requires '=' !in h.0
    ensures ParseHeader(HeaderText(h)) == h
    decreases |h.0|
  {
    var t := HeaderText(h);
    if h.0 == [] {
      assert t == ['='] + h.1;
    } else {
      assert t[0] == h.0[0];
      assert t[1..] == HeaderText((h.0[1..], h.1));
      ParseHeaderText((h.0[1..], h.1));
      assert h.0 == [h.0[0]] + h.0[1..];
    }
  }

  /** The joined header string reads back as the same headers, in the same order. */
  lemma {:induction false} ParseJoinedHeaders(headers: Headers)
    requires |headers| > 0
    requires forall i :: 0 <= i < |headers| ==> WellFormedHeader(headers[i])
    ensures ParseHeaders(JoinHeaders(headers)) == headers
    decreases |headers|
  {
    var first := HeaderText(headers[0]);
    assert ',' !in first;
    ParseHeaderText(headers[0]);
    if |headers| == 1 {
      assert Split(first, ',') == [first];
    } else {
      var rest := headers[1..];
      ParseJoinedHeaders(rest);
      var joined, restJoined := JoinHeaders(headers), JoinHeaders(rest);
      assert joined == first + [','] + restJoined;
      SplitAtSeparator(first, restJoined, ',');
      var items, restItems := Split(joined, ','), Split(restJoined, ',');
      assert items == [first] + restItems;
      var parsed := ParseHeaders(joined);
      assert |parsed| == |headers|;
      forall i | 0 <= i < |headers| ensures parsed[i] == headers[i] {
        assert parsed[i] == ParseHeader(items[i]);
        if i > 0 {
          assert items[i] == restItems[i - 1];
          assert ParseHeaders(restJoined)[i - 1] == ParseHeader(restItems[i - 1]);
          assert rest[i - 1] == headers[i];
        }
      }
    }
  }

  /** Example: an API key header and an empty-valued header. */
  lemma JoinHeadersExample()
    ensures JoinHeaders([("X-Api-Key", "abc"), ("X-Env", "")]) == "X-Api-Key=abc,X-Env="
  {
  }

  // ---------------------------------------------------------------------------
  // ConfigureOtlpExporterOptions

  /**
   * Applies exporter options to the SDK options for one signal. The protocol is always
   * copied; the endpoint only when the configured one is absolute; the headers, joined as
   * `k=v,k=v`, only when there is at least one; the timeout only when it is positive.
   */
  method ConfigureOtlpExporterOptions(target: OtlpExporterOptions, exporterOptions: OptionsState, signalKind: SignalKinds.SignalKind)
    modifies target
    ensures target.protocol == exporterOptions.protocol
    ensures ResolvedEndpoint(exporterOptions, signalKind).Some? ==> target.endpoint == ResolvedEndpoint(exporterOptions, signalKind).value
    ensures ResolvedEndpoint(exporterOptions, signalKind).None? ==> target.endpoint == old(target.endpoint)
    ensures exporterOptions.headers.Some? && |exporterOptions.headers.value| > 0 ==>
      target.headers == Some(JoinHeaders(exporterOptions.headers.value))
    ensures !(exporterOptions.headers.Some? && |exporterOptions.headers.value| > 0) ==> target.headers == old(target.headers)
    ensures exporterOptions.timeoutMilliseconds > 0 ==> target.timeoutMilliseconds == exporterOptions.timeoutMilliseconds
    ensures exporterOptions.timeoutMilliseconds <= 0 ==> target.timeoutMilliseconds == old(target.timeoutMilliseconds)
  {
    target.protocol := exporterOptions.protocol;

    if exporterOptions.endpoint.Some? && exporterOptions.endpoint.value.isAbsolute {
      var endpoint := exporterOptions.endpoint.value;
      if target.protocol == HttpProtobuf && exporterOptions.appendSignalPathToEndpoint {
        endpoint := AppendPathIfNotPresent(endpoint, SignalPath(signalKind));
      }
      target.endpoint := endpoint;
    }

    if exporterOptions.headers.Some? && |exporterOptions.headers.value| > 0 {
      target.headers := Some(JoinHeaders(exporterOptions.headers.value));
    }

    if exporterOptions.timeoutMilliseconds > 0 {
      target.timeoutMilliseconds := exporterOptions.timeoutMilliseconds;
    }
  }
}
