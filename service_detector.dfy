/**
 * `OpenTelemetryServiceAttributeDetector`: a resource detector that describes the service from
 * an assembly: the name from its service attribute or, failing that, from the assembly name;
 * the version from the assembly version; the instance id given at construction.
 */
module ServiceDetector {
  import opened Wrappers
  import opened Text
  import opened ServiceAttributes

  /** `System.Version`: four components, each defined. */
  datatype Version = Version(major: nat, minor: nat, build: nat, revision: nat)

  /** `AssemblyName`: the simple name and the version, each possibly null. */
  datatype AssemblyName = AssemblyName(name: Option<string>, version: Option<Version>)

  /** What the detector reads of an assembly: its service attribute and its name, if any. */
  datatype Assembly = Assembly(serviceAttribute: Option<ServiceAttribute>, assemblyName: Option<AssemblyName>)

  /** The detector's read-only state. */
  datatype Detector = Detector(assembly: Assembly, serviceInstanceId: Option<string>)

  /**
   * The service attributes the detector asks the resource builder to add. A missing instance id
   * is one the SDK generates itself.
   */
  datatype ServiceResource = ServiceResource(name: string, namespace: Option<string>, version: Option<string>,
                                             instanceId: Option<string>)

  /** The constructor: a null assembly is refused; a null or white-space instance id is
      dropped, any other is kept as given. */
  function NewDetector(assembly: Option<Assembly>, serviceInstanceId: Option<string>): (r: Result<Detector, Exception>)
    ensures r.Failure? <==> assembly.None?
    ensures r.Failure? ==> r.error == ArgumentNull("assembly")
    ensures r.Success? ==> r.value.assembly == assembly.value
    ensures r.Success? ==> (r.value.serviceInstanceId.None? <==> IsNullOrWhiteSpace(serviceInstanceId))
    ensures r.Success? && r.value.serviceInstanceId.Some? ==> r.value.serviceInstanceId == serviceInstanceId
  {
    if assembly.None? then Failure(ArgumentNull("assembly"))
    else Success(Detector(assembly.value, if IsNullOrWhiteSpace(serviceInstanceId) then None else serviceInstanceId))
  }

  /** The assembly's simple name, absent when it has no name object or the name is null. */
  function SimpleName(assembly: Assembly): Option<string> {
    if assembly.assemblyName.Some? then assembly.assemblyName.value.name else None
  }

  /** The assembly's version, absent when it has no name object or no version. */
  function AssemblyVersion(assembly: Assembly): Option<Version> {
    if assembly.assemblyName.Some? then assembly.assemblyName.value.version else None
  }

  /** `Version.ToString(3)`: major, minor and build in decimal, separated by dots. */
  function VersionString(v: Version): (s: string)
    ensures |s| >= 5 && s[0] != '.' && s[|s| - 1] != '.'
    ensures forall i :: 0 <= i < |s| ==> IsDigit(s[i]) || s[i] == '.'
  {
    DecimalString(v.major) + "." + DecimalString(v.minor) + "." + DecimalString(v.build)
  }

  /**
   * `Detect()`. The service name is the attribute's name when there is an attribute, otherwise
   * the assembly's simple name; with neither, detection fails with an invalid-operation error
   * (there is no fallback name). The namespace comes from the attribute alone, the version is
   * the first three components of the assembly version.
   */
  function Detect(d: Detector): (r: Result<ServiceResource, Exception>)
    ensures r.Failure? <==> d.assembly.serviceAttribute.None? && SimpleName(d.assembly).None?
    ensures r.Failure? ==> r.error == InvalidOperation
    ensures r.Success? && d.assembly.serviceAttribute.Some? ==>
      r.value.name == d.assembly.serviceAttribute.value.name && !AllWhiteSpace(r.value.name)
    ensures r.Success? && d.assembly.serviceAttribute.None? ==> Some(r.value.name) == SimpleName(d.assembly)
    ensures r.Success? && d.assembly.serviceAttribute.None? ==> r.value.namespace.None?
    ensures r.Success? && d.assembly.serviceAttribute.Some? ==>
      r.value.namespace == d.assembly.serviceAttribute.value.namespace
    ensures r.Success? ==> (r.value.version.Some? <==> AssemblyVersion(d.assembly).Some?)
    ensures r.Success? && r.value.version.Some? ==> r.value.version.value == VersionString(AssemblyVersion(d.assembly).value)
    ensures r.Success? ==> r.value.instanceId == d.serviceInstanceId
  {
    var attribute := d.assembly.serviceAttribute;
    var name := if attribute.Some? then Some(attribute.value.name) else SimpleName(d.assembly);
    if name.None? then Failure(InvalidOperation)
    else
      var version := AssemblyVersion(d.assembly);
      Success(ServiceResource(
        name.value,
        if attribute.Some? then attribute.value.namespace else None,
        if version.Some? then Some(VersionString(version.value)) else None,
        d.serviceInstanceId))
  }

  /** The version text reads back as the major, minor and build components, in that order. */
  lemma VersionStringComponents(v: Version)
    ensures var parts := Split(VersionString(v), '.');
      && parts == [DecimalString(v.major), DecimalString(v.minor), DecimalString(v.build)]
      && ParseDecimal(parts[0]) == v.major && ParseDecimal(parts[1]) == v.minor && ParseDecimal(parts[2]) == v.build
  {
    var major, minor, build := DecimalString(v.major), DecimalString(v.minor), DecimalString(v.build);
    assert '.' !in major && '.' !in minor && '.' !in build;
    assert VersionString(v) == major + ['.'] + (minor + ['.'] + build);
    SplitAtSeparator(major, minor + ['.'] + build, '.');
    SplitAtSeparator(minor, build, '.');
    ParseDecimalString(v.major);
    ParseDecimalString(v.minor);
    ParseDecimalString(v.build);
  }

  /** Different versions give different text unless they differ in the revision only. */
  lemma VersionStringDropsRevisionOnly(v: Version, w: Version)
    ensures VersionString(v) == VersionString(w) <==> (v.major, v.minor, v.build) == (w.major, w.minor, w.build)
  {
    if VersionString(v) == VersionString(w) {
      VersionStringComponents(v);
      VersionStringComponents(w);
    }
  }

  /**
   * From construction to detection: an assembly annotated with a service attribute is detected
   * under the attribute's name, and the instance id reaches the resource exactly when it is not
   * null or white space.
   */
  lemma DetectAnnotatedAssembly(attribute: ServiceAttribute, assemblyName: Option<AssemblyName>, instanceId: Option<string>)
    ensures NewDetector(Some(Assembly(Some(attribute), assemblyName)), instanceId).Success?
    ensures var resource := Detect(NewDetector(Some(Assembly(Some(attribute), assemblyName)), instanceId).value);
      && resource.Success?
      && resource.value.name == attribute.name
      && (resource.value.instanceId.None? <==> IsNullOrWhiteSpace(instanceId))
  {
  }

  /**
   * An assembly without the attribute is detected under its simple name, with no
   * namespace.
   */
  lemma DetectUnannotatedAssembly(name: string, version: Option<Version>, instanceId: Option<string>)
    ensures NewDetector(Some(Assembly(None, Some(AssemblyName(Some(name), version)))), instanceId).Success?
    ensures var resource := Detect(NewDetector(Some(Assembly(None, Some(AssemblyName(Some(name), version)))), instanceId).value);
      && resource.Success?
      && resource.value.name == name
      && resource.value.namespace.None?
      && resource.value.version.Some? == version.Some?
  {
  }
}
