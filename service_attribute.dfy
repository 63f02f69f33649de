/**
 * `OpenTelemetryServiceAttribute`: the assembly-level annotation that names the service an
 * assembly implements. Its name is never null, empty or white space.
 */
module ServiceAttributes {
  import opened Wrappers
  import opened Text

  /**
   * The attribute's data: the service name, and a namespace that the constructor leaves unset
   * (the detector reads it, the constructor has no parameter for it).
   */
  datatype OpenTelemetryServiceAttribute = OpenTelemetryServiceAttribute(name: string, namespace: Option<string>)

  /** An attribute that its constructor can produce: the name holds a non-white-space character. */
  type ServiceAttribute = a: OpenTelemetryServiceAttribute | !AllWhiteSpace(a.name)
    witness var name := "s"; assert !IsWhiteSpace(name[0]); OpenTelemetryServiceAttribute(name, None)

  /**
   * The constructor. A null name is refused with an argument-null error, an empty or
   * white-space name with an argument error; any other name is kept exactly as given.
   */
  function NewServiceAttribute(name: Option<string>): (r: Result<ServiceAttribute, Exception>)
    ensures r.Success? <==> !IsNullOrWhiteSpace(name)
    ensures name.None? ==> r == Failure(ArgumentNull("name"))
    ensures name.Some? && AllWhiteSpace(name.value) ==> r == Failure(Argument("name"))
    ensures r.Success? ==> r.value.name == name.value && r.value.namespace.None?
  {
    if name.None? then Failure(ArgumentNull("name"))
    else if AllWhiteSpace(name.value) then Failure(Argument("name"))
    else Success(OpenTelemetryServiceAttribute(name.value, None))
  }

  /** A name with surrounding white space is accepted untrimmed. */
  lemma NameIsNotTrimmed(name: string)
    requires !AllWhiteSpace(name)
    ensures NewServiceAttribute(Some(" " + name + " ")).Success?
    ensures NewServiceAttribute(Some(" " + name + " ")).value.name == " " + name + " "
  {
    var i :| 0 <= i < |name| && !IsWhiteSpace(name[i]);
    assert (" " + name + " ")[i + 1] == name[i];
  }
}
