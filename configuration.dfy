/**
 * The hierarchical configuration the exporters are bound from (the collaborator's
 * `IConfiguration`): a tree of sections, each with an optional value and an ordered list of
 * keyed children. Keys are compared ignoring case and `:` separates the keys of a path.
 */
module Configuration {
  import opened Wrappers
  import opened Text

  /** A configuration section: its own value, and its children in the order the
      configuration source yields them. */
  datatype ConfigSection = Section(value: Option<string>, children: seq<(string, ConfigSection)>)

  /** What `GetSection` returns for a key that does not exist: no value, no children. */
  const EmptySection := Section(None, [])

  /** The first child whose key equals `key` ignoring case, or the empty section. */
  function Child(children: seq<(string, ConfigSection)>, key: string): (c: ConfigSection)
    ensures c == EmptySection || exists i :: 0 <= i < |children| && children[i].1 == c
  {
    if children == [] then EmptySection
    else if EqualsIgnoreCase(children[0].0, key) then children[0].1
    else Child(children[1..], key)
  }

  function Descend(section: ConfigSection, keys: seq<string>): ConfigSection
    decreases keys
  {
    if keys == [] then section else Descend(Child(section.children, keys[0]), keys[1..])
  }

  /** `IConfiguration.GetSection(path)`: never null; a missing path gives an empty section. */
  function GetSection(section: ConfigSection, path: string): ConfigSection {
    Descend(section, Split(path, ':'))
  }

  /** A path `a:b` names the section `b` inside the section `a`. */
  lemma GetSectionNested(section: ConfigSection, a: string, b: string)
    requires ':' !in a
    ensures GetSection(section, a + ":" + b) == GetSection(GetSection(section, a), b)
  {
    SplitAtSeparator(a, b, ':');
    var keys := [a] + Split(b, ':');
    assert keys[1..] == Split(b, ':');
    assert Descend(section, [a]) == Child(section.children, a);
  }

  /**
   * The section the extension methods bind from: the configuration itself when the
   * section name is null or white space, otherwise the named sub-section.
   */
  function SelectSection(configuration: ConfigSection, sectionName: Option<string>): ConfigSection {
    if IsNullOrWhiteSpace(sectionName) then configuration else GetSection(configuration, sectionName.value)
  }
}
