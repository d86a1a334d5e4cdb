/**
 * The six levels of the account hierarchy, the `type` string an entry
 * carries for each, and the prefix its `abstract://` uri uses.
 */
module Kinds {
  import opened JsStrings
  import opened Wrappers

  datatype Kind = Organization | Project | Branch | File | Page | Layer

  /** Depth in organization < project < branch < file < page < layer. */
  function Level(k: Kind): nat
  {
    match k
    case Organization => 0
    case Project => 1
    case Branch => 2
    case File => 3
    case Page => 4
    case Layer => 5
  }

  /** The kind of the children of a k; a layer has none. */
  function Below(k: Kind): (r: Option<Kind>)
    ensures r.Some? <==> k != Layer
    ensures r.Some? ==> Level(r.value) == Level(k) + 1
  {
    match k
    case Organization => Some(Project)
    case Project => Some(Branch)
    case Branch => Some(File)
    case File => Some(Page)
    case Page => Some(Layer)
    case Layer => None
  }

  /** The `type` string of an entry of kind k. */
  function TypeName(k: Kind): JsString
  {
    match k
    case Organization => Js("organization")
    case Project => Js("project")
    case Branch => Js("branch")
    case File => Js("file")
    case Page => Js("page")
    case Layer => Js("layer")
  }

  /** The kind a `type` string names, if it names one. */
  function KindOf(t: JsString): (r: Option<Kind>)
    ensures r.Some? ==> TypeName(r.value) == t
  {
    if t == TypeName(Organization) then Some(Organization)
    else if t == TypeName(Project) then Some(Project)
    else if t == TypeName(Branch) then Some(Branch)
    else if t == TypeName(File) then Some(File)
    else if t == TypeName(Page) then Some(Page)
    else if t == TypeName(Layer) then Some(Layer)
    else None
  }

  /** The six type strings are distinct, so each one is read back as its own kind. */
  lemma KindOfTypeName(k: Kind)
    ensures KindOf(TypeName(k)) == Some(k)
  {
    assert TypeName(File)[0] != TypeName(Page)[0];
  }

  /** The path segment after `abstract://` in the uri of an entry of kind k. */
  function UriPrefix(k: Kind): (r: JsString)
    ensures k != Organization ==> r == TypeName(k)
    ensures k == Organization ==> |r| < |TypeName(k)| && r == TypeName(k)[..|r|]
  {
    match k
    case Organization => Js("org")
    case Project => Js("project")
    case Branch => Js("branch")
    case File => Js("file")
    case Page => Js("page")
    case Layer => Js("layer")
  }

  /** The kind whose uri prefix is p, if there is one. */
  function KindOfUriPrefix(p: JsString): (r: Option<Kind>)
    ensures r.Some? ==> UriPrefix(r.value) == p
  {
    if p == UriPrefix(Organization) then Some(Organization)
    else if p == UriPrefix(Project) then Some(Project)
    else if p == UriPrefix(Branch) then Some(Branch)
    else if p == UriPrefix(File) then Some(File)
    else if p == UriPrefix(Page) then Some(Page)
    else if p == UriPrefix(Layer) then Some(Layer)
    else None
  }

  /** The six uri prefixes are distinct, and none of them contains '/'. */
  lemma UriPrefixDistinct(k: Kind)
    ensures KindOfUriPrefix(UriPrefix(k)) == Some(k)
    ensures SLASH !in UriPrefix(k)
  {
    assert UriPrefix(File)[0] != UriPrefix(Page)[0];
    match k
    case Organization => JsHasNoSlash("org");
    case Project => JsHasNoSlash("project");
    case Branch => JsHasNoSlash("branch");
    case File => JsHasNoSlash("file");
    case Page => JsHasNoSlash("page");
    case Layer => JsHasNoSlash("layer");
  }
}
