/**
 * The entries of the tree (the `Entry` interface of the provider) and the
 * `abstract://` uri each one carries.
 */
module Entries {
  import opened JsStrings
  import opened Wrappers
  import opened Records
  import opened Kinds

  /**
   * One node of the tree.  `typeName` is the entry's `type` field, and `uri`
   * is the text handed to `Uri.parse`.
   */
  datatype Entry = Entry(uri: JsString, id: Value, title: Value, typeName: JsString, obj: Record)

  const SCHEME: JsString := Js("abstract://")

  /**
   * The uri of an entry of kind k: the source writes "abstract://org/" + id,
   * "abstract://project/" + id, and so on, with the prefix of that kind.
   */
  function EntryUri(k: Kind, id: Value): JsString
  {
    SCHEME + UriPrefix(k) + [SLASH] + ToStr(id)
  }

  /** The index of the first '/' in s, or |s| when there is none. */
  function IndexOfSlash(s: JsString): (n: nat)
    ensures n <= |s|
    ensures forall i :: 0 <= i < n ==> s[i] != SLASH
    ensures n < |s| ==> s[n] == SLASH
  {
    if |s| == 0 || s[0] == SLASH then 0 else 1 + IndexOfSlash(s[1..])
  }

  /** Reading a uri back: its kind, from the segment after the scheme, and the rest as the id. */
  function ParseUri(u: JsString): Option<(Kind, JsString)>
  {
    if |u| < |SCHEME| || u[..|SCHEME|] != SCHEME then None
    else ParsePath(u[|SCHEME|..])
  }

  /** The part after the scheme: a kind prefix up to the first '/', then the id. */
  function ParsePath(rest: JsString): Option<(Kind, JsString)>
  {
    var n := IndexOfSlash(rest);
    if n == |rest| then None
    else match KindOfUriPrefix(rest[..n])
      case None => None
      case Some(k) => Some((k, rest[n + 1..]))
  }

  lemma IndexOfSlashAt(s: JsString, n: nat)
    requires n < |s| && s[n] == SLASH && SLASH !in s[..n]
    ensures IndexOfSlash(s) == n
  {
  }

  /** After the scheme: a kind's prefix, '/', and any text read back as that kind and that text. */
  lemma ParsePathOfPrefix(k: Kind, text: JsString)
    ensures ParsePath(UriPrefix(k) + [SLASH] + text) == Some((k, text))
  {
    var p := UriPrefix(k);
    var rest := p + [SLASH] + text;
    UriPrefixDistinct(k);
    assert rest[..|p|] == p;
    IndexOfSlashAt(rest, |p|);
    assert rest[|p| + 1..] == text;
  }

  /** Every entry uri reads back as the kind it was built for and the id's string form. */
  lemma UriRoundTrip(k: Kind, id: Value)
    ensures ParseUri(EntryUri(k, id)) == Some((k, ToStr(id)))
  {
    var rest := UriPrefix(k) + [SLASH] + ToStr(id);
    assert EntryUri(k, id) == SCHEME + rest;
    assert (SCHEME + rest)[..|SCHEME|] == SCHEME && (SCHEME + rest)[|SCHEME|..] == rest;
    ParsePathOfPrefix(k, ToStr(id));
  }

  /** So two entries have the same uri only when they share kind and id string. */
  lemma UriInjective(k: Kind, a: Value, k': Kind, b: Value)
    ensures EntryUri(k, a) == EntryUri(k', b) ==> k == k' && ToStr(a) == ToStr(b)
  {
    UriRoundTrip(k, a);
    UriRoundTrip(k', b);
  }
}
