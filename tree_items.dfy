/**
 * getTreeItem of the tree provider: the item the editor draws for an
 * entry, and the browser link a layer opens.
 */
module TreeItems {
  import opened JsStrings
  import opened Wrappers
  import opened Records
  import opened Kinds
  import opened Entries
  import opened Children

  /** The editor's TreeItemCollapsibleState; NotCollapsible is its `None`. */
  datatype CollapsibleState = NotCollapsible | Collapsed | Expanded

  /** A command attached to an item: its id, its title and its arguments (uri texts). */
  datatype Command = Command(command: JsString, title: JsString, arguments: seq<JsString>)

  /** The fields of the editor's TreeItem that getTreeItem sets. */
  class TreeItem {
    var resourceUri: JsString
    var collapsibleState: CollapsibleState
    var labelText: Value  // the item's `label`
    var command: Option<Command>

    /** `new TreeItem(resourceUri, collapsibleState)`: no label and no command yet. */
    constructor (resourceUri: JsString, collapsibleState: CollapsibleState)
      ensures this.resourceUri == resourceUri && this.collapsibleState == collapsibleState
      ensures labelText == Undefined && command == None
    {
      this.resourceUri := resourceUri;
      this.collapsibleState := collapsibleState;
      labelText := Undefined;
      command := None;
    }
  }

  /** The fixed text of the layer link, between the fields it is filled with. */
  const URL_PROJECTS: JsString := Js("https://app.goabstract.com/projects/")
  const URL_BRANCHES: JsString := Js("/branches/")
  const URL_COMMITS: JsString := Js("/commits/")
  const URL_FILES: JsString := Js("/files/")
  const URL_LAYERS: JsString := Js("/layers/")
  const URL_MODE: JsString := Js("?mode=build")

  /** The browser page of a layer, in build (inspect) mode. */
  function LayerUrl(e: Entry): JsString
  {
    URL_PROJECTS + (ToStr(Get(e.obj, PROJECT_ID))
    + (URL_BRANCHES + (ToStr(Get(e.obj, BRANCH_ID))
    + (URL_COMMITS + (ToStr(Get(e.obj, LAST_CHANGED_AT_SHA))
    + (URL_FILES + (ToStr(Get(e.obj, FILE_ID))
    + (URL_LAYERS + (ToStr(e.id)
    + URL_MODE)))))))))
  }

  /** A place in a url template: a property of the entry's obj, or the entry's own id. */
  datatype Slot = ObjField(key: JsString) | OwnId

  datatype Piece = Text(text: JsString) | Hole(slot: Slot)

  /** The layer link as a table: fixed text and the fields filled in between. */
  const LAYER_URL_TEMPLATE: seq<Piece> := [
    Text(URL_PROJECTS), Hole(ObjField(PROJECT_ID)),
    Text(URL_BRANCHES), Hole(ObjField(BRANCH_ID)),
    Text(URL_COMMITS), Hole(ObjField(LAST_CHANGED_AT_SHA)),
    Text(URL_FILES), Hole(ObjField(FILE_ID)),
    Text(URL_LAYERS), Hole(OwnId),
    Text(URL_MODE)
  ]

  /** The text a piece of a template stands for, each field converted as `${...}` does. */
  function PieceText(p: Piece, e: Entry): JsString
  {
    match p
    case Text(s) => s
    case Hole(ObjField(key)) => ToStr(Get(e.obj, key))
    case Hole(OwnId) => ToStr(e.id)
  }

  /** The pieces of t from index i on, filled from an entry. */
  function FillFrom(t: seq<Piece>, i: nat, e: Entry): JsString
    decreases |t| - i
  {
    if i >= |t| then [] else PieceText(t[i], e) + FillFrom(t, i + 1, e)
  }

  /** The link getTreeItem builds is the template, filled from the layer entry. */
  lemma LayerUrlFollowsTemplate(e: Entry)
    ensures LayerUrl(e) == FillFrom(LAYER_URL_TEMPLATE, 0, e)
  {
    var t := LAYER_URL_TEMPLATE;
    assert FillFrom(t, 10, e) == URL_MODE by {
      assert FillFrom(t, 11, e) == [];
    }
    assert FillFrom(t, 9, e) == ToStr(e.id) + URL_MODE;
    assert FillFrom(t, 8, e) == URL_LAYERS + FillFrom(t, 9, e);
    assert FillFrom(t, 7, e) == ToStr(Get(e.obj, FILE_ID)) + FillFrom(t, 8, e);
    assert FillFrom(t, 6, e) == URL_FILES + FillFrom(t, 7, e);
    assert FillFrom(t, 5, e) == ToStr(Get(e.obj, LAST_CHANGED_AT_SHA)) + FillFrom(t, 6, e);
    assert FillFrom(t, 4, e) == URL_COMMITS + FillFrom(t, 5, e);
    assert FillFrom(t, 3, e) == ToStr(Get(e.obj, BRANCH_ID)) + FillFrom(t, 4, e);
    assert FillFrom(t, 2, e) == URL_BRANCHES + FillFrom(t, 3, e);
    assert FillFrom(t, 1, e) == ToStr(Get(e.obj, PROJECT_ID)) + FillFrom(t, 2, e);
    assert FillFrom(t, 0, e) == URL_PROJECTS + FillFrom(t, 1, e);
  }

  /** t is a suffix of u. */
  predicate EndsWith(u: JsString, t: JsString)
  {
    |t| <= |u| && u[|u| - |t|..] == t
  }

  lemma EndsWithAfter(a: JsString, u: JsString, t: JsString)
    requires EndsWith(u, t)
    ensures EndsWith(a + u, t)
  {
    assert (a + u)[|a + u| - |t|..] == u[|u| - |t|..];
  }

  /**
   * The link opens the layer's project page: it starts with the projects
   * path and then the projectId, which reads back as the text up to the
   * next '/' whenever it has no '/' of its own.
   */
  lemma LayerUrlStart(e: Entry)
    ensures var u, pid := LayerUrl(e), ToStr(Get(e.obj, PROJECT_ID));
      && |URL_PROJECTS| + |pid| < |u|
      && u[..|URL_PROJECTS|] == URL_PROJECTS
      && (SLASH !in pid ==> IndexOfSlash(u[|URL_PROJECTS|..]) == |pid| && u[|URL_PROJECTS|..][..|pid|] == pid)
  {
    var pid := ToStr(Get(e.obj, PROJECT_ID));
    var t2 := URL_BRANCHES + (ToStr(Get(e.obj, BRANCH_ID))
      + (URL_COMMITS + (ToStr(Get(e.obj, LAST_CHANGED_AT_SHA))
      + (URL_FILES + (ToStr(Get(e.obj, FILE_ID))
      + (URL_LAYERS + (ToStr(e.id) + URL_MODE)))))));
    var rest := pid + t2;
    assert LayerUrl(e) == URL_PROJECTS + rest;
    assert LayerUrl(e)[|URL_PROJECTS|..] == rest;
    assert rest[..|pid|] == pid;
    if SLASH !in pid {
      assert t2[0] == URL_BRANCHES[0] == SLASH;
      assert SLASH !in rest[..|pid|];
      IndexOfSlashAt(rest, |pid|);
    }
  }

  /** The link ends with the layer's own id and the build view mode. */
  lemma LayerUrlEnd(e: Entry)
    ensures EndsWith(LayerUrl(e), URL_LAYERS + (ToStr(e.id) + URL_MODE))
  {
    var t5 := URL_LAYERS + (ToStr(e.id) + URL_MODE);
    assert EndsWith(t5, t5);
    var fid := ToStr(Get(e.obj, FILE_ID));
    EndsWithAfter(fid, t5, t5);
    EndsWithAfter(URL_FILES, fid + t5, t5);
    var sha := ToStr(Get(e.obj, LAST_CHANGED_AT_SHA));
    var t4 := URL_FILES + (fid + t5);
    EndsWithAfter(sha, t4, t5);
    EndsWithAfter(URL_COMMITS, sha + t4, t5);
    var bid := ToStr(Get(e.obj, BRANCH_ID));
    var t3 := URL_COMMITS + (sha + t4);
    EndsWithAfter(bid, t3, t5);
    EndsWithAfter(URL_BRANCHES, bid + t3, t5);
    var pid := ToStr(Get(e.obj, PROJECT_ID));
    var t2 := URL_BRANCHES + (bid + t3);
    EndsWithAfter(pid, t2, t5);
    EndsWithAfter(URL_PROJECTS, pid + t2, t5);
  }

  /**
   * The link of a layer listed under a page is built from the fetched
   * layer record's projectId, lastChangedAtSha, fileId and id, and from the
   * page's branchId in place of whatever branchId the record held.  With
   * Children.BranchIdCarriedDown, that is the id of the branch the user
   * expanded.
   */
  lemma LayerLinkUsesParentBranch(p: Entry, layers: seq<Record>, k: nat)
    requires KindOf(p.typeName) == Some(Page)
    requires k < |layers|
    ensures var l, rec := ChildEntries(PlanFor(Some(p)).value, layers)[k], layers[k];
      && CommandFor(l).Some?
      && CommandFor(l).value.arguments == [
        URL_PROJECTS + (ToStr(Get(rec, PROJECT_ID))
        + (URL_BRANCHES + (ToStr(Get(p.obj, BRANCH_ID))
        + (URL_COMMITS + (ToStr(Get(rec, LAST_CHANGED_AT_SHA))
        + (URL_FILES + (ToStr(Get(rec, FILE_ID))
        + (URL_LAYERS + (ToStr(Get(rec, ID))
        + URL_MODE)))))))))]
  {
    EntryFromRecord(PlanFor(Some(p)).value, layers[k]);
    KindOfTypeName(Layer);
  }

  /** Only a layer is a leaf of the tree. */
  function StateFor(e: Entry): (s: CollapsibleState)
    ensures s != Expanded
    ensures s == NotCollapsible <==> KindOf(e.typeName) == Some(Layer)
  {
    KindOfTypeName(Layer);
    if e.typeName == TypeName(Layer) then NotCollapsible else Collapsed
  }

  /** Only a layer opens something: its browser page, through `vscode.open`. */
  function CommandFor(e: Entry): (c: Option<Command>)
    ensures c.Some? <==> KindOf(e.typeName) == Some(Layer)
  {
    KindOfTypeName(Layer);
    if e.typeName == TypeName(Layer) then Some(Command(Js("vscode.open"), Js("Open"), [LayerUrl(e)]))
    else None
  }

  /**
   * getTreeItem(element): the item has the entry's uri, is collapsible
   * unless the entry is a layer, is labelled with the entry's title, and has
   * a command only for a layer.
   */
  method GetTreeItem(element: Entry) returns (item: TreeItem)
    ensures fresh(item)
    ensures item.resourceUri == element.uri
    ensures item.collapsibleState == StateFor(element)
    ensures item.labelText == element.title
    ensures item.command == CommandFor(element)
  {
    var isLayer := element.typeName == TypeName(Layer);
    item := new TreeItem(element.uri, if isLayer then NotCollapsible else Collapsed);
    item.labelText := element.title;
    if isLayer {
      item.command := Some(Command(Js("vscode.open"), Js("Open"), [LayerUrl(element)]));
    }
  }

  /**
   * For an entry of a known kind, the item shows no expander exactly when
   * expanding it would list nothing, and it has a command exactly then.  An
   * entry of unknown type shows an expander that yields no children.
   */
  lemma LeafIffNoChildren(e: Entry)
    ensures KindOf(e.typeName).Some? ==>
      && (StateFor(e) == NotCollapsible <==> PlanFor(Some(e)).None?)
      && (CommandFor(e).Some? <==> PlanFor(Some(e)).None?)
    ensures KindOf(e.typeName).None? ==> StateFor(e) == Collapsed && PlanFor(Some(e)).None?
  {
  }
}
