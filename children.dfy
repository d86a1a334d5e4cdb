/**
 * getChildren of the tree provider: which listing it requests for a parent,
 * how it orders what comes back, and how each record becomes an entry.
 */
module Children {
  import opened JsStrings
  import opened Wrappers
  import opened Records
  import opened Kinds
  import opened Entries
  import opened Sorting

  /** The reason a listing call was rejected. */
  datatype FetchError = FetchError(reason: JsString)

  /** The `filter` option of the project and branch listings. */
  const ACTIVE: JsString := Js("active")

  /** The `limit` option of the layer listing. */
  const LAYER_LIMIT: nat := 500

  /** One listing call on the design service client, with the arguments getChildren passes. */
  datatype Request =
    | ListOrganizations
    | ListProjects(organizationId: Value, filter: JsString)
    | ListBranches(projectId: Value, filter: JsString)
    | ListFiles(projectId: Value, branchId: Value)
    | ListPages(projectId: Value, branchId: Value, fileId: Value)
    | ListLayers(projectId: Value, branchId: Value, fileId: Value, pageId: Value, limit: nat)

  /** The kind of record a request lists. */
  function ListedKind(r: Request): Kind
  {
    match r
    case ListOrganizations => Organization
    case ListProjects(_, _) => Project
    case ListBranches(_, _) => Branch
    case ListFiles(_, _) => File
    case ListPages(_, _, _) => Page
    case ListLayers(_, _, _, _, _) => Layer
  }

  /** The `filter` option a request carries, if any. */
  function FilterOf(r: Request): Option<JsString>
  {
    match r
    case ListProjects(_, f) => Some(f)
    case ListBranches(_, f) => Some(f)
    case _ => None
  }

  /** The client: what each listing call settles to, records or an error. */
  type Client = Request -> Result<seq<Record>, FetchError>

  /**
   * What one branch of getChildren does: the listing it requests, the kind of
   * the children, whether it sorts them by name, and the branchId it writes
   * into every child's obj, if it writes one.
   */
  datatype Plan = Plan(request: Request, child: Kind, sorted: bool, branchId: Option<Value>)

  /**
   * The branch of getChildren taken for a parent (None is the root), or None
   * when it lists nothing: children sit exactly one level below their parent
   * and are listed by a request for their kind; a layer or an entry of
   * unknown type lists nothing; organizations, projects, branches and files
   * are sorted, pages and layers are not; only files, pages and layers get a
   * branchId written into obj; only the project and branch listings are
   * filtered, and to active ones.
   */
  function PlanFor(parent: Option<Entry>): (r: Option<Plan>)
    ensures parent.None? ==> r.Some? && r.value.child == Organization
    ensures parent.Some? ==> (r.None? <==> KindOf(parent.value.typeName) in {None, Some(Layer)})
    ensures parent.Some? && r.Some? ==> Below(KindOf(parent.value.typeName).value) == Some(r.value.child)
    ensures r.Some? ==> ListedKind(r.value.request) == r.value.child
    ensures r.Some? ==> (r.value.sorted <==> r.value.child in {Organization, Project, Branch, File})
    ensures r.Some? ==> (r.value.branchId.Some? <==> r.value.child in {File, Page, Layer})
    ensures r.Some? ==> FilterOf(r.value.request) == if r.value.child in {Project, Branch} then Some(ACTIVE) else None
  {
    match parent
    case None => Some(Plan(ListOrganizations, Organization, true, None))
    case Some(e) =>
      var projectId, branchId := Get(e.obj, PROJECT_ID), Get(e.obj, BRANCH_ID);
      match KindOf(e.typeName)
      case Some(Organization) => Some(Plan(ListProjects(e.id, ACTIVE), Project, true, None))
      case Some(Project) => Some(Plan(ListBranches(e.id, ACTIVE), Branch, true, None))
      case Some(Branch) => Some(Plan(ListFiles(projectId, e.id), File, true, Some(e.id)))
      case Some(File) => Some(Plan(ListPages(projectId, branchId, e.id), Page, false, Some(branchId)))
      case Some(Page) =>
        Some(Plan(ListLayers(projectId, branchId, Get(e.obj, FILE_ID), e.id, LAYER_LIMIT), Layer, false, Some(branchId)))
      case _ => None
  }

  /** The entry made from one fetched record. */
  function MakeEntry(plan: Plan, rec: Record): Entry
  {
    var id := Get(rec, ID);
    var obj := match plan.branchId
      case None => rec
      case Some(b) => WithBranchId(rec, b);
    Entry(EntryUri(plan.child, id), id, Get(rec, NAME), TypeName(plan.child), obj)
  }

  /** The `map` over the (possibly sorted) listing. */
  function ChildEntries(plan: Plan, records: seq<Record>): (r: seq<Entry>)
    ensures |r| == |records|
  {
    seq(|records|, i requires 0 <= i < |records| => MakeEntry(plan, records[i]))
  }

  /**
   * getChildren(parent).  The client call is the method's only effect, and
   * issued lists the calls made.  A rejected call rejects the whole
   * expansion.  Otherwise the children are the fetched records, reordered as
   * order, each made into an entry; order is a permutation of the listing,
   * sorted by name for organizations, projects, branches and files and left
   * as fetched for pages and layers.
   */
  method GetChildren(client: Client, parent: Option<Entry>)
    returns (result: Result<seq<Entry>, FetchError>, issued: seq<Request>, ghost order: seq<Record>)
    ensures PlanFor(parent).None? ==> issued == [] && result == Success([])
    ensures PlanFor(parent).Some? ==>
      var plan := PlanFor(parent).value;
      && issued == [plan.request]
      && match client(plan.request)
        case Failure(err) => result == Failure(err)
        case Success(fetched) =>
          && result == Success(ChildEntries(plan, order))
          && multiset(order) == multiset(fetched)
          && (plan.sorted ==> NameOrdered(order) && (AllNamed(fetched) ==> SortedByName(order)))
          && (!plan.sorted ==> order == fetched)
  {
    var planned := PlanFor(parent);
    if planned.None? {
      return Success([]), [], [];
    }
    var plan := planned.value;
    issued := [plan.request];
    var reply := client(plan.request);
    if reply.Failure? {
      return Failure(reply.error), issued, [];
    }
    var fetched := reply.value;
    var listing := fetched;
    if plan.sorted {
      var a := new Record[|fetched|](i requires 0 <= i < |fetched| => fetched[i]);
      assert a[..] == fetched;
      SortByName(a);
      listing := a[..];
      if AllNamed(fetched) {
        assert forall k :: 0 <= k < |listing| ==> listing[k] in multiset(fetched);
        OrderedIsSorted(listing);
      }
    }
    order := listing;
    result := Success(ChildEntries(plan, listing));
  }

  /** The arguments of each listing, read from the parent's id and obj. */
  lemma RequestArguments(e: Entry)
    requires PlanFor(Some(e)).Some?
    ensures var k, req := KindOf(e.typeName), PlanFor(Some(e)).value.request;
      && (k == Some(Organization) ==> req.ListProjects? && req.organizationId == e.id)
      && (k == Some(Project) ==> req.ListBranches? && req.projectId == e.id)
      && (k == Some(Branch) ==> req.ListFiles? && req.projectId == Get(e.obj, PROJECT_ID) && req.branchId == e.id)
      && (k == Some(File) ==>
          && req.ListPages?
          && req.projectId == Get(e.obj, PROJECT_ID) && req.branchId == Get(e.obj, BRANCH_ID)
          && req.fileId == e.id)
      && (k == Some(Page) ==>
          && req.ListLayers?
          && req.projectId == Get(e.obj, PROJECT_ID) && req.branchId == Get(e.obj, BRANCH_ID)
          && req.fileId == Get(e.obj, FILE_ID) && req.pageId == e.id && req.limit == 500)
  {
  }

  /**
   * Each child carries its record's id and name, the type string of its
   * kind, and the record as obj: unchanged, or with only branchId set when
   * the plan writes one.
   */
  lemma EntryFromRecord(plan: Plan, rec: Record)
    ensures var e := MakeEntry(plan, rec);
      && e.id == Get(rec, ID)
      && e.title == Get(rec, NAME)
      && KindOf(e.typeName) == Some(plan.child)
      && (plan.branchId.None? ==> e.obj == rec)
      && (plan.branchId.Some? ==>
          && e.obj.Keys == rec.Keys + {BRANCH_ID}
          && Get(e.obj, BRANCH_ID) == plan.branchId.value
          && forall k :: k != BRANCH_ID ==> Get(e.obj, k) == Get(rec, k))
  {
    KindOfTypeName(plan.child);
  }

  /** Each child's uri reads back as the child's kind and its record's id. */
  lemma EntryUriReadsBack(plan: Plan, rec: Record)
    ensures ParseUri(MakeEntry(plan, rec).uri) == Some((plan.child, ToStr(Get(rec, ID))))
  {
    UriRoundTrip(plan.child, Get(rec, ID));
  }

  /** A file child's obj.branchId is the id of the branch it was listed under. */
  lemma FileBranchId(b: Entry, files: seq<Record>, i: nat)
    requires KindOf(b.typeName) == Some(Branch)
    requires i < |files|
    ensures var f := ChildEntries(PlanFor(Some(b)).value, files)[i];
      KindOf(f.typeName) == Some(File) && Get(f.obj, BRANCH_ID) == b.id
  {
  }

  /**
   * Below a file or a page, the listing asks for the parent's obj.branchId,
   * and every child keeps that branchId, overriding the fetched record's.
   */
  lemma BranchIdInherited(e: Entry, records: seq<Record>, i: nat)
    requires KindOf(e.typeName) == Some(File) || KindOf(e.typeName) == Some(Page)
    requires i < |records|
    ensures var plan := PlanFor(Some(e)).value;
      && plan.request.branchId == Get(e.obj, BRANCH_ID)
      && KindOf(ChildEntries(plan, records)[i].typeName) == Some(plan.child)
      && Get(ChildEntries(plan, records)[i].obj, BRANCH_ID) == Get(e.obj, BRANCH_ID)
  {
    EntryFromRecord(PlanFor(Some(e)).value, records[i]);
  }

  /**
   * The branch a file, page or layer belongs to is the branch the user
   * expanded: whatever branchId the fetched records hold, the file's, its
   * page's and its layer's obj.branchId are the branch entry's id, and so is
   * the branchId of the page and layer listings below that file.
   */
  lemma BranchIdCarriedDown(b: Entry, files: seq<Record>, i: nat, pages: seq<Record>, j: nat, layers: seq<Record>, k: nat)
    requires KindOf(b.typeName) == Some(Branch)
    requires i < |files| && j < |pages| && k < |layers|
    ensures var f := ChildEntries(PlanFor(Some(b)).value, files)[i];
      && Get(f.obj, BRANCH_ID) == b.id
      && PlanFor(Some(f)).value.request.branchId == b.id
      && var p := ChildEntries(PlanFor(Some(f)).value, pages)[j];
      && Get(p.obj, BRANCH_ID) == b.id
      && PlanFor(Some(p)).value.request.branchId == b.id
      && var l := ChildEntries(PlanFor(Some(p)).value, layers)[k];
      && Get(l.obj, BRANCH_ID) == b.id
  {
  }
}
