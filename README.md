# Abstract explorer tree provider, in Dafny

This project models the tree data provider of the Abstract explorer editor
extension (`AbstractProvider` in `src/abstractExplorer.ts`). The provider shows a
design account as a lazy tree: organizations, then projects, branches, files,
pages and layers. Each time a node is expanded it lists that node's children
from the design service and turns each returned record into a tree entry. For
each entry it builds the item the editor draws; layers also get a link to the
layer's page in the browser.

The model covers three parts:

- **Expansion** (`Children.GetChildren`). `Children.PlanFor` picks the listing
  request from the parent's `type`, `id` and `obj`. The design service client is
  a function from typed requests to settled results. Organization, project,
  branch and file listings are sorted in place by an array method
  (`Sorting.SortByName`) with the source's `nameSort` comparator. Each record
  becomes an entry (`Children.MakeEntry`): its id, its name as title, the type
  string of the kind one level down, an `abstract://<prefix>/<id>` uri, and the
  record as `obj`. For files, pages and layers, `obj` is the record with
  `branchId` set from the parent.
- **Tree items** (`TreeItems.GetTreeItem`). This builds a `TreeItem` object
  field by field. Only layers are leaves. The label is the title. Only layers
  get an "open" command, whose URL comes from a fixed template.
- **Name order** (`JsStrings.Greater`). This is JavaScript's `>` on strings:
  code-unit lexicographic order, with strings as sequences of 16-bit code units.

Records are maps from property names to values. A property a record does not
have reads as `undefined`, and `undefined` prints as `"undefined"` in string
concatenation and template literals, as in JavaScript. A comparison with
`undefined` on either side is false. So a record without a name never makes
`nameSort` return 1.

Three facts about the code that shape the model:

- Only `branchId` is carried down. The code writes it into the `obj` of files,
  pages and layers (src/abstractExplorer.ts:121, 136 and 157). Organization,
  project and branch entries keep the fetched record as it came, so a branch
  entry has whatever `projectId` the service put in the branch record.
- The layer link ends in `?mode=build`, although the comment above it
  (src/abstractExplorer.ts:39) speaks of inspect mode.
- Nothing catches a rejected listing, so the whole expansion rejects with the
  same error. The model returns `Failure` with that error.

## Model

| member | source | states |
|---|---|---|
| `Children.GetChildren` | src/abstractExplorer.ts:58-162 | Sends exactly the one listing request chosen for the parent, or none. A rejected request rejects the expansion with its error. Otherwise the children are the fetched records in a new order, each made into an entry. That order is a permutation of the listing. For organizations, projects, branches and files, no neighbouring pair is one `nameSort` would swap, and the names are non-decreasing when every name is a string. Pages and layers keep the fetched order. |
| `Children.PlanFor` | src/abstractExplorer.ts:62-161 | The root lists organizations. An entry lists the kind exactly one level below its own, by a request for that kind. A layer or an unknown `type` lists nothing. Only the first four levels are sorted. Only file, page and layer children get `branchId` written. Only the project and branch listings carry a filter, `"active"`. |
| `Children.RequestArguments` | src/abstractExplorer.ts:74-150 | Each listing's arguments come from the parent: `organizationId` and `projectId` are its id. Files use (`obj.projectId`, id). Pages use (`obj.projectId`, `obj.branchId`, id). Layers use (`obj.projectId`, `obj.branchId`, `obj.fileId`) with `pageId` = id and `limit` = 500. |
| `Children.MakeEntry` | src/abstractExplorer.ts:65-71 | The object literal each `map` callback returns, for every level (lines 65-71, 83-89, 102-108, 116-122, 131-137, 152-158). Its fields are pinned down by `Children.EntryFromRecord` and `Children.EntryUriReadsBack`. |
| `Children.ChildEntries` | src/abstractExplorer.ts:64 | The `.map` over the (sorted or fetched) listing, as at lines 64, 82, 101, 115, 130 and 151: one child per record, as many children as records, in the listing's order. |
| `Children.EntryFromRecord` | src/abstractExplorer.ts:65-157 | Each child has the record's id and name as id and title. Its `type` names its kind. Its `obj` is the record unchanged, or, for files, pages and layers, the record with only `branchId` replaced. |
| `Children.EntryUriReadsBack` | src/abstractExplorer.ts:66-153 | Each child's uri reads back as the child's kind and the string form of its record's id. |
| `Children.FileBranchId` | src/abstractExplorer.ts:110-122 | A file child's `obj.branchId` is the id of the branch it was listed under. |
| `Children.BranchIdInherited` | src/abstractExplorer.ts:124-158 | Below a file or a page, the request uses the parent's `obj.branchId`, and every child gets that `branchId`, overriding the fetched one. |
| `Children.BranchIdCarriedDown` | src/abstractExplorer.ts:110-158 | Expand a branch, then a file, then a page: the file, the page and the layer all carry the branch's id as `obj.branchId`, and the page and layer listings ask for that branch. |
| `Sorting.ValueGreater` | src/abstractExplorer.ts:60 | `one.name > two.name` on two property values. A comparison is true only when both sides are strings, so `undefined` on either side makes it false; and when it is true, the reverse comparison is false. |
| `Sorting.SwapNeighbours` | src/abstractExplorer.ts:64 | The one step the in-place sort takes: two neighbouring elements exchange places, every other element stays, and the array keeps its multiset of records. |
| `Sorting.SortByName` | src/abstractExplorer.ts:64 | In-place sort of the fetched array: the result is a permutation, and no neighbouring pair is one the comparator would swap. |
| `Sorting.InsertByName` | src/abstractExplorer.ts:64 | One insertion step: the array stays a permutation, and its ordered prefix grows by one. |
| `Sorting.NameSort` | src/abstractExplorer.ts:59-61 | The comparator returns only 1 or -1, never 0. |
| `Sorting.NameSortAsymmetric` | src/abstractExplorer.ts:59-61 | The comparator never asks for a swap in both directions. |
| `Sorting.OrderedIsSorted` | src/abstractExplorer.ts:59-64 | If every record has a string name, having no swappable neighbours means every pair of names is in non-decreasing code-unit order. |
| `Sorting.UndefinedNameBreaksOrder` | src/abstractExplorer.ts:59-61 | A record without a name breaks that: [“b”, undefined, “a”] has no swappable neighbours, but it is not sorted. |
| `JsStrings.Greater` | src/abstractExplorer.ts:60 | JavaScript's `>` on two strings. A greater string is non-empty and does not start with a smaller code unit; a string is greater than each of its proper prefixes, so "main" comes before "main-2". `JsStrings.GreaterMatchesDefinition` ties it to the standard's definition. |
| `JsStrings.GreaterMatchesDefinition` | src/abstractExplorer.ts:60 | The recursive `>` holds exactly when the right string is a proper prefix of the left, or the left has the larger code unit at the first index where they differ. |
| `JsStrings.GreaterIrreflexive` | src/abstractExplorer.ts:60 | No string is greater than itself. |
| `JsStrings.GreaterAsymmetric` | src/abstractExplorer.ts:60 | `a > b` excludes `b > a`. |
| `JsStrings.GreaterTransitive` | src/abstractExplorer.ts:60 | `a > b` and `b > c` give `a > c`. |
| `JsStrings.GreaterTotal` | src/abstractExplorer.ts:60 | Two different strings are ordered one way or the other. |
| `JsStrings.NotGreaterTransitive` | src/abstractExplorer.ts:60 | "Not greater" is transitive. |
| `JsStrings.UpperCaseFirst` | src/abstractExplorer.ts:60 | The order is case-sensitive: every string starting with an ASCII capital precedes every string starting with a lower-case ASCII letter, so "Beta" comes before "alpha". |
| `Records.Get` | src/abstractExplorer.ts:46-49 | Property access such as `element.obj.projectId` or `org.id`: a property the record has gives its value, a missing one gives `undefined`. `Records.WithBranchId` states what reading a spread record gives. |
| `Records.ToStr` | src/abstractExplorer.ts:66 | The string form of a value in `+` and in a template literal: a string stands for itself, `undefined` becomes "undefined", and only the empty string gives the empty text. |
| `Records.WithBranchId` | src/abstractExplorer.ts:121 | The spread `{...r, branchId: v}` keeps every property of r, adds or replaces `branchId` with v, and changes nothing else. |
| `Kinds.Below` | src/abstractExplorer.ts:62-159 | Every kind except layer has a kind under it, exactly one level deeper. |
| `Kinds.TypeName` | src/abstractExplorer.ts:69-156 | The `type` string each level writes into its children: "organization", "project", "branch", "file", "page", "layer" (lines 69, 87, 106, 120, 135, 156). `Kinds.KindOfTypeName` proves the six are distinct. |
| `Kinds.KindOf` | src/abstractExplorer.ts:73-139 | A `type` string parses to a kind only if it is that kind's type string. |
| `Kinds.KindOfTypeName` | src/abstractExplorer.ts:69-156 | The six type strings are distinct, so each reads back as its own kind. |
| `Kinds.UriPrefix` | src/abstractExplorer.ts:66-153 | The path segment after `abstract://` in each level's uri (lines 66, 84, 103, 117, 132, 153). It equals the kind's `type` string, except for organizations, where it is "org", a proper prefix of "organization". |
| `Kinds.KindOfUriPrefix` | src/abstractExplorer.ts:66-153 | A uri prefix parses to a kind only if it is that kind's prefix. |
| `Kinds.UriPrefixDistinct` | src/abstractExplorer.ts:66-153 | The six uri prefixes (`org`, `project`, `branch`, `file`, `page`, `layer`) are distinct and contain no '/'. |
| `Entries.EntryUri` | src/abstractExplorer.ts:66 | The text `"abstract://<prefix>/" + id` each level builds (lines 66, 84, 103, 117, 132, 153). `Entries.UriRoundTrip` and `Entries.UriInjective` state that it reads back and tells entries apart. |
| `Entries.IndexOfSlash` | src/abstractExplorer.ts:66-153 | Finds the first '/' of a string, or its length if it has none. |
| `Entries.ParsePathOfPrefix` | src/abstractExplorer.ts:66-153 | After the scheme, a kind's prefix, '/' and any text parse back to that kind and that text. |
| `Entries.UriRoundTrip` | src/abstractExplorer.ts:66-153 | Every entry uri `abstract://<prefix>/<id>` parses back to its kind and the id's string form. |
| `Entries.UriInjective` | src/abstractExplorer.ts:66-153 | Two entries share a uri only if they share both the kind and the id's string form. |
| `TreeItems.GetTreeItem` | src/abstractExplorer.ts:26-56 | Builds a new item with the entry's uri as its resource uri. It is collapsed unless the entry is a layer, and labelled with the title. Only a layer gets a command: `vscode.open`, "Open", with the layer link. |
| `TreeItems.TreeItem.constructor` | src/abstractExplorer.ts:27-32 | A new item has the given uri and collapsible state, and no label or command yet. |
| `TreeItems.StateFor` | src/abstractExplorer.ts:29-31 | The collapsible state: never expanded, and not collapsible exactly when the entry's `type` is the layer's. |
| `TreeItems.CommandFor` | src/abstractExplorer.ts:38-53 | The command is set exactly when the entry's `type` is the layer's; it is `vscode.open` with the layer link (`TreeItems.GetTreeItem`, `TreeItems.LayerLinkUsesParentBranch`). |
| `TreeItems.LayerUrl` | src/abstractExplorer.ts:45-49 | The layer link, `${...}` by `${...}`. `TreeItems.LayerUrlFollowsTemplate` proves it is the fixed template filled in order. |
| `TreeItems.LayerUrlFollowsTemplate` | src/abstractExplorer.ts:45-49 | The layer link is the fixed template `https://app.goabstract.com/projects/{projectId}/branches/{branchId}/commits/{lastChangedAtSha}/files/{fileId}/layers/{id}?mode=build`, filled from the entry. |
| `TreeItems.LayerUrlStart` | src/abstractExplorer.ts:45-46 | The link starts with `https://app.goabstract.com/projects/` and then the projectId. A projectId without '/' reads back as the text up to the next '/'. |
| `TreeItems.LayerUrlEnd` | src/abstractExplorer.ts:49 | The link ends with `/layers/`, the layer's id and `?mode=build`. |
| `TreeItems.LayerLinkUsesParentBranch` | src/abstractExplorer.ts:38-53 | A layer listed under a page links with the fetched layer record's projectId, sha, fileId and id, and with the page's `branchId` instead of the record's. With `Children.BranchIdCarriedDown`, that is the id of the branch the user expanded. |
| `TreeItems.LeafIffNoChildren` | src/abstractExplorer.ts:29-31 | For a known kind, the item has no expander exactly when expanding it lists nothing, and it has a command exactly then. An entry of unknown type shows an expander that lists nothing. |

## Left out

- Building the service client from the API token, and the client's own calls
  (src/abstractExplorer.ts:19-22 and the awaited calls): the client is a
  parameter, a function from request to its settled result. Network,
  concurrency and the async suspension are not modelled.
- How the listing is unwrapped from the response (`.data.branches`, `.files`).
  This is specific to the client library. The client returns the record list.
- `Uri.parse`. The uri is kept as the text passed to it. The same holds for the
  command's argument.
- The icon path built with `path.join` from `extensionPath` (lines 34-36). It is
  a call into a library this model does not include, so `extensionPath` is not
  modelled either.
- `AbstractExplorer` and its empty `previewLayer` (lines 165-184), and
  src/extension.ts and src/security.ts. These are editor wiring, a token prompt
  and process spawning.
- Property values other than strings and `undefined` (numbers, booleans, nested
  objects). The records the code reads hold strings. Comparing non-string names
  with `>` is not modelled.
- An entry whose `obj` is not an object. The code would throw a `TypeError`
  when it reads `obj.projectId`. Entries built by the provider always have an
  object.
- Sorting.SortByName: `nameSort` is not a consistent comparator in the sense of
  the JavaScript standard (it returns -1 for two equal names, and a name that is
  `undefined` compares false both ways), so the language leaves the order of the
  sorted array implementation-defined. The model fixes one algorithm, insertion
  by neighbour swaps. It claims only a permutation with no swappable
  neighbours, and sorted order when every name is a string. An engine may
  order the same input differently.
- Sorting.SortByName: the source sorts the very array the client returned. The
  model copies the listing into a fresh array before sorting, because nothing
  reads the client's array afterwards.
