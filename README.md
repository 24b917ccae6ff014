# pyxnat resources: collections, listings, creation and constraint rewriting

This project models, in Dafny, the decision logic of `pyxnat/core/resources.py`, the object
layer of the pyxnat client for an XNAT imaging server. The model covers the logic that runs
before and after each HTTP call:

- **Collections** (`CObject`): the five kinds of collection base and the tag `__init__` gives
  each. Iteration yields element URIs from the JSON tables the server lists, with the glob
  filter on identifiers and one level of nesting. `first()` and `get(*args)` are modelled,
  including the identifier header that `get` changes while it iterates. `where(...)` walks up
  the `cbase` chain and rebases an ancestor onto the subjects that a search returns.
- **Listing a template** (`_call`, `_learn_from_table`): the query string, the rule that adds
  the `xsiType` column, and how the learned shape → xsi-type map is merged into the per-request
  structure file and the in-memory structure.
- **Element handles** (`EObject`): the row `_getcells` selects, the parameter logic of
  `create` and its recursion into missing ancestors, and the option string of
  `Experiment.trigger`.
- **Constraint lists**: `rewrite_query` and `_datatypes_from_query`.
- **The metaclasses**: the accessor table they add to every resource class, and what the four
  generated getters return.

The server, the cache directory and the clock are inputs:

- a listing is a function from a request to a sequence of rows (`Row = map<string, string>`);
- cache files are a map from path to structure;
- the clock is its seconds.

The `uriutil` helpers (`join_uri`, `uri_last`, `uri_nextlast`, `uri_grandparent`,
`uri_shape`, `translate_uri`) and `urllib` quoting are fields of a `UriOps` record that every
operation takes as a parameter. Nothing is assumed about them.

An iteration is a `Pass`: the element URIs yielded, in order, and the exception that ended
the pass, if any. A generator that raises after yielding some elements is therefore modelled
exactly, and `first()` sees only what comes before the first yield. The imperative parts are
methods proved equal to these specification functions:

- the `CObject` class and its `get`/`where`, which update fields in place;
- the generator loops of `__iter__`;
- the learning loop and `_call` on an `Interface` class holding `_struct` and the cache files;
- the deletion loop and the recursion of `create`.

Modules:

- `Results`: Option and Result.
- `Text`: the `str` methods used.
- `Glob`: `fnmatch`.
- `Xnat`: exceptions, URI helpers, schema, rows and filters.
- `Collections`: collection values and passes.
- `CObjects`: the class and its loops.
- `Fetch`: `_call` and learning.
- `Handles`: `EObject`.
- `Constraints` and `Selection`: `where`.
- `Accessors`: the metaclasses.

Two points of the code are worth knowing before reading the model:

- `create` discards the result of the recursive call for a missing parent. The required paths
  reported are therefore only those of the element's own PUT, and the model follows the code.
- The nested branch of a list of elements looks up a different class than the other branches
  do. The model keeps that lookup as written (`Collections.ElemItemPassAsWritten`) and shows
  where it fails, but iteration uses the intended lookup (see Findings and Left out).

## Model

| member | source | states |
|---|---|---|
| Collections.Classify | pyxnat/core/resources.py:537-551 | a string is tagged `cobjectcuri`, a collection `cobjectcobject`, `[]` `cobjectempty`; a non-empty list by its first item (URI, element, collection), and left untagged when that item is of no known kind; any other base raises, each case as an if-and-only-if |
| Collections.Make | pyxnat/core/resources.py:504-551 | building succeeds exactly for a string, collection or list base, keeping the base and the tag `Classify` gives it |
| CObjects.CObject.New | pyxnat/core/resources.py:504-551 | the constructor raises the invalid-base exception exactly when the base is unusable, and otherwise builds a fresh object whose attributes are those of `Make` |
| CObjects.CObject.Init | pyxnat/core/resources.py:529-535 | the new object holds the given base, tag, pattern, nesting, header, columns and filters |
| Collections.IdColumn | pyxnat/core/resources.py:647-653 | the identifier column is the schema's id field for `ID`, its label field for `label` (KeyError when the node is unknown), and the header itself otherwise |
| Collections.TemplateYieldsMatchingRows | pyxnat/core/resources.py:655-665 | without nesting a template yields, in row order, one element at `join_uri(base, id)` per row whose unquoted id matches the pattern, and nothing for the other rows |
| Collections.StarListsEveryRow | pyxnat/core/resources.py:655-665 | with the default pattern `*` every row yields its element, one per row in order |
| Collections.MissingCellStops | pyxnat/core/resources.py:655-658 | a row without the id column raises KeyError after the elements of the rows before it |
| Collections.UriListYieldsItsUris | pyxnat/core/resources.py:686-694 | a list of URIs without nesting yields one element handle per URI, in order, and raises nothing |
| Collections.ElementListYieldsItself | pyxnat/core/resources.py:715-720 | a list of elements without nesting yields exactly that list, in order |
| Collections.ElementListNests | pyxnat/core/resources.py:715-729 | a list of elements with nesting yields the collections named `nested` under each element, one after the other (with the class lookup corrected, see Findings) |
| Collections.EmptyYieldsNothing | pyxnat/core/resources.py:795-797 | a collection built on `[]` yields nothing and raises nothing, whatever the server holds |
| Collections.CollectionListConcatenates | pyxnat/core/resources.py:767-773 | a list of collections without nesting yields their passes concatenated, stopping at the first exception |
| Collections.NestAllFlattens | pyxnat/core/resources.py:666-674 | nesting replaces every parent by the elements of the collection at `join_uri(parent, nested)`, listed with the same pattern, header and columns |
| Collections.NestedCollectionFlattens | pyxnat/core/resources.py:741-761 | a collection on a collection, with nesting, yields the nested collections of the base's elements one after the other |
| Collections.LateHeaderNeedsNesting | pyxnat/core/resources.py:666-674 | a header changed between yields affects only nested levels: without nesting the pass is the same whatever the header becomes |
| Collections.EObjectsNestingAsWrittenFails | pyxnat/core/resources.py:721-729 | as written, nesting `scans` under a list of elements looks up the element class `Scan` and raises TypeError at the first element; the corrected lookup lists the scans under it |
| Collections.FirstOf | pyxnat/core/resources.py:803-807 | `first()` is the first element yielded, `None` for a pass that yields nothing and raises nothing, and the exception when one is raised before any element |
| Collections.GetShapes | pyxnat/core/resources.py:827-849 | the three result shapes agree: no arguments gives identifiers, one argument a column, several a tuple per element, always one per element; the `id` and `label` columns are the unquoted last segments that `get()` returns, any other column is the elements themselves, and component j of each tuple is what `get` with only the j-th argument gives |
| Collections.HeaderAfterTwice | pyxnat/core/resources.py:834-840 | running the argument loop again leaves the header as it is, and arguments other than `id`/`label` never change it |
| Collections.HeaderAfterForgets | pyxnat/core/resources.py:834-840 | once an `id` or `label` argument is present, the header before the loop does not matter |
| Collections.GetReadsThePass | pyxnat/core/resources.py:827-849 | `get` shapes the elements of the ordinary pass when it has no arguments or the collection has no nesting, and raises what the pass raises; the header changes only after an element was yielded, to the last `id`/`label` argument |
| CObjects.IterUri | pyxnat/core/resources.py:647-684 | the `cobjectcuri` branch as a method: choose the id column, list, then loop over the rows; equal to the specification pass |
| CObjects.IterRows | pyxnat/core/resources.py:655-684 | the loop over the listed rows yields the specification pass of those rows |
| CObjects.IterSub | pyxnat/core/resources.py:667-674 | the nested collection of one parent: AttributeError for no nesting, TypeError for a name that is no collection class, else its listing |
| CObjects.IterNest | pyxnat/core/resources.py:741-761 | the loop over parents yields each parent's nested collection in turn |
| CObjects.IterValue | pyxnat/core/resources.py:646-797 | `__iter__` dispatches on the tag and yields the specification pass of every base kind |
| CObjects.IterItems | pyxnat/core/resources.py:686-793 | the loop over a list base yields its items' passes in order, stopping at the first exception |
| CObjects.IterItem | pyxnat/core/resources.py:686-793 | one item of a URI, element or collection list yields the specification pass of that item |
| CObjects.CObject.Iterate | pyxnat/core/resources.py:646-797 | iterating the object yields the pass of its current attributes |
| CObjects.CObject.First | pyxnat/core/resources.py:803-807 | `first()` on the object is the first element of that pass |
| CObjects.CObject.Get | pyxnat/core/resources.py:811-849 | `get(*args)` returns the shaped elements and leaves the header the argument loop sets at every element |
| CObjects.WalkUp | pyxnat/core/resources.py:952-962 | the `while cobj` loop climbs the `cbase` chain to the level `Climb` specifies, raising what `first()` raises |
| Selection.ClimbStopsAtSubjects | pyxnat/core/resources.py:952-962 | the collection where the walk stops yields nothing or has a first element directly under `subjects` |
| CObjects.CObject.Where | pyxnat/core/resources.py:871-978 | `where` leaves the object as the `where` specification says and raises what it raises |
| CObjects.CObject.Rebase | pyxnat/core/resources.py:964-976 | narrowing and rebasing the ancestor found, in place |
| CObjects.CObject.SetAncestor | pyxnat/core/resources.py:973-976 | writing a collection at depth d changes exactly that link of the chain |
| Constraints.NormalizeWhere | pyxnat/core/resources.py:900-916 | a constraint string wins, then a template tuple, then a stored query name, then a constraint list; ProgrammingError exactly when none is usable |
| Constraints.RewriteLeaf | pyxnat/core/resources.py:2101-2112 | a tuple becomes one `(join_field, '=', sid)` term per subject id the lookup returns, in that order, closed by `OR` |
| Constraints.RewriteQueryFails | pyxnat/core/resources.py:2091-2120 | `rewrite_query` raises exactly when an item at any depth is neither list, tuple nor string |
| Constraints.RewriteQueryShape | pyxnat/core/resources.py:2091-2120 | a successful `rewrite_query` keeps the length, keeps strings in place, turns each tuple into its subject terms and each list into its rewriting |
| Constraints.RewriteQueryOnJoin | pyxnat/core/resources.py:2091-2120 | after a successful `rewrite_query` every tuple left, at any depth, is on the join field |
| Constraints.RewrittenDatatypes | pyxnat/core/resources.py:2069-2078 | after rewriting, every datatype a constraint list mentions is the join field's |
| Constraints.FlatDatatypes | pyxnat/core/resources.py:2069-2078 | a flat list of tuples lists the datatype of each tuple, in order |
| Selection.QueryWith | pyxnat/core/resources.py:2081-2088 | the subject search fails exactly when the rewriting does |
| Selection.QueryWithSearches | pyxnat/core/resources.py:2081-2088 | on success the result is the search for the return values over the join field's datatype with the rewritten constraints |
| Selection.SearchPopulation | pyxnat/core/resources.py:947-950 | one `<entry>/projects/<project>/subjects/<subject_id>` per search row, in order; KeyError exactly when a row lacks either cell |
| Selection.Intersect | pyxnat/core/resources.py:968-969 | the subjects of interest are exactly those both searched and listed, without repeats |
| Selection.ReplaceAtShape | pyxnat/core/resources.py:973-976 | rebasing puts the new collection at the walk's depth and changes nothing above it but the link below |
| Selection.RebasedYields | pyxnat/core/resources.py:973-976 | a rebased collection yields the handles of its subject URIs, in order, and raises nothing |
| Selection.WhereRebasesAncestor | pyxnat/core/resources.py:938-976 | after a successful `where` the ancestor is rebased onto every subject found (pattern `*`) or onto those it lists by `ID`, and the collections above keep all but their link |
| Selection.WhereListingFails | pyxnat/core/resources.py:964-969 | when the ancestor's listing by `ID` raises, `where` raises it and leaves that ancestor with the header `ID` |
| Fetch.Tick | pyxnat/core/resources.py:570-572 | the tick holds exactly when automatic learning is on and the seconds are a multiple of the interval; a zero interval raises |
| Fetch.QueryStringReadsBack | pyxnat/core/resources.py:586-610 | the query string splits on `&` into the JSON format, the comma-joined columns and one `key=value` term per filter in order (lists comma-joined), and the columns split back |
| Fetch.RowShape | pyxnat/core/resources.py:630-633 | a row teaches `uri_shape` of its URI after the entry point, with every occurrence of the text of its next-to-last segment replaced by the node type (`str.replace`); a row without a URI cell raises AttributeError (`None.split`), an URI not holding the entry point raises IndexError, and one with fewer than two segments raises |
| Fetch.LearnedSucceeds | pyxnat/core/resources.py:629-635 | learning from a table succeeds exactly when every row has a shape |
| Fetch.LearnedKeys | pyxnat/core/resources.py:629-635 | the shapes learned are exactly those of the rows |
| Fetch.LearnedKey | pyxnat/core/resources.py:629-635 | one shape is learned exactly when some row of the table has it |
| Fetch.LearnedLastWins | pyxnat/core/resources.py:629-635 | each shape maps to the xsi type of the last row with that shape |
| Fetch.LearnedStops | pyxnat/core/resources.py:629-635 | once a row raises, learning the table raises that exception |
| Fetch.LearnKeepsAndRepeats | pyxnat/core/resources.py:637-644 | learning keeps every shape known before with its value unless the table taught it, overrides with what the table taught, touches no other structure file, merges the file into the in-memory structure (`struct.update`), and learning the same table again changes nothing |
| Fetch.Interface.LearnFromTable | pyxnat/core/resources.py:626-644 | the learning loop leaves the structure and the files as the merge specifies, and everything as it was when a row raises |
| Fetch.CallAsksAndLearns | pyxnat/core/resources.py:556-624 | a listing asks for `xsiType` exactly when its node is gatherable and its structure file is missing or the clock ticks; the store changes only by learning from the answer; every exception yields `[]` |
| Fetch.Call | pyxnat/core/resources.py:556-624 | `_call` returns the listed rows and leaves the store as the listing specification says |
| Handles.SelectRow | pyxnat/core/resources.py:195-196 | the first row whose id or label cell is the element's name, or none when no row is |
| Handles.GetCells | pyxnat/core/resources.py:166-200 | KeyError exactly for an unknown type; otherwise nothing when no row is the element's, else the first such row's cell for one column or that row for several |
| Handles.TriggerOptionsReadBack | pyxnat/core/resources.py:1423-1432 | nothing is sent exactly when every option is off; otherwise the query after `?` splits on `&` into the chosen options in order |
| Handles.Trigger | pyxnat/core/resources.py:1411-1434 | the PUT is issued exactly when an option is on, at the URI followed by the option string |
| Handles.FirstLearned | pyxnat/core/resources.py:318-323 | the learned type of the first structure pattern matching the URI, or none when none matches |
| Handles.DatatypePrecedence | pyxnat/core/resources.py:314-326 | the parameter named after the node wins, then the first matching learned pattern (even one that learned no type), then the schema default |
| Handles.LocalKeys | pyxnat/core/resources.py:331-335 | the local parameters are exactly the given keys that are not resource types or `use_label` and that start with the datatype or hold no `/` |
| Handles.Without | pyxnat/core/resources.py:353-354 | deleting keys keeps exactly the parameters whose key is not among them |
| Handles.DeleteKeys | pyxnat/core/resources.py:353-354 | the deletion loop leaves exactly those parameters |
| Handles.CreateUriJoins | pyxnat/core/resources.py:337-350 | the create URI is `<uri>?` followed by its terms joined by `&`: the xsi type, `<dt>/ID=<last segment>` when `use_label` is set and no local ID is given, then one `key=value` per local parameter |
| Handles.CreateUriReadsBack | pyxnat/core/resources.py:337-350 | when no term holds `&`, the query of the create URI splits back into exactly those terms, in that order |
| Handles.PlanShape | pyxnat/core/resources.py:328-354 | without a datatype the URI is bare and every parameter goes on; with one the parameters handed on are exactly the non-local ones |
| Handles.PlanUri | pyxnat/core/resources.py:337-350 | with a datatype the create URI starts `<uri>?xsiType=<dt>`, is `<uri>?` and the create terms joined by `&`, and reads back into those terms when none holds `&` |
| Handles.MakePlan | pyxnat/core/resources.py:314-354 | the datatype choice, create URI and deletion loop give the planned URI and parameters |
| Handles.CreateFacts | pyxnat/core/resources.py:356-386 | a project never creates its parent, nor does an element whose parent exists (one PUT); a missing parent is created first with the parameters left over, its failure escapes unchanged, and on success its PUTs precede the element's own; a server error is answered with the required paths of its pairs |
| Handles.Create | pyxnat/core/resources.py:314-386 | `create` as written (plan, recurse into a missing parent, PUT) returns and issues what the specification says |
| Accessors.RscName | pyxnat/core/resources.py:90-92 | the schema node of a class is its lower-cased name, with `s` added when the schema lists it as singular |
| Accessors.AugmentClass | pyxnat/core/resources.py:88-119 | the metaclass adds the getters of every child of the class's node to the body, or raises KeyError for an unknown node |
| Accessors.AugmentedKeys | pyxnat/core/resources.py:94-97 | the table's names are the body's, every child, and every child with its trailing `s` stripped |
| Accessors.AugmentedCollection | pyxnat/core/resources.py:94-97 | a child name that no later child sets again holds its collection getter |
| Accessors.AugmentedElement | pyxnat/core/resources.py:94-97 | a stripped child name that no later child sets again holds its element getter |
| Accessors.AugmentedKeepsOwn | pyxnat/core/resources.py:94-97 | a body name that no child sets keeps the body's member |
| Accessors.ElementOfElement | pyxnat/core/resources.py:42-47 | `element.<rsc>(ID)` is the element at `join_uri(uri, rsc + 's', ID)`; KeyError exactly when no element class has that name |
| Accessors.CollectionOfElement | pyxnat/core/resources.py:66-73 | `element.<rsc>(id_filter)` is the collection listed at `join_uri(uri, rsc)` with that filter and the header `ID` |
| Accessors.CollectionOfCollection | pyxnat/core/resources.py:77-84 | `collection.<rsc>()` exists exactly when a collection class has that name |
| Accessors.CollectionOfCollectionYields | pyxnat/core/resources.py:77-84 | it yields the `<rsc>` collection under each of this collection's elements, with this collection's header and columns |
| Accessors.ElementOfCollectionYields | pyxnat/core/resources.py:51-62 | `collection.<rsc>(ID)` yields, for each element in order, the element `ID` among its `<rsc>s` |
| Glob.StarMatchesAll | pyxnat/core/resources.py:504-505 | the default pattern `*` lets every identifier through |
| Glob.LiteralMatchesItself | pyxnat/core/resources.py:658 | a pattern without wildcards keeps exactly the identifier equal to it |
| Glob.PrefixStar | pyxnat/core/resources.py:658 | a `P*` pattern keeps exactly the identifiers that start with `P` |
| Text.AfterFirst | pyxnat/core/resources.py:631 | `s.split(sep, 1)[1]` is the text after the first occurrence; ValueError for an empty separator and IndexError when it does not occur |
| Text.SplitJoin | pyxnat/core/resources.py:586 | splitting a join of separator-free parts gives the parts back |
| Text.RStrip | pyxnat/core/resources.py:94-96 | `rstrip` drops exactly the trailing run of the character |

## Left out

- Transport: `_get_json`, `_exec`, `_get_head` and `_connect` are inputs. Iteration reads the
  table of each listing through `Env.fetch`. The `Fetch` module models `_call` on its own,
  with the server as a function. The proofs do not connect the two: iteration does not see
  the `xsiType` column or the store changes that a learning listing makes.
- `Fetch.Call`: the exception swallowing at :621-624 is modelled with `DEBUG` off. Every
  failure inside `_call`, including transport faults, returns `[]`.
- Cache directory and clock: structure files are a map, `md5name`, the `_*` removal and
  `os.path.join` are one input function, `json.load`/`dump` are map reads and writes, and the
  clock is its seconds.
- `create(xml=...)`, `xpath` and custom variables (lxml) are left out.
- Zip and file transfer are left out: `Resource.get/put/put_zip/put_dir` and the `File`
  methods.
- Callbacks (`_run_callback`), `tag`/`untag` and the KeyboardInterrupt reconnect paths are
  left out. The `RuntimeError` catch around each nested yield only concerns a consumer
  throwing into the generator, so it is left out as well.
- The metaclass mechanism is left out. Only the table it builds and what its getters return
  are modelled.
- `urllib` quoting and the `uriutil` helpers are uninterpreted functions with no laws.
- `Glob.Matches`: `fnmatch` is modelled with `*` and `?` only. Character classes `[...]` are
  not modelled.
- `Resource.datatype` (:1657-1660) is broken code and is not modelled.
- Aliasing: `where` rewrites the ancestor inside this object's chain of collection values.
  Other holders of the same ancestor object do not see the change.
- `Constraints.RewriteLeaf`, `Selection.QueryWith`: the subject lookup inside `rewrite_query`
  (`select(...).where(...)` and `['subject_id']`, :2103-2108) and the final subject search
  (:2088) are total inputs. An exception either of them raises in the source, which
  `rewrite_query`, `query_with` and `where` pass on, is not modelled.
- `Selection.Intersect`: `set(...).intersection(...)` has no defined order. The model lists
  the subjects of interest in search order.
- Element handles are modelled as their URIs. The class an element is built with (the
  `globals().get(...)` lookups at :659-661 and :689-690) is not modelled. The lookup that
  opens a nested collection is modelled (TypeError when the name is no collection class).
- `CObjects.IterValue`, `CObjects.IterItem` and `Collections.ElementListNests`: a list of
  elements with nesting opens each nested level with the intended `nested.title()` class, not
  the `nested.rstrip('s').title()` of the code (see Findings). The as-written lookup is kept in
  `Collections.ElemItemPassAsWritten`, which raises TypeError at the first element.
- `CObjects.IterItem`: a later item of a list base that is not of the first item's kind raises
  TypeError in the model. Python does something different in each branch:
  - in a list of URIs it calls `uri_nextlast` on the item (:688), and what that raises for a
    non-string is not modelled;
  - in a list of elements without nesting it yields the item unchanged (:716-720), so
    `[element u, string s]` yields `u` and then `s`, where the model yields `u` and raises;
    with nesting it reads the item's `_uri`;
  - in a list of collections it iterates the item (`for eobj in cobj`, :762), for a string its
    characters.
- `_getcells` query building (:165-193) is not modelled: the column set, the filters from the
  learned structure, and `get_selection` for several columns (which returns the row).
- `Handles.ChooseDatatype`: a non-string value under the node's name is rendered with `%s`.
  The source would fail in `param.startswith(datatype)`.
- `Handles.Create`: `fuel` bounds the parent recursion and ends in `RecursionLimit`. It
  stands for Python's recursion limit.
- `Handles.Create`: `exists()` and `inspect.schemas.look_for` are inputs, and so is the XNAT
  error parsing, which gives the (datatype, element) pairs. The parent handle that
  `select(uri_grandparent(...))` builds is taken to be the element at the grandparent URI
  (`ElementUri(grandparent(uri))`); the class lookup inside `select` is not modelled.
- `_call` appends `xsiType` to its `columns` argument in place. Every caller passes a fresh
  list, so the model returns the extended columns instead.
- `Accessors.CollectionOfElement` and `Accessors.CollectionOfCollection`: a name that is an
  element class or another global rather than a collection class is reported as KeyError.
- `Accessors.ElementOfCollection`: every element of the collection is listed before the
  result is built, as the list comprehension does. An exception in that listing escapes.

## Findings

| source | as written | input that shows it | evidently intended | confidence | as-written member | corrected member |
|---|---|---|---|---|---|---|
| pyxnat/core/resources.py:722-723 | the `cobjecteobjects` branch opens a nested level with the class `nested.rstrip('s').title()`, an element class, whose constructor takes no `cbase` | a list of experiments with `nested='scans'`: `Scan(cbase=..., ...)` raises TypeError at the first element | `nested.title()`, as in the other four branches, listing the scans under each element (proved by `Collections.ElementListNests`) | not executed | Collections.EObjectsNestingAsWrittenFails | Collections.ElemItemPass |
