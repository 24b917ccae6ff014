/**
 * Collections of element resources (`CObject` in resources.py) as values: the five base shapes,
 * the classification done at construction, and the iteration protocol as a function from the
 * tables the server lists to the sequence of element URIs a pass yields.
 */
module Collections {
  import opened Results
  import opened Xnat
  import Text
  import Glob

  /** The `_ctype` tags. */
  datatype CType = CUri | CEUris | CEObjects | CCObject | CCObjects | CEmpty

  /**
   * A Python list item of a collection base: a URI string, an element handle (kept as its URI),
   * a collection, or any other object.
   */
  datatype Item = IStr(s: string) | IElem(uri: string) | IColl(c: CollVal) | IOther

  /** The `cbase` argument: a URI template string, a collection, a list, or any other object. */
  datatype Base = BStr(s: string) | BColl(c: CollVal) | BList(items: seq<Item>) | BOther

  /** The attributes of a collection object. `ctype` is `None` when `__init__` never set it. */
  datatype CollVal = CollVal(
    cbase: Base,
    ctype: Option<CType>,
    pattern: string,
    nested: Option<string>,
    idHeader: string,
    columns: seq<string>,
    filters: Filters)

  /**
   * The tag `__init__` gives a base. A non-empty list is tagged by its first item; a first item
   * of no known kind leaves the tag unset.
   */
  function Classify(b: Base): (r: Result<Option<CType>, Error>)
    ensures r == Ok(Some(CUri)) <==> b.BStr?
    ensures r == Ok(Some(CCObject)) <==> b.BColl?
    ensures r == Ok(Some(CEmpty)) <==> b == BList([])
    ensures r == Ok(Some(CEUris)) <==> b.BList? && b.items != [] && b.items[0].IStr?
    ensures r == Ok(Some(CEObjects)) <==> b.BList? && b.items != [] && b.items[0].IElem?
    ensures r == Ok(Some(CCObjects)) <==> b.BList? && b.items != [] && b.items[0].IColl?
    ensures r == Ok(None) <==> b.BList? && b.items != [] && b.items[0].IOther?
    ensures r.Err? <==> b.BOther?
    ensures r.Err? ==> r.error == InvalidCollectionBase
  {
    match b
    case BStr(_) => Ok(Some(CUri))
    case BColl(_) => Ok(Some(CCObject))
    case BList(items) =>
      if items == [] then Ok(Some(CEmpty))
      else (
        match items[0]
        case IStr(_) => Ok(Some(CEUris))
        case IElem(_) => Ok(Some(CEObjects))
        case IColl(_) => Ok(Some(CCObjects))
        case IOther => Ok(None))
    case BOther => Err(InvalidCollectionBase)
  }

  /** `CObject(cbase, interface, pattern, nested, id_header, columns, filters)`. */
  function Make(b: Base, pattern: string, nested: Option<string>, idHeader: string,
                columns: seq<string>, filters: Filters): (r: Result<CollVal, Error>)
    ensures r.Ok? <==> !b.BOther?
    ensures r.Ok? ==> r.value.cbase == b && Classify(b) == Ok(r.value.ctype)
  {
    match Classify(b)
    case Err(e) => Err(e)
    case Ok(t) => Ok(CollVal(b, t, pattern, nested, idHeader, columns, filters))
  }

  /** A collection built with every default but its base: pattern `*`, no nesting, `ID`. */
  function Plain(b: Base): Result<CollVal, Error>
  {
    Make(b, "*", None, "ID", [], [])
  }

  /** What one listing of a URI template asks of the server. */
  datatype Request = Request(base: string, columns: seq<string>, filters: Filters)

  /**
   * Everything a pass reads: the URI helpers, the schema, and the table the server answers for
   * each listing request (the transport, its faults and the learning side effects are modelled
   * by the Fetch module).
   */
  datatype Env = Env(ops: UriOps, schema: Schema, fetch: Request -> seq<Row>)

  /**
   * One iteration pass: the element URIs yielded, in order, and the exception that ended the
   * pass early, if one did. A consumer that stops after the first element never sees a later
   * exception.
   */
  datatype Pass = Pass(elems: seq<string>, failure: Option<Error>)

  const Done := Pass([], None)

  function Fail(e: Error): Pass
  {
    Pass([], Some(e))
  }

  /** `p` followed by `q`: nothing of `q` happens once `p` has raised. */
  function Then(p: Pass, q: Pass): Pass
  {
    if p.failure.Some? then p else Pass(p.elems + q.elems, q.failure)
  }

  /** The passes of a sequence of collections, one after the other. */
  function Flatten(ps: seq<Pass>): Pass
  {
    if ps == [] then Done else Then(Flatten(ps[..|ps| - 1]), ps[|ps| - 1])
  }

  /** Flattening passes that all finish yields their elements concatenated. */
  lemma {:induction false} FlattenFinished(ps: seq<Pass>)
    requires forall k :: 0 <= k < |ps| ==> ps[k].failure.None?
    ensures Flatten(ps).failure.None?
    ensures |ps| > 0 ==> Flatten(ps).elems == Flatten(ps[..|ps| - 1]).elems + ps[|ps| - 1].elems
  {
    if ps != [] {
      FlattenFinished(ps[..|ps| - 1]);
    }
  }

  /**
   * The column holding each row's identifier: the schema's id field for `ID`, its label field
   * for `label`, and the header itself otherwise. The schema is keyed by the template's last
   * segment.
   */
  function IdColumn(env: Env, base: string, idHeader: string): (r: Result<string, Error>)
    ensures idHeader != "ID" && idHeader != "label" ==> r == Ok(idHeader)
    ensures (idHeader == "ID" || idHeader == "label") ==>
              (r.Ok? <==> env.ops.last(base) in env.schema.fields)
    ensures r.Ok? && idHeader == "ID" ==> r.value == env.schema.fields[env.ops.last(base)].0
    ensures r.Ok? && idHeader == "label" ==> r.value == env.schema.fields[env.ops.last(base)].1
  {
    if idHeader == "ID" || idHeader == "label" then
      var node := env.ops.last(base);
      if node in env.schema.fields then
        Ok(if idHeader == "ID" then env.schema.fields[node].0 else env.schema.fields[node].1)
      else Err(KeyError(node))
    else Ok(idHeader)
  }

  function NestRank(nested: Option<string>): nat
  {
    if nested.Some? then 1 else 0
  }

  /**
   * The pass over a URI template `base` (the `cobjectcuri` branch of `__iter__`). The identifier
   * column is chosen from `idHeader` before the listing; `late` is the header a nested level
   * reads once an element has been yielded (`get` changes it between yields).
   */
  function UriPass(env: Env, base: string, pattern: string, nested: Option<string>,
                   idHeader: string, late: string, columns: seq<string>, filters: Filters): Pass
    decreases NestRank(nested), 3, 0
  {
    match IdColumn(env, base, idHeader)
    case Err(e) => Fail(e)
    case Ok(col) =>
      var rows := env.fetch(Request(base, [col] + columns, filters));
      RowsPass(env, base, rows, col, pattern, nested, idHeader, late, columns)
  }

  /** The header a nested level opened after `p` reads. */
  function HeaderFor(p: Pass, idHeader: string, late: string): string
  {
    if |p.elems| > 0 then late else idHeader
  }

  /** The rows of a listing, one after the other. */
  function RowsPass(env: Env, base: string, rows: seq<Row>, col: string, pattern: string,
                    nested: Option<string>, idHeader: string, late: string, columns: seq<string>): Pass
    decreases NestRank(nested), 2, |rows|
  {
    if rows == [] then Done
    else
      var before := RowsPass(env, base, rows[..|rows| - 1], col, pattern, nested, idHeader, late, columns);
      Then(before, RowPass(env, base, rows[|rows| - 1], col, pattern, nested, HeaderFor(before, idHeader, late), columns))
  }

  /**
   * One row: a missing identifier cell raises KeyError; an identifier that does not match the
   * pattern yields nothing; otherwise the element at `join_uri(base, id)` is yielded, or, with
   * nesting, replaced by its nested collection's elements, listed with `header`.
   */
  function RowPass(env: Env, base: string, row: Row, col: string, pattern: string,
                   nested: Option<string>, header: string, columns: seq<string>): Pass
    decreases NestRank(nested), 1, 0
  {
    if col !in row then Fail(KeyError(col))
    else
      var eid := env.ops.unquote(row[col]);
      if !Glob.Matches(eid, pattern) then Done
      else
        var e := ElementUri(env.ops, env.ops.join(base, [eid]));
        if nested.None? then Pass([e], None)
        else SubPass(env, e, nested, pattern, header, columns)
  }

  /**
   * The nested collection of one parent element: `Klass(cbase=join_uri(parent, nested), ...)`
   * where `Klass` is the collection class named `nested.title()`. A nested name that is unset
   * raises AttributeError; one that names no collection class raises TypeError.
   */
  function SubPass(env: Env, parent: string, nested: Option<string>, pattern: string,
                   header: string, columns: seq<string>): Pass
    decreases 1, 0, 0
  {
    if nested.None? then Fail(AttributeError("_nested"))
    else if Text.Title(nested.value) !in CollectionClasses then Fail(TypeError(Text.Title(nested.value)))
    else UriPass(env, env.ops.join(parent, [nested.value]), pattern, None, header, header, columns, [])
  }

  /** Every parent replaced by its nested collection's elements. */
  function NestAll(env: Env, parents: seq<string>, nested: Option<string>, pattern: string,
                   idHeader: string, late: string, columns: seq<string>): Pass
  {
    if parents == [] then Done
    else
      var before := NestAll(env, parents[..|parents| - 1], nested, pattern, idHeader, late, columns);
      Then(before, SubPass(env, parents[|parents| - 1], nested, pattern, HeaderFor(before, idHeader, late), columns))
  }

  /**
   * The elements of a base pass `p`, as a collection with nesting `ownNested` yields them:
   * unchanged without nesting; otherwise each replaced by the collection named `subNested`
   * under it, and the base's own exception, if any, raised after the last of them.
   */
  function Nest(env: Env, p: Pass, ownNested: Option<string>, subNested: Option<string>,
                pattern: string, idHeader: string, late: string, columns: seq<string>): Pass
  {
    if ownNested.None? then p
    else Then(NestAll(env, p.elems, subNested, pattern, idHeader, late, columns), Pass([], p.failure))
  }

  /** One URI of a `cobjecteuris` base. */
  function UriItemPass(env: Env, cv: CollVal, it: Item, header: string): Pass
  {
    if !it.IStr? then Fail(TypeError("uri"))
    else
      var e := ElementUri(env.ops, it.s);
      if cv.nested.None? then Pass([e], None)
      else SubPass(env, e, cv.nested, cv.pattern, header, cv.columns)
  }

  /** One element of a `cobjecteobjects` base. */
  function ElemItemPass(env: Env, cv: CollVal, it: Item, header: string): Pass
  {
    if !it.IElem? then Fail(TypeError("eobject"))
    else if cv.nested.None? then Pass([it.uri], None)
    else SubPass(env, it.uri, cv.nested, cv.pattern, header, cv.columns)
  }

  /** The pass a collection yields (`CObject.__iter__`) while its header stays as it is. */
  function Elements(env: Env, cv: CollVal): Pass
    decreases cv, 2, 0
  {
    PassWith(env, cv, cv.idHeader)
  }

  /** The pass a collection yields when its header becomes `late` after the first yield. */
  function PassWith(env: Env, cv: CollVal, late: string): Pass
    decreases cv, 1, 0
  {
    match cv.ctype
    case None => Fail(AttributeError("_ctype"))
    case Some(CEmpty) => Done
    case Some(CUri) =>
      if cv.cbase.BStr? then
        UriPass(env, cv.cbase.s, cv.pattern, cv.nested, cv.idHeader, late, cv.columns, cv.filters)
      else Fail(TypeError("cbase"))
    case Some(CCObject) =>
      if cv.cbase.BColl? then
        Nest(env, Elements(env, cv.cbase.c), cv.nested, cv.nested, cv.pattern, cv.idHeader, late, cv.columns)
      else Fail(TypeError("cbase"))
    case Some(_) =>
      if cv.cbase.BList? then ItemsPass(env, cv, late, |cv.cbase.items|) else Fail(TypeError("cbase"))
  }

  /** One item of a list base, given the header a nested level would read. */
  function ItemPass(env: Env, cv: CollVal, it: Item, header: string): Pass
    requires cv.cbase.BList? && it in cv.cbase.items
    decreases cv, 0, 0
  {
    if cv.ctype == Some(CEUris) then UriItemPass(env, cv, it, header)
    else if cv.ctype == Some(CEObjects) then ElemItemPass(env, cv, it, header)
    else if !it.IColl? then Fail(TypeError("cobject"))
    else Nest(env, Elements(env, it.c), cv.nested, it.c.nested, it.c.pattern, it.c.idHeader, it.c.idHeader, it.c.columns)
  }

  /** The first `k` items of a list base, one after the other. */
  function ItemsPass(env: Env, cv: CollVal, late: string, k: nat): Pass
    requires cv.cbase.BList? && k <= |cv.cbase.items|
    decreases cv, 0, k + 1
  {
    if k == 0 then Done
    else
      var before := ItemsPass(env, cv, late, k - 1);
      Then(before, ItemPass(env, cv, cv.cbase.items[k - 1], HeaderFor(before, cv.idHeader, late)))
  }

  // ---------------------------------------------------------------------------------------
  // What a pass yields, base by base

  /** The elements listed for the rows of a template, in row order. */
  function Listed(env: Env, base: string, rows: seq<Row>, col: string, pattern: string): seq<string>
    requires forall k :: 0 <= k < |rows| ==> col in rows[k]
  {
    if rows == [] then []
    else
      var eid := env.ops.unquote(rows[0][col]);
      (if Glob.Matches(eid, pattern) then [ElementUri(env.ops, env.ops.join(base, [eid]))] else [])
      + Listed(env, base, rows[1..], col, pattern)
  }

  lemma {:induction false} ListedSnoc(env: Env, base: string, rows: seq<Row>, col: string, pattern: string)
    requires rows != []
    requires forall k :: 0 <= k < |rows| ==> col in rows[k]
    ensures var eid := env.ops.unquote(rows[|rows| - 1][col]);
            Listed(env, base, rows, col, pattern)
            == Listed(env, base, rows[..|rows| - 1], col, pattern)
               + (if Glob.Matches(eid, pattern) then [ElementUri(env.ops, env.ops.join(base, [eid]))] else [])
  {
    if |rows| > 1 {
      ListedSnoc(env, base, rows[1..], col, pattern);
      assert rows[1..][..|rows| - 2] == rows[..|rows| - 1][1..];
    }
  }

  /**
   * Without nesting, a template yields one element at `join_uri(base, id)` for each row whose
   * unquoted identifier matches the pattern, in row order, and none for other rows.
   */
  lemma {:induction false} TemplateYieldsMatchingRows(env: Env, base: string, rows: seq<Row>, col: string,
                                                      pattern: string, idHeader: string, late: string,
                                                      columns: seq<string>)
    requires forall k :: 0 <= k < |rows| ==> col in rows[k]
    ensures RowsPass(env, base, rows, col, pattern, None, idHeader, late, columns)
            == Pass(Listed(env, base, rows, col, pattern), None)
  {
    if rows != [] {
      TemplateYieldsMatchingRows(env, base, rows[..|rows| - 1], col, pattern, idHeader, late, columns);
      ListedSnoc(env, base, rows, col, pattern);
    }
  }

  /** With the default pattern `*`, every row yields its element. */
  lemma {:induction false} StarListsEveryRow(env: Env, base: string, rows: seq<Row>, col: string)
    requires forall k :: 0 <= k < |rows| ==> col in rows[k]
    ensures var l := Listed(env, base, rows, col, "*");
            |l| == |rows| &&
            forall k :: 0 <= k < |rows| ==>
              l[k] == ElementUri(env.ops, env.ops.join(base, [env.ops.unquote(rows[k][col])]))
  {
    if rows != [] {
      Glob.StarMatchesAll(env.ops.unquote(rows[0][col]));
      StarListsEveryRow(env, base, rows[1..], col);
    }
  }

  /** A row without the identifier column stops the pass with KeyError, after the rows before it. */
  lemma {:induction false} MissingCellStops(env: Env, base: string, rows: seq<Row>, col: string,
                                            pattern: string, idHeader: string, late: string,
                                            columns: seq<string>, k: nat)
    requires k < |rows| && col !in rows[k]
    requires forall j :: 0 <= j < k ==> col in rows[j]
    ensures RowsPass(env, base, rows, col, pattern, None, idHeader, late, columns)
            == Pass(Listed(env, base, rows[..k], col, pattern), Some(KeyError(col)))
  {
    if |rows| == k + 1 {
      assert rows[..|rows| - 1] == rows[..k];
      TemplateYieldsMatchingRows(env, base, rows[..k], col, pattern, idHeader, late, columns);
    } else {
      MissingCellStops(env, base, rows[..|rows| - 1], col, pattern, idHeader, late, columns, k);
      assert rows[..|rows| - 1][..k] == rows[..k];
    }
  }

  /** A list of URIs, without nesting, yields one element per URI, in order. */
  lemma {:induction false} UriListYieldsItsUris(env: Env, cv: CollVal, late: string, k: nat)
    requires cv.cbase.BList? && cv.ctype == Some(CEUris) && cv.nested.None?
    requires k <= |cv.cbase.items|
    requires forall j :: 0 <= j < |cv.cbase.items| ==> cv.cbase.items[j].IStr?
    ensures ItemsPass(env, cv, late, k).failure.None?
    ensures |ItemsPass(env, cv, late, k).elems| == k
    ensures forall j :: 0 <= j < k ==>
              ItemsPass(env, cv, late, k).elems[j] == ElementUri(env.ops, cv.cbase.items[j].s)
  {
    if k > 0 {
      UriListYieldsItsUris(env, cv, late, k - 1);
    }
  }

  /** A list of elements, without nesting, yields exactly that list, in order. */
  lemma {:induction false} ElementListYieldsItself(env: Env, cv: CollVal, late: string, k: nat)
    requires cv.cbase.BList? && cv.ctype == Some(CEObjects) && cv.nested.None?
    requires k <= |cv.cbase.items|
    requires forall j :: 0 <= j < |cv.cbase.items| ==> cv.cbase.items[j].IElem?
    ensures ItemsPass(env, cv, late, k) == Pass(seq(k, j requires 0 <= j < k => cv.cbase.items[j].uri), None)
  {
    if k > 0 {
      ElementListYieldsItself(env, cv, late, k - 1);
    }
  }

  /** A collection built on `[]` yields nothing, whatever the server holds. */
  lemma EmptyYieldsNothing(env: Env, pattern: string, nested: Option<string>, idHeader: string,
                           columns: seq<string>, filters: Filters)
    ensures Make(BList([]), pattern, nested, idHeader, columns, filters).Ok?
    ensures Elements(env, Make(BList([]), pattern, nested, idHeader, columns, filters).value) == Done
  {
  }

  /** A list of collections, without nesting, yields their passes one after the other. */
  lemma {:induction false} CollectionListConcatenates(env: Env, cv: CollVal, late: string, k: nat)
    requires cv.cbase.BList? && cv.ctype == Some(CCObjects) && cv.nested.None?
    requires k <= |cv.cbase.items|
    requires forall j :: 0 <= j < |cv.cbase.items| ==> cv.cbase.items[j].IColl?
    ensures ItemsPass(env, cv, late, k)
            == Flatten(seq(k, j requires 0 <= j < k => Elements(env, cv.cbase.items[j].c)))
  {
    if k > 0 {
      CollectionListConcatenates(env, cv, late, k - 1);
      var ps := seq(k, j requires 0 <= j < k => Elements(env, cv.cbase.items[j].c));
      assert ps[..k - 1] == seq(k - 1, j requires 0 <= j < k - 1 => Elements(env, cv.cbase.items[j].c));
    }
  }

  /** The listing of the collection named `nested` under one parent element. */
  function ChildPass(env: Env, parent: string, nested: string, pattern: string,
                     header: string, columns: seq<string>): Pass
  {
    UriPass(env, env.ops.join(parent, [nested]), pattern, None, header, header, columns, [])
  }

  /**
   * Nesting replaces every parent by the elements of the collection at
   * `join_uri(parent, nested)`, listed with the same pattern, identifier header and columns.
   */
  lemma {:induction false} NestAllFlattens(env: Env, parents: seq<string>, nested: string, pattern: string,
                                           header: string, columns: seq<string>)
    requires Text.Title(nested) in CollectionClasses
    ensures NestAll(env, parents, Some(nested), pattern, header, header, columns)
            == Flatten(seq(|parents|, k requires 0 <= k < |parents| =>
                             ChildPass(env, parents[k], nested, pattern, header, columns)))
  {
    if parents != [] {
      var n := |parents|;
      NestAllFlattens(env, parents[..n - 1], nested, pattern, header, columns);
      var ps := seq(n, k requires 0 <= k < n => ChildPass(env, parents[k], nested, pattern, header, columns));
      assert ps[..n - 1] == seq(n - 1, k requires 0 <= k < n - 1 =>
                                   ChildPass(env, parents[..n - 1][k], nested, pattern, header, columns));
    }
  }

  /**
   * A collection built on another collection, with nesting, yields the nested collections of
   * the base's elements one after the other.
   */
  lemma NestedCollectionFlattens(env: Env, cv: CollVal)
    requires cv.ctype == Some(CCObject) && cv.cbase.BColl? && cv.nested.Some?
    requires Text.Title(cv.nested.value) in CollectionClasses
    requires Elements(env, cv.cbase.c).failure.None?
    ensures var parents := Elements(env, cv.cbase.c).elems;
            Elements(env, cv)
            == Flatten(seq(|parents|, k requires 0 <= k < |parents| =>
                             ChildPass(env, parents[k], cv.nested.value, cv.pattern, cv.idHeader, cv.columns)))
  {
    var parents := Elements(env, cv.cbase.c).elems;
    NestAllFlattens(env, parents, cv.nested.value, cv.pattern, cv.idHeader, cv.columns);
  }

  lemma {:induction false} RowsIgnoreLate(env: Env, base: string, rows: seq<Row>, col: string, pattern: string,
                                          idHeader: string, late: string, columns: seq<string>)
    ensures RowsPass(env, base, rows, col, pattern, None, idHeader, late, columns)
            == RowsPass(env, base, rows, col, pattern, None, idHeader, idHeader, columns)
  {
    if rows != [] {
      RowsIgnoreLate(env, base, rows[..|rows| - 1], col, pattern, idHeader, late, columns);
    }
  }

  lemma {:induction false} ItemsIgnoreLate(env: Env, cv: CollVal, late: string, k: nat)
    requires cv.cbase.BList? && k <= |cv.cbase.items|
    requires cv.nested.None? || cv.ctype == Some(CCObjects)
    ensures ItemsPass(env, cv, late, k) == ItemsPass(env, cv, cv.idHeader, k)
  {
    if k > 0 {
      ItemsIgnoreLate(env, cv, late, k - 1);
    }
  }

  /**
   * A header changed between yields matters only to a nested level the collection opens
   * itself: without nesting the pass is the same whatever the header becomes.
   */
  lemma LateHeaderNeedsNesting(env: Env, cv: CollVal, late: string)
    requires cv.nested.None?
    ensures PassWith(env, cv, late) == Elements(env, cv)
  {
    if cv.ctype == Some(CUri) && cv.cbase.BStr? {
      var r := IdColumn(env, cv.cbase.s, cv.idHeader);
      if r.Ok? {
        var rows := env.fetch(Request(cv.cbase.s, [r.value] + cv.columns, cv.filters));
        RowsIgnoreLate(env, cv.cbase.s, rows, r.value, cv.pattern, cv.idHeader, late, cv.columns);
      }
    } else if cv.cbase.BList? {
      ItemsIgnoreLate(env, cv, late, |cv.cbase.items|);
    }
  }

  // ---------------------------------------------------------------------------------------
  // The nested branch of a `cobjecteobjects` base, as resources.py writes it

  /**
   * The class the `cobjecteobjects` branch looks up for a nested level: `nested.rstrip('s')
   * .title()`, where the four other branches use `nested.title()`.
   */
  function EObjectsNestedClassAsWritten(nested: string): string
  {
    Text.Title(Text.RStrip(nested, 's'))
  }

  /** One element of a `cobjecteobjects` base with nesting, as written. */
  function ElemItemPassAsWritten(env: Env, cv: CollVal, it: Item, header: string): Pass
    requires it.IElem? && cv.nested.Some?
  {
    var klass := EObjectsNestedClassAsWritten(cv.nested.value);
    if klass !in CollectionClasses then Fail(TypeError(klass))
    else ChildPass(env, it.uri, cv.nested.value, cv.pattern, header, cv.columns)
  }

  lemma TitleScans()
    ensures Text.Title("scans") == "Scans"
    ensures Text.Title(Text.RStrip("scans", 's')) == "Scan"
  {
    assert Text.RStrip("scans", 's') == "scan" by {
      assert "scans"[..4] == "scan";
    }
    assert Text.TitleAfter("s", true) == "s";
    assert Text.TitleAfter("ns", true) == "ns";
    assert Text.TitleAfter("ans", true) == "ans";
    assert Text.TitleAfter("cans", true) == "cans";
    assert Text.TitleAfter("n", true) == "n";
    assert Text.TitleAfter("an", true) == "an";
    assert Text.TitleAfter("can", true) == "can";
  }

  /**
   * Nesting `scans` under a list of elements: as written the branch picks the element class
   * `Scan`, whose constructor takes no `cbase`, so the pass raises TypeError at the first
   * element; with `nested.title()` it lists the scans under that element.
   */
  lemma EObjectsNestingAsWrittenFails(env: Env, cv: CollVal, it: Item, header: string)
    requires it.IElem? && cv.nested == Some("scans")
    ensures EObjectsNestedClassAsWritten("scans") in ElementClasses
    ensures ElemItemPassAsWritten(env, cv, it, header) == Fail(TypeError("Scan"))
    ensures ElemItemPass(env, cv, it, header) == ChildPass(env, it.uri, "scans", cv.pattern, header, cv.columns)
  {
    TitleScans();
  }

  /**
   * With `nested.title()` as the class, a list of elements with nesting (and a header that
   * stays as it is) yields, element after element, the collection named `nested` under each.
   */
  lemma {:induction false} ElementListNests(env: Env, cv: CollVal, k: nat)
    requires cv.cbase.BList? && cv.ctype == Some(CEObjects) && cv.nested.Some?
    requires Text.Title(cv.nested.value) in CollectionClasses
    requires k <= |cv.cbase.items|
    requires forall j :: 0 <= j < |cv.cbase.items| ==> cv.cbase.items[j].IElem?
    ensures ItemsPass(env, cv, cv.idHeader, k)
            == Flatten(seq(k, j requires 0 <= j < k =>
                             ChildPass(env, cv.cbase.items[j].uri, cv.nested.value, cv.pattern, cv.idHeader, cv.columns)))
  {
    if k > 0 {
      ElementListNests(env, cv, k - 1);
      var ps := seq(k, j requires 0 <= j < k =>
                      ChildPass(env, cv.cbase.items[j].uri, cv.nested.value, cv.pattern, cv.idHeader, cv.columns));
      assert ps[..k - 1] == seq(k - 1, j requires 0 <= j < k - 1 =>
                                  ChildPass(env, cv.cbase.items[j].uri, cv.nested.value, cv.pattern, cv.idHeader, cv.columns));
    }
  }

  // ---------------------------------------------------------------------------------------
  // first() and get()

  /** `first()`: the first element, `None` for an empty pass, or the exception raised before it. */
  function FirstOf(p: Pass): (r: Result<Option<string>, Error>)
    ensures |p.elems| > 0 ==> r == Ok(Some(p.elems[0]))
    ensures |p.elems| == 0 ==> (r.Err? <==> p.failure.Some?)
    ensures |p.elems| == 0 && r.Ok? ==> r.value.None?
  {
    if |p.elems| > 0 then Ok(Some(p.elems[0]))
    else if p.failure.Some? then Err(p.failure.value)
    else Ok(None)
  }

  /** A field of a `get` entry: the element's unquoted last segment, or the element itself. */
  datatype Field = Name(s: string) | Object(uri: string)

  /** What `get(*args)` returns: identifiers, tuples, or the single requested column. */
  datatype Fetched = Identifiers(ids: seq<string>) | Entries(tuples: seq<seq<Field>>) | Column(values: seq<Field>)

  function Entry(ops: UriOps, e: string, args: seq<string>): seq<Field>
  {
    seq(|args|, j requires 0 <= j < |args| =>
      if args[j] == "id" || args[j] == "label" then Name(ops.unquote(ops.last(e))) else Object(e))
  }

  /** The result of `get(*args)` over the elements a pass yielded. */
  function Shaped(ops: UriOps, elems: seq<string>, args: seq<string>): Fetched
  {
    if args == [] then
      Identifiers(seq(|elems|, k requires 0 <= k < |elems| => ops.unquote(ops.last(elems[k]))))
    else
      var entries := seq(|elems|, k requires 0 <= k < |elems| => Entry(ops, elems[k], args));
      if |args| != 1 then Entries(entries)
      else Column(seq(|entries|, k requires 0 <= k < |entries| => entries[k][0]))
  }

  /** How many results `get` returned. */
  function Count(r: Fetched): nat
  {
    match r
    case Identifiers(ids) => |ids|
    case Entries(tuples) => |tuples|
    case Column(values) => |values|
  }

  /**
   * `get` returns one result per element, whatever its arguments: identifiers without
   * arguments, a column for one argument and tuples otherwise. The column for `id` or `label`
   * is the identifiers `get()` returns, the column for any other argument is the elements
   * themselves, and component `j` of every tuple is what the column for argument `j` holds.
   */
  lemma GetShapes(ops: UriOps, elems: seq<string>, args: seq<string>)
    ensures var r := Shaped(ops, elems, args);
            && (args == [] <==> r.Identifiers?)
            && (|args| == 1 <==> r.Column?)
            && Count(r) == |elems|
    ensures forall k :: 0 <= k < |elems| ==>
              Shaped(ops, elems, ["id"]).values[k] == Name(Shaped(ops, elems, []).ids[k]) &&
              Shaped(ops, elems, ["label"]).values[k] == Name(Shaped(ops, elems, []).ids[k])
    ensures forall a, k :: a != "id" && a != "label" && 0 <= k < |elems| ==>
              Shaped(ops, elems, [a]).values[k] == Object(elems[k])
    ensures var r := Shaped(ops, elems, args);
            r.Entries? ==>
              forall k, j :: 0 <= k < |elems| && 0 <= j < |args| ==>
                |r.tuples[k]| == |args| && r.tuples[k][j] == Shaped(ops, elems, [args[j]]).values[k]
  {
  }

  /** The identifier header a `get` argument selects, if it selects one. */
  function Marker(arg: string): Option<string>
  {
    if arg == "id" then Some("ID") else if arg == "label" then Some("label") else None
  }

  /** The identifier header after the argument loop of `get` ran over `args` once. */
  function HeaderAfter(h: string, args: seq<string>): string
  {
    if args == [] then h
    else
      var m := Marker(args[|args| - 1]);
      if m.Some? then m.value else HeaderAfter(h, args[..|args| - 1])
  }

  /** The header `get` leaves behind after visiting `n` elements. */
  function HeaderAfterGet(h: string, args: seq<string>, n: nat): string
  {
    if n == 0 then h else HeaderAfter(h, args)
  }

  /** Running the argument loop again changes nothing: the last `id`/`label` argument decides. */
  lemma {:induction false} HeaderAfterTwice(h: string, args: seq<string>)
    ensures HeaderAfter(HeaderAfter(h, args), args) == HeaderAfter(h, args)
    ensures (forall j :: 0 <= j < |args| ==> Marker(args[j]).None?) ==> HeaderAfter(h, args) == h
  {
    if args != [] {
      HeaderAfterTwice(h, args[..|args| - 1]);
      if Marker(args[|args| - 1]).None? {
        assert forall j :: 0 <= j < |args| - 1 ==> args[..|args| - 1][j] == args[j];
      }
    }
  }

  /** Once an `id` or `label` argument is present, the header before the loop does not matter. */
  lemma {:induction false} HeaderAfterForgets(h1: string, h2: string, args: seq<string>, j: nat)
    requires j < |args| && Marker(args[j]).Some?
    ensures HeaderAfter(h1, args) == HeaderAfter(h2, args)
  {
    if Marker(args[|args| - 1]).None? {
      assert args[..|args| - 1][j] == args[j];
      HeaderAfterForgets(h1, h2, args[..|args| - 1], j);
    }
  }

  /** The result of `get(*args)` and the identifier header the collection is left with. */
  function GetOutcome(env: Env, cv: CollVal, args: seq<string>): (Result<Fetched, Error>, string)
  {
    var p := PassWith(env, cv, HeaderAfter(cv.idHeader, args));
    var header := HeaderAfterGet(cv.idHeader, args, |p.elems|);
    (if p.failure.Some? then Err(p.failure.value) else Ok(Shaped(env.ops, p.elems, args)), header)
  }

  /**
   * `get` without arguments, or on a collection without nesting, reads the ordinary pass and
   * shapes its elements; it raises what the pass raises. Its header changes only when an
   * element was yielded and an argument was `id` or `label`, and then to the last such one.
   */
  lemma GetReadsThePass(env: Env, cv: CollVal, args: seq<string>)
    ensures args == [] || cv.nested.None? ==>
              var p := Elements(env, cv);
              GetOutcome(env, cv, args).0
              == (if p.failure.Some? then Err(p.failure.value) else Ok(Shaped(env.ops, p.elems, args)))
    ensures (forall j :: 0 <= j < |args| ==> Marker(args[j]).None?) ==> GetOutcome(env, cv, args).1 == cv.idHeader
    ensures var n := |PassWith(env, cv, HeaderAfter(cv.idHeader, args)).elems|;
            GetOutcome(env, cv, args).1 == (if n == 0 then cv.idHeader else HeaderAfter(cv.idHeader, args))
  {
    HeaderAfterTwice(cv.idHeader, args);
    if cv.nested.None? {
      LateHeaderNeedsNesting(env, cv, HeaderAfter(cv.idHeader, args));
    }
  }
}
