/**
 * What `CObject.where` does to a collection: the subject search it runs, the ancestor it walks
 * up to, and the rebasing of that ancestor onto the subjects the search returned.
 */
module Selection {
  import opened Results
  import opened Xnat
  import opened Collections
  import opened Constraints

  const JoinField := "xnat:subjectData/SUBJECT_ID"
  const CommonField := "SUBJECT_ID"
  const ReturnValues := ["xnat:subjectData/PROJECT", "xnat:subjectData/SUBJECT_ID"]

  /** The table `interface.select(datatype, columns).where(filter)` returns. */
  type Search = (string, seq<string>, seq<Constraint>) -> seq<Row>

  /** `query_with` on the subject join field: rewrite the constraints, then search subjects. */
  function QueryWith(lookup: Lookup, search: Search, filter: seq<Constraint>): (r: Result<seq<Row>, Error>)
    ensures r.Err? <==> HasBad(filter)
  {
    RewriteQueryFails(JoinField, CommonField, lookup, filter);
    match RewriteQuery(JoinField, CommonField, lookup, filter)
    case Err(e) => Err(e)
    case Ok(cls) => Ok(search(DatatypeOf(JoinField), ReturnValues, cls))
  }

  /**
   * A successful `query_with` is the subject search for the return values over the join
   * field's datatype, with the constraints rewritten onto the join field.
   */
  lemma QueryWithSearches(lookup: Lookup, search: Search, filter: seq<Constraint>)
    ensures var r := QueryWith(lookup, search, filter);
            r.Ok? ==> && RewriteQuery(JoinField, CommonField, lookup, filter).Ok?
                      && r.value == search(DatatypeOf(JoinField), ReturnValues,
                                           RewriteQuery(JoinField, CommonField, lookup, filter).value)
  {
  }

  /** The subject URI of a search row. */
  function SubjectUri(entry: string, row: Row): string
    requires "project" in row && "subject_id" in row
  {
    entry + "/projects/" + row["project"] + "/subjects/" + row["subject_id"]
  }

  /**
   * The subject URIs of a search table, in table order; a row without its project or subject
   * cell raises KeyError.
   */
  function SearchPopulation(entry: string, rows: seq<Row>): (r: Result<seq<string>, Error>)
    ensures r.Ok? <==> forall k :: 0 <= k < |rows| ==> "project" in rows[k] && "subject_id" in rows[k]
    ensures r.Ok? ==> |r.value| == |rows| &&
                      forall k :: 0 <= k < |rows| ==> r.value[k] == SubjectUri(entry, rows[k])
    ensures r.Err? ==> r.error.KeyError?
  {
    if rows == [] then Ok([])
    else
      var row := rows[|rows| - 1];
      match SearchPopulation(entry, rows[..|rows| - 1])
      case Err(e) => Err(e)
      case Ok(front) =>
        if "project" !in row then Err(KeyError("project"))
        else if "subject_id" !in row then Err(KeyError("subject_id"))
        else Ok(front + [SubjectUri(entry, row)])
  }

  /** The collection `d` levels down the `cbase` chain, if the chain is that long. */
  function AncestorAt(cv: CollVal, d: nat): Option<CollVal>
  {
    if d == 0 then Some(cv)
    else if cv.cbase.BColl? then AncestorAt(cv.cbase.c, d - 1)
    else None
  }

  /**
   * The walk of `where` up the `cbase` chain: it stops at a collection that yields nothing or
   * whose first element sits under `subjects`, and raises AttributeError when it would climb
   * past a collection not built on another one.
   */
  function Climb(env: Env, cv: CollVal): (r: Result<nat, Error>)
    ensures r.Ok? ==> AncestorAt(cv, r.value).Some?
    decreases cv
  {
    match FirstOf(Elements(env, cv))
    case Err(e) => Err(e)
    case Ok(None) => Ok(0)
    case Ok(Some(f)) =>
      if env.ops.nextlast(f) == "subjects" then Ok(0)
      else if !cv.cbase.BColl? then Err(AttributeError("first"))
      else
        match Climb(env, cv.cbase.c)
        case Err(e) => Err(e)
        case Ok(d) => Ok(d + 1)
  }

  /** The ancestor found by the walk stops it: it is empty or its first element is a subject's child. */
  lemma {:induction false} ClimbStopsAtSubjects(env: Env, cv: CollVal)
    requires Climb(env, cv).Ok?
    ensures var a := AncestorAt(cv, Climb(env, cv).value).value;
            var f := FirstOf(Elements(env, a));
            f.Ok? && (f.value.None? || env.ops.nextlast(f.value.value) == "subjects")
    decreases cv
  {
    var f := FirstOf(Elements(env, cv));
    if f.Ok? && f.value.Some? && env.ops.nextlast(f.value.value) != "subjects" {
      ClimbStopsAtSubjects(env, cv.cbase.c);
    }
  }

  /** `cv` with the collection `d` levels down replaced by `a`. */
  function ReplaceAt(cv: CollVal, d: nat, a: CollVal): CollVal
    requires AncestorAt(cv, d).Some?
  {
    if d == 0 then a else cv.(cbase := BColl(ReplaceAt(cv.cbase.c, d - 1, a)))
  }

  /**
   * Replacing an ancestor puts `a` at that depth and changes nothing in the collections above
   * it but the link to the one below.
   */
  lemma {:induction false} ReplaceAtShape(cv: CollVal, d: nat, a: CollVal, j: nat)
    requires AncestorAt(cv, d).Some?
    ensures AncestorAt(ReplaceAt(cv, d, a), d) == Some(a)
    ensures j <= d ==> AncestorAt(cv, j).Some?
    ensures j < d ==> AncestorAt(ReplaceAt(cv, d, a), j).Some? &&
                      AncestorAt(ReplaceAt(cv, d, a), j).value.(cbase := BOther)
                      == AncestorAt(cv, j).value.(cbase := BOther)
  {
    if d > 0 {
      if j > 0 {
        ReplaceAtShape(cv.cbase.c, d - 1, a, j - 1);
      } else {
        ReplaceAtShape(cv.cbase.c, d - 1, a, 0);
      }
    }
  }

  /**
   * `set(pop).intersection(elems)`, listed in the order of `pop`; the Python set has no
   * defined order.
   */
  function Intersect(pop: seq<string>, elems: seq<string>): (r: seq<string>)
    ensures forall x :: x in r <==> x in pop && x in elems
    ensures forall i, j :: 0 <= i < j < |r| ==> r[i] != r[j]
  {
    if pop == [] then []
    else
      var front := Intersect(pop[..|pop| - 1], elems);
      var x := pop[|pop| - 1];
      if x in elems && x !in front then front + [x] else front
  }

  /**
   * The subjects of interest: the whole population for the pattern `*`, otherwise those the
   * ancestor yields when listed by `ID`; an exception of that listing escapes.
   */
  function Narrowed(env: Env, a: CollVal, pop: seq<string>): Result<seq<string>, Error>
  {
    if a.pattern != "*" then
      var p := Elements(env, a.(idHeader := "ID"));
      if p.failure.Some? then Err(p.failure.value) else Ok(Intersect(pop, p.elems))
    else Ok(pop)
  }

  /** The ancestor rebased onto a URI list, without nesting, its header untouched. */
  function Rebased(a: CollVal, poi: seq<string>): CollVal
  {
    a.(cbase := BList(seq(|poi|, k requires 0 <= k < |poi| => IStr(poi[k]))), ctype := Some(CEUris), nested := None)
  }

  /** The exception `where` raises, if any, and the collection it leaves behind. */
  datatype Outcome = Outcome(result: Result<(), Error>, after: CollVal)

  /** `where(constraints, template, query)` on the collection `cv`. */
  function WhereOutcome(env: Env, parsers: Parsers, constraints: Arg, template: Arg, query: Arg,
                        lookup: Lookup, search: Search, entry: string, cv: CollVal): Outcome
  {
    match NormalizeWhere(parsers, constraints, template, query)
    case Err(e) => Outcome(Err(e), cv)
    case Ok(filter) =>
      match QueryWith(lookup, search, filter)
      case Err(e) => Outcome(Err(e), cv)
      case Ok(rows) =>
        match SearchPopulation(entry, rows)
        case Err(e) => Outcome(Err(e), cv)
        case Ok(pop) =>
          match Climb(env, cv)
          case Err(e) => Outcome(Err(e), cv)
          case Ok(d) => RebaseAt(env, cv, d, pop)
  }

  /**
   * The end of `where`: the ancestor `d` levels down, narrowed and rebased; when its listing
   * raises, it is left with the header `ID`.
   */
  function RebaseAt(env: Env, cv: CollVal, d: nat, pop: seq<string>): Outcome
    requires AncestorAt(cv, d).Some?
  {
    var a := AncestorAt(cv, d).value;
    match Narrowed(env, a, pop)
    case Err(e) => Outcome(Err(e), ReplaceAt(cv, d, a.(idHeader := "ID")))
    case Ok(poi) => Outcome(Ok(()), ReplaceAt(cv, d, Rebased(a, poi)))
  }

  /** A rebased collection yields the element handles of its URI list, in order, and raises nothing. */
  lemma RebasedYields(env: Env, a: CollVal, poi: seq<string>)
    ensures Elements(env, Rebased(a, poi))
            == Pass(seq(|poi|, k requires 0 <= k < |poi| => ElementUri(env.ops, poi[k])), None)
  {
    var r := Rebased(a, poi);
    UriListYieldsItsUris(env, r, r.idHeader, |poi|);
  }

  /**
   * After a successful `where`, the ancestor the walk found is rebased onto the subjects of
   * interest: with the pattern `*` every subject the search returned, otherwise those of them
   * the ancestor yielded when listed by `ID`. The collections above it keep everything but
   * their link to the one below.
   */
  lemma WhereRebasesAncestor(env: Env, parsers: Parsers, constraints: Arg, template: Arg, query: Arg,
                             lookup: Lookup, search: Search, entry: string, cv: CollVal, j: nat)
    requires WhereOutcome(env, parsers, constraints, template, query, lookup, search, entry, cv).result.Ok?
    ensures NormalizeWhere(parsers, constraints, template, query).Ok?
    ensures var filter := NormalizeWhere(parsers, constraints, template, query).value;
            QueryWith(lookup, search, filter).Ok? &&
            SearchPopulation(entry, QueryWith(lookup, search, filter).value).Ok? &&
            Climb(env, cv).Ok?
    ensures var filter := NormalizeWhere(parsers, constraints, template, query).value;
            var pop := SearchPopulation(entry, QueryWith(lookup, search, filter).value).value;
            var d := Climb(env, cv).value;
            var a := AncestorAt(cv, d).value;
            var after := WhereOutcome(env, parsers, constraints, template, query, lookup, search, entry, cv).after;
            && (a.pattern == "*" ==> AncestorAt(after, d) == Some(Rebased(a, pop)))
            && (a.pattern != "*" ==>
                  var listed := Elements(env, a.(idHeader := "ID"));
                  listed.failure.None? && AncestorAt(after, d) == Some(Rebased(a, Intersect(pop, listed.elems))))
            && (j < d ==> AncestorAt(after, j).Some? && AncestorAt(cv, j).Some? &&
                          AncestorAt(after, j).value.(cbase := BOther) == AncestorAt(cv, j).value.(cbase := BOther))
  {
    var filter := NormalizeWhere(parsers, constraints, template, query).value;
    var pop := SearchPopulation(entry, QueryWith(lookup, search, filter).value).value;
    var d := Climb(env, cv).value;
    var a := AncestorAt(cv, d).value;
    var poi := Narrowed(env, a, pop).value;
    ReplaceAtShape(cv, d, Rebased(a, poi), j);
  }

  /**
   * When the listing of the ancestor by `ID` raises, `where` raises the same exception and
   * leaves that ancestor with the header `ID`, all else untouched.
   */
  lemma WhereListingFails(env: Env, parsers: Parsers, constraints: Arg, template: Arg, query: Arg,
                          lookup: Lookup, search: Search, entry: string, cv: CollVal)
    requires NormalizeWhere(parsers, constraints, template, query).Ok?
    requires QueryWith(lookup, search, NormalizeWhere(parsers, constraints, template, query).value).Ok?
    requires SearchPopulation(entry, QueryWith(lookup, search, NormalizeWhere(parsers, constraints, template, query).value).value).Ok?
    requires Climb(env, cv).Ok?
    requires var a := AncestorAt(cv, Climb(env, cv).value).value;
             a.pattern != "*" && Elements(env, a.(idHeader := "ID")).failure.Some?
    ensures var d := Climb(env, cv).value;
            var a := AncestorAt(cv, d).value;
            var o := WhereOutcome(env, parsers, constraints, template, query, lookup, search, entry, cv);
            o.result == Err(Elements(env, a.(idHeader := "ID")).failure.value) &&
            AncestorAt(o.after, d) == Some(a.(idHeader := "ID"))
  {
    var d := Climb(env, cv).value;
    var a := AncestorAt(cv, d).value;
    ReplaceAtShape(cv, d, a.(idHeader := "ID"), 0);
  }
}
