/**
 * Search constraints for `CObject.where`: choosing the constraint list from the three ways of
 * passing it, rewriting a constraint list onto the subject join field (`rewrite_query`), and
 * listing the datatypes a list mentions (`_datatypes_from_query`).
 */
module Constraints {
  import opened Results
  import opened Xnat
  import Text

  /**
   * One item of a constraint list: a `(field, operator, value)` tuple, a nested list, a string
   * such as `AND` or `OR`, or any other object.
   */
  datatype Constraint = Leaf(field: string, op: string, value: string) | Group(items: seq<Constraint>) | Token(s: string) | Bad

  /** The datatype a field path belongs to: `field.split('/')[0]`. */
  function DatatypeOf(field: string): string
  {
    Text.Split(field, '/')[0]
  }

  /**
   * The subject identifiers a search answers: `interface.select(datatype, [column])
   * .where(filter)['subject_id']`.
   */
  type Lookup = (string, string, seq<Constraint>) -> seq<string>

  /**
   * A tuple constraint becomes the list of `(join_field, '=', sid)` for every subject the
   * tuple's own datatype selects, closed by `OR`.
   */
  function RewriteLeaf(joinField: string, commonField: string, lookup: Lookup, c: Constraint): (g: seq<Constraint>)
    requires c.Leaf?
    ensures |g| >= 1 && g[|g| - 1] == Token("OR")
    ensures forall k :: 0 <= k < |g| - 1 ==> g[k].Leaf? && g[k].field == joinField && g[k].op == "="
    ensures var dt := DatatypeOf(c.field);
            var sids := lookup(dt, dt + "/" + commonField, [c, Token("AND")]);
            |g| == |sids| + 1 && forall k :: 0 <= k < |sids| ==> g[k].value == sids[k]
  {
    var dt := DatatypeOf(c.field);
    var sids := lookup(dt, dt + "/" + commonField, [c, Token("AND")]);
    seq(|sids|, k requires 0 <= k < |sids| => Leaf(joinField, "=", sids[k])) + [Token("OR")]
  }

  /** `rewrite_query`: every tuple replaced by its subject list, lists rewritten item by item. */
  function RewriteQuery(joinField: string, commonField: string, lookup: Lookup,
                        filter: seq<Constraint>): Result<seq<Constraint>, Error>
    decreases filter
  {
    if filter == [] then Ok([])
    else
      match RewriteQuery(joinField, commonField, lookup, filter[..|filter| - 1])
      case Err(e) => Err(e)
      case Ok(front) =>
        var c := filter[|filter| - 1];
        match c
        case Group(items) =>
          (match RewriteQuery(joinField, commonField, lookup, items)
           case Err(e) => Err(e)
           case Ok(g) => Ok(front + [Group(g)]))
        case Leaf(_, _, _) => Ok(front + [Group(RewriteLeaf(joinField, commonField, lookup, c))])
        case Token(_) => Ok(front + [c])
        case Bad => Err(InvalidFilter)
  }

  /** Whether an item of no accepted kind occurs anywhere in the list. */
  predicate HasBad(filter: seq<Constraint>)
    decreases filter
  {
    exists k :: 0 <= k < |filter| && (filter[k].Bad? || (filter[k].Group? && HasBad(filter[k].items)))
  }

  /** Whether every tuple anywhere in the list is on `field`. */
  predicate AllOn(filter: seq<Constraint>, field: string)
    decreases filter
  {
    forall k :: 0 <= k < |filter| ==>
      (filter[k].Leaf? ==> filter[k].field == field) &&
      (filter[k].Group? ==> AllOn(filter[k].items, field))
  }

  /**
   * `rewrite_query` fails exactly when the list holds, at any depth, an item that is neither
   * list, tuple nor string, and then with the invalid-filter error.
   */
  lemma {:induction false} RewriteQueryFails(joinField: string, commonField: string, lookup: Lookup,
                                             filter: seq<Constraint>)
    ensures var r := RewriteQuery(joinField, commonField, lookup, filter);
      && (r.Err? <==> HasBad(filter))
      && (r.Err? ==> r.error == InvalidFilter)
    decreases filter
  {
    if filter != [] {
      var n := |filter|;
      var front := filter[..n - 1];
      RewriteQueryFails(joinField, commonField, lookup, front);
      assert forall k :: 0 <= k < n - 1 ==> front[k] == filter[k];
      var c := filter[n - 1];
      if c.Group? {
        RewriteQueryFails(joinField, commonField, lookup, c.items);
      }
    }
  }

  /**
   * A successful `rewrite_query` keeps the list's length and its strings in place, turns each
   * tuple into its subject list and each list into its rewriting.
   */
  lemma {:induction false} RewriteQueryShape(joinField: string, commonField: string, lookup: Lookup,
                                             filter: seq<Constraint>)
    ensures var r := RewriteQuery(joinField, commonField, lookup, filter);
      r.Ok? ==>
        && |r.value| == |filter|
        && forall k :: 0 <= k < |filter| ==>
             && (filter[k].Token? ==> r.value[k] == filter[k])
             && (filter[k].Leaf? ==> r.value[k] == Group(RewriteLeaf(joinField, commonField, lookup, filter[k])))
             && (filter[k].Group? ==>
                   r.value[k].Group? &&
                   RewriteQuery(joinField, commonField, lookup, filter[k].items) == Ok(r.value[k].items))
    decreases filter
  {
    var r := RewriteQuery(joinField, commonField, lookup, filter);
    if filter != [] && r.Ok? {
      var n := |filter|;
      var front := filter[..n - 1];
      RewriteQueryShape(joinField, commonField, lookup, front);
      var g := RewriteQuery(joinField, commonField, lookup, front).value;
      var c := filter[n - 1];
      var last: Constraint;
      if c.Group? {
        last := Group(RewriteQuery(joinField, commonField, lookup, c.items).value);
      } else if c.Leaf? {
        last := Group(RewriteLeaf(joinField, commonField, lookup, c));
      } else {
        last := c;
      }
      assert r.value == g + [last];
      assert forall k :: 0 <= k < n - 1 ==> r.value[k] == g[k] && filter[k] == front[k];
    }
  }

  /** After a successful `rewrite_query`, every tuple left, at any depth, is on the join field. */
  lemma {:induction false} RewriteQueryOnJoin(joinField: string, commonField: string, lookup: Lookup,
                                              filter: seq<Constraint>)
    ensures var r := RewriteQuery(joinField, commonField, lookup, filter);
      r.Ok? ==> AllOn(r.value, joinField)
    decreases filter
  {
    var r := RewriteQuery(joinField, commonField, lookup, filter);
    if filter != [] && r.Ok? {
      var n := |filter|;
      var front := filter[..n - 1];
      RewriteQueryOnJoin(joinField, commonField, lookup, front);
      var g := RewriteQuery(joinField, commonField, lookup, front).value;
      var c := filter[n - 1];
      var last: Constraint;
      if c.Group? {
        RewriteQueryOnJoin(joinField, commonField, lookup, c.items);
        last := Group(RewriteQuery(joinField, commonField, lookup, c.items).value);
      } else if c.Leaf? {
        last := Group(RewriteLeaf(joinField, commonField, lookup, c));
        assert AllOn(last.items, joinField);
      } else {
        last := c;
      }
      assert r.value == g + [last];
      assert forall k :: 0 <= k < |g| ==> r.value[k] == g[k];
    }
  }

  /** `_datatypes_from_query`: the datatype of every tuple, depth first, in list order. */
  function DatatypesFromQuery(query: seq<Constraint>): seq<string>
    decreases query
  {
    if query == [] then []
    else
      var c := query[|query| - 1];
      DatatypesFromQuery(query[..|query| - 1])
      + (match c
         case Group(items) => DatatypesFromQuery(items)
         case Leaf(field, _, _) => [DatatypeOf(field)]
         case _ => [])
  }

  /** After rewriting, the only datatype a constraint list mentions is the join field's. */
  lemma {:induction false} RewrittenDatatypes(query: seq<Constraint>, field: string)
    requires AllOn(query, field)
    ensures forall k :: 0 <= k < |DatatypesFromQuery(query)| ==> DatatypesFromQuery(query)[k] == DatatypeOf(field)
    decreases query
  {
    if query != [] {
      var n := |query|;
      assert forall k :: 0 <= k < n - 1 ==> query[..n - 1][k] == query[k];
      RewrittenDatatypes(query[..n - 1], field);
      if query[n - 1].Group? {
        RewrittenDatatypes(query[n - 1].items, field);
      }
    }
  }

  /** Strings and other objects contribute nothing: a flat list of tuples lists their datatypes in order. */
  lemma {:induction false} FlatDatatypes(query: seq<Constraint>)
    requires forall k :: 0 <= k < |query| ==> query[k].Leaf?
    ensures DatatypesFromQuery(query) == seq(|query|, k requires 0 <= k < |query| => DatatypeOf(query[k].field))
  {
    if query != [] {
      FlatDatatypes(query[..|query| - 1]);
    }
  }

  /** A `where` argument as passed: absent, a string, a list of constraints, a tuple, or anything else. */
  datatype Arg = Absent | AsString(s: string) | AsList(cs: seq<Constraint>) | AsTuple(name: string, values: seq<string>) | AsOther

  /**
   * The parsers of the search module: `rpn_contraints` for a constraint string, a stored
   * template filled with its values, and a stored search, each read back through
   * `query_from_xml(...)['constraints']`.
   */
  datatype Parsers = Parsers(
    rpn: string -> seq<Constraint>,
    template: (string, seq<string>) -> seq<Constraint>,
    stored: string -> seq<Constraint>)

  /**
   * The constraint list `where` works with: a constraint string wins, then a template tuple,
   * then a stored query name, then a constraint list; with none of them `where` raises
   * ProgrammingError.
   */
  function NormalizeWhere(parsers: Parsers, constraints: Arg, template: Arg, query: Arg): (r: Result<seq<Constraint>, Error>)
    ensures constraints.AsString? ==> r == Ok(parsers.rpn(constraints.s))
    ensures !constraints.AsString? && template.AsTuple? ==> r == Ok(parsers.template(template.name, template.values))
    ensures !constraints.AsString? && !template.AsTuple? && query.AsString? ==> r == Ok(parsers.stored(query.s))
    ensures !constraints.AsString? && !template.AsTuple? && !query.AsString? && constraints.AsList? ==> r == Ok(constraints.cs)
    ensures r.Err? <==> !constraints.AsString? && !constraints.AsList? && !template.AsTuple? && !query.AsString?
    ensures r.Err? ==> r.error == ProgrammingError
  {
    if constraints.AsString? then Ok(parsers.rpn(constraints.s))
    else if template.AsTuple? then Ok(parsers.template(template.name, template.values))
    else if query.AsString? then Ok(parsers.stored(query.s))
    else if constraints.AsList? then Ok(constraints.cs)
    else Err(ProgrammingError)
  }
}
