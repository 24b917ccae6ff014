/**
 * The collection object itself (`CObject`): a class whose base, tag, nesting and identifier
 * header `where` and `get` update in place, and the generator of `__iter__` written as loops
 * that collect what it yields.
 */
module CObjects {
  import opened Results
  import opened Xnat
  import opened Collections
  import opened Constraints
  import opened Selection
  import Glob

  /** The `cobjectcuri` branch: one listing, then its rows. */
  method IterUri(env: Env, base: string, pattern: string, nested: Option<string>, idHeader: string,
                 late: string, columns: seq<string>, filters: Filters) returns (p: Pass)
    ensures p == UriPass(env, base, pattern, nested, idHeader, late, columns, filters)
    decreases NestRank(nested), 3
  {
    var col := IdColumn(env, base, idHeader);
    if col.Err? {
      return Fail(col.error);
    }
    var rows := env.fetch(Request(base, [col.value] + columns, filters));
    p := IterRows(env, base, rows, col.value, pattern, nested, idHeader, late, columns);
  }

  /** The loop over the rows of a listing; it stops at the first exception. */
  method IterRows(env: Env, base: string, rows: seq<Row>, col: string, pattern: string,
                  nested: Option<string>, idHeader: string, late: string, columns: seq<string>) returns (p: Pass)
    ensures p == RowsPass(env, base, rows, col, pattern, nested, idHeader, late, columns)
    decreases NestRank(nested), 2
  {
    p := Done;
    var i := 0;
    while i < |rows|
      invariant 0 <= i <= |rows|
      invariant p == RowsPass(env, base, rows[..i], col, pattern, nested, idHeader, late, columns)
    {
      assert rows[..i + 1][..i] == rows[..i];
      if p.failure.None? {
        var row := rows[i];
        var q: Pass;
        if col !in row {
          q := Fail(KeyError(col));
        } else {
          var eid := env.ops.unquote(row[col]);
          if !Glob.Matches(eid, pattern) {
            q := Done;
          } else {
            var e := ElementUri(env.ops, env.ops.join(base, [eid]));
            if nested.None? {
              q := Pass([e], None);
            } else {
              q := IterSub(env, e, nested, pattern, HeaderFor(p, idHeader, late), columns);
            }
          }
        }
        p := Then(p, q);
      }
      i := i + 1;
    }
    assert rows[..i] == rows;
  }

  /** Opening and iterating the nested collection of one parent element. */
  method IterSub(env: Env, parent: string, nested: Option<string>, pattern: string,
                 header: string, columns: seq<string>) returns (p: Pass)
    ensures p == SubPass(env, parent, nested, pattern, header, columns)
    decreases 1, 0
  {
    if nested.None? {
      return Fail(AttributeError("_nested"));
    }
    var klass := Text.Title(nested.value);
    if klass !in CollectionClasses {
      return Fail(TypeError(klass));
    }
    p := IterUri(env, env.ops.join(parent, [nested.value]), pattern, None, header, header, columns, []);
  }

  /** The loop over the parents of a nesting level. */
  method IterNest(env: Env, parents: seq<string>, nested: Option<string>, pattern: string,
                  idHeader: string, late: string, columns: seq<string>) returns (p: Pass)
    ensures p == NestAll(env, parents, nested, pattern, idHeader, late, columns)
  {
    p := Done;
    var i := 0;
    while i < |parents|
      invariant 0 <= i <= |parents|
      invariant p == NestAll(env, parents[..i], nested, pattern, idHeader, late, columns)
    {
      assert parents[..i + 1][..i] == parents[..i];
      if p.failure.None? {
        var q := IterSub(env, parents[i], nested, pattern, HeaderFor(p, idHeader, late), columns);
        p := Then(p, q);
      }
      i := i + 1;
    }
    assert parents[..i] == parents;
  }

  /** `__iter__` on a collection value whose header becomes `late` after the first yield. */
  method IterValue(env: Env, cv: CollVal, late: string) returns (p: Pass)
    ensures p == PassWith(env, cv, late)
    decreases cv, 2
  {
    match cv.ctype {
      case None =>
        p := Fail(AttributeError("_ctype"));
      case Some(t) =>
        if t == CEmpty {
          p := Done;
        } else if t == CUri {
          if cv.cbase.BStr? {
            p := IterUri(env, cv.cbase.s, cv.pattern, cv.nested, cv.idHeader, late, cv.columns, cv.filters);
          } else {
            p := Fail(TypeError("cbase"));
          }
        } else if t == CCObject {
          if cv.cbase.BColl? {
            var base := IterValue(env, cv.cbase.c, cv.cbase.c.idHeader);
            if cv.nested.None? {
              p := base;
            } else {
              p := IterNest(env, base.elems, cv.nested, cv.pattern, cv.idHeader, late, cv.columns);
              p := Then(p, Pass([], base.failure));
            }
          } else {
            p := Fail(TypeError("cbase"));
          }
        } else if cv.cbase.BList? {
          p := IterItems(env, cv, late);
        } else {
          p := Fail(TypeError("cbase"));
        }
    }
  }

  /** The loop over the items of a list base. */
  method IterItems(env: Env, cv: CollVal, late: string) returns (p: Pass)
    requires cv.cbase.BList?
    ensures p == ItemsPass(env, cv, late, |cv.cbase.items|)
    decreases cv, 1
  {
    var items := cv.cbase.items;
    p := Done;
    var i := 0;
    while i < |items|
      invariant 0 <= i <= |items|
      invariant p == ItemsPass(env, cv, late, i)
    {
      if p.failure.None? {
        var q := IterItem(env, cv, items[i], HeaderFor(p, cv.idHeader, late));
        p := Then(p, q);
      }
      i := i + 1;
    }
  }

  /** One item of a list base. */
  method IterItem(env: Env, cv: CollVal, it: Item, header: string) returns (q: Pass)
    requires cv.cbase.BList? && it in cv.cbase.items
    ensures q == ItemPass(env, cv, it, header)
    decreases cv, 0
  {
    if cv.ctype == Some(CEUris) {
      if !it.IStr? {
        q := Fail(TypeError("uri"));
      } else if cv.nested.None? {
        q := Pass([ElementUri(env.ops, it.s)], None);
      } else {
        q := IterSub(env, ElementUri(env.ops, it.s), cv.nested, cv.pattern, header, cv.columns);
      }
    } else if cv.ctype == Some(CEObjects) {
      if !it.IElem? {
        q := Fail(TypeError("eobject"));
      } else if cv.nested.None? {
        q := Pass([it.uri], None);
      } else {
        q := IterSub(env, it.uri, cv.nested, cv.pattern, header, cv.columns);
      }
    } else if !it.IColl? {
      q := Fail(TypeError("cobject"));
    } else {
      var inner := IterValue(env, it.c, it.c.idHeader);
      if cv.nested.None? {
        q := inner;
      } else {
        q := IterNest(env, inner.elems, it.c.nested, it.c.pattern, it.c.idHeader, it.c.idHeader, it.c.columns);
        q := Then(q, Pass([], inner.failure));
      }
    }
  }

  /** `Climb` shifted by the `d` levels already climbed. */
  function Shifted(r: Result<nat, Error>, d: nat): Result<nat, Error>
  {
    match r
    case Ok(e) => Ok(e + d)
    case Err(x) => Err(x)
  }

  /** The `while cobj` loop of `where`: how many levels up the walk stops. */
  method WalkUp(env: Env, cv: CollVal) returns (r: Result<nat, Error>)
    ensures r == Climb(env, cv)
  {
    var cur := cv;
    var d := 0;
    while true
      invariant AncestorAt(cv, d) == Some(cur)
      invariant Climb(env, cv) == Shifted(Climb(env, cur), d)
      decreases cur
    {
      var p := IterValue(env, cur, cur.idHeader);
      var first := FirstOf(p);
      if first.Err? {
        return Err(first.error);
      }
      if first.value.None? || env.ops.nextlast(first.value.value) == "subjects" {
        return Ok(d);
      }
      if !cur.cbase.BColl? {
        return Err(AttributeError("first"));
      }
      AncestorStep(cv, d, cur);
      cur := cur.cbase.c;
      d := d + 1;
    }
  }

  /** A collection of element resources. */
  class CObject {
    var cbase: Base
    var ctype: Option<CType>
    const pattern: string
    var nested: Option<string>
    var idHeader: string
    const columns: seq<string>
    const filters: Filters

    /** The collection's attributes as a value. */
    function Value(): CollVal
      reads this
    {
      CollVal(cbase, ctype, pattern, nested, idHeader, columns, filters)
    }

    constructor Init(b: Base, t: Option<CType>, pattern: string, nested: Option<string>, idHeader: string,
                     columns: seq<string>, filters: Filters)
      ensures Value() == CollVal(b, t, pattern, nested, idHeader, columns, filters)
    {
      cbase := b;
      ctype := t;
      this.pattern := pattern;
      this.nested := nested;
      this.idHeader := idHeader;
      this.columns := columns;
      this.filters := filters;
    }

    /** `CObject.__init__`: an unusable base raises instead of building a collection. */
    static method New(b: Base, pattern: string, nested: Option<string>, idHeader: string,
                      columns: seq<string>, filters: Filters) returns (r: Result<CObject, Error>)
      ensures r.Err? <==> Make(b, pattern, nested, idHeader, columns, filters).Err?
      ensures r.Err? ==> r.error == InvalidCollectionBase
      ensures r.Ok? ==> fresh(r.value) && r.value.Value() == Make(b, pattern, nested, idHeader, columns, filters).value
    {
      var t := Classify(b);
      if t.Err? {
        return Err(t.error);
      }
      var o := new CObject.Init(b, t.value, pattern, nested, idHeader, columns, filters);
      return Ok(o);
    }

    /** Everything `for eobj in self` yields, and the exception that ends it, if any. */
    method Iterate(env: Env) returns (p: Pass)
      ensures p == Elements(env, Value())
    {
      p := IterValue(env, Value(), idHeader);
    }

    /** `first()`. */
    method First(env: Env) returns (r: Result<Option<string>, Error>)
      ensures r == FirstOf(Elements(env, Value()))
    {
      var p := Iterate(env);
      r := FirstOf(p);
    }

    /** `get(*args)`: the argument loop sets the header to `ID` or `label` at every element. */
    method Get(env: Env, args: seq<string>) returns (r: Result<Fetched, Error>)
      modifies this`idHeader
      ensures (r, idHeader) == GetOutcome(env, old(Value()), args)
    {
      var p := IterValue(env, Value(), HeaderAfter(idHeader, args));
      var k := 0;
      while k < |p.elems|
        invariant 0 <= k <= |p.elems|
        invariant idHeader == HeaderAfterGet(old(idHeader), args, k)
      {
        var j := 0;
        while j < |args|
          invariant 0 <= j <= |args|
          invariant idHeader == HeaderAfter(HeaderAfterGet(old(idHeader), args, k), args[..j])
        {
          assert args[..j + 1][..j] == args[..j];
          var m := Marker(args[j]);
          if m.Some? {
            idHeader := m.value;
          }
          j := j + 1;
        }
        assert args[..j] == args;
        HeaderAfterTwice(old(idHeader), args);
        k := k + 1;
      }
      if p.failure.Some? {
        r := Err(p.failure.value);
      } else {
        r := Ok(Shaped(env.ops, p.elems, args));
      }
    }

    /**
     * `where(constraints, template, query)`: walk up to the collection whose elements sit under
     * subjects and rebase it onto the subjects the search selects.
     */
    method Where(env: Env, parsers: Parsers, constraints: Arg, template: Arg, query: Arg,
                 lookup: Lookup, search: Search, entry: string) returns (r: Result<(), Error>)
      modifies this
      ensures Outcome(r, Value())
              == WhereOutcome(env, parsers, constraints, template, query, lookup, search, entry, old(Value()))
    {
      var filter := NormalizeWhere(parsers, constraints, template, query);
      if filter.Err? {
        return Err(filter.error);
      }
      var rows := QueryWith(lookup, search, filter.value);
      if rows.Err? {
        return Err(rows.error);
      }
      var pop := SearchPopulation(entry, rows.value);
      if pop.Err? {
        return Err(pop.error);
      }
      var cv := Value();
      var climbed := WalkUp(env, cv);
      if climbed.Err? {
        return Err(climbed.error);
      }
      r := Rebase(env, climbed.value, pop.value);
    }

    /** Narrows and rebases the collection `d` levels down. */
    method Rebase(env: Env, d: nat, pop: seq<string>) returns (r: Result<(), Error>)
      requires AncestorAt(Value(), d).Some?
      modifies this
      ensures Outcome(r, Value()) == RebaseAt(env, old(Value()), d, pop)
    {
      var cur := AncestorAt(Value(), d).value;
      var a := cur.(idHeader := "ID");
      var poi := pop;
      if cur.pattern != "*" {
        var listed := IterValue(env, a, "ID");
        if listed.failure.Some? {
          SetAncestor(d, a);
          return Err(listed.failure.value);
        }
        poi := Intersect(pop, listed.elems);
      }
      SetAncestor(d, Rebased(cur, poi));
      r := Ok(());
    }

    /** Writes `a` over the collection `d` levels down: this object's own fields when `d == 0`. */
    method SetAncestor(d: nat, a: CollVal)
      requires AncestorAt(Value(), d).Some?
      requires d == 0 ==> a.pattern == pattern && a.columns == columns && a.filters == filters
      modifies this
      ensures Value() == ReplaceAt(old(Value()), d, a)
    {
      if d == 0 {
        cbase := a.cbase;
        ctype := a.ctype;
        nested := a.nested;
        idHeader := a.idHeader;
      } else {
        cbase := BColl(ReplaceAt(cbase.c, d - 1, a));
      }
    }
  }

  lemma {:induction false} AncestorStep(cv: CollVal, d: nat, cur: CollVal)
    requires AncestorAt(cv, d) == Some(cur) && cur.cbase.BColl?
    ensures AncestorAt(cv, d + 1) == Some(cur.cbase.c)
  {
    if d > 0 {
      AncestorStep(cv.cbase.c, d - 1, cur);
    }
  }
}
