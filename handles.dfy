/**
 * Element handles (`EObject`): selecting an element's row in its parent's listing
 * (`_getcells`), the option string of `Experiment.trigger`, and the parameter logic of
 * `create` with its recursion into missing ancestors.
 */
module Handles {
  import opened Results
  import opened Xnat
  import Text
  import Glob

  // ---------------------------------------------------------------------------------------
  // _getcells

  /** Whether a listed row is the element's: its id cell or its label cell is the element's name. */
  predicate IsRowOf(row: Row, urn: string, idHead: string, lblHead: string)
  {
    (idHead in row && row[idHead] == urn) || (lblHead in row && row[lblHead] == urn)
  }

  /** The loop of `_getcells` over the parent listing: the first row that is the element's. */
  method SelectRow(rows: seq<Row>, urn: string, idHead: string, lblHead: string) returns (k: Option<nat>)
    ensures k.Some? ==> k.value < |rows| && IsRowOf(rows[k.value], urn, idHead, lblHead)
    ensures k.Some? ==> forall j :: 0 <= j < k.value ==> !IsRowOf(rows[j], urn, idHead, lblHead)
    ensures k.None? ==> forall j :: 0 <= j < |rows| ==> !IsRowOf(rows[j], urn, idHead, lblHead)
  {
    var i := 0;
    while i < |rows|
      invariant 0 <= i <= |rows|
      invariant forall j :: 0 <= j < i ==> !IsRowOf(rows[j], urn, idHead, lblHead)
    {
      if IsRowOf(rows[i], urn, idHead, lblHead) {
        return Some(i);
      }
      i := i + 1;
    }
    return None;
  }

  /** What `_getcells(cols)` returns: nothing, one cell, or the row the selection is read from. */
  datatype Cells = NoRow | Single(value: Option<string>) | Several(row: Row)

  /**
   * `_getcells(cols)` over the parent listing `rows` of an element of type `urt` named `urn`.
   * A type the schema does not know raises KeyError.
   */
  method GetCells(schema: Schema, urt: string, urn: string, rows: seq<Row>, cols: seq<string>) returns (r: Result<Cells, Error>)
    ensures urt !in schema.fields <==> r.Err?
    ensures r.Ok? ==>
              var idHead := schema.fields[urt].0;
              var lblHead := schema.fields[urt].1;
              && (r.value == NoRow <==> forall j :: 0 <= j < |rows| ==> !IsRowOf(rows[j], urn, idHead, lblHead))
              && (r.value != NoRow ==>
                    exists k :: 0 <= k < |rows| && IsRowOf(rows[k], urn, idHead, lblHead) &&
                      (forall j :: 0 <= j < k ==> !IsRowOf(rows[j], urn, idHead, lblHead)) &&
                      (|cols| == 1 ==> r.value == Single(if cols[0] in rows[k] then Some(rows[k][cols[0]]) else None)) &&
                      (|cols| != 1 ==> r.value == Several(rows[k])))
  {
    if urt !in schema.fields {
      return Err(KeyError(urt));
    }
    var k := SelectRow(rows, urn, schema.fields[urt].0, schema.fields[urt].1);
    if k.None? {
      return Ok(NoRow);
    }
    var row := rows[k.value];
    if |cols| == 1 {
      r := Ok(Single(if cols[0] in row then Some(row[cols[0]]) else None));
    } else {
      r := Ok(Several(row));
    }
  }

  // ---------------------------------------------------------------------------------------
  // Experiment.trigger

  /** The option string of `trigger`, or `None` when every option is off and nothing is sent. */
  function TriggerOptions(pipelines: bool, fixTypes: bool, scanHeaders: bool): Option<string>
  {
    if !pipelines && !fixTypes && !scanHeaders then None
    else
      var options := (if pipelines then ["triggerPipelines=true"] else [])
                     + (if fixTypes then ["fixScanTypes=true"] else [])
                     + (if scanHeaders then ["pullDataFromHeaders=true"] else []);
      Some("?" + Text.Join(options, "&"))
  }

  /**
   * `trigger` sends nothing exactly when every option is off; otherwise its query, after the
   * `?`, splits on `&` into the chosen options in the order pipelines, scan types, headers.
   */
  lemma TriggerOptionsReadBack(pipelines: bool, fixTypes: bool, scanHeaders: bool)
    ensures TriggerOptions(pipelines, fixTypes, scanHeaders).None? <==> !pipelines && !fixTypes && !scanHeaders
    ensures var o := TriggerOptions(pipelines, fixTypes, scanHeaders);
            o.Some? ==>
              |o.value| >= 1 && o.value[0] == '?' &&
              Text.Split(o.value[1..], '&')
              == (if pipelines then ["triggerPipelines=true"] else [])
                 + (if fixTypes then ["fixScanTypes=true"] else [])
                 + (if scanHeaders then ["pullDataFromHeaders=true"] else [])
  {
    var options := (if pipelines then ["triggerPipelines=true"] else [])
                   + (if fixTypes then ["fixScanTypes=true"] else [])
                   + (if scanHeaders then ["pullDataFromHeaders=true"] else []);
    if pipelines || fixTypes || scanHeaders {
      var a := "triggerPipelines=true";
      var b := "fixScanTypes=true";
      var c := "pullDataFromHeaders=true";
      assert forall i :: 0 <= i < |a| ==> a[i] != '&';
      assert forall i :: 0 <= i < |b| ==> b[i] != '&';
      assert forall i :: 0 <= i < |c| ==> c[i] != '&';
      assert forall p :: p in options ==> p == a || p == b || p == c;
      Text.SplitJoin(options, '&');
      var s := "?" + Text.Join(options, "&");
      assert s[1..] == Text.Join(options, "&");
    }
  }

  /** `trigger(...)` on the experiment at `uri`: the PUT it issues, if any. */
  method Trigger(uri: string, pipelines: bool, fixTypes: bool, scanHeaders: bool) returns (put: Option<string>)
    ensures put.None? <==> !pipelines && !fixTypes && !scanHeaders
    ensures put.Some? ==> put.value == uri + TriggerOptions(pipelines, fixTypes, scanHeaders).value
  {
    var options := TriggerOptions(pipelines, fixTypes, scanHeaders);
    if options.None? {
      return None;
    }
    return Some(uri + options.value);
  }

  // ---------------------------------------------------------------------------------------
  // EObject.create

  /** A keyword argument of `create`: a text, or a flag such as `use_label=True`. */
  datatype Value = Str(s: string) | Flag(b: bool)

  /** `'%s' % value`. */
  function Render(v: Value): string
  {
    match v
    case Str(s) => s
    case Flag(b) => if b then "True" else "False"
  }

  /** Python truth of a value. */
  predicate Truthy(v: Value)
  {
    match v
    case Str(s) => s != ""
    case Flag(b) => b
  }

  /** The keyword arguments, in the dictionary's iteration order. */
  type Params = seq<(string, Value)>

  /** `params.get(key)`. */
  function Lookup(params: Params, key: string): (r: Option<Value>)
    ensures r.None? <==> forall k :: 0 <= k < |params| ==> params[k].0 != key
    ensures r.Some? ==> exists k :: 0 <= k < |params| && params[k] == (key, r.value)
  {
    if params == [] then None
    else if params[0].0 == key then Some(params[0].1)
    else Lookup(params[1..], key)
  }

  /** The settings `create` reads. */
  datatype CreateEnv = CreateEnv(
    ops: UriOps,
    entry: string,
    schema: Schema,
    struct: seq<(string, Option<string>)>,       // the learned structure, in its iteration order
    present: string -> bool,                      // `exists()`: whether an element is on the server
    put: string -> Option<seq<(string, string)>>, // a PUT: None, or the (datatype, element) pairs of an XNAT error
    lookFor: (string, string) -> seq<string>)     // inspect.schemas.look_for(element, datatype)

  /**
   * The learned type of the first structure pattern, from the `k`-th on, that matches `rest`
   * (the element's URI after the entry point): `None` when no pattern matches, `Some(t)` with
   * `t` the learned, possibly missing, type otherwise.
   */
  function FirstLearned(struct: seq<(string, Option<string>)>, rest: string, k: nat): (r: Option<Option<string>>)
    requires k <= |struct|
    ensures r.Some? ==>
              exists j :: k <= j < |struct| && r.value == struct[j].1 && Glob.Matches(rest, struct[j].0) &&
                forall i :: k <= i < j ==> !Glob.Matches(rest, struct[i].0)
    ensures r.None? ==> forall i :: k <= i < |struct| ==> !Glob.Matches(rest, struct[i].0)
    decreases |struct| - k
  {
    if k == |struct| then None
    else if Glob.Matches(rest, struct[k].0) then Some(struct[k].1)
    else FirstLearned(struct, rest, k + 1)
  }

  /**
   * The datatype of the element created: the parameter named after the element's node wins,
   * then the first learned pattern that matches its URI (even one that learned no type), then
   * the schema's default for the node. Looking at the learned patterns cuts the URI at the
   * entry point, which raises when the entry point is not in it.
   */
  function ChooseDatatype(env: CreateEnv, uri: string, params: Params): Result<Option<string>, Error>
  {
    var node := env.ops.nextlast(uri);
    var default := if node in env.schema.defaults then Some(env.schema.defaults[node]) else None;
    match Lookup(params, node)
    case Some(v) => Ok(Some(Render(v)))
    case None =>
      if env.struct == [] then Ok(default)
      else
        match Text.AfterFirst(uri, env.entry)
        case Err(e) => Err(SplitFailure(e))
        case Ok(rest) =>
          match FirstLearned(env.struct, rest, 0)
          case Some(t) => Ok(t)
          case None => Ok(default)
  }

  /** The precedence of datatypes, stated case by case. */
  lemma DatatypePrecedence(env: CreateEnv, uri: string, params: Params)
    ensures var node := env.ops.nextlast(uri);
            var r := ChooseDatatype(env, uri, params);
            && (Lookup(params, node).Some? ==> r == Ok(Some(Render(Lookup(params, node).value))))
            && (Lookup(params, node).None? && env.struct == [] ==>
                  r == Ok(if node in env.schema.defaults then Some(env.schema.defaults[node]) else None))
            && (Lookup(params, node).None? && env.struct != [] && Text.AfterFirst(uri, env.entry).Ok? ==>
                  var rest := Text.AfterFirst(uri, env.entry).value;
                  && ((exists j :: 0 <= j < |env.struct| && Glob.Matches(rest, env.struct[j].0)) ==>
                        exists j :: 0 <= j < |env.struct| && Glob.Matches(rest, env.struct[j].0) &&
                          r == Ok(env.struct[j].1) &&
                          forall i :: 0 <= i < j ==> !Glob.Matches(rest, env.struct[i].0))
                  && ((forall j :: 0 <= j < |env.struct| ==> !Glob.Matches(rest, env.struct[j].0)) ==>
                        r == Ok(if node in env.schema.defaults then Some(env.schema.defaults[node]) else None)))
  {
  }

  /** Whether a parameter belongs to the element itself rather than to an ancestor. */
  predicate IsLocal(env: CreateEnv, key: string, dtype: string)
  {
    key !in env.schema.types && key != "use_label" && (Text.StartsWith(key, dtype) || '/' !in key)
  }

  /** The local parameter names, in parameter order. */
  function LocalKeys(env: CreateEnv, params: Params, dtype: string): (keys: seq<string>)
    ensures forall k :: k in keys <==> IsLocal(env, k, dtype) && exists j :: 0 <= j < |params| && params[j].0 == k
  {
    if params == [] then []
    else
      var front := LocalKeys(env, params[..|params| - 1], dtype);
      var key := params[|params| - 1].0;
      assert forall j :: 0 <= j < |params| - 1 ==> params[..|params| - 1][j] == params[j];
      if IsLocal(env, key, dtype) then front + [key] else front
  }

  /** The `key=value` terms of the local parameters. */
  function LocalTerms(params: Params, keys: seq<string>): seq<string>
  {
    seq(|keys|, k requires 0 <= k < |keys| =>
      keys[k] + "=" + (match Lookup(params, keys[k]) case Some(v) => Render(v) case None => "None"))
  }

  /** The create URI for a chosen datatype and the local parameters. */
  function CreateUri(env: CreateEnv, uri: string, params: Params, dtype: string, keys: seq<string>): string
  {
    var withType := uri + "?xsiType=" + dtype;
    var useLabel := Lookup(params, "use_label");
    var withId :=
      if "ID" !in keys && dtype + "/ID" !in keys && useLabel.Some? && Truthy(useLabel.value)
      then withType + "&" + dtype + "/ID=" + env.ops.last(uri)
      else withType;
    if keys == [] then withId else withId + "&" + Text.Join(LocalTerms(params, keys), "&")
  }

  /** Whether the create URI names the element by its last segment: `use_label` and no local ID. */
  predicate LabelAsId(params: Params, dtype: string, keys: seq<string>)
  {
    var useLabel := Lookup(params, "use_label");
    "ID" !in keys && dtype + "/ID" !in keys && useLabel.Some? && Truthy(useLabel.value)
  }

  /**
   * The terms of the create query, in order: the xsi type, the element's ID when `use_label`
   * asks for it, and one `key=value` per local parameter.
   */
  function CreateTerms(env: CreateEnv, uri: string, params: Params, dtype: string, keys: seq<string>): seq<string>
  {
    ["xsiType=" + dtype]
    + (if LabelAsId(params, dtype, keys) then [dtype + "/ID=" + env.ops.last(uri)] else [])
    + LocalTerms(params, keys)
  }

  /** Joining the type term, an optional ID term and the local terms, after a prefix. */
  lemma JoinTerms(head: string, ty: string, id: seq<string>, locals: seq<string>)
    requires |id| <= 1
    ensures var withId := if id == [] then head + ty else head + ty + "&" + id[0];
            head + Text.Join([ty] + id + locals, "&")
            == if locals == [] then withId else withId + "&" + Text.Join(locals, "&")
  {
    var rest := id + locals;
    assert [ty] + id + locals == [ty] + rest;
    if rest != [] {
      Text.JoinCons(ty, rest, "&");
      var tail := Text.Join(rest, "&");
      assert head + Text.Join([ty] + rest, "&") == head + ty + "&" + tail;
      if id == [] {
        assert rest == locals;
      } else if locals == [] {
        assert rest == [id[0]];
      } else {
        assert rest == [id[0]] + locals;
        Text.JoinCons(id[0], locals, "&");
      }
    }
  }

  /** The create URI starts with the element's URI and its xsi type. */
  lemma CreateUriStarts(env: CreateEnv, uri: string, params: Params, dtype: string, keys: seq<string>)
    ensures Text.StartsWith(CreateUri(env, uri, params, dtype, keys), uri + "?xsiType=" + dtype)
  {
    var head := uri + "?xsiType=" + dtype;
    assert CreateUri(env, uri, params, dtype, keys)[..|head|] == head;
  }

  /** The create URI is the element's URI, `?`, and its terms joined by `&`. */
  lemma CreateUriJoins(env: CreateEnv, uri: string, params: Params, dtype: string, keys: seq<string>)
    ensures CreateUri(env, uri, params, dtype, keys)
            == uri + "?" + Text.Join(CreateTerms(env, uri, params, dtype, keys), "&")
  {
    var ty := "xsiType=" + dtype;
    var x := dtype + "/ID=" + env.ops.last(uri);
    var id := if LabelAsId(params, dtype, keys) then [x] else [];
    var locals := LocalTerms(params, keys);
    assert uri + "?xsiType=" + dtype == uri + "?" + ty;
    assert uri + "?" + ty + "&" + dtype + "/ID=" + env.ops.last(uri) == uri + "?" + ty + "&" + x;
    assert CreateTerms(env, uri, params, dtype, keys) == [ty] + id + locals;
    JoinTerms(uri + "?", ty, id, locals);
  }

  /**
   * When no term of the create URI holds `&`, splitting its query on `&` gives the terms back:
   * the xsi type, the ID taken from the URI when `use_label` asks for it, then the local
   * parameters in order.
   */
  lemma CreateUriReadsBack(env: CreateEnv, uri: string, params: Params, dtype: string, keys: seq<string>)
    ensures (forall t :: t in CreateTerms(env, uri, params, dtype, keys) ==> '&' !in t) ==>
              Text.Split(CreateUri(env, uri, params, dtype, keys)[|uri| + 1..], '&')
              == CreateTerms(env, uri, params, dtype, keys)
  {
    var terms := CreateTerms(env, uri, params, dtype, keys);
    var joined := Text.Join(terms, "&");
    CreateUriJoins(env, uri, params, dtype, keys);
    assert (uri + "?" + joined)[|uri| + 1..] == joined;
    if forall t :: t in terms ==> '&' !in t {
      Text.SplitJoin(terms, '&');
    }
  }

  /** The parameters without the given keys: what `del params[key]` for each key leaves. */
  function Without(params: Params, keys: seq<string>): (r: Params)
    ensures forall j :: 0 <= j < |r| ==> r[j].0 !in keys && r[j] in params
    ensures forall j :: 0 <= j < |params| && params[j].0 !in keys ==> params[j] in r
  {
    if params == [] then []
    else
      var front := Without(params[..|params| - 1], keys);
      var last := params[|params| - 1];
      assert forall j :: 0 <= j < |params| - 1 ==> params[..|params| - 1][j] == params[j];
      if last.0 in keys then front else front + [last]
  }

  /** The deletion loop of `create`. */
  method DeleteKeys(params: Params, keys: seq<string>) returns (rest: Params)
    ensures rest == Without(params, keys)
  {
    rest := [];
    var i := 0;
    while i < |params|
      invariant 0 <= i <= |params|
      invariant rest == Without(params[..i], keys)
    {
      assert params[..i + 1][..i] == params[..i];
      if params[i].0 !in keys {
        rest := rest + [params[i]];
      }
      i := i + 1;
    }
    assert params[..i] == params;
  }

  /** The create URI and the parameters handed on to the parent. */
  datatype Plan = Plan(createUri: string, remaining: Params)

  function PlanFor(env: CreateEnv, uri: string, params: Params): Result<Plan, Error>
  {
    match ChooseDatatype(env, uri, params)
    case Err(e) => Err(e)
    case Ok(None) => Ok(Plan(uri, params))
    case Ok(Some(dt)) =>
      var keys := LocalKeys(env, params, dt);
      Ok(Plan(CreateUri(env, uri, params, dt, keys), Without(params, keys)))
  }

  /**
   * Without a datatype the element is created at its bare URI and every parameter goes on to
   * the parent. With one, the local parameters are exactly those kept back from the parent,
   * which gets all the others.
   */
  lemma PlanShape(env: CreateEnv, uri: string, params: Params)
    requires PlanFor(env, uri, params).Ok?
    ensures var p := PlanFor(env, uri, params).value;
            var dt := ChooseDatatype(env, uri, params).value;
            && (dt.None? ==> p == Plan(uri, params))
            && (dt.Some? ==>
                  && (forall j :: 0 <= j < |p.remaining| ==> !IsLocal(env, p.remaining[j].0, dt.value))
                  && (forall j :: 0 <= j < |params| && !IsLocal(env, params[j].0, dt.value) ==> params[j] in p.remaining)
                  && (forall j :: 0 <= j < |p.remaining| ==> p.remaining[j] in params))
  {
    var dt := ChooseDatatype(env, uri, params).value;
    if dt.Some? {
      var keys := LocalKeys(env, params, dt.value);
      assert PlanFor(env, uri, params).value.remaining == Without(params, keys);
    }
  }

  /**
   * With a datatype, the create URI is `<uri>?xsiType=<dt>`, then `&<dt>/ID=<name>` when
   * `use_label` asks for it and no local ID is given, then the local `key=value` terms; when
   * no term holds `&`, its query splits back into those terms.
   */
  lemma PlanUri(env: CreateEnv, uri: string, params: Params)
    requires PlanFor(env, uri, params).Ok? && ChooseDatatype(env, uri, params).value.Some?
    ensures var p := PlanFor(env, uri, params).value;
            var dt := ChooseDatatype(env, uri, params).value.value;
            var terms := CreateTerms(env, uri, params, dt, LocalKeys(env, params, dt));
            && Text.StartsWith(p.createUri, uri + "?xsiType=" + dt)
            && p.createUri == uri + "?" + Text.Join(terms, "&")
            && ((forall t :: t in terms ==> '&' !in t) ==> Text.Split(p.createUri[|uri| + 1..], '&') == terms)
  {
    var dt := ChooseDatatype(env, uri, params).value.value;
    var keys := LocalKeys(env, params, dt);
    assert PlanFor(env, uri, params).value.createUri == CreateUri(env, uri, params, dt, keys);
    CreateUriStarts(env, uri, params, dt, keys);
    CreateUriJoins(env, uri, params, dt, keys);
    CreateUriReadsBack(env, uri, params, dt, keys);
  }

  /** The result of `create`: the element itself, or the schema paths the server requires. */
  datatype Created = Done | Required(paths: seq<string>)

  /** The concatenated `look_for` paths of an XNAT error's (datatype, element) pairs. */
  function RequiredPaths(env: CreateEnv, missing: seq<(string, string)>): seq<string>
  {
    if missing == [] then []
    else RequiredPaths(env, missing[..|missing| - 1]) + env.lookFor(missing[|missing| - 1].1, missing[|missing| - 1].0)
  }

  /** What a `create` call returns and the PUTs it issued, in order. */
  datatype CreateRun = CreateRun(result: Result<Created, Error>, puts: seq<string>)

  /**
   * `create(**params)` on the element at `uri`. A missing ancestor (other than above a project)
   * is created first with the parameters left over, its result discarded but its exceptions
   * escaping; then the element is PUT. `fuel` bounds the depth of that recursion, as Python's
   * recursion limit does.
   */
  function CreateSpec(env: CreateEnv, uri: string, params: Params, fuel: nat): CreateRun
    decreases fuel
  {
    if fuel == 0 then CreateRun(Err(RecursionLimit), [])
    else
      match PlanFor(env, uri, params)
      case Err(e) => CreateRun(Err(e), [])
      case Ok(plan) =>
        var parent := ElementUri(env.ops, env.ops.grandparent(uri));
        var before :=
          if env.ops.nextlast(uri) != "projects" && !env.present(parent)
          then CreateSpec(env, parent, plan.remaining, fuel - 1)
          else CreateRun(Ok(Done), []);
        if before.result.Err? then before
        else
          var puts := before.puts + [plan.createUri];
          match env.put(plan.createUri)
          case None => CreateRun(Ok(Done), puts)
          case Some(missing) => CreateRun(Ok(Required(RequiredPaths(env, missing))), puts)
  }

  /**
   * Creating a project never touches its parent; the element's own PUT is always the last one
   * issued; a server error is answered with the required paths of its pairs; and the result
   * does not depend on whether an ancestor's own creation failed on the server.
   */
  lemma CreateFacts(env: CreateEnv, uri: string, params: Params, fuel: nat)
    requires fuel > 0 && PlanFor(env, uri, params).Ok?
    ensures var run := CreateSpec(env, uri, params, fuel);
            var plan := PlanFor(env, uri, params).value;
            && (env.ops.nextlast(uri) == "projects" ==> run.puts == [plan.createUri])
            && (run.result.Ok? ==> |run.puts| >= 1 && run.puts[|run.puts| - 1] == plan.createUri)
            && (run.result.Ok? ==>
                  (env.put(plan.createUri).None? ==> run.result == Ok(Done)) &&
                  (env.put(plan.createUri).Some? ==> run.result == Ok(Required(RequiredPaths(env, env.put(plan.createUri).value)))))
    ensures var run := CreateSpec(env, uri, params, fuel);
            var plan := PlanFor(env, uri, params).value;
            var parent := ElementUri(env.ops, env.ops.grandparent(uri));
            var before := CreateSpec(env, parent, plan.remaining, fuel - 1);
            && (env.ops.nextlast(uri) != "projects" && env.present(parent) ==> run.puts == [plan.createUri])
            && (env.ops.nextlast(uri) != "projects" && !env.present(parent) && before.result.Err? ==> run == before)
            && (env.ops.nextlast(uri) != "projects" && !env.present(parent) && before.result.Ok? ==>
                  run.result.Ok? && run.puts == before.puts + [plan.createUri])
  {
  }

  /** The datatype choice, the create URI and the deletion of the local parameters. */
  method MakePlan(env: CreateEnv, uri: string, params: Params) returns (r: Result<Plan, Error>)
    ensures r == PlanFor(env, uri, params)
  {
    var dt := ChooseDatatype(env, uri, params);
    if dt.Err? {
      return Err(dt.error);
    }
    if dt.value.None? {
      return Ok(Plan(uri, params));
    }
    var keys := LocalKeys(env, params, dt.value.value);
    var createUri := CreateUri(env, uri, params, dt.value.value, keys);
    var remaining := DeleteKeys(params, keys);
    r := Ok(Plan(createUri, remaining));
  }

  /** `create(**params)`, written as the source runs it: plan, recurse into the parent, PUT. */
  method Create(env: CreateEnv, uri: string, params: Params, fuel: nat) returns (r: Result<Created, Error>, puts: seq<string>)
    ensures CreateRun(r, puts) == CreateSpec(env, uri, params, fuel)
    decreases fuel
  {
    if fuel == 0 {
      return Err(RecursionLimit), [];
    }
    var plan := MakePlan(env, uri, params);
    if plan.Err? {
      return Err(plan.error), [];
    }
    puts := [];
    var parent := ElementUri(env.ops, env.ops.grandparent(uri));
    if env.ops.nextlast(uri) != "projects" && !env.present(parent) {
      var parentResult;
      parentResult, puts := Create(env, parent, plan.value.remaining, fuel - 1);
      if parentResult.Err? {
        return parentResult, puts;
      }
    }
    puts := puts + [plan.value.createUri];
    var output := env.put(plan.value.createUri);
    if output.None? {
      r := Ok(Done);
    } else {
      r := Ok(Required(RequiredPaths(env, output.value)));
    }
  }
}
