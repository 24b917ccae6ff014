/**
 * Listing a collection URI (`CObject._call`) and learning the xsi types of what it lists
 * (`CObject._learn_from_table`): the query string sent, the rule that adds the `xsiType`
 * column, and the per-request structure files kept in the cache directory and merged into the
 * interface's in-memory structure.
 */
module Fetch {
  import opened Results
  import opened Xnat
  import Text

  /** The collections whose listings carry an xsi type worth learning. */
  const GatherNodes := ["experiments", "assessors", "scans", "reconstructions"]

  /** Whether the listing of `uri` can teach types: its last segment is a gatherable node. */
  predicate Gatherable(uri: string)
  {
    Text.LastSegment(uri) in GatherNodes
  }

  /**
   * The tick of the inspect helper: the clock's seconds are a multiple of the interval (Python's
   * `%` is zero exactly when Dafny's is) and automatic learning is on. A zero interval raises
   * ZeroDivisionError, whatever `auto` is.
   */
  function Tick(seconds: nat, interval: int, auto: bool): (r: Result<bool, Error>)
    ensures r.Err? <==> interval == 0
    ensures r.Ok? && r.value ==> auto && seconds == (seconds / interval) * interval
    ensures r.Ok? && auto && seconds == (seconds / interval) * interval ==> r.value
  {
    if interval == 0 then Err(ZeroDivisionError) else Ok(seconds % interval == 0 && auto)
  }

  /** Whether a listing learns: a gatherable node whose structure file is missing, or on a tick. */
  predicate Learns(cached: bool, gather: bool, tick: bool)
  {
    (!cached && gather) || (gather && tick)
  }

  /** The columns a listing asks for: `xsiType` appended when it learns. */
  function ListingColumns(columns: seq<string>, learn: bool): (r: seq<string>)
    ensures learn ==> r == columns + ["xsiType"]
    ensures !learn ==> r == columns
  {
    if learn then columns + ["xsiType"] else columns
  }

  /** One filter item: `key=value`, a list value sent comma-joined. */
  function FilterTerm(item: (string, FilterValue)): string
  {
    item.0 + "=" + (match item.1 case One(s) => s case Many(vals) => Text.Join(vals, ","))
  }

  function Terms(filters: Filters): seq<string>
  {
    seq(|filters|, k requires 0 <= k < |filters| => FilterTerm(filters[k]))
  }

  /** The query string of a listing: JSON format, the columns, then the filters if any. */
  function QueryString(columns: seq<string>, filters: Filters): string
  {
    var q := "?format=json&columns=" + Text.Join(columns, ",");
    if filters == [] then q else q + "&" + Text.Join(Terms(filters), "&")
  }

  /**
   * The query string reads back: split on `&` it gives the format, the column list and one
   * `key=value` term per filter, in order, and the column list split on `,` gives the columns,
   * as long as no column holds `,` or `&` and no filter term holds `&`.
   */
  lemma QueryStringReadsBack(columns: seq<string>, filters: Filters)
    requires |columns| >= 1
    requires forall c :: c in columns ==> ',' !in c && '&' !in c
    requires forall t :: t in Terms(filters) ==> '&' !in t
    ensures var parts := Text.Split(QueryString(columns, filters), '&');
            && parts == ["?format=json", "columns=" + Text.Join(columns, ",")] + Terms(filters)
            && Text.Split(parts[1][|"columns="|..], ',') == columns
  {
    var cols := Text.Join(columns, ",");
    var parts := ["?format=json", "columns=" + cols] + Terms(filters);
    QueryStringIsJoin(columns, filters);
    JoinFree(columns, ",", '&');
    PartsFree(cols, filters);
    Text.SplitJoin(parts, '&');
    assert parts[1][|"columns="|..] == cols;
    Text.SplitJoin(columns, ',');
  }

  lemma PartsFree(cols: string, filters: Filters)
    requires '&' !in cols
    requires forall t :: t in Terms(filters) ==> '&' !in t
    ensures forall p :: p in ["?format=json", "columns=" + cols] + Terms(filters) ==> '&' !in p
  {
    var head := "columns=";
    assert forall i :: 0 <= i < |head| ==> head[i] != '&';
    assert forall i :: 0 <= i < |head + cols| ==> (head + cols)[i] != '&' by {
      forall i | 0 <= i < |head + cols|
        ensures (head + cols)[i] != '&'
      {
        if i >= |head| {
          assert (head + cols)[i] == cols[i - |head|];
        }
      }
    }
    var fmt := "?format=json";
    assert forall i :: 0 <= i < |fmt| ==> fmt[i] != '&';
  }

  lemma QueryStringIsJoin(columns: seq<string>, filters: Filters)
    ensures QueryString(columns, filters)
            == Text.Join(["?format=json", "columns=" + Text.Join(columns, ",")] + Terms(filters), "&")
  {
    var parts := ["?format=json", "columns=" + Text.Join(columns, ",")] + Terms(filters);
    assert parts[1..][1..] == Terms(filters);
  }

  /** Joining parts free of `c` with a separator free of `c` gives a text free of `c`. */
  lemma {:induction false} JoinFree(parts: seq<string>, sep: string, c: char)
    requires c !in sep
    requires forall p :: p in parts ==> c !in p
    ensures c !in Text.Join(parts, sep)
  {
    if |parts| > 1 {
      JoinFree(parts[1..], sep, c);
    }
  }

  /** `element.get('xsiType')`. */
  function XsiType(row: Row): Option<string>
  {
    if "xsiType" in row then Some(row["xsiType"]) else None
  }

  /**
   * The shape a listed row teaches: its `URI` after the entry point, with every occurrence of
   * the text of its next-to-last segment replaced by the listed node type, passed to `uri_shape`.
   * A row without `URI`, a URI without the entry point, or one of a single segment raises.
   */
  function RowShape(ops: UriOps, entry: string, nodeType: string, row: Row): (r: Result<string, Error>)
    ensures "URI" !in row ==> r == Err(AttributeError("split"))
    ensures "URI" in row && entry == "" ==> r == Err(ValueError)
    ensures "URI" in row && entry != "" && Text.AfterFirst(row["URI"], entry).Err? ==> r == Err(IndexError)
    ensures "URI" in row && Text.AfterFirst(row["URI"], entry).Ok? ==>
              var u := Text.AfterFirst(row["URI"], entry).value;
              var parts := Text.Split(u, '/');
              (r.Ok? <==> |parts| >= 2) &&
              (r.Ok? ==> r.value == ops.shape(Text.ReplaceAll(u, parts[|parts| - 2], nodeType)))
  {
    if "URI" !in row then Err(AttributeError("split"))
    else
      match Text.AfterFirst(row["URI"], entry)
      case Err(e) => Err(SplitFailure(e))
      case Ok(u) =>
        var parts := Text.Split(u, '/');
        if |parts| < 2 then Err(IndexError)
        else Ok(ops.shape(Text.ReplaceAll(u, parts[|parts| - 2], nodeType)))
  }

  /** How a listed row teaches its shape. */
  type ShapeOf = Row -> Result<string, Error>

  /** The shape teacher of `_learn_from_table(_type, ...)` for the node type `_type`. */
  function Teacher(ops: UriOps, entry: string, nodeType: string): ShapeOf
  {
    row => RowShape(ops, entry, nodeType, row)
  }

  /** What `_learn_from_table` learns from a listing: shape to xsi type, later rows winning. */
  function Learned(shapeOf: ShapeOf, rows: seq<Row>): Result<map<string, Option<string>>, Error>
  {
    if rows == [] then Ok(map[])
    else
      match Learned(shapeOf, rows[..|rows| - 1])
      case Err(e) => Err(e)
      case Ok(m) =>
        match shapeOf(rows[|rows| - 1])
        case Err(e) => Err(e)
        case Ok(s) => Ok(m[s := XsiType(rows[|rows| - 1])])
  }

  /** Learning succeeds exactly when every row has a shape. */
  lemma {:induction false} LearnedSucceeds(shapeOf: ShapeOf, rows: seq<Row>)
    ensures Learned(shapeOf, rows).Ok?
            <==> forall k :: 0 <= k < |rows| ==> shapeOf(rows[k]).Ok?
  {
    if rows != [] {
      var n := |rows|;
      LearnedSucceeds(shapeOf, rows[..n - 1]);
      assert forall k :: 0 <= k < n - 1 ==> rows[..n - 1][k] == rows[k];
    }
  }

  /** The shapes learned are those of the rows. */
  lemma LearnedKeys(shapeOf: ShapeOf, rows: seq<Row>)
    requires Learned(shapeOf, rows).Ok?
    ensures forall s :: s in Learned(shapeOf, rows).value <==>
              exists k :: 0 <= k < |rows| && shapeOf(rows[k]) == Ok(s)
  {
    forall s
      ensures s in Learned(shapeOf, rows).value <==>
              exists k :: 0 <= k < |rows| && shapeOf(rows[k]) == Ok(s)
    {
      LearnedKey(shapeOf, rows, s);
    }
  }

  /** One shape is learned exactly when some row has it. */
  lemma {:induction false} LearnedKey(shapeOf: ShapeOf, rows: seq<Row>, s: string)
    requires Learned(shapeOf, rows).Ok?
    ensures s in Learned(shapeOf, rows).value <==>
            exists k :: 0 <= k < |rows| && shapeOf(rows[k]) == Ok(s)
  {
    if rows != [] {
      var n := |rows|;
      var front := rows[..n - 1];
      assert Learned(shapeOf, front).Ok?;
      LearnedKey(shapeOf, front, s);
      var last := shapeOf(rows[n - 1]).value;
      assert Learned(shapeOf, rows).value
             == Learned(shapeOf, front).value[last := XsiType(rows[n - 1])];
      if s == last {
        assert shapeOf(rows[n - 1]) == Ok(s);
      } else {
        if exists k :: 0 <= k < n && shapeOf(rows[k]) == Ok(s) {
          var k :| 0 <= k < n && shapeOf(rows[k]) == Ok(s);
          assert front[k] == rows[k];
        }
        if exists k :: 0 <= k < n - 1 && shapeOf(front[k]) == Ok(s) {
          var k :| 0 <= k < n - 1 && shapeOf(front[k]) == Ok(s);
          assert front[k] == rows[k];
        }
      }
    }
  }

  /** Each learned shape maps to the xsi type of the last row with that shape. */
  lemma {:induction false} LearnedLastWins(shapeOf: ShapeOf, rows: seq<Row>, k: nat)
    requires Learned(shapeOf, rows).Ok?
    requires k < |rows|
    requires forall j :: k < j < |rows| ==>
               shapeOf(rows[j]) != shapeOf(rows[k])
    ensures shapeOf(rows[k]).Ok?
    ensures var s := shapeOf(rows[k]).value;
            var m := Learned(shapeOf, rows).value;
            s in m && m[s] == XsiType(rows[k])
  {
    LearnedSucceeds(shapeOf, rows);
    var n := |rows|;
    if k < n - 1 {
      var front := rows[..n - 1];
      assert front[k] == rows[k];
      assert forall j :: k < j < n - 1 ==> front[j] == rows[j];
      LearnedLastWins(shapeOf, front, k);
    }
  }

  /** The structure the interface keeps in memory and the structure files of its cache directory. */
  datatype Store = Store(struct: map<string, Option<string>>, files: map<string, map<string, Option<string>>>)

  /**
   * `_learn_from_table`: what was learned is merged over the request's structure file, if it
   * exists; the merge is written back to that file and merged over the in-memory structure.
   */
  function LearnOutcome(ops: UriOps, entry: string, st: Store, nodeType: string, rows: seq<Row>, reqcache: string): Result<Store, Error>
  {
    match Learned(Teacher(ops, entry, nodeType), rows)
    case Err(e) => Err(e)
    case Ok(knowledge) =>
      var merged := if reqcache in st.files then st.files[reqcache] + knowledge else knowledge;
      Ok(Store(st.struct + merged, st.files[reqcache := merged]))
  }

  /**
   * Learning keeps every shape known before, with its type unless the listing taught it again,
   * overrides with what the listing taught, touches no other structure file, merges exactly the
   * request's new structure file into the in-memory structure, and learning the same listing
   * again changes nothing more.
   */
  lemma LearnKeepsAndRepeats(ops: UriOps, entry: string, st: Store, nodeType: string, rows: seq<Row>, reqcache: string)
    requires LearnOutcome(ops, entry, st, nodeType, rows, reqcache).Ok?
    ensures var st1 := LearnOutcome(ops, entry, st, nodeType, rows, reqcache).value;
            var knowledge := Learned(Teacher(ops, entry, nodeType), rows).value;
            && st.struct.Keys <= st1.struct.Keys
            && (reqcache in st.files ==> st.files[reqcache].Keys <= st1.files[reqcache].Keys)
            && (forall s :: s in knowledge ==> st1.struct[s] == knowledge[s] && st1.files[reqcache][s] == knowledge[s])
            && (forall f :: f in st.files && f != reqcache ==> f in st1.files && st1.files[f] == st.files[f])
            && (forall s :: reqcache in st.files && s in st.files[reqcache] && s !in knowledge ==>
                              st1.files[reqcache][s] == st.files[reqcache][s])
            && (forall s :: s in st.struct && s !in st1.files[reqcache] ==> st1.struct[s] == st.struct[s])
            && st1.struct == st.struct + st1.files[reqcache]
            && LearnOutcome(ops, entry, st1, nodeType, rows, reqcache) == Ok(st1)
  {
    var st1 := LearnOutcome(ops, entry, st, nodeType, rows, reqcache).value;
    var knowledge := Learned(Teacher(ops, entry, nodeType), rows).value;
    var merged := st1.files[reqcache];
    assert merged + knowledge == merged;
    assert st1.struct + merged == st1.struct;
    assert st1.files[reqcache := merged] == st1.files;
  }

  /** The interface settings `_call` reads. */
  datatype Config = Config(
    ops: UriOps,
    entry: string,                             // the entry point, e.g. `/data`
    server: string -> Option<seq<Row>>,        // `_get_json`: the table, or None when it raises
    cacheFile: string -> string,               // the structure file path of a request shape
    tickInterval: int,
    auto: bool)

  /** What `_call` returns, the request it sent, if it got that far, and the store afterwards. */
  datatype Answer = Answer(rows: seq<Row>, request: Option<string>, store: Store)

  /**
   * `_call(columns)` on the template `cbase`. Every exception inside is swallowed: the listing
   * is then `[]`, and the store is left as it was.
   */
  function CallOutcome(cfg: Config, st: Store, cbase: string, columns: seq<string>, filters: Filters, seconds: nat): Answer
  {
    var uri := cfg.ops.quote(cfg.ops.translate(cbase));
    match Text.AfterFirst(uri, cfg.entry)
    case Err(_) => Answer([], None, st)
    case Ok(rest) =>
      var reqcache := cfg.cacheFile(cfg.ops.shape(rest + "/0"));
      match Tick(seconds, cfg.tickInterval, cfg.auto)
      case Err(_) => Answer([], None, st)
      case Ok(tick) =>
        var learn := Learns(reqcache in st.files, Gatherable(uri), tick);
        var request := uri + QueryString(ListingColumns(columns, learn), filters);
        match cfg.server(request)
        case None => Answer([], Some(request), st)
        case Some(rows) =>
          if !learn then Answer(rows, Some(request), st)
          else
            match LearnOutcome(cfg.ops, cfg.entry, st, Text.LastSegment(uri), rows, reqcache)
            case Err(_) => Answer([], Some(request), st)
            case Ok(st1) => Answer(rows, Some(request), st1)
  }

  /**
   * A listing that gets answered asks for `xsiType` exactly when its node is gatherable and its
   * structure file is missing or the clock ticks; the store changes only by learning from that
   * answer, and an answer it cannot learn from is dropped.
   */
  lemma CallAsksAndLearns(cfg: Config, st: Store, cbase: string, columns: seq<string>, filters: Filters, seconds: nat)
    ensures var a := CallOutcome(cfg, st, cbase, columns, filters, seconds);
            var uri := cfg.ops.quote(cfg.ops.translate(cbase));
            && (a.request.None? ==> a.rows == [] && a.store == st)
            && (a.request.Some? ==>
                  var rest := Text.AfterFirst(uri, cfg.entry).value;
                  var reqcache := cfg.cacheFile(cfg.ops.shape(rest + "/0"));
                  var tick := Tick(seconds, cfg.tickInterval, cfg.auto).value;
                  var learn := Gatherable(uri) && (reqcache !in st.files || tick);
                  && a.request.value == uri + QueryString(ListingColumns(columns, learn), filters)
                  && (!learn ==> a.store == st)
                  && (learn && a.rows != [] ==>
                        LearnOutcome(cfg.ops, cfg.entry, st, Text.LastSegment(uri), a.rows, reqcache) == Ok(a.store))
                  && (learn && a.rows == [] ==> a.store == st || a.store == LearnOutcome(cfg.ops, cfg.entry, st, Text.LastSegment(uri), [], reqcache).value)
                  && (a.rows != [] ==> cfg.server(a.request.value) == Some(a.rows)))
  {
  }

  /** Once a row fails to teach a shape, learning the listing fails with that row's exception. */
  lemma {:induction false} LearnedStops(shapeOf: ShapeOf, rows: seq<Row>, i: nat)
    requires i <= |rows| && Learned(shapeOf, rows[..i]).Err?
    ensures Learned(shapeOf, rows) == Learned(shapeOf, rows[..i])
    decreases |rows| - i
  {
    if i < |rows| {
      assert rows[..i + 1][..i] == rows[..i];
      LearnedStops(shapeOf, rows, i + 1);
    } else {
      assert rows[..i] == rows;
    }
  }

  /** The interface: its settings, its in-memory structure and its cache directory's structure files. */
  class Interface {
    const cfg: Config
    var struct: map<string, Option<string>>
    var files: map<string, map<string, Option<string>>>

    function State(): Store
      reads this
    {
      Store(struct, files)
    }

    constructor (cfg: Config, st: Store)
      ensures this.cfg == cfg && State() == st
    {
      this.cfg := cfg;
      struct := st.struct;
      files := st.files;
    }

    /**
     * `_learn_from_table(_type, jtable, reqcache)`: the loop over the listed rows collects what
     * they teach; a row that raises leaves everything as it was.
     */
    method LearnFromTable(nodeType: string, rows: seq<Row>, reqcache: string) returns (r: Result<(), Error>)
      modifies this
      ensures LearnOutcome(cfg.ops, cfg.entry, old(State()), nodeType, rows, reqcache).Ok? ==>
                r.Ok? && State() == LearnOutcome(cfg.ops, cfg.entry, old(State()), nodeType, rows, reqcache).value
      ensures LearnOutcome(cfg.ops, cfg.entry, old(State()), nodeType, rows, reqcache).Err? ==>
                r == Err(LearnOutcome(cfg.ops, cfg.entry, old(State()), nodeType, rows, reqcache).error) &&
                State() == old(State())
    {
      var knowledge: map<string, Option<string>> := map[];
      var i := 0;
      while i < |rows|
        invariant 0 <= i <= |rows|
        invariant Learned(Teacher(cfg.ops, cfg.entry, nodeType), rows[..i]) == Ok(knowledge)
      {
        assert rows[..i + 1][..i] == rows[..i];
        var shape := RowShape(cfg.ops, cfg.entry, nodeType, rows[i]);
        if shape.Err? {
          LearnedStops(Teacher(cfg.ops, cfg.entry, nodeType), rows, i + 1);
          return Err(shape.error);
        }
        knowledge := knowledge[shape.value := XsiType(rows[i])];
        i := i + 1;
      }
      assert rows[..i] == rows;
      if reqcache in files {
        knowledge := files[reqcache] + knowledge;
      }
      struct := struct + knowledge;
      files := files[reqcache := knowledge];
      r := Ok(());
    }
  }

  /**
   * `CObject._call(columns)` for the template `cbase`, with the clock's seconds as an input:
   * the table listed (or `[]` when anything inside raised) and the request sent, if any.
   */
  method Call(intf: Interface, cbase: string, columns: seq<string>, filters: Filters, seconds: nat)
    returns (rows: seq<Row>, request: Option<string>)
    modifies intf
    ensures Answer(rows, request, intf.State())
            == CallOutcome(intf.cfg, old(intf.State()), cbase, columns, filters, seconds)
  {
    var cfg := intf.cfg;
    var uri := cfg.ops.quote(cfg.ops.translate(cbase));
    var rest := Text.AfterFirst(uri, cfg.entry);
    if rest.Err? {
      return [], None;
    }
    var reqcache := cfg.cacheFile(cfg.ops.shape(rest.value + "/0"));
    var gather := Gatherable(uri);
    var tick := Tick(seconds, cfg.tickInterval, cfg.auto);
    if tick.Err? {
      return [], None;
    }
    var learn := Learns(reqcache in intf.files, gather, tick.value);
    request := Some(uri + QueryString(ListingColumns(columns, learn), filters));
    var table := cfg.server(request.value);
    if table.None? {
      return [], request;
    }
    rows := table.value;
    if learn {
      var learned := intf.LearnFromTable(Text.LastSegment(uri), rows, reqcache);
      if learned.Err? {
        rows := [];
      }
    }
  }
}
