/**
 * The vocabulary shared by the collection, handle and learning logic: the exceptions that can
 * escape, the URI helpers of the `uriutil` module (kept uninterpreted: they are fields of a
 * record passed in, so nothing is assumed about them), the schema tables, JSON rows and
 * query filters.
 */
module Xnat {
  import opened Results
  import Text

  /** The Python exceptions the modelled code lets escape. */
  datatype Error =
    | InvalidCollectionBase        // Exception('Invalid collection accessor type: ...')
    | KeyError(key: string)
    | IndexError                   // `split(sep, 1)[1]` without `sep`, `split('/')[-2]` of one part
    | ValueError                   // `split('')`
    | ZeroDivisionError            // a tick interval of zero
    | TypeError(name: string)      // a class called with arguments it does not take, a wrong item
    | AttributeError(name: string) // an attribute that was never set, or a method on a non-collection
    | ProgrammingError             // `where` without a usable constraint, template or query
    | InvalidFilter                // `rewrite_query` on an item that is neither list, tuple nor str
    | RecursionLimit               // `create` recursing into parents without end

  function SplitFailure(e: Text.SplitError): Error
  {
    if e == Text.EmptySeparator then ValueError else IndexError
  }

  /** The `uriutil` helpers and `urllib` quoting, as opaque string functions. */
  datatype UriOps = UriOps(
    join: (string, seq<string>) -> string,  // join_uri(uri, *segments)
    last: string -> string,                 // uri_last
    nextlast: string -> string,             // uri_nextlast
    grandparent: string -> string,          // uri_grandparent
    shape: string -> string,                // uri_shape
    translate: string -> string,            // translate_uri
    quote: string -> string,                // urllib.quote
    unquote: string -> string)              // urllib.unquote

  /** The URI an element handle keeps: its argument translated and quoted. */
  function ElementUri(ops: UriOps, uri: string): string
  {
    ops.quote(ops.translate(uri))
  }

  /**
   * The schema tables: children of each node, (id field, label field) per node, the default
   * xsi type per node, the node names that are written singular, and all resource type names.
   */
  datatype Schema = Schema(
    tree: map<string, seq<string>>,
    fields: map<string, (string, string)>,
    defaults: map<string, string>,
    singular: set<string>,
    types: seq<string>)

  /** One row of a JSON table: column name to cell text. */
  type Row = map<string, string>

  /** A query filter value: a single string, or a list that is sent comma-joined. */
  datatype FilterValue = One(s: string) | Many(vals: seq<string>)

  /** A filter dictionary, as its items in iteration order. */
  type Filters = seq<(string, FilterValue)>

  /** The collection classes declared in resources.py: the only ones a nested level can open. */
  const CollectionClasses: set<string> :=
    {"Projects", "Subjects", "Experiments", "Assessors", "Reconstructions", "Scans",
     "Resources", "In_Resources", "Out_Resources", "Files", "In_Files", "Out_Files"}

  /** The element classes declared in resources.py. */
  const ElementClasses: set<string> :=
    {"Project", "Subject", "Experiment", "Assessor", "Reconstruction", "Scan",
     "Resource", "In_Resource", "Out_Resource", "File", "In_File", "Out_File"}
}
