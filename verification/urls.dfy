/**
 * Foundation's URL types, kept abstract. Which strings parse, and how a set
 * of components renders, is Foundation's business: the model receives both
 * as functions and states every property relative to them.
 */
module Urls {
  import opened Wrappers

  /** `URLQueryItem` */
  datatype QueryItem = QueryItem(name: string, value: Option<string>)

  /** `URLComponents`: everything before the query, kept as one opaque
      string, and the query items (`nil` when there is no query). */
  datatype Components = Components(base: string, queryItems: Option<seq<QueryItem>>)

  /** `URL`, identified by its `absoluteString`. */
  datatype Url = Url(absoluteString: string)

  /** The parsing and rendering Foundation performs. */
  datatype UrlSyntax = UrlSyntax(
    /** `URLComponents(string:)` */
    components: string -> Option<Components>,
    /** `components.url` */
    render: Components -> Option<Url>,
    /** `URL(string:)` */
    parse: string -> Option<Url>)

  /** A query item with a value. */
  function Item(name: string, value: string): QueryItem {
    QueryItem(name, Some(value))
  }
}
