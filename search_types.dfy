/**
 * The shapes a deep search is configured with and returns (the two identical
 * type files `src/types/search.ts` and `src/database/types/search.ts`).
 */
module SearchTypes {
  import opened Wrappers
  import opened JsonValue

  /**
   * SearchTerm = string | number | RegExp. A regular expression is represented
   * by what `RegExp.prototype.test` answers for each string.
   */
  datatype Term = Text(text: string) | Number(number: int) | Pattern(test: string -> bool)

  /** What a search compares with the term: an entry's key, or its value. */
  datatype FindBy = ByKey | ByValue

  /** The optional settings of a search; a field that is `None` was not given; `valuePredicate` is the `predicate` option. */
  datatype SearchOptions = SearchOptions(
    findBy: Option<FindBy>,
    matchPartial: Option<bool>,
    stopOnFirstMatch: Option<bool>,
    valuePredicate: Option<(Json, seq<string>) -> bool>)

  /** One hit: the key/index path from the root, and the value found there. */
  datatype SearchResult = SearchResult(path: seq<string>, value: Json)

  /** The settings a search actually runs with, once defaults are filled in. */
  datatype Query = Query(search: Term, findBy: FindBy, stopOnFirstMatch: bool, matchPartial: bool)

  /**
   * The destructuring at the top of `findInData`: only three options are read,
   * each with its default; `predicate` is not read at all.
   */
  function ResolveOptions(search: Term, options: SearchOptions): (q: Query)
    ensures q.findBy == ByValue <==> options.findBy == Some(ByValue)
    ensures q.stopOnFirstMatch <==> options.stopOnFirstMatch == Some(true)
    ensures q.matchPartial <==> options.matchPartial == Some(true)
  {
    var findBy := match options.findBy case Some(f) => f case None => ByKey;
    Query(search, findBy, options.stopOnFirstMatch.GetOr(false), options.matchPartial.GetOr(false))
  }

  /** The last segment of a non-empty path. */
  function Last(path: seq<string>): string
    requires path != []
  {
    path[|path| - 1]
  }
}
