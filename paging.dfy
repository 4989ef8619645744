/** The pagination arithmetic the blog and task list handlers share:
    `page = int(params.get('page', 1))`,
    `limit = min(int(params.get('limit', default)), maximum)`,
    `offset = (page - 1) * limit` and `pages = (total + limit - 1) // limit`. */
module Paging {
  import opened Common
  import opened Text

  /** `params.get(key)` is truthy: the key is in the query with a
      non-empty value. */
  predicate HasParam(params: map<string, string>, key: string)
  {
    key in params && params[key] != ""
  }

  /** `params.get(key, default)`. */
  function ParamOr(params: map<string, string>, key: string, default: string): string
  {
    if key in params then params[key] else default
  }

  const INVALID_PARAMETER := "Invalid parameter: "

  /** The 400 message of a listing whose query holds a non-integer. */
  function InvalidParameter(error: string): (msg: string)
    ensures StartsWith(msg, INVALID_PARAMETER)
  {
    INVALID_PARAMETER + error
  }

  /** `int(params.get(key, default))` for a query string. */
  function IntParam(params: map<string, string>, key: string, default: int): (r: Result<int>)
    ensures key !in params ==> r == Ok(default)
    ensures key in params ==> (r.Ok? <==> ParseInt(params[key]).Some?)
    ensures key in params && r.Ok? ==> r.value == ParseInt(params[key]).value
  {
    if key !in params then Ok(default)
    else
      match ParseInt(params[key])
      case Some(n) => Ok(n)
      case None => Err(IntError(params[key]))
  }

  /** `min(int(params.get('limit', default)), maximum)`. */
  function LimitParam(params: map<string, string>, default: int, maximum: int): (r: Result<int>)
    ensures r.Ok? ==> r.value <= maximum
    ensures r.Ok? && "limit" !in params ==> r.value == if default < maximum then default else maximum
    ensures r.Ok? && "limit" in params && ParseInt(params["limit"]).Some? ==>
      var n := ParseInt(params["limit"]).value; r.value == if n < maximum then n else maximum
    ensures r.Err? <==> "limit" in params && ParseInt(params["limit"]).None?
  {
    var n :- IntParam(params, "limit", default);
    Ok(if n < maximum then n else maximum)
  }

  datatype Pagination = Pagination(page: int, limit: int, offset: int)

  /** Page and limit read from the query, in the handlers' order (page
      first), and the offset of the page's first record. */
  function ParsePagination(params: map<string, string>, defaultLimit: int, maximum: int): (r: Result<Pagination>)
    ensures r.Ok? ==> r.value.limit <= maximum && r.value.offset == (r.value.page - 1) * r.value.limit
    ensures r.Ok? && "page" !in params ==> r.value.page == 1 && r.value.offset == 0
    ensures r.Ok? && Servable(r.value) ==> r.value.offset >= 0
    ensures r.Err? <==>
      ("page" in params && ParseInt(params["page"]).None?) || ("limit" in params && ParseInt(params["limit"]).None?)
  {
    var page :- IntParam(params, "page", 1);
    var limit :- LimitParam(params, defaultLimit, maximum);
    Ok(Pagination(page, limit, Offset(page, limit)))
  }

  /** `int()` accepts digits grouped by underscores, so `?page=1_0` and
      `?page=10` ask for the same page. */
  lemma GroupedParam(params: map<string, string>, key: string, default: int, a: string, b: string)
    requires Grouped(a) && Grouped(b)
    ensures IntParam(params[key := a + "_" + b], key, default) == IntParam(params[key := a + b], key, default)
    ensures IntParam(params[key := a + b], key, default).Ok?
  {
    UnderscoreIgnored(a, b);
  }

  /** `(page - 1) * limit`, the number of records before the page. */
  function Offset(page: int, limit: int): (offset: int)
    ensures offset == (page - 1) * limit
    ensures page >= 1 && limit >= 1 ==> offset >= 0
  {
    if page >= 1 && limit >= 1 then
      MulMono(0, page - 1, limit);
      (page - 1) * limit
    else
      (page - 1) * limit
  }

  /** A page the store can serve: with a limit of 0 the page count divides by
      zero, and a negative limit or offset is refused by the database. */
  predicate Servable(p: Pagination)
  {
    p.page >= 1 && p.limit >= 1
  }

  /** `(total + limit - 1) // limit`: the number of pages of `limit` records
      needed to hold `total` records. */
  function PageCount(total: nat, limit: int): (pages: nat)
    requires limit > 0
    ensures pages * limit >= total
    ensures total > 0 ==> (pages - 1) * limit < total
    ensures total == 0 <==> pages == 0
  {
    var q := (total + limit - 1) / limit;
    assert q * limit <= total + limit - 1 < (q + 1) * limit;
    q
  }

  /** A page after the last one starts past the end of the results, so the
      handler returns an empty list rather than an error. */
  lemma {:induction false} PastLastPage(total: nat, p: Pagination)
    requires Servable(p) && p.offset == (p.page - 1) * p.limit
    requires p.page > PageCount(total, p.limit)
    ensures p.offset >= total
    ensures forall s: seq<int> :: |s| == total ==> Window(s, p.offset, p.limit) == []
  {
    var pages := PageCount(total, p.limit);
    assert p.page - 1 >= pages;
    MulMono(pages, p.page - 1, p.limit);
  }

  lemma MulMono(a: nat, b: int, c: nat)
    requires a <= b
    ensures a * c <= b * c
  {
  }

  /** The first `n` pages of `limit` results, one after the other. */
  function PagesUpTo<T>(s: seq<T>, limit: nat, n: nat): seq<T>
    requires limit > 0
  {
    if n == 0 then [] else PagesUpTo(s, limit, n - 1) + Window(s, (n - 1) * limit, limit)
  }

  /** The first `n` pages are the first `n * limit` results. */
  lemma {:induction false} PagesPrefix<T>(s: seq<T>, limit: nat, n: nat)
    requires limit > 0
    ensures PagesUpTo(s, limit, n) == s[..if n * limit <= |s| then n * limit else |s|]
  {
    if n > 0 {
      PagesPrefix(s, limit, n - 1);
      var start := (n - 1) * limit;
      assert start + limit == n * limit;
      MulMono(0, n - 1, limit);
      var before := s[..if start <= |s| then start else |s|];
      var w := Window(s, start, limit);
      if start < |s| {
        var end := if n * limit <= |s| then n * limit else |s|;
        assert w == s[start..end];
        assert before + w == s[..end];
      }
    }
  }

  /** Paging through every page lists each result once, in order: the
      pages up to `PageCount` put together are the whole result list. */
  lemma PagesCoverAll<T>(s: seq<T>, limit: nat)
    requires limit > 0
    ensures PagesUpTo(s, limit, PageCount(|s|, limit)) == s
  {
    PagesPrefix(s, limit, PageCount(|s|, limit));
  }
}
