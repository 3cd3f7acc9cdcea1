/**
 * utils/pagination.go: turning the query string of a listing request into
 * validated paging parameters, and the page count of a paginated response.
 */
module Pagination {
  import opened Wrappers
  import opened GoInt
  import Strconv
  import Strings

  const DefaultPage: int := 1
  const DefaultLimit: int := 10
  const DefaultSortBy: string := "createdAt"
  const Asc: string := "asc"
  const Desc: string := "desc"

  datatype PaginationParams = PaginationParams(page: int, limit: int, sortBy: string, order: string, offset: int)

  /** The two errors ParsePaginationParams returns. */
  datatype ParseError =
    | InvalidSortField(field: string)  // "invalid sort_by field: <field>"
    | InvalidOrder                     // "invalid order: must be 'asc' or 'desc'"

  /** url.Values.Get: the value of `key`, or "" when the key is absent. */
  function Get(query: map<string, string>, key: string): string
  {
    if key in query then query[key] else ""
  }

  /** A page or limit parameter: its value when it reads as a positive `int`, otherwise `fallback`. */
  function PositiveOr(raw: string, fallback: int): int
  {
    match Strconv.Atoi(raw)
    case Some(n) => if n > 0 then n else fallback
    case None => fallback
  }

  /** The sort key: the default when `sort_by` is absent or empty, the value itself when whitelisted. */
  function SortByOf(query: map<string, string>, allowed: seq<string>): Result<string, ParseError>
  {
    var s := Get(query, "sort_by");
    if s == "" then Ok(DefaultSortBy)
    else if s in allowed then Ok(s)
    else Err(InvalidSortField(s))
  }

  /** The sort order, compared after lower-casing; absent means ascending. */
  function OrderOf(query: map<string, string>): Result<string, ParseError>
  {
    var o := Strings.ToLower(Get(query, "order"));
    if o == Desc then Ok(Desc)
    else if o == "" || o == Asc then Ok(Asc)
    else Err(InvalidOrder)
  }

  /**
   * What ParsePaginationParams returns, stated parameter by parameter. The offset
   * is the exact product; see OffsetAsWritten for what Go's `int` computes.
   */
  function Parse(query: map<string, string>, allowed: seq<string>): (r: Result<PaginationParams, ParseError>)
    ensures r.Ok? ==> 1 <= r.value.page <= MaxInt64 && 1 <= r.value.limit <= MaxInt64
    ensures r.Ok? ==> r.value.sortBy == DefaultSortBy || r.value.sortBy in allowed
    ensures r.Ok? ==> r.value.order == Asc || r.value.order == Desc
    ensures r.Err? <==> SortByOf(query, allowed).Err? || OrderOf(query).Err?
  {
    var page := PositiveOr(Get(query, "page"), DefaultPage);
    var limit := PositiveOr(Get(query, "limit"), DefaultLimit);
    match SortByOf(query, allowed)
    case Err(e) => Err(e)
    case Ok(sortBy) =>
      match OrderOf(query)
      case Err(e) => Err(e)
      case Ok(order) => Ok(PaginationParams(page, limit, sortBy, order, (page - 1) * limit))
  }

  /** ParsePaginationParams: the defaults overwritten step by step, with the whitelist scanned by a loop. */
  method ParsePaginationParams(query: map<string, string>, allowedSortFields: seq<string>)
    returns (r: Result<PaginationParams, ParseError>)
    ensures r == Parse(query, allowedSortFields)
  {
    var page := DefaultPage;
    var limit := DefaultLimit;
    var sortBy := DefaultSortBy;
    var order := Asc;

    var pageStr := Get(query, "page");
    if pageStr != "" {
      var p := Strconv.Atoi(pageStr);
      if p.Some? && p.value > 0 {
        page := p.value;
      }
    }

    var limitStr := Get(query, "limit");
    if limitStr != "" {
      var l := Strconv.Atoi(limitStr);
      if l.Some? && l.value > 0 {
        limit := l.value;
      }
    }

    var sortByQuery := Get(query, "sort_by");
    if sortByQuery != "" {
      var valid := false;
      for i := 0 to |allowedSortFields|
        invariant valid ==> sortByQuery in allowedSortFields
        invariant !valid ==> sortByQuery !in allowedSortFields[..i]
      {
        if sortByQuery == allowedSortFields[i] {
          valid := true;
          break;
        }
      }
      if !valid {
        assert allowedSortFields[..|allowedSortFields|] == allowedSortFields;
        return Err(InvalidSortField(sortByQuery));
      }
      sortBy := sortByQuery;
    }

    var orderQuery := Strings.ToLower(Get(query, "order"));
    if orderQuery == Desc {
      order := Desc;
    } else if orderQuery != "" && orderQuery != Asc {
      return Err(InvalidOrder);
    }

    var offset := (page - 1) * limit;
    return Ok(PaginationParams(page, limit, sortBy, order, offset));
  }

  lemma {:induction false} MulNonNegative(a: int, b: int)
    requires a >= 0 && b >= 0
    ensures a * b >= 0
  {
    if a > 0 {
      MulNonNegative(a - 1, b);
      assert a * b == (a - 1) * b + b;
    }
  }

  /** The quotient is the one `q` with `q * d <= n < q * d + d`. */
  lemma DivUnique(n: int, d: int, q: int)
    requires d > 0 && q * d <= n < q * d + d
    ensures n / d == q
  {
    var r := n / d;
    assert r * d <= n < r * d + d;
    if r > q {
      assert (r - q - 1) * d == r * d - q * d - d;
      MulNonNegative(r - q - 1, d);
    } else if r < q {
      assert (q - r - 1) * d == q * d - r * d - d;
      MulNonNegative(q - r - 1, d);
    }
  }

  /** A multiple of `b` leaves no remainder and gives back its factor. */
  lemma MultipleOf(a: int, b: int)
    requires a >= 0 && b > 0
    ensures (a * b) / b == a && (a * b) % b == 0
  {
    assert (a + 1) * b == a * b + b;
    DivUnique(a * b, b, a);
  }

  /** The offset is a non-negative multiple of the limit: the first row of the requested page. */
  lemma ParseOffset(query: map<string, string>, allowed: seq<string>)
    requires Parse(query, allowed).Ok?
    ensures var p := Parse(query, allowed).value;
      p.offset == (p.page - 1) * p.limit && p.offset >= 0
    ensures var p := Parse(query, allowed).value;
      p.offset % p.limit == 0 && p.offset / p.limit == p.page - 1
  {
    var p := Parse(query, allowed).value;
    MulNonNegative(p.page - 1, p.limit);
    MultipleOf(p.page - 1, p.limit);
  }

  /** `page` falls back to 1 when it is absent, empty, not an `int` or not positive, and is taken as is otherwise. */
  lemma ParsePage(query: map<string, string>, allowed: seq<string>)
    requires Parse(query, allowed).Ok?
    ensures var raw := Get(query, "page");
      Parse(query, allowed).value.page ==
        if Strconv.IsDecimal(raw) && IsInt64(Strconv.SignedValue(raw)) && Strconv.SignedValue(raw) > 0
        then Strconv.SignedValue(raw) else 1
    ensures "page" !in query || query["page"] == "" ==> Parse(query, allowed).value.page == 1
    ensures var n := Strconv.Atoi(Get(query, "page"));
      n.None? || n.value <= 0 ==> Parse(query, allowed).value.page == 1
    ensures var n := Strconv.Atoi(Get(query, "page"));
      n.Some? && n.value > 0 ==> Parse(query, allowed).value.page == n.value
  {
  }

  /** `limit` follows the same rule, with 10 as its default. */
  lemma ParseLimit(query: map<string, string>, allowed: seq<string>)
    requires Parse(query, allowed).Ok?
    ensures var raw := Get(query, "limit");
      Parse(query, allowed).value.limit ==
        if Strconv.IsDecimal(raw) && IsInt64(Strconv.SignedValue(raw)) && Strconv.SignedValue(raw) > 0
        then Strconv.SignedValue(raw) else 10
    ensures "limit" !in query || query["limit"] == "" ==> Parse(query, allowed).value.limit == 10
    ensures var n := Strconv.Atoi(Get(query, "limit"));
      n.None? || n.value <= 0 ==> Parse(query, allowed).value.limit == 10
    ensures var n := Strconv.Atoi(Get(query, "limit"));
      n.Some? && n.value > 0 ==> Parse(query, allowed).value.limit == n.value
  {
  }

  /** Every positive `int` written as a decimal can be asked for as the page, and is what the page becomes. */
  lemma ParseAnyPage(query: map<string, string>, allowed: seq<string>, n: int)
    requires 1 <= n <= MaxInt64
    requires Parse(query, allowed).Ok?
    ensures Parse(query["page" := Strconv.Itoa(n)], allowed).Ok?
    ensures Parse(query["page" := Strconv.Itoa(n)], allowed).value.page == n
  {
    Strconv.AtoiItoa(n);
    var q := query["page" := Strconv.Itoa(n)];
    assert Get(q, "sort_by") == Get(query, "sort_by") && Get(q, "order") == Get(query, "order");
  }

  /** Whatever `page` or `limit` hold, they never decide whether parsing fails, nor which error it reports. */
  lemma PagingNeverFails(query: map<string, string>, allowed: seq<string>, key: string, v: string)
    requires key == "page" || key == "limit"
    ensures Parse(query[key := v], allowed).Err? == Parse(query, allowed).Err?
    ensures Parse(query, allowed).Err? ==> Parse(query[key := v], allowed) == Parse(query, allowed)
  {
    var q := query[key := v];
    assert Get(q, "sort_by") == Get(query, "sort_by") && Get(q, "order") == Get(query, "order");
  }

  /**
   * A non-empty `sort_by` outside the whitelist is rejected, whatever `order` holds: the
   * sort key is checked first. An absent one gives the default, which is never checked.
   */
  lemma ParseSortBy(query: map<string, string>, allowed: seq<string>)
    ensures var s := Get(query, "sort_by");
      s != "" && s !in allowed ==> Parse(query, allowed) == Err(InvalidSortField(s))
    ensures var s := Get(query, "sort_by");
      s != "" && s in allowed && Parse(query, allowed).Ok? ==> Parse(query, allowed).value.sortBy == s
    ensures Get(query, "sort_by") == "" && OrderOf(query).Ok? ==>
      Parse(query, allowed).Ok? && Parse(query, allowed).value.sortBy == DefaultSortBy
  {
  }

  /**
   * With an accepted sort key, `order` spelt "desc" in any case gives descending order,
   * empty or "asc" in any case gives ascending order, and anything else is InvalidOrder.
   */
  lemma ParseOrder(query: map<string, string>, allowed: seq<string>)
    requires SortByOf(query, allowed).Ok?
    ensures var o := Get(query, "order");
      Strings.SpellsIgnoringCase(o, Desc) ==> Parse(query, allowed).Ok? && Parse(query, allowed).value.order == Desc
    ensures var o := Get(query, "order");
      o == "" || Strings.SpellsIgnoringCase(o, Asc) ==> Parse(query, allowed).Ok? && Parse(query, allowed).value.order == Asc
    ensures var o := Get(query, "order");
      o != "" && !Strings.SpellsIgnoringCase(o, Asc) && !Strings.SpellsIgnoringCase(o, Desc) ==>
        Parse(query, allowed) == Err(InvalidOrder)
  {
    var o := Get(query, "order");
    Strings.ToLowerIsWord(o, Desc);
    Strings.ToLowerIsWord(o, Asc);
  }

  /**
   * WritePaginatedResponse's page count as the source computes it, in Go's 64-bit `int`:
   * `(total + limit - 1) / limit`, where the sum may wrap around and `/` truncates.
   */
  function TotalPagesAsWritten(total: int, limit: int): (r: int)
    requires IsInt64(total) && 1 <= limit <= MaxInt64
    ensures IsInt64(r)
    ensures 0 <= total && total + limit - 1 <= MaxInt64 ==> r == (total + limit - 1) / limit
  {
    Quo(Wrap(total + limit - 1), limit)
  }

  /** The page count the response is meant to carry: the ceiling of total / limit, computed without overflow. */
  function TotalPages(total: int, limit: int): (r: int)
    requires IsInt64(total) && 1 <= limit <= MaxInt64
    ensures total == 0 ==> r == 0
    ensures 0 < total <= limit ==> r == 1
    ensures total >= 0 ==> r >= 0
  {
    total / limit + (if total % limit == 0 then 0 else 1)
  }

  /** TotalPages is the ceiling: the fewest pages of `limit` rows that hold `total` rows, and never more pages than rows. */
  lemma TotalPagesIsCeiling(total: int, limit: int)
    requires IsInt64(total) && 1 <= limit <= MaxInt64
    ensures TotalPages(total, limit) * limit >= total
    ensures (TotalPages(total, limit) - 1) * limit < total
    ensures total == 0 ==> TotalPages(total, limit) == 0
    ensures total >= 0 ==> 0 <= TotalPages(total, limit) <= total
  {
    var q, rem := total / limit, total % limit;
    assert total == q * limit + rem && 0 <= rem < limit;
    assert (q + 1) * limit == q * limit + limit;
    assert (q - 1) * limit == q * limit - limit;
    if total >= 0 {
      if q < 0 {
        assert (-q - 1) * limit == -q * limit - limit;
        MulNonNegative(-q - 1, limit);
      }
      MulNonNegative(q, limit - 1);
      assert q * (limit - 1) == q * limit - q;
    }
  }

  /** Whenever the sum cannot overflow, the source's expression is the ceiling too. */
  lemma TotalPagesAgree(total: int, limit: int)
    requires IsInt64(total) && 1 <= limit <= MaxInt64
    ensures 0 <= total && total + limit - 1 <= MaxInt64 ==> TotalPagesAsWritten(total, limit) == TotalPages(total, limit)
  {
    if 0 <= total && total + limit - 1 <= MaxInt64 {
      var q := TotalPages(total, limit);
      TotalPagesIsCeiling(total, limit);
      assert (q - 1) * limit == q * limit - limit;
      DivUnique(total + limit - 1, limit, q);
    }
  }

  /** Two tasks listed with `limit=9223372036854775807` make the source report -1 pages instead of 1. */
  lemma TotalPagesAsWrittenOverflows()
    ensures TotalPagesAsWritten(2, MaxInt64) == -1
    ensures TotalPages(2, MaxInt64) == 1
  {
  }

  /** The offset as the source computes it: `(page - 1) * limit` in Go's 64-bit `int`. */
  function OffsetAsWritten(page: int, limit: int): (r: int)
    requires 1 <= page <= MaxInt64 && 1 <= limit <= MaxInt64
    ensures IsInt64(r)
    ensures (page - 1) * limit <= MaxInt64 ==> r == (page - 1) * limit
  {
    MulNonNegative(page - 1, limit);
    Wrap((page - 1) * limit)
  }

  /** `page=4611686018427387904&limit=4` is accepted, and the source's offset for it is -4. */
  lemma OffsetAsWrittenOverflows(query: map<string, string>, allowed: seq<string>)
    requires Parse(query, allowed).Ok?
    ensures var q := query["page" := Strconv.Itoa(0x4000_0000_0000_0000)]["limit" := Strconv.Itoa(4)];
      Parse(q, allowed).Ok? &&
      Parse(q, allowed).value.page == 0x4000_0000_0000_0000 && Parse(q, allowed).value.limit == 4 &&
      Parse(q, allowed).value.offset > MaxInt64 &&
      OffsetAsWritten(0x4000_0000_0000_0000, 4) == -4
  {
    var q1 := query["page" := Strconv.Itoa(0x4000_0000_0000_0000)];
    ParseAnyPage(query, allowed, 0x4000_0000_0000_0000);
    Strconv.AtoiItoa(4);
    var q := q1["limit" := Strconv.Itoa(4)];
    assert Get(q, "sort_by") == Get(q1, "sort_by") && Get(q, "order") == Get(q1, "order");
    assert Get(q, "page") == Get(q1, "page");
  }
}
