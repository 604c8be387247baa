/**
 * What the two tenanted list routes share: reading query-string values, JavaScript's
 * `parseInt` on them, the `page` and `limit` parameters with their defaults and cap, the
 * `skip`/`take` window the store returns, and `Math.ceil(total / limit)`.
 */
module Listing {

  import opened Wrappers
  import opened Json
  import opened Strs
  import opened Http
  import opened Store

  /** `Object.fromEntries(searchParams.entries())`: the last value of each name. */
  type Params = map<string, string>

  function Lookup(params: Params, key: string): Option<string> {
    if key in params then Some(params[key]) else None
  }

  const Priorities: seq<string> := ["LOW", "MEDIUM", "HIGH", "URGENT"]

  const QueryInvalid := "查询参数格式错误"
  const BodyInvalid := "请求数据格式错误"

  /** The characters `parseInt` skips before a number: white space and line terminators. */
  predicate IsSpace(c: char) {
    c == '\t' || c == '\n' || c == '\U{000B}' || c == '\U{000C}' || c == '\r' || c == ' '
    || c == '\U{00A0}' || c == '\U{1680}' || ('\U{2000}' <= c <= '\U{200A}')
    || c == '\U{2028}' || c == '\U{2029}' || c == '\U{202F}' || c == '\U{205F}'
    || c == '\U{3000}' || c == '\U{FEFF}'
  }

  /** A character's value as a digit in bases up to 36; 36 for a character that is no digit. */
  function DigitValue(c: char): (d: nat)
    ensures d <= 36
    ensures d < 10 <==> '0' <= c <= '9'
  {
    if '0' <= c <= '9' then c as int - '0' as int
    else if 'a' <= c <= 'z' then c as int - 'a' as int + 10
    else if 'A' <= c <= 'Z' then c as int - 'A' as int + 10
    else 36
  }

  lemma DigitCharValue(d: nat)
    requires d < 10
    ensures DigitValue(DigitChar(d)) == d
  {
  }

  /** The text without its leading white space. */
  function TrimStart(s: string): (r: string)
    ensures |r| <= |s| && r == s[|s| - |r|..]
    ensures r == [] || !IsSpace(r[0])
  {
    if s != [] && IsSpace(s[0]) then TrimStart(s[1..]) else s
  }

  /** The length of the run of base-`base` digits the text starts with. */
  function RunLength(s: string, base: nat): (n: nat)
    ensures n <= |s|
    ensures forall k :: 0 <= k < n ==> DigitValue(s[k]) < base
    ensures n < |s| ==> DigitValue(s[n]) >= base
  {
    if s == [] || DigitValue(s[0]) >= base then 0 else 1 + RunLength(s[1..], base)
  }

  /** The value of a run of digits, most significant first. */
  function Value(ds: string, base: nat): nat
    requires forall k :: 0 <= k < |ds| ==> DigitValue(ds[k]) < base
  {
    if ds == [] then 0 else Value(ds[..|ds| - 1], base) * base + DigitValue(ds[|ds| - 1])
  }

  /** The longest run of base-`base` digits at the start, read as a number; None when there is none. */
  function Digits(ds: string, base: nat): (r: Option<nat>)
    ensures r.None? <==> RunLength(ds, base) == 0
  {
    var n := RunLength(ds, base);
    if n == 0 then None else Some(Value(ds[..n], base))
  }

  /** An unsigned number: base 16 after a `0x`/`0X` prefix, base 10 otherwise. */
  function Unsigned(u: string): Option<nat> {
    if |u| >= 2 && u[0] == '0' && (u[1] == 'x' || u[1] == 'X') then Digits(u[2..], 16) else Digits(u, 10)
  }

  /** A number after the white space: an optional sign, then an unsigned number. */
  function Signed(t: string): Option<int> {
    if t != [] && t[0] == '-' then
      match Unsigned(t[1..]) case Some(v) => Some(0 - v) case None => None
    else if t != [] && t[0] == '+' then
      match Unsigned(t[1..]) case Some(v) => Some(v) case None => None
    else
      match Unsigned(t) case Some(v) => Some(v) case None => None
  }

  /**
   * `parseInt(s)` with no radix: leading white space skipped, an optional sign, then an
   * unsigned number; `NaN` (None) when no digit follows. Whatever follows the digits is
   * ignored.
   */
  function ParseInt(s: string): Option<int> {
    Signed(TrimStart(s))
  }

  /** The decimal rendering of a positive number does not start with `0`. */
  lemma {:induction false} DecimalLeadingDigit(n: nat)
    requires n > 0
    ensures Decimal(n)[0] != '0'
    decreases n
  {
    if n >= 10 {
      DecimalLeadingDigit(n / 10);
    }
  }

  /** A run of digits followed by a non-digit is read up to its end. */
  lemma {:induction false} RunLengthOfDigits(ds: string, suffix: string, base: nat)
    requires forall k :: 0 <= k < |ds| ==> DigitValue(ds[k]) < base
    requires suffix == [] || DigitValue(suffix[0]) >= base
    ensures RunLength(ds + suffix, base) == |ds|
  {
    if ds != [] {
      assert (ds + suffix)[1..] == ds[1..] + suffix;
      RunLengthOfDigits(ds[1..], suffix, base);
    }
  }

  /** Reading back a decimal rendering gives the number. */
  lemma {:induction false} ValueOfDecimal(n: nat)
    ensures Value(Decimal(n), 10) == n
    decreases n
  {
    var d := Decimal(n);
    if n < 10 {
      DigitCharValue(n);
      assert d[..0] == [];
    } else {
      ValueOfDecimal(n / 10);
      DigitCharValue(n % 10);
      assert d[..|d| - 1] == Decimal(n / 10);
    }
  }

  /** A decimal rendering followed by a non-digit reads back as the number, in base 10. */
  lemma UnsignedDecimal(n: nat, suffix: string)
    requires suffix == [] || (DigitValue(suffix[0]) >= 10 && (n != 0 || (suffix[0] != 'x' && suffix[0] != 'X')))
    ensures Unsigned(Decimal(n) + suffix) == Some(n)
  {
    var d := Decimal(n);
    RunLengthOfDigits(d, suffix, 10);
    ValueOfDecimal(n);
    assert (d + suffix)[..|d|] == d;
    if n > 0 {
      DecimalLeadingDigit(n);
    } else {
      assert d == "0";
    }
  }

  /**
   * `parseInt` reads back what a number prints as, with or without a minus sign, whatever
   * non-digit text follows (other than the `x` that would turn a lone `0` into a hex prefix).
   */
  lemma ParseIntDecimal(n: nat, suffix: string)
    requires suffix == [] || (DigitValue(suffix[0]) >= 10 && (n != 0 || (suffix[0] != 'x' && suffix[0] != 'X')))
    ensures ParseInt(Decimal(n) + suffix) == Some(n)
    ensures ParseInt("-" + Decimal(n) + suffix) == Some(-(n as int))
  {
    var t := Decimal(n) + suffix;
    UnsignedDecimal(n, suffix);
    assert t[0] == Decimal(n)[0];
    ReadSigned(t, n);
    Regroup("-", Decimal(n), suffix);
  }

  lemma Regroup(a: string, b: string, c: string)
    ensures a + b + c == a + (b + c)
  {
  }

  /** Text that starts with a digit and reads as `n` unsigned reads as `n` and, after a minus sign, as `-n`. */
  lemma ReadSigned(t: string, n: nat)
    requires t != [] && DigitValue(t[0]) < 10 && Unsigned(t) == Some(n)
    ensures ParseInt(t) == Some(n)
    ensures ParseInt(['-'] + t) == Some(-(n as int))
  {
    assert TrimStart(t) == t;
    ReadNegative(t, n);
  }

  lemma ReadNegative(t: string, n: nat)
    requires t != [] && DigitValue(t[0]) < 10 && Unsigned(t) == Some(n)
    ensures ParseInt(['-'] + t) == Some(-(n as int))
  {
    var u := ['-'] + t;
    assert TrimStart(u) == u;
    assert u[1..] == t;
  }

  /** White space before a number does not change what `parseInt` reads. */
  lemma LeadingSpaceIgnored(c: char, s: string)
    requires IsSpace(c)
    ensures ParseInt([c] + s) == ParseInt(s)
  {
    assert ([c] + s)[1..] == s;
    assert TrimStart([c] + s) == TrimStart(s);
  }

  /** Text that starts with no digit, sign or white space is `NaN` to `parseInt`. */
  lemma NonNumericIsNaN(s: string)
    requires s == [] || (DigitValue(s[0]) >= 10 && !IsSpace(s[0]) && s[0] != '-' && s[0] != '+')
    ensures ParseInt(s).None?
  {
  }

  /** `page`: `parseInt(val) || 1`, and 1 when the parameter is absent. */
  function PageParam(raw: Option<string>): (page: int)
    ensures page != 0
    ensures raw.None? ==> page == 1
  {
    if raw.None? then 1
    else match ParseInt(raw.value)
      case Some(v) => if v != 0 then v else 1
      case None => 1
  }

  /** `limit`: `Math.min(parseInt(val) || 10, 100)`, and 10 when the parameter is absent. */
  function LimitParam(raw: Option<string>): (limit: int)
    ensures limit != 0 && limit <= 100
    ensures raw.None? ==> limit == 10
  {
    if raw.None? then 10
    else
      var v := match ParseInt(raw.value) case Some(v) => if v != 0 then v else 10 case None => 10;
      if v < 100 then v else 100
  }

  /** A page number given in decimal is taken as it is; a limit is capped at 100. */
  lemma PageAndLimitFromDecimal(n: nat, suffix: string)
    requires n > 0
    requires suffix == [] || DigitValue(suffix[0]) >= 10
    ensures PageParam(Some(Decimal(n) + suffix)) == n
    ensures LimitParam(Some(Decimal(n) + suffix)) == if n < 100 then n else 100
  {
    ParseIntDecimal(n, suffix);
  }

  /** `"0"` and text that is no number fall back to page 1 and limit 10. */
  lemma ZeroOrNaNDefaults(s: string)
    requires s == "0" || ParseInt(s).None?
    ensures PageParam(Some(s)) == 1 && LimitParam(Some(s)) == 10
  {
    if s == "0" {
      ParseIntDecimal(0, "");
      assert Decimal(0) + "" == "0";
    }
  }

  /** `Math.ceil(total / limit)`. */
  function CeilDiv(total: nat, limit: int): (pages: int)
    requires limit != 0
    ensures limit > 0 ==> (pages - 1) * limit < total <= pages * limit
    ensures limit < 0 ==> pages * limit <= total < (pages - 1) * limit
  {
    if limit > 0 then (total + limit - 1) / limit else -(total / -limit)
  }

  /**
   * What `findMany` returns for `skip` and `take`: `take` rows from position `skip` on; a
   * negative `take` counts back from the end of the list, `skip` rows before it.
   */
  function Window(rows: seq<Row>, skip: nat, take: int): (r: seq<Row>)
    requires take != 0
    ensures take > 0 ==> |r| == (if skip >= |rows| then 0 else if take < |rows| - skip then take else |rows| - skip)
    ensures take > 0 ==> forall k :: 0 <= k < |r| ==> skip + k < |rows| && r[k] == rows[skip + k]
    ensures take < 0 ==> |r| == (if skip >= |rows| then 0 else if -take < |rows| - skip then -take else |rows| - skip)
    ensures take < 0 ==> forall k :: 0 <= k < |r| ==> 0 <= |rows| - skip - |r| + k < |rows| && r[k] == rows[|rows| - skip - |r| + k]
  {
    if skip >= |rows| then []
    else if take > 0 then
      if take < |rows| - skip then rows[skip..skip + take] else rows[skip..]
    else
      var end := |rows| - skip;
      if -take < end then rows[end + take..end] else rows[..end]
  }

  /** The `pagination` object of a list response. */
  datatype Pagination = Pagination(page: int, limit: int, total: nat, totalPages: int)

  /** A list response's data: the page of rows and the pagination. */
  datatype ListPage = ListPage(rows: seq<Row>, pagination: Pagination)

  /**
   * The page for `page` and `limit` over every matching row: `skip` is `(page - 1) * limit`,
   * and the store refuses a negative `skip`, which the handler reports as a 500.
   */
  function Paginate(all: seq<Row>, page: int, limit: int): (r: Response<ListPage>)
    requires limit != 0
    ensures r.Err? <==> (page - 1) * limit < 0
    ensures r.Err? ==> r == InternalError()
    ensures r.Ok? ==> r.data.pagination == Pagination(page, limit, |all|, CeilDiv(|all|, limit))
    ensures r.Ok? ==> r.data.rows == Window(all, (page - 1) * limit, limit)
  {
    var offset := (page - 1) * limit;
    if offset < 0 then InternalError()
    else Ok(ListPage(Window(all, offset, limit), Pagination(page, limit, |all|, CeilDiv(|all|, limit))))
  }

  /** A page holds rows of the list it was cut from. */
  lemma PageRowsFromAll(all: seq<Row>, page: int, limit: int)
    requires limit != 0
    ensures Paginate(all, page, limit).Ok? ==>
      forall k :: 0 <= k < |Paginate(all, page, limit).data.rows| ==> Paginate(all, page, limit).data.rows[k] in all
  {
  }

  /**
   * With a positive limit every row is on exactly one page up to `totalPages`: row `i` is
   * item `i % limit` of page `i / limit + 1`.
   */
  lemma PagesCoverRows(all: seq<Row>, limit: int, i: nat)
    requires limit > 0 && i < |all|
    ensures var page := i / limit + 1;
      1 <= page <= CeilDiv(|all|, limit)
      && Paginate(all, page, limit).Ok?
      && i % limit < |Paginate(all, page, limit).data.rows|
      && Paginate(all, page, limit).data.rows[i % limit] == all[i]
  {
    var q := i / limit;
    var page := q + 1;
    assert q * limit + i % limit == i;
    assert (page - 1) * limit == q * limit;
    var pages := CeilDiv(|all|, limit);
    assert q * limit < pages * limit;
    MulCancel(q, pages, limit);
  }

  /** Pages past `totalPages` are empty. */
  lemma PastLastPageEmpty(all: seq<Row>, page: int, limit: int)
    requires limit > 0 && page > CeilDiv(|all|, limit)
    ensures Paginate(all, page, limit) == Ok(ListPage([], Pagination(page, limit, |all|, CeilDiv(|all|, limit))))
  {
    var pages := CeilDiv(|all|, limit);
    MulMonotone(pages, page - 1, limit);
    assert (page - 1) * limit >= |all|;
  }

  lemma MulCancel(a: int, b: int, c: int)
    requires c > 0 && a * c < b * c
    ensures a < b
  {
    if a >= b {
      MulMonotone(b, a, c);
    }
  }

  lemma MulMonotone(a: int, b: int, c: int)
    requires a <= b && c > 0
    ensures a * c <= b * c
  {
  }

  /**
   * `z.enum(values).optional()` on a query parameter: absent (`Some(None)`), one of the
   * values, or a validation failure (None).
   */
  function EnumParam(params: Params, key: string, values: seq<string>): (r: Option<Option<string>>)
    ensures key !in params ==> r == Some(None)
    ensures key in params ==> (r.Some? <==> params[key] in values)
    ensures r.Some? ==> r.value == Lookup(params, key)
  {
    if key !in params then Some(None)
    else if params[key] in values then Some(Some(params[key]))
    else None
  }

  /** `{ ...row, key: value }` for a field that was given; the row itself otherwise. */
  function With(row: Row, key: string, value: Option<Json>): (r: Row)
    ensures r.Keys == if value.Some? then row.Keys + {key} else row.Keys
    ensures value.Some? ==> r[key] == value.value
    ensures forall k :: k in row && k != key ==> r[k] == row[k]
  {
    if value.Some? then row[key := value.value] else row
  }

  /** A given string field as JSON. */
  function StrOpt(o: Option<string>): (j: Option<Json>)
    ensures j.Some? <==> o.Some?
    ensures o.Some? ==> j == Some(JStr(o.value))
  {
    if o.Some? then Some(JStr(o.value)) else None
  }

  /** `if (value) where[key] = value`: the key is in the filter exactly when the value is truthy. */
  predicate Filtered(w: Where, key: string, value: Option<string>) {
    (key in w <==> Present(value)) && (key in w ==> w[key] == Is(JStr(value.value)))
  }
}
