/** The page/limit normalisation repeated across the admin and owner listing
    routes: `Math.max(1, parseInt(page, 10) || 1)`,
    `Math.min(cap, Math.max(1, parseInt(limit, 10) || dflt))`,
    `skip = (page - 1) * limit` and `totalPages = Math.ceil(total / limit)`. */
module QueryParams {
  import opened Common
  import opened Text

  /** JavaScript's white space and line terminators, which `parseInt` skips
      and `Number` trims: tab, line feed, vertical tab, form feed, carriage
      return, the space separators of Unicode, the line and paragraph
      separators, and the byte-order mark. */
  predicate IsSpace(c: char)
  {
    c == '\t' || c == '\n' || c == '\U{000B}' || c == '\U{000C}' || c == '\r' || c == ' ' ||
    c == '\U{00A0}' || c == '\U{1680}' || ('\U{2000}' <= c <= '\U{200A}') ||
    c == '\U{2028}' || c == '\U{2029}' || c == '\U{202F}' || c == '\U{205F}' || c == '\U{3000}' ||
    c == '\U{FEFF}'
  }

  function TrimStart(s: string): string
  {
    if s != [] && IsSpace(s[0]) then TrimStart(s[1..]) else s
  }

  /** The longest prefix of `s` made of decimal digits. */
  function LeadingDigits(s: string): (d: string)
    ensures AllDigits(d) && d <= s
  {
    if s != [] && IsDigit(s[0]) then [s[0]] + LeadingDigits(s[1..]) else []
  }

  /** The text after one leading sign, if there is one. */
  function Unsigned(t: string): (u: string)
    ensures |u| <= |t| <= |u| + 1 && u == t[|t| - |u|..]
    ensures u != t <==> t != [] && (t[0] == '-' || t[0] == '+')
  {
    if t != [] && (t[0] == '-' || t[0] == '+') then t[1..] else t
  }

  /** `parseInt(s, 10)`: leading white space is skipped, an optional sign is
      read, then as many digits as follow; `None` stands for NaN (no digit). */
  function ParseInt(s: string): (v: Option<int>)
    ensures v.None? <==> LeadingDigits(Unsigned(TrimStart(s))) == []
    ensures v.Some? ==> v.value == (if TrimStart(s)[0] == '-' then -1 else 1) * DigitsValue(LeadingDigits(Unsigned(TrimStart(s))))
    ensures v.Some? && v.value < 0 ==> TrimStart(s)[0] == '-'
  {
    var t := TrimStart(s);
    var negative := t != [] && t[0] == '-';
    var body := Unsigned(t);
    var digits := LeadingDigits(body);
    if digits == [] then None
    else if negative then Some(0 - DigitsValue(digits) as int)
    else Some(DigitsValue(digits) as int)
  }

  lemma {:induction false} LeadingDigitsStop(d: string, rest: string)
    requires AllDigits(d)
    requires rest == [] || !IsDigit(rest[0])
    ensures LeadingDigits(d + rest) == d
  {
    if d != [] {
      assert (d + rest)[1..] == d[1..] + rest;
      LeadingDigitsStop(d[1..], rest);
      assert [d[0]] + d[1..] == d;
    } else {
      assert d + rest == rest;
    }
  }

  /** parseInt reads back what a template literal prints, and ignores
      whatever follows the digits ("12abc" gives 12). */
  lemma ParseIntOfRendered(n: nat, rest: string)
    requires rest == [] || !IsDigit(rest[0])
    ensures ParseInt(NatToString(n) + rest) == Some(n)
  {
    var s := NatToString(n) + rest;
    assert s[0] == NatToString(n)[0];
    assert TrimStart(s) == s;
    LeadingDigitsStop(NatToString(n), rest);
    NatToStringRoundTrip(n);
  }

  /** A minus sign in front of a rendered number negates it. */
  lemma ParseIntOfNegative(n: nat, rest: string)
    requires rest == [] || !IsDigit(rest[0])
    ensures ParseInt("-" + NatToString(n) + rest) == Some(0 - n as int)
  {
    var d := NatToString(n);
    MinusIsRead(d + rest);
    assert "-" + d + rest == "-" + (d + rest);
    LeadingDigitsStop(d, rest);
    NatToStringRoundTrip(n);
  }

  /** A leading '-' is neither skipped as blank nor kept as a digit. */
  lemma MinusIsRead(body: string)
    ensures TrimStart("-" + body)[0] == '-' && Unsigned(TrimStart("-" + body)) == body
  {
    var s := "-" + body;
    assert s[0] == '-' && !IsSpace('-');
    assert s[1..] == body;
  }

  /** A string whose first non-blank character is neither a sign nor a digit
      parses to NaN. */
  lemma ParseIntNaN(s: string)
    requires TrimStart(s) == [] || (TrimStart(s)[0] !in "+-" && !IsDigit(TrimStart(s)[0]))
    ensures ParseInt(s) == None
  {
  }

  /** JavaScript's `x || d` on the result of parseInt: NaN and 0 are falsy. */
  function OrDefault(v: Option<int>, d: int): int
  {
    if v.Some? && v.value != 0 then v.value else d
  }

  function Max(a: int, b: int): int { if a < b then b else a }
  function Min(a: int, b: int): int { if a < b then a else b }

  /** `Math.max(1, v || 1)` for the number `v` read from the page parameter
      (`None` is NaN). */
  function PageNumber(v: Option<int>): (p: nat)
    ensures p >= 1
    ensures v.Some? && v.value >= 1 ==> p == v.value
    ensures (v.None? || v.value <= 1) ==> p == 1
  {
    Max(1, OrDefault(v, 1))
  }

  /** `Math.min(cap, Math.max(1, v || dflt))`. */
  function LimitNumber(v: Option<int>, dflt: nat, cap: nat): (l: nat)
    requires 1 <= dflt <= cap
    ensures 1 <= l <= cap
    ensures v == None || v == Some(0) ==> l == dflt
    ensures v.Some? && 1 <= v.value <= cap ==> l == v.value
    ensures v.Some? && v.value > cap ==> l == cap
    ensures v.Some? && v.value < 0 ==> l == 1
  {
    Min(cap, Max(1, OrDefault(v, dflt)))
  }

  /** `Math.ceil(total / limit)`: the least number of pages of `limit` rows
      that hold `total` rows. */
  function TotalPages(total: nat, limit: nat): (pages: nat)
    requires limit > 0
    ensures pages * limit >= total
    ensures pages > 0 ==> (pages - 1) * limit < total
  {
    (total + limit - 1) / limit
  }

  /** The normalised paging parameters of one listing request. */
  datatype Paging = Paging(page: nat, limit: nat, skip: nat)

  /** Paging read with `parseInt(text, 10)`. */
  function Paginate(pageText: string, limitText: string, dflt: nat, cap: nat): (p: Paging)
    requires 1 <= dflt <= cap
    ensures p.page >= 1 && 1 <= p.limit <= cap
    ensures p.skip == (p.page - 1) * p.limit
    ensures p.page == PageNumber(ParseInt(pageText)) && p.limit == LimitNumber(ParseInt(limitText), dflt, cap)
  {
    PagingOf(ParseInt(pageText), ParseInt(limitText), dflt, cap)
  }

  function PagingOf(page: Option<int>, limit: Option<int>, dflt: nat, cap: nat): (p: Paging)
    requires 1 <= dflt <= cap
    ensures p.page >= 1 && 1 <= p.limit <= cap
    ensures p.skip == (p.page - 1) * p.limit
  {
    var page := PageNumber(page);
    var limit := LimitNumber(limit, dflt, cap);
    Paging(page, limit, (page - 1) * limit)
  }

  function TrimEnd(s: string): string
  {
    if s != [] && IsSpace(s[|s| - 1]) then TrimEnd(s[..|s| - 1]) else s
  }

  /** `Number(param)` on a query parameter, for whole numbers: an absent
      parameter is NaN, a blank one is 0, and otherwise the text without its
      surrounding white space must be an optional sign and digits. */
  function JsNumber(param: Option<string>): (v: Option<int>)
    ensures param.None? ==> v.None?
    ensures param.Some? && TrimEnd(TrimStart(param.value)) == [] ==> v == Some(0)
    ensures param.Some? && TrimEnd(TrimStart(param.value)) != [] ==>
      var body := Unsigned(TrimEnd(TrimStart(param.value)));
      (v.Some? <==> body != [] && AllDigits(body)) &&
      (v.Some? ==> v.value == (if TrimEnd(TrimStart(param.value))[0] == '-' then -1 else 1) * DigitsValue(body))
  {
    if param.None? then None
    else
      var t := TrimEnd(TrimStart(param.value));
      if t == [] then Some(0)
      else
        var body := Unsigned(t);
        if body == [] || !AllDigits(body) then None
        else if t[0] == '-' then Some(0 - DigitsValue(body) as int)
        else Some(DigitsValue(body) as int)
  }

  /** `Number` reads back a rendered number, but unlike `parseInt` it refuses
      trailing text and reads a blank parameter as 0. */
  lemma JsNumberVersusParseInt(n: nat)
    ensures JsNumber(Some(NatToString(n))) == Some(n)
    ensures JsNumber(Some(NatToString(n) + "x")) == None
    ensures ParseInt(NatToString(n) + "x") == Some(n)
    ensures JsNumber(Some("")) == Some(0) && ParseInt("") == None
  {
    var d := NatToString(n);
    assert d[0] != '-' && d[0] != '+' && !IsSpace(d[0]) && !IsSpace(d[|d| - 1]);
    assert TrimStart(d) == d;
    assert TrimEnd(d) == d;
    NatToStringRoundTrip(n);
    var dx := d + "x";
    assert dx[0] == d[0] && !IsSpace(dx[|dx| - 1]);
    assert TrimStart(dx) == dx && TrimEnd(dx) == dx;
    assert dx[|dx| - 1] == 'x' && !IsDigit(dx[|dx| - 1]);
    ParseIntOfRendered(n, "x");
  }

  /** Paging read with `Number(param)`, as the plant listing does. */
  function NumberPaginate(page: Option<string>, limit: Option<string>, dflt: nat, cap: nat): (p: Paging)
    requires 1 <= dflt <= cap
    ensures p.page >= 1 && 1 <= p.limit <= cap
    ensures p.skip == (p.page - 1) * p.limit
    ensures p.page == PageNumber(JsNumber(page)) && p.limit == LimitNumber(JsNumber(limit), dflt, cap)
  {
    PagingOf(JsNumber(page), JsNumber(limit), dflt, cap)
  }

  /** The `meta` block every listing returns. */
  datatype Meta = Meta(page: nat, limit: nat, total: nat, totalPages: nat)

  function MetaOf(p: Paging, total: nat): (m: Meta)
    requires p.limit > 0
    ensures m.page == p.page && m.limit == p.limit && m.total == total
    ensures m.totalPages == TotalPages(total, p.limit)
  {
    Meta(p.page, p.limit, total, TotalPages(total, p.limit))
  }

  /** An unparsable limit and the limit "0" are treated alike: both give the
      default, because `||` cannot tell NaN from 0. */
  lemma ZeroLimitIsDefault(dflt: nat, cap: nat)
    requires 1 <= dflt <= cap
    ensures LimitNumber(ParseInt("0"), dflt, cap) == dflt
    ensures LimitNumber(ParseInt("abc"), dflt, cap) == dflt
  {
    assert ParseInt("0") == Some(0) by {
      ParseIntOfRendered(0, "");
      assert NatToString(0) + "" == "0";
    }
    assert ParseInt("abc") == None by {
      assert !IsSpace('a') && TrimStart("abc") == "abc";
      ParseIntNaN("abc");
    }
  }

  /** A negative limit is truthy, so it is kept and then raised to 1. */
  lemma NegativeLimitIsOne(dflt: nat, cap: nat)
    requires 1 <= dflt <= cap
    ensures LimitNumber(ParseInt("-5"), dflt, cap) == 1
  {
    ParseIntOfNegative(5, "");
    assert "-" + NatToString(5) + "" == "-5";
  }

  /** Prisma's `skip`/`take`: at most `take` rows, starting `skip` rows in. */
  function TakePage<T>(rows: seq<T>, skip: nat, take: nat): (page: seq<T>)
    ensures |page| <= take
    ensures |page| == if skip >= |rows| then 0 else Min(take, |rows| - skip)
    ensures forall i :: 0 <= i < |page| ==> page[i] == rows[skip + i]
  {
    if skip >= |rows| then [] else rows[skip..skip + Min(take, |rows| - skip)]
  }

  /** Consecutive pages neither overlap nor leave a gap: page p + 1 starts
      where page p ends. */
  lemma PagesTile<T>(rows: seq<T>, p: nat, limit: nat)
    requires limit > 0
    requires (p + 1) * limit <= |rows|
    ensures TakePage(rows, p * limit, limit) + TakePage(rows, (p + 1) * limit, limit)
      == TakePage(rows, p * limit, 2 * limit)
  {
  }

  /** A query parameter used as `if (param)`: present and not empty. */
  predicate Given(param: Option<string>)
  {
    param.Some? && param.value != ""
  }
}
