/**
 * The request-checking middleware: pagination and date-range query checks,
 * the e-mail and phone patterns, the recursive clean-up of request bodies,
 * and the per-address request limiter.
 */
module Validation {
  import opened Base
  import opened Text
  import opened ReservationTypes

  // ---------------------------------------------------------------------
  // validatePagination
  // ---------------------------------------------------------------------

  /**
   * A numeric query parameter as the middleware sees it: absent (or empty,
   * which is falsy), not a number, or a number whose `parseInt` is `n`.
   */
  datatype NumParam = Absent | NotANumber | Numeric(n: int)

  datatype Pagination = Pagination(page: int, limit: int)

  datatype PaginationOutcome = InvalidPage | InvalidLimit | Paged(pagination: Pagination)

  /** `page` is rejected when given and either not a number or below 1. */
  predicate PageRejected(page: NumParam)
  {
    page.NotANumber? || (page.Numeric? && page.n < 1)
  }

  /** `limit` is rejected when given and either not a number or outside 1 to 100. */
  predicate LimitRejected(limit: NumParam)
  {
    limit.NotANumber? || (limit.Numeric? && (limit.n < 1 || limit.n > 100))
  }

  /** `parseInt(x) || d`: the parsed number unless it is NaN or 0. */
  function OrDefault(x: NumParam, d: int): int
  {
    if x.Numeric? && x.n != 0 then x.n else d
  }

  /**
   * `validatePagination`: `page` is checked before `limit`; on success the
   * pagination holds the parsed values, 1 and 10 standing in for absent ones.
   */
  function ValidatePagination(page: NumParam, limit: NumParam): (o: PaginationOutcome)
    ensures o.Paged? ==> o.pagination.page >= 1 && 1 <= o.pagination.limit <= 100
  {
    if PageRejected(page) then InvalidPage
    else if LimitRejected(limit) then InvalidLimit
    else Paged(Pagination(OrDefault(page, 1), OrDefault(limit, 10)))
  }

  /**
   * Which parameter is blamed, and what an accepted request gets: the
   * given values, or the defaults 1 and 10 when absent.
   */
  lemma ValidatePaginationSpec(page: NumParam, limit: NumParam)
    ensures ValidatePagination(page, limit).InvalidPage? <==> PageRejected(page)
    ensures ValidatePagination(page, limit).InvalidLimit? <==> !PageRejected(page) && LimitRejected(limit)
    ensures ValidatePagination(page, limit).Paged? ==>
      && ValidatePagination(page, limit).pagination.page == (if page.Numeric? then page.n else 1)
      && ValidatePagination(page, limit).pagination.limit == (if limit.Numeric? then limit.n else 10)
  {
  }

  // ---------------------------------------------------------------------
  // validateDateRange
  // ---------------------------------------------------------------------

  datatype DateRangeOutcome = InvalidDebut | InvalidFin | ReversedRange | RangeOk

  /**
   * `validateDateRange`: each bound, when given (None stands for absent or
   * empty), must parse; when both are given the start must not be after the
   * end.
   */
  function ValidateDateRange(debut: Option<DateInput>, fin: Option<DateInput>): (o: DateRangeOutcome)
    ensures o.RangeOk? ==> debut != Some(Unparseable) && fin != Some(Unparseable)
    ensures o.RangeOk? && debut.Some? && fin.Some? ==> debut.value.ms <= fin.value.ms
  {
    if debut == Some(Unparseable) then InvalidDebut
    else if fin == Some(Unparseable) then InvalidFin
    else if debut.Some? && fin.Some? && debut.value.ms > fin.value.ms then ReversedRange
    else RangeOk
  }

  /**
   * A range is accepted exactly when every given bound parses and, with both
   * bounds given, the start is not after the end; a missing bound never
   * causes a rejection.
   */
  lemma ValidateDateRangeSpec(debut: Option<DateInput>, fin: Option<DateInput>)
    ensures ValidateDateRange(debut, fin) == RangeOk <==>
      && (debut.Some? ==> debut.value.DateAt?)
      && (fin.Some? ==> fin.value.DateAt?)
      && (debut.Some? && fin.Some? ==> NotAfter(debut.value, fin.value))
    ensures ValidateDateRange(debut, fin) == ReversedRange <==>
      debut.Some? && fin.Some? && debut.value.DateAt? && fin.value.DateAt? && !NotAfter(debut.value, fin.value)
    ensures debut.None? && (fin.Some? ==> fin.value.DateAt?) ==> ValidateDateRange(debut, fin) == RangeOk
    ensures fin.None? && (debut.Some? ==> debut.value.DateAt?) ==> ValidateDateRange(debut, fin) == RangeOk
  {
  }

  // ---------------------------------------------------------------------
  // validateEmail
  // ---------------------------------------------------------------------

  /** A character the class `[^\s@]` matches. */
  predicate Plain(c: char)
  {
    !IsSpace(c) && c != '@'
  }

  predicate AllPlain(s: string)
  {
    forall k :: 0 <= k < |s| ==> Plain(s[k])
  }

  /** A `.` with at least one character on each side. */
  predicate HasInnerDot(t: string)
  {
    exists j :: 0 < j < |t| - 1 && t[j] == '.'
  }

  function IsAt(c: char): bool { c == '@' }

  /**
   * `validateEmail`: a non-empty run of plain characters, `@`, then a plain
   * domain holding an inner `.`.
   */
  function ValidateEmail(s: string): (b: bool)
    ensures b ==> |s| >= 5 && '@' in s
  {
    match FindIndex(s, IsAt)
    case None => false
    case Some(i) => 0 < i && AllPlain(s[..i]) && AllPlain(s[i + 1..]) && HasInnerDot(s[i + 1..])
  }

  /**
   * An accepted address has exactly one `@`, after a non-empty local part,
   * no whitespace, and a `.` after the `@` with text on both sides.
   */
  lemma ValidateEmailProperties(s: string)
    requires ValidateEmail(s)
    ensures exists i :: 0 < i < |s| && s[i] == '@' && forall k :: 0 <= k < |s| && k != i ==> s[k] != '@'
    ensures forall k :: 0 <= k < |s| ==> !IsSpace(s[k])
    ensures exists i, j :: 0 < i && i + 1 < j < |s| - 1 && s[i] == '@' && s[j] == '.'
  {
    var i := FindIndex(s, IsAt).value;
    var local, domain := s[..i], s[i + 1..];
    forall k | 0 <= k < |s| && k != i ensures Plain(s[k]) {
      if k < i { assert s[k] == local[k]; } else { assert s[k] == domain[k - i - 1]; }
    }
    var j :| 0 < j < |domain| - 1 && domain[j] == '.';
    assert s[i + 1 + j] == '.';
  }

  /** The shape the regular expression `^[^\s@]+@[^\s@]+\.[^\s@]+$` describes. */
  function EmailOf(local: string, host: string, tld: string): string
  {
    local + "@" + host + "." + tld
  }

  ghost predicate EmailPattern(s: string)
  {
    exists local, host, tld ::
      && local != [] && host != [] && tld != []
      && AllPlain(local) && AllPlain(host) && AllPlain(tld)
      && s == EmailOf(local, host, tld)
  }

  /** The check accepts exactly the strings of the pattern. */
  lemma ValidateEmailIff(s: string)
    ensures ValidateEmail(s) <==> EmailPattern(s)
  {
    if ValidateEmail(s) {
      AcceptedEmailSplits(s);
    }
    if EmailPattern(s) {
      var local, host, tld :| && local != [] && host != [] && tld != []
        && AllPlain(local) && AllPlain(host) && AllPlain(tld)
        && s == EmailOf(local, host, tld);
      EmailOfAccepted(local, host, tld);
    }
  }

  lemma AcceptedEmailSplits(s: string)
    requires ValidateEmail(s)
    ensures EmailPattern(s)
  {
    var i := FindIndex(s, IsAt).value;
    var domain := s[i + 1..];
    var j :| 0 < j < |domain| - 1 && domain[j] == '.';
    DomainSplits(domain, j);
    var local, host, tld := s[..i], domain[..j], domain[j + 1..];
    assert s == local + "@" + domain;
    assert s == EmailOf(local, host, tld);
  }

  lemma DomainSplits(domain: string, j: int)
    requires AllPlain(domain) && 0 < j < |domain| - 1 && domain[j] == '.'
    ensures domain == domain[..j] + "." + domain[j + 1..]
    ensures AllPlain(domain[..j]) && AllPlain(domain[j + 1..])
  {
    var host, tld := domain[..j], domain[j + 1..];
    assert forall k :: 0 <= k < |host| ==> host[k] == domain[k];
    assert forall k :: 0 <= k < |tld| ==> tld[k] == domain[j + 1 + k];
  }

  lemma EmailOfAccepted(local: string, host: string, tld: string)
    requires local != [] && host != [] && tld != []
    requires AllPlain(local) && AllPlain(host) && AllPlain(tld)
    ensures ValidateEmail(EmailOf(local, host, tld))
  {
    var s := EmailOf(local, host, tld);
    var i := |local|;
    var domain := host + "." + tld;
    assert s == local + "@" + domain;
    assert s[i] == '@';
    assert forall k :: 0 <= k < i ==> !IsAt(s[k]) by {
      assert forall k :: 0 <= k < i ==> s[k] == local[k];
    }
    assert FindIndex(s, IsAt) == Some(i);
    assert s[..i] == local && s[i + 1..] == domain;
    assert AllPlain(domain) by {
      forall k | 0 <= k < |domain| ensures Plain(domain[k]) {
        if k < |host| { assert domain[k] == host[k]; }
        else if k > |host| { assert domain[k] == tld[k - |host| - 1]; }
      }
    }
    assert domain[|host|] == '.';
  }

  // ---------------------------------------------------------------------
  // validatePhone
  // ---------------------------------------------------------------------

  function NotSpace(c: char): bool { !IsSpace(c) }

  /** `replace(/\s/g, '')`. */
  function RemoveSpaces(s: string): (r: string)
  {
    Filter(s, NotSpace)
  }

  /** What follows the prefix `+33` or `0`, tried in that order. */
  function AfterPrefix(t: string): (rest: Option<string>)
  {
    if |t| >= 3 && t[..3] == "+33" then Some(t[3..])
    else if |t| >= 1 && t[0] == '0' then Some(t[1..])
    else None
  }

  /** `[1-9](\d{8})`: nine digits, the first not 0. */
  predicate SubscriberNumber(r: string)
  {
    |r| == 9 && '1' <= r[0] <= '9' && AllDigits(r)
  }

  /** `^(\+33|0)[1-9](\d{8})$`. */
  predicate PhonePattern(t: string)
  {
    AfterPrefix(t).Some? && SubscriberNumber(AfterPrefix(t).value)
  }

  /** `validatePhone`: the pattern, on the number with every space removed. */
  function ValidatePhone(phone: string): (b: bool)
    ensures b ==> |phone| >= 10
  {
    PhonePattern(RemoveSpaces(phone))
  }

  /**
   * The national form `0…` and the international form `+33…` of the same
   * subscriber number are accepted together, exactly when it is nine digits
   * not starting with 0.
   */
  lemma PhonePrefixes(x: string)
    ensures PhonePattern("0" + x) <==> SubscriberNumber(x)
    ensures PhonePattern("+33" + x) <==> SubscriberNumber(x)
  {
    var national, international := "0" + x, "+33" + x;
    assert national[0] == '0' && national[1..] == x;
    assert |national| >= 3 ==> national[..3][0] == '0';
    assert international[..3] == "+33" && international[3..] == x;
  }

  /**
   * An accepted number, spaces removed, is ten characters starting with `0`
   * or twelve starting with `+33`, and ends in nine digits.
   */
  lemma PhonePatternShape(t: string)
    requires PhonePattern(t)
    ensures (|t| == 10 && t[0] == '0') || (|t| == 12 && t[..3] == "+33")
    ensures AllDigits(t[|t| - 9..])
  {
    if |t| >= 3 && t[..3] == "+33" {
      assert t[|t| - 9..] == t[3..];
    } else {
      assert t[|t| - 9..] == t[1..];
    }
  }

  /** Spaces anywhere in the input are ignored. */
  lemma ValidatePhoneIgnoresSpaces(a: string, c: char, b: string)
    requires IsSpace(c)
    ensures ValidatePhone(a + [c] + b) == ValidatePhone(a + b)
  {
    FilterAppend(a + [c], b, NotSpace);
    FilterAppend(a, [c], NotSpace);
    FilterAppend(a, b, NotSpace);
    assert !NotSpace(c) && [c][1..] == [];
    assert Filter([c], NotSpace) == [];
    assert RemoveSpaces(a + [c] + b) == Filter(a, NotSpace) + Filter(b, NotSpace) == RemoveSpaces(a + b);
  }

  /**
   * Removing spaces a second time changes nothing, and an accepted number
   * has a `length` (in UTF-16 code units) of at least the ten the
   * reservation check asks for.
   */
  lemma ValidatePhoneNormalised(phone: string)
    ensures ValidatePhone(RemoveSpaces(phone)) == ValidatePhone(phone)
    ensures ValidatePhone(phone) ==> JsLength(phone) >= |phone| >= 10
  {
    var t := RemoveSpaces(phone);
    FilterSpec(phone, NotSpace);
    FilterAll(t, NotSpace);
    if ValidatePhone(phone) {
      PhonePatternShape(t);
    }
  }

  // ---------------------------------------------------------------------
  // sanitize
  // ---------------------------------------------------------------------

  /** A parsed JSON request body. */
  datatype Json =
    | JString(s: string)
    | JNumber(n: int)
    | JBool(b: bool)
    | JNull
    | JArray(items: seq<Json>)
    | JObject(fields: seq<Field>)

  datatype Field = Field(key: string, value: Json)

  function NotAngle(c: char): bool { c != '<' && c != '>' }

  /** `str.trim().replace(/[<>]/g, '')`. */
  function CleanString(s: string): (r: string)
    ensures |r| <= |s|
  {
    Filter(Trim(s), NotAngle)
  }

  /** A cleaned string has no `<` or `>`, is no longer, and only keeps characters of the original. */
  lemma CleanStringSpec(s: string)
    ensures forall k :: 0 <= k < |CleanString(s)| ==> NotAngle(CleanString(s)[k])
    ensures |CleanString(s)| <= |s|
    ensures forall k :: 0 <= k < |CleanString(s)| ==> CleanString(s)[k] in s
  {
    TrimIsSlice(s);
    FilterSpec(Trim(s), NotAngle);
    var t := Trim(s);
    var off := |s| - |TrimStart(s)|;
    assert forall k :: 0 <= k < |t| ==> t[k] == s[off + k];
  }

  /**
   * `sanitize` applied to a value: strings are cleaned, arrays and objects
   * (the two kinds `typeof` calls "object", apart from null) are cleaned
   * field by field, other values are kept.
   */
  function SanitizeValue(j: Json): (r: Json)
    decreases j
  {
    match j
    case JString(s) => JString(CleanString(s))
    case JArray(items) => JArray(seq(|items|, i requires 0 <= i < |items| => SanitizeValue(items[i])))
    case JObject(fields) =>
      JObject(seq(|fields|, i requires 0 <= i < |fields| => Field(fields[i].key, SanitizeValue(fields[i].value))))
    case _ => j
  }

  /** `sanitizeInput`: only an object body (arrays included) is cleaned. */
  function SanitizeBody(body: Json): (r: Json)
    ensures !(body.JArray? || body.JObject?) ==> r == body
  {
    if body.JArray? || body.JObject? then SanitizeValue(body) else body
  }

  /** No string anywhere in the value holds `<` or `>`. */
  ghost predicate NoAngles(j: Json)
    decreases j
  {
    match j
    case JString(s) => forall k :: 0 <= k < |s| ==> NotAngle(s[k])
    case JArray(items) => forall i :: 0 <= i < |items| ==> NoAngles(items[i])
    case JObject(fields) => forall i :: 0 <= i < |fields| ==> NoAngles(fields[i].value)
    case _ => true
  }

  /**
   * `b` has the shape of `a`: same keys in the same order, same numbers,
   * booleans and nulls, and each string of `b` no longer than the one of
   * `a` it replaces.
   */
  ghost predicate Shrunk(a: Json, b: Json)
    decreases a
  {
    match a
    case JString(s) => b.JString? && |b.s| <= |s|
    case JArray(items) =>
      b.JArray? && |b.items| == |items| && forall i :: 0 <= i < |items| ==> Shrunk(items[i], b.items[i])
    case JObject(fields) =>
      && b.JObject? && |b.fields| == |fields|
      && forall i :: 0 <= i < |fields| ==>
           b.fields[i].key == fields[i].key && Shrunk(fields[i].value, b.fields[i].value)
    case _ => b == a
  }

  /**
   * After sanitizing, no string holds `<` or `>`, every string is no longer
   * than before, and everything else is as it was.
   */
  lemma {:induction false} SanitizeSpec(j: Json)
    ensures NoAngles(SanitizeValue(j))
    ensures Shrunk(j, SanitizeValue(j))
    decreases j
  {
    match j
    case JString(s) =>
      CleanStringSpec(s);
    case JArray(items) =>
      forall i | 0 <= i < |items|
        ensures NoAngles(SanitizeValue(items[i])) && Shrunk(items[i], SanitizeValue(items[i]))
      {
        SanitizeSpec(items[i]);
      }
    case JObject(fields) =>
      forall i | 0 <= i < |fields|
        ensures NoAngles(SanitizeValue(fields[i].value)) && Shrunk(fields[i].value, SanitizeValue(fields[i].value))
      {
        SanitizeSpec(fields[i].value);
      }
    case _ =>
  }

  /**
   * The middleware cleans an object or array body completely (no `<` or `>`
   * left, nothing longer, everything else kept) and passes any other body on
   * untouched, so a bare string body keeps its angle brackets.
   */
  lemma SanitizeBodySpec(body: Json)
    ensures body.JArray? || body.JObject? ==> NoAngles(SanitizeBody(body)) && Shrunk(body, SanitizeBody(body))
    ensures body == JString("<b>") ==> !NoAngles(SanitizeBody(body))
  {
    SanitizeSpec(body);
  }

  /**
   * `sanitize` as written: a `for...in` loop over the fields of an object
   * (or the indices of an array) that cleans string fields and descends
   * into object fields, computing the value `SanitizeValue` specifies.
   */
  method Sanitize(j: Json) returns (r: Json)
    ensures r == SanitizeValue(j)
    decreases j
  {
    match j
    case JObject(fields) =>
      var out: seq<Field> := [];
      var i := 0;
      while i < |fields|
        invariant 0 <= i <= |fields|
        invariant |out| == i
        invariant forall k :: 0 <= k < i ==> out[k] == Field(fields[k].key, SanitizeValue(fields[k].value))
      {
        var v := SanitizeField(fields[i].value, j);
        out := out + [Field(fields[i].key, v)];
        i := i + 1;
      }
      r := JObject(out);
    case JArray(items) =>
      var out: seq<Json> := [];
      var i := 0;
      while i < |items|
        invariant 0 <= i <= |items|
        invariant |out| == i
        invariant forall k :: 0 <= k < i ==> out[k] == SanitizeValue(items[k])
      {
        var v := SanitizeField(items[i], j);
        out := out + [v];
        i := i + 1;
      }
      r := JArray(out);
    case _ =>
      r := SanitizeValue(j);
  }

  /** One field of the loop: a string is cleaned, an object or array is sanitized, anything else kept. */
  method SanitizeField(v: Json, parent: Json) returns (r: Json)
    requires v < parent
    ensures r == SanitizeValue(v)
    decreases parent, 0
  {
    if v.JString? {
      r := JString(CleanString(v.s));
    } else if v.JObject? || v.JArray? {
      r := Sanitize(v);
    } else {
      r := v;
    }
  }

  // ---------------------------------------------------------------------
  // rateLimiter
  // ---------------------------------------------------------------------

  /** What the limiter remembers about one address. */
  datatype Window = Window(count: int, resetTime: int)

  /** The new state of the limiter and whether the request goes through. */
  datatype Decision = Decision(requests: map<string, Window>, allowed: bool)

  const DefaultWindowMs := 15 * 60 * 1000
  const DefaultMaxRequests := 100

  /**
   * One request from `ip` at time `now`: a first request, or one after the
   * window ended, opens a new window with count 1; a full window rejects
   * the request; otherwise the count goes up by one.
   */
  function Step(requests: map<string, Window>, ip: string, now: int, windowMs: int, maxRequests: int): (d: Decision)
    ensures !d.allowed ==> d.requests == requests
    ensures d.requests.Keys == requests.Keys + {ip}
  {
    if ip !in requests || now > requests[ip].resetTime then
      Decision(requests[ip := Window(1, now + windowMs)], true)
    else if requests[ip].count >= maxRequests then
      Decision(requests, false)
    else
      Decision(requests[ip := requests[ip].(count := requests[ip].count + 1)], true)
  }

  /** The largest count a window can reach: `maxRequests`, or 1 when that is below 1. */
  function Cap(maxRequests: int): int
  {
    if maxRequests >= 1 then maxRequests else 1
  }

  /** Every remembered count is between 1 and the cap. */
  ghost predicate CountsBounded(requests: map<string, Window>, maxRequests: int)
  {
    forall ip :: ip in requests ==> 1 <= requests[ip].count <= Cap(maxRequests)
  }

  /**
   * A step keeps the counts bounded, never touches another address, and
   * rejects exactly when the address has a current, full window (a
   * rejection changes nothing).
   */
  lemma StepSpec(requests: map<string, Window>, ip: string, now: int, windowMs: int, maxRequests: int)
    requires CountsBounded(requests, maxRequests)
    ensures CountsBounded(Step(requests, ip, now, windowMs, maxRequests).requests, maxRequests)
    ensures var r := Step(requests, ip, now, windowMs, maxRequests).requests;
      forall o :: o != ip ==> (o in r <==> o in requests) && (o in r ==> r[o] == requests[o])
    ensures !Step(requests, ip, now, windowMs, maxRequests).allowed <==>
      ip in requests && now <= requests[ip].resetTime && requests[ip].count >= maxRequests
    ensures !Step(requests, ip, now, windowMs, maxRequests).allowed ==>
      Step(requests, ip, now, windowMs, maxRequests).requests == requests
  {
  }

  /** The requests of `ip` at the given times, one after the other: the final state and how many went through. */
  function Run(requests: map<string, Window>, ip: string, times: seq<int>, windowMs: int, maxRequests: int): (r: (map<string, Window>, nat))
    decreases |times|
  {
    if times == [] then (requests, 0)
    else
      var d := Step(requests, ip, times[0], windowMs, maxRequests);
      var rest := Run(d.requests, ip, times[1..], windowMs, maxRequests);
      (rest.0, rest.1 + if d.allowed then 1 else 0)
  }

  /**
   * Inside a window already holding `count` requests, at most
   * `maxRequests - count` more go through, and the window is kept.
   */
  lemma {:induction false} RunWithinWindow(requests: map<string, Window>, ip: string, times: seq<int>, windowMs: int, maxRequests: int)
    requires ip in requests && requests[ip].count <= maxRequests
    requires forall k :: 0 <= k < |times| ==> times[k] <= requests[ip].resetTime
    ensures var r := Run(requests, ip, times, windowMs, maxRequests);
      && ip in r.0 && r.0[ip].resetTime == requests[ip].resetTime
      && requests[ip].count <= r.0[ip].count <= maxRequests
      && r.1 == r.0[ip].count - requests[ip].count
    decreases |times|
  {
    if times != [] {
      var d := Step(requests, ip, times[0], windowMs, maxRequests);
      assert ip in d.requests && d.requests[ip].resetTime == requests[ip].resetTime;
      RunWithinWindow(d.requests, ip, times[1..], windowMs, maxRequests);
    }
  }

  /**
   * A request that opens a window at `t0`, followed by any requests up to
   * `t0 + windowMs`, lets at most `maxRequests` through in total.
   */
  lemma FreshWindowAdmitsAtMostMax(requests: map<string, Window>, ip: string, t0: int, times: seq<int>, windowMs: int, maxRequests: int)
    requires maxRequests >= 1
    requires ip !in requests || t0 > requests[ip].resetTime
    requires forall k :: 0 <= k < |times| ==> times[k] <= t0 + windowMs
    ensures Run(requests, ip, [t0] + times, windowMs, maxRequests).1 <= maxRequests
  {
    var d := Step(requests, ip, t0, windowMs, maxRequests);
    assert ([t0] + times)[1..] == times;
    RunWithinWindow(d.requests, ip, times, windowMs, maxRequests);
  }

  /** The limiter returned by `rateLimiter(windowMs, maxRequests)`, with its address map. */
  class RateLimiter {
    const windowMs: int
    const maxRequests: int
    var requests: map<string, Window>

    ghost predicate Valid()
      reads this
    {
      CountsBounded(requests, maxRequests)
    }

    constructor (windowMs: int, maxRequests: int)
      ensures Valid() && this.windowMs == windowMs && this.maxRequests == maxRequests
      ensures requests == map[]
    {
      this.windowMs := windowMs;
      this.maxRequests := maxRequests;
      requests := map[];
    }

    /** `rateLimiter()` with its default of 100 requests per 15 minutes. */
    constructor WithDefaults()
      ensures Valid() && windowMs == DefaultWindowMs && maxRequests == DefaultMaxRequests
      ensures requests == map[]
    {
      windowMs := DefaultWindowMs;
      maxRequests := DefaultMaxRequests;
      requests := map[];
    }

    /** The middleware on one request from `ip` at time `now`; false means 429. */
    method Handle(ip: string, now: int) returns (allowed: bool)
      requires Valid()
      modifies this
      ensures Valid()
      ensures Decision(requests, allowed) == Step(old(requests), ip, now, windowMs, maxRequests)
    {
      StepSpec(requests, ip, now, windowMs, maxRequests);
      if ip !in requests {
        requests := requests[ip := Window(1, now + windowMs)];
        return true;
      }
      var data := requests[ip];
      if now > data.resetTime {
        requests := requests[ip := Window(1, now + windowMs)];
        return true;
      }
      if data.count >= maxRequests {
        return false;
      }
      requests := requests[ip := data.(count := data.count + 1)];
      allowed := true;
    }
  }
}
