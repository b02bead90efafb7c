/** Shared vocabulary of the marketplace model: optional values, calendar
    dates, the error forms the services raise, string helpers, the generic
    lookups of the service base class, the name search mixin, the unified
    error envelope and the exception handler that flattens error lists. */
module Common {

  datatype Option<T> = None | Some(value: T)

  /** Primary keys. The source uses UUIDs; the model draws them from a counter. */
  type Id = nat

  /** A user or vendor identity as the connection registry and the tasks see it: the e-mail. */
  type Email = string

  /** Instants, in seconds. */
  type Time = int

  const Minute := 60

  /** A calendar date; ordering is lexicographic on (year, month, day). */
  datatype Date = Date(year: int, month: int, day: int)

  predicate DateLe(a: Date, b: Date) {
    a.year < b.year
    || (a.year == b.year && a.month < b.month)
    || (a.year == b.year && a.month == b.month && a.day <= b.day)
  }

  predicate DateLt(a: Date, b: Date) {
    DateLe(a, b) && a != b
  }

  lemma DateLeTotalOrder(a: Date, b: Date, c: Date)
    ensures DateLe(a, a)
    ensures DateLe(a, b) || DateLe(b, a)
    ensures DateLe(a, b) && DateLe(b, a) ==> a == b
    ensures DateLe(a, b) && DateLe(b, c) ==> DateLe(a, c)
    ensures !DateLe(a, b) <==> DateLt(b, a)
  {
  }

  /** The ways an operation of the source ends without its normal result. */
  datatype Fault =
    /** `UnifiedErrorResponse(detail=..., code=...)` raised; see ErrorResponse for its HTTP status. */
    | Raised(code: int, detail: Detail)
    /** A plain `Response` returned with an error status and an error text. */
    | Refused(status: int, error: string)
    /** An exception the source does not catch (AttributeError on None, DoesNotExist, IndexError, ...). */
    | Crash(reason: string)

  datatype Result<T> = Ok(value: T) | Err(fault: Fault)

  // ---------------------------------------------------------------------------
  // Strings

  /** The paired-case Cyrillic letters after the basic alphabet (Ѡ to ԯ, which hold the
      Kyrgyz Ң, Ө and Ү): mostly an even upper-case code point followed by its lower-case
      partner, one position the other way round between Ӂ and ӎ. */
  predicate EvenUpperCyrillic(n: int) {
    (0x0460 <= n <= 0x0481 || 0x048A <= n <= 0x04BF || 0x04D0 <= n <= 0x052F) && n % 2 == 0
  }

  predicate OddUpperCyrillic(n: int) {
    0x04C1 <= n <= 0x04CE && n % 2 == 1
  }

  /** Lower-casing of the letters with a one-to-one case pair in ASCII, Latin-1, modern
      Greek (the basic alphabet, the capitals with tonos and those with dialytika) and
      Cyrillic (the latter with its supplement). */
  function LowerChar(c: char): char {
    var n := c as int;
    if 'A' <= c <= 'Z' then (n + 0x20) as char
    else if 0x00C0 <= n <= 0x00DE && n != 0x00D7 then (n + 0x20) as char
    else if n == 0x0386 then 0x03AC as char
    else if 0x0388 <= n <= 0x038A then (n + 0x25) as char
    else if n == 0x038C then 0x03CC as char
    else if 0x038E <= n <= 0x038F then (n + 0x3F) as char
    else if 0x0391 <= n <= 0x03AB && n != 0x03A2 then (n + 0x20) as char
    else if 0x0400 <= n <= 0x040F then (n + 0x50) as char
    else if 0x0410 <= n <= 0x042F then (n + 0x20) as char
    else if EvenUpperCyrillic(n) || OddUpperCyrillic(n) then (n + 1) as char
    else if n == 0x04C0 then 0x04CF as char
    else c
  }

  /** Upper-casing of the same letters; the Greek final sigma becomes Σ. */
  function UpperChar(c: char): char {
    var n := c as int;
    if 'a' <= c <= 'z' then (n - 0x20) as char
    else if 0x00E0 <= n <= 0x00FE && n != 0x00F7 then (n - 0x20) as char
    else if n == 0x03C2 then 0x03A3 as char
    else if 0x03B1 <= n <= 0x03CB then (n - 0x20) as char
    else if n == 0x03AC then 0x0386 as char
    else if 0x03AD <= n <= 0x03AF then (n - 0x25) as char
    else if n == 0x03CC then 0x038C as char
    else if 0x03CD <= n <= 0x03CE then (n - 0x3F) as char
    else if 0x0430 <= n <= 0x044F then (n - 0x20) as char
    else if 0x0450 <= n <= 0x045F then (n - 0x50) as char
    else if EvenUpperCyrillic(n - 1) || OddUpperCyrillic(n - 1) then (n - 1) as char
    else if n == 0x04CF then 0x04C0 as char
    else c
  }

  /** Upper-casing undoes lower-casing on every letter that lower-casing changes. */
  lemma UpperUndoesLower(c: char)
    requires LowerChar(c) != c
    ensures UpperChar(LowerChar(c)) == c
  {
  }

  function Lower(s: string): (r: string)
    ensures |r| == |s| && forall i :: 0 <= i < |s| ==> r[i] == LowerChar(s[i])
  {
    if s == [] then [] else [LowerChar(s[0])] + Lower(s[1..])
  }

  function Upper(s: string): (r: string)
    ensures |r| == |s| && forall i :: 0 <= i < |s| ==> r[i] == UpperChar(s[i])
  {
    if s == [] then [] else [UpperChar(s[0])] + Upper(s[1..])
  }

  lemma LowerAppend(a: string, b: string)
    ensures Lower(a + b) == Lower(a) + Lower(b)
  {
  }

  predicate IsPrefix(p: string, s: string) {
    |p| <= |s| && s[..|p|] == p
  }

  /** `needle in hay` for strings. */
  predicate IsSubstring(needle: string, hay: string) {
    exists k :: 0 <= k <= |hay| && IsPrefix(needle, hay[k..])
  }

  /** Django's `icontains`: both sides upper-cased, then substring test. */
  predicate ContainsIgnoringCase(hay: string, needle: string) {
    IsSubstring(Upper(needle), Upper(hay))
  }

  /** The Kyrgyz letters fold like the Russian ones: a search for "көл" finds "КӨЛ". */
  lemma KyrgyzSearchMatches()
    ensures ContainsIgnoringCase("КӨЛ", "көл")
  {
    var needle, hay := Upper("көл"), Upper("КӨЛ");
    assert needle[0] == 'К' && needle[1] == 'Ө' && needle[2] == 'Л';
    assert hay[0] == 'К' && hay[1] == 'Ө' && hay[2] == 'Л';
    assert needle == hay[0..];
  }

  /** Accented Greek folds too: a search for "άγιος" finds "Άγιος". */
  lemma GreekTonosSearchMatches()
    ensures ContainsIgnoringCase("Άγιος", "άγιος")
  {
    var needle, hay := Upper("άγιος"), Upper("Άγιος");
    assert needle[0] == 'Ά' && needle[1] == 'Γ' && needle[2] == 'Ι' && needle[3] == 'Ο' && needle[4] == 'Σ';
    assert hay[0] == 'Ά' && hay[1] == 'Γ' && hay[2] == 'Ι' && hay[3] == 'Ο' && hay[4] == 'Σ';
    assert needle == hay[0..];
  }

  /** The characters Python's `str.split()` treats as whitespace. */
  predicate IsSpace(c: char) {
    c == ' ' || ('\t' <= c <= '\r') || ('\U{001C}' <= c <= '\U{001F}') || c == '\U{0085}' || c == '\U{00A0}'
    || c == '\U{1680}' || ('\U{2000}' <= c <= '\U{200A}') || c == '\U{2028}' || c == '\U{2029}'
    || c == '\U{202F}' || c == '\U{205F}' || c == '\U{3000}'
  }

  /** The word that starts `s`: its longest prefix without whitespace. */
  function LeadingWord(s: string): (w: string)
    ensures IsPrefix(w, s)
    ensures forall i :: 0 <= i < |w| ==> !IsSpace(w[i])
    ensures |w| < |s| ==> IsSpace(s[|w|])
  {
    if s == [] || IsSpace(s[0]) then [] else [s[0]] + LeadingWord(s[1..])
  }

  /** Python's `str.split()` with no argument: the maximal runs of non-whitespace. */
  function Words(s: string): (ws: seq<string>)
    ensures forall i :: 0 <= i < |ws| ==> ws[i] != [] && forall j :: 0 <= j < |ws[i]| ==> !IsSpace(ws[i][j])
    decreases |s|
  {
    if s == [] then []
    else if IsSpace(s[0]) then Words(s[1..])
    else
      var w := LeadingWord(s);
      [w] + Words(s[|w|..])
  }

  /** A string without whitespace splits into itself. */
  lemma {:induction false} WordsOfOneWord(s: string)
    requires s != [] && forall i :: 0 <= i < |s| ==> !IsSpace(s[i])
    ensures Words(s) == [s]
  {
    var w := LeadingWord(s);
    assert |w| == |s|;
    assert w == s;
    assert s[|w|..] == [];
  }

  /** Splitting at a whitespace character concatenates the words of both sides. */
  lemma {:induction false} WordsAtSpace(a: string, c: char, b: string)
    requires IsSpace(c)
    ensures Words(a + [c] + b) == Words(a) + Words(b)
    decreases |a|
  {
    if a == [] {
      assert a + [c] + b == [c] + b;
      assert ([c] + b)[1..] == b;
    } else if IsSpace(a[0]) {
      assert (a + [c] + b)[1..] == a[1..] + [c] + b;
      WordsAtSpace(a[1..], c, b);
    } else {
      var s := a + [c] + b;
      var w := LeadingWord(s);
      var wa := LeadingWord(a);
      LeadingWordOfConcat(a, c, b);
      assert w == wa;
      assert s[|w|..] == a[|wa|..] + [c] + b;
      WordsAtSpace(a[|wa|..], c, b);
    }
  }

  lemma {:induction false} LeadingWordOfConcat(a: string, c: char, b: string)
    requires IsSpace(c)
    ensures LeadingWord(a + [c] + b) == LeadingWord(a)
    decreases |a|
  {
    if a == [] {
      assert (a + [c] + b)[0] == c;
    } else if IsSpace(a[0]) {
    } else {
      assert (a + [c] + b)[1..] == a[1..] + [c] + b;
      LeadingWordOfConcat(a[1..], c, b);
    }
  }

  /** `sep.join(items)`. */
  function Join(items: seq<string>, sep: string): string {
    if items == [] then ""
    else if |items| == 1 then items[0]
    else items[0] + sep + Join(items[1..], sep)
  }

  lemma {:induction false} JoinAppend(items: seq<string>, x: string, sep: string)
    requires items != []
    ensures Join(items + [x], sep) == Join(items, sep) + sep + x
  {
    if |items| == 1 {
      assert (items + [x])[1..] == [x];
    } else {
      assert (items + [x])[1..] == items[1..] + [x];
      JoinAppend(items[1..], x, sep);
    }
  }

  /** `str(n)` for a natural number. */
  function NatToString(n: nat): (s: string)
    ensures s != [] && forall i :: 0 <= i < |s| ==> '0' <= s[i] <= '9'
    decreases n
  {
    if n < 10 then [DigitChar(n)] else NatToString(n / 10) + [DigitChar(n % 10)]
  }

  function DigitChar(d: nat): (c: char)
    requires d < 10
    ensures '0' <= c <= '9'
  {
    ('0' as int + d) as char
  }

  function DigitValue(c: char): nat
    requires '0' <= c <= '9'
  {
    c as int - '0' as int
  }

  /** The value of a string of decimal digits. */
  function DigitsValue(s: string): nat
    requires forall i :: 0 <= i < |s| ==> '0' <= s[i] <= '9'
  {
    if s == [] then 0 else DigitsValue(s[..|s| - 1]) * 10 + DigitValue(s[|s| - 1])
  }

  lemma {:induction false} NatToStringValue(n: nat)
    ensures DigitsValue(NatToString(n)) == n
    decreases n
  {
    var s := NatToString(n);
    if n >= 10 {
      NatToStringValue(n / 10);
      assert s[..|s| - 1] == NatToString(n / 10);
    }
  }

  /** The ids handed out from `lo` up to `hi`. */
  function Range(lo: nat, hi: nat): (r: set<Id>)
    ensures forall n: nat :: n in r <==> lo <= n < hi
    ensures lo <= hi ==> |r| == hi - lo
    decreases hi
  {
    if hi <= lo then {} else Range(lo, hi - 1) + {hi - 1}
  }

  lemma RangeJoin(a: nat, b: nat, c: nat)
    requires a <= b <= c
    ensures Range(a, b) + Range(b, c) == Range(a, c)
  {
  }

  /** Python's `str.strip()` (the whitespace set of `IsSpace`). */
  function Strip(s: string): (r: string)
    ensures |r| <= |s|
    ensures r != [] ==> !IsSpace(r[0]) && !IsSpace(r[|r| - 1])
    decreases |s|
  {
    if s != [] && IsSpace(s[0]) then Strip(s[1..])
    else if s != [] && IsSpace(s[|s| - 1]) then Strip(s[..|s| - 1])
    else s
  }

  predicate AllDigits(s: string) {
    forall i :: 0 <= i < |s| ==> '0' <= s[i] <= '9'
  }

  /** A non-empty run of decimal digits read as a number. */
  function ParseNat(s: string): (r: Option<nat>)
    ensures r.Some? <==> s != [] && AllDigits(s)
  {
    if s != [] && AllDigits(s) then Some(DigitsValue(s)) else None
  }

  /** Python's `int(text)` on a decimal text of ASCII digits: surrounding whitespace, an
      optional sign, digits. None where it raises ValueError, and also for the underscore
      separators and non-ASCII digits that `int()` would accept. */
  function ParseInt(s: string): (r: Option<int>)
    ensures var t := Strip(s);
      r.Some? <==> (t != [] && AllDigits(t)) || (|t| > 1 && (t[0] == '-' || t[0] == '+') && AllDigits(t[1..]))
    ensures r.Some? && AllDigits(Strip(s)) ==> r.value == DigitsValue(Strip(s))
  {
    var t := Strip(s);
    if t != [] && (t[0] == '-' || t[0] == '+') then
      match ParseNat(t[1..])
      case None => None
      case Some(n) => var v: int := if t[0] == '-' then -(n as int) else n; Some(v)
    else
      match ParseNat(t)
      case None => None
      case Some(n) => Some(n)
  }

  /** `int(str(n))` gives back `n`, and `int("-" + str(n))` gives back `-n`. */
  lemma ParseIntRoundTrip(n: nat)
    ensures ParseInt(NatToString(n)) == Some(n)
    ensures ParseInt("-" + NatToString(n)) == Some(-(n as int))
  {
    NatToStringValue(n);
    ParseDigitsOf(NatToString(n), n);
  }

  lemma ParseDigitsOf(s: string, n: nat)
    requires s != [] && AllDigits(s) && DigitsValue(s) == n
    ensures ParseInt(s) == Some(n) && ParseInt("-" + s) == Some(-(n as int))
  {
    ParseDigits(s);
  }

  /** `int` reads a run of digits, with or without a leading minus, as its value. */
  lemma ParseDigits(s: string)
    requires s != [] && AllDigits(s)
    ensures ParseInt(s) == Some(DigitsValue(s))
    ensures ParseInt("-" + s) == Some(-(DigitsValue(s) as int))
  {
    ParseUnsigned(s);
    var m := "-" + s;
    assert m[1..] == s && m[|m| - 1] == s[|s| - 1];
    StripUnpadded(m);
    ParseSigned(m, DigitsValue(s));
  }

  lemma ParseUnsigned(s: string)
    requires s != [] && AllDigits(s)
    ensures ParseInt(s) == Some(DigitsValue(s))
  {
    assert !IsSpace(s[0]) && !IsSpace(s[|s| - 1]);
    StripUnpadded(s);
  }

  /** A text that starts and ends with non-whitespace is its own strip. */
  lemma StripUnpadded(s: string)
    requires s != [] && !IsSpace(s[0]) && !IsSpace(s[|s| - 1])
    ensures Strip(s) == s
  {
  }

  lemma ParseSigned(t: string, n: nat)
    requires Strip(t) == t && |t| > 1 && t[0] == '-' && AllDigits(t[1..]) && DigitsValue(t[1..]) == n
    ensures ParseInt(t) == Some(-(n as int))
  {
  }

  /** Padding with spaces does not change what `int` reads. */
  lemma ParseIntIgnoresPadding(s: string)
    ensures ParseInt(" " + s + " ") == ParseInt(s)
  {
    var p := " " + s + " ";
    assert p[1..] == s + " ";
    if s + " " != [] {
      assert (s + " ")[..|s + " "| - 1] == s;
    }
    StripPadded(s);
  }

  lemma StripPadded(s: string)
    ensures Strip(" " + s + " ") == Strip(s)
  {
    var p := " " + s + " ";
    assert p[1..] == s + " ";
    StripTrailingSpace(s);
  }

  lemma {:induction false} StripTrailingSpace(s: string)
    ensures Strip(s + " ") == Strip(s)
    decreases |s|
  {
    var t := s + " ";
    if s != [] && IsSpace(s[0]) {
      assert t[1..] == s[1..] + " ";
      StripTrailingSpace(s[1..]);
    } else {
      assert t[..|t| - 1] == s;
    }
  }

  /** The position of the first row that satisfies `ok`: what `.filter(...).first()` picks in
      table order, and what `.get(...)` finds when at most one row can match. */
  function Position<T>(rows: seq<T>, ok: T -> bool): (r: Option<nat>)
    ensures r.Some? ==> r.value < |rows| && ok(rows[r.value]) && forall j :: 0 <= j < r.value ==> !ok(rows[j])
    ensures r.None? <==> forall i :: 0 <= i < |rows| ==> !ok(rows[i])
  {
    if rows == [] then None
    else if ok(rows[0]) then Some(0)
    else
      var r := Position(rows[1..], ok);
      assert forall i :: 1 <= i < |rows| ==> rows[i] == rows[1..][i - 1];
      if r.Some? then Some(r.value + 1) else None
  }

  // ---------------------------------------------------------------------------
  // Service base class (src/apps/common/services.py)

  /** What `Model.objects.get(**criteria)` finds in a table. */
  datatype Lookup<T> = Found(obj: T) | NothingFound | SeveralFound

  /** `get_or_none` returns this dictionary instead of raising. */
  const NotFoundMessage := "Object not found"

  /** `Model.objects.filter(**criteria)`: the rows that match, in table order. */
  function Filter<T(!new)>(rows: seq<T>, matches: T -> bool): (r: seq<T>)
    ensures |r| <= |rows|
    ensures forall x :: x in r <==> x in rows && matches(x)
  {
    if rows == [] then []
    else if matches(rows[0]) then [rows[0]] + Filter(rows[1..], matches)
    else Filter(rows[1..], matches)
  }

  /** `Service.get_or_none`: the single matching row, or the "not found" sentinel. A second
      match makes `get` raise MultipleObjectsReturned, which `get_or_none` does not catch. */
  function GetOrNone<T(!new)>(rows: seq<T>, matches: T -> bool): (r: Lookup<T>)
    ensures r.Found? <==> |Filter(rows, matches)| == 1
    ensures r.Found? ==> r.obj in rows && matches(r.obj)
    ensures r.NothingFound? <==> forall i :: 0 <= i < |rows| ==> !matches(rows[i])
  {
    var hits := Filter(rows, matches);
    if |hits| == 0 then
      assert forall i :: 0 <= i < |rows| ==> !matches(rows[i]) by {
        forall i | 0 <= i < |rows| ensures !matches(rows[i]) {
          assert rows[i] in rows && rows[i] !in hits;
        }
      }
      NothingFound
    else if |hits| == 1 then
      assert hits[0] in hits;
      Found(hits[0])
    else
      assert hits[0] in hits;
      SeveralFound
  }

  /** `Service.get_or_error(model, pk)`: the row with that primary key, or a raised 404. */
  function GetOrError<T>(table: map<Id, T>, pk: Id): (r: Result<T>)
    ensures r.Ok? <==> pk in table
    ensures r.Ok? ==> r.value == table[pk]
    ensures r.Err? ==> r.fault == Raised(404, Text(NotFoundMessage))
  {
    if pk in table then Ok(table[pk]) else Err(Raised(404, Text(NotFoundMessage)))
  }

  // ---------------------------------------------------------------------------
  // SearchByNameMixin (src/apps/common/mixins.py)

  /** A row that the name search can see. */
  datatype Named = Named(id: Id, name: string, isDeleted: bool)

  /** `search_by_name`: the non-deleted rows, narrowed by a case-insensitive name
      containment when the `name` query parameter is present. */
  function SearchByName(rows: seq<Named>, name: Option<string>): (r: seq<Named>)
    ensures forall x :: x in r ==> x in rows && !x.isDeleted
    ensures name.None? ==> forall x :: x in r <==> x in rows && !x.isDeleted
    ensures name.Some? ==> forall x :: x in r <==> x in rows && !x.isDeleted && ContainsIgnoringCase(x.name, name.value)
  {
    var live := Filter(rows, (x: Named) => !x.isDeleted);
    match name
    case None => live
    case Some(q) => Filter(live, (x: Named) => ContainsIgnoringCase(x.name, q))
  }

  // ---------------------------------------------------------------------------
  // UnifiedErrorResponse (src/apps/common/exceptions.py)

  /** A `detail` value: a text or a field-to-message dictionary. */
  datatype Detail = Text(s: string) | Fields(m: map<string, string>)

  /** An error code as Python passes it: an int or a string (falsy: 0 and ""). */
  datatype CodeValue = IntCode(n: int) | TextCode(s: string)

  predicate Truthy(c: Option<CodeValue>) {
    match c
    case None => false
    case Some(IntCode(n)) => n != 0
    case Some(TextCode(s)) => s != ""
  }

  datatype ErrorEnvelope = ErrorEnvelope(message: Detail, code: CodeValue)

  /** The exception object: the HTTP status is the class attribute, the body the envelope. */
  datatype ErrorResponse = ErrorResponse(httpStatus: int, body: ErrorEnvelope)

  const ClassStatus := 400
  const DefaultDetail := "A server error occurred."
  const DefaultCode := "error"

  function UnifiedErrorResponse(detail: Option<Detail>, code: Option<CodeValue>): (e: ErrorResponse)
    ensures e.httpStatus == 400
    ensures detail.Some? ==> e.body.message == detail.value
    ensures detail.Some? && Truthy(code) ==> e.body.code == code.value
    ensures detail.Some? && !Truthy(code) ==> e.body.code == IntCode(400)
    ensures detail.None? ==> e.body == ErrorEnvelope(Text("A server error occurred."), TextCode("error"))
  {
    var env :=
      if detail.Some? then ErrorEnvelope(detail.value, if Truthy(code) then code.value else IntCode(ClassStatus))
      else ErrorEnvelope(Text(DefaultDetail), TextCode(DefaultCode));
    ErrorResponse(ClassStatus, env)
  }

  // ---------------------------------------------------------------------------
  // unified_exception_handler (src/apps/common/exception_handlers.py)

  /** A value of an error response body: a message or a list of messages. */
  datatype ErrorValue = One(s: string) | Many(items: seq<string>)

  datatype HttpResponse = HttpResponse(status: int, data: map<string, ErrorValue>)

  const InvalidTokenDetail := "Given token not valid for any token type"

  function FlattenValue(v: ErrorValue): (r: ErrorValue)
    ensures r.One?
    ensures v.One? ==> r == v
  {
    match v
    case One(_) => v
    case Many(items) => One(Join(items, ", "))
  }

  /** The body after flattening: same keys, every list joined with ", ". */
  function Flattened(data: map<string, ErrorValue>): (r: map<string, ErrorValue>)
    ensures r.Keys == data.Keys
  {
    map k | k in data :: FlattenValue(data[k])
  }

  lemma FlattenedFacts(data: map<string, ErrorValue>, k: string)
    requires k in data
    ensures Flattened(data)[k].One?
    ensures data[k].One? ==> Flattened(data)[k] == data[k]
    ensures data[k].Many? ==> Flattened(data)[k] == One(Join(data[k].items, ", "))
    ensures Flattened(Flattened(data)) == Flattened(data)
  {
  }

  /** `unified_exception_handler`: `base` is what DRF's own handler returned. */
  method UnifiedExceptionHandler(isInvalidToken: bool, base: Option<HttpResponse>) returns (r: Option<HttpResponse>)
    ensures isInvalidToken ==> r == Some(HttpResponse(401, map["detail" := One(InvalidTokenDetail)]))
    ensures !isInvalidToken && base.None? ==> r.None?
    ensures !isInvalidToken && base.Some? ==> r == Some(HttpResponse(base.value.status, Flattened(base.value.data)))
  {
    if isInvalidToken {
      return Some(HttpResponse(401, map["detail" := One(InvalidTokenDetail)]));
    }
    if base.None? {
      return None;
    }
    var data := base.value.data;
    var messages: map<string, ErrorValue> := map[];
    var todo := data.Keys;
    while todo != {}
      invariant todo <= data.Keys
      invariant messages.Keys == data.Keys - todo
      invariant forall k :: k in messages ==> messages[k] == FlattenValue(data[k])
      decreases todo
    {
      var k :| k in todo;
      if data[k].Many? {
        messages := messages[k := One(Join(data[k].items, ", "))];
      } else {
        messages := messages[k := data[k]];
      }
      todo := todo - {k};
    }
    assert messages == Flattened(data);
    return Some(HttpResponse(base.value.status, messages));
  }
}
