/**
 * The helpers of the credentials API: ISO 8601 rendering of timestamps,
 * the snake_case to camelCase alias generator, splitting a display name
 * into given and family name, and the two error payload shapes.
 */
module Utils {
  import opened Wrappers
  import opened Strings
  import opened JsonValues

  // ---------------------------------------------------------------------------
  // Timestamps: datetime.isoformat(timespec="seconds")

  /**
   * A Python `datetime`: calendar fields, microseconds, and the UTC offset in
   * seconds east of UTC when the value is time-zone aware.
   */
  datatype DateTime = DateTime(
    year: int, month: int, day: int,
    hour: int, minute: int, second: int, microsecond: int,
    utcOffset: Option<int>)

  predicate IsLeapYear(y: int) {
    y % 4 == 0 && (y % 100 != 0 || y % 400 == 0)
  }

  function DaysInMonth(y: int, m: int): int {
    if m == 2 then (if IsLeapYear(y) then 29 else 28)
    else if m == 4 || m == 6 || m == 9 || m == 11 then 30
    else 31
  }

  /** The ranges every Python `datetime` object keeps. */
  predicate ValidDateTime(d: DateTime) {
    && 1 <= d.year <= 9999
    && 1 <= d.month <= 12
    && 1 <= d.day <= DaysInMonth(d.year, d.month)
    && 0 <= d.hour < 24 && 0 <= d.minute < 60 && 0 <= d.second < 60
    && 0 <= d.microsecond < 1000000
    && (d.utcOffset.Some? ==> -86400 < d.utcOffset.value < 86400)
  }

  /** The `datetime` values Python can hold. */
  type Timestamp = d: DateTime | ValidDateTime(d) witness DateTime(1, 1, 1, 0, 0, 0, 0, None)

  /** `±HH:MM`, followed by `:SS` when the offset has a seconds part. */
  function OffsetText(offset: int): (r: string)
    requires -86400 < offset < 86400
    ensures |r| == 6 || |r| == 9
    ensures '.' !in r
  {
    var a := if offset < 0 then -offset else offset;
    SecondsSplit(a);
    OffsetFields(if offset < 0 then '-' else '+', a / 3600, (a % 3600) / 60, a % 60)
  }

  /** The sign, two-digit hours and minutes, and the seconds only when there are any. */
  function OffsetFields(sign: char, hh: nat, mm: nat, ss: nat): (r: string)
    requires hh < 24 && mm < 60 && ss < 60
    ensures |r| == 6 || |r| == 9
  {
    [sign] + Pad(hh, 2) + ":" + Pad(mm, 2) + (if ss != 0 then ":" + Pad(ss, 2) else "")
  }

  /**
   * Three zero-padded numbers joined by `sep`, the first `width` digits wide
   * and the other two two digits wide: `YYYY-MM-DD` or `HH:MM:SS`.
   */
  function Fields(a: nat, width: nat, b: nat, c: nat, sep: char): (r: string)
    requires a < Pow10(width) && b < 100 && c < 100
    requires !IsDigit(sep)
    ensures |r| == width + 6 && r[width] == sep && r[width + 3] == sep
    ensures forall x :: x in r ==> IsDigit(x) || x == sep
  {
    var r := Pad(a, width) + [sep] + Pad(b, 2) + [sep] + Pad(c, 2);
    assert forall i :: 0 <= i < |r| ==> IsDigit(r[i]) || r[i] == sep;
    r
  }

  /**
   * `to_iso_format`: `YYYY-MM-DDTHH:MM:SS`, then the UTC offset when the
   * value is aware. Microseconds are dropped, never rounded.
   */
  function ToIsoFormat(d: DateTime): (r: string)
    requires ValidDateTime(d)
    ensures |r| == 19 || |r| == 25 || |r| == 28
    ensures (|r| == 19) <==> d.utcOffset.None?
    ensures '.' !in r
  {
    Fields(d.year, 4, d.month, d.day, '-') + "T" + Fields(d.hour, 2, d.minute, d.second, ':')
    + (if d.utcOffset.Some? then OffsetText(d.utcOffset.value) else "")
  }

  predicate AllDigits(s: string) {
    forall i :: 0 <= i < |s| ==> IsDigit(s[i])
  }

  /** Reads `Fields` back: the three numbers, when the text has that form. */
  function ParseFields(t: string, width: nat, sep: char): Option<(nat, nat, nat)> {
    if |t| == width + 6 && t[width] == sep && t[width + 3] == sep
       && AllDigits(t[..width]) && AllDigits(t[width + 1..width + 3]) && AllDigits(t[width + 4..])
    then Some((DigitsValue(t[..width]), DigitsValue(t[width + 1..width + 3]), DigitsValue(t[width + 4..])))
    else None
  }

  lemma FieldsRoundTrip(a: nat, width: nat, b: nat, c: nat, sep: char)
    requires a < Pow10(width) && b < 100 && c < 100
    requires !IsDigit(sep)
    ensures ParseFields(Fields(a, width, b, c, sep), width, sep) == Some((a, b, c))
  {
    var r := Fields(a, width, b, c, sep);
    assert r[..width] == Pad(a, width);
    assert r[width + 1..width + 3] == Pad(b, 2);
    assert r[width + 4..] == Pad(c, 2);
    PadRoundTrip(a, width);
    PadRoundTrip(b, 2);
    PadRoundTrip(c, 2);
  }

  /** Reads a signed offset `±HH:MM[:SS]` back into seconds. */
  function ParseOffset(t: string): Option<int> {
    if (|t| == 6 || |t| == 9) && (t[0] == '+' || t[0] == '-') && t[3] == ':'
       && AllDigits(t[1..3]) && AllDigits(t[4..6])
       && (|t| == 9 ==> t[6] == ':' && AllDigits(t[7..9]))
    then
      var ss := if |t| == 9 then DigitsValue(t[7..9]) else 0;
      Some(SignedSeconds(t[0], DigitsValue(t[1..3]), DigitsValue(t[4..6]), ss))
    else None
  }

  /** The offset in seconds that a sign, hours, minutes and seconds denote. */
  function SignedSeconds(sign: char, hh: nat, mm: nat, ss: nat): int {
    var a := hh * 3600 + mm * 60 + ss;
    if sign == '-' then -a else a
  }

  /** Reads the text `to_iso_format` writes back into a timestamp. */
  function ParseIsoFormat(s: string): Option<DateTime> {
    if |s| < 19 || s[10] != 'T' then None
    else
      var date, time := ParseFields(s[..10], 4, '-'), ParseFields(s[11..19], 2, ':');
      var offset := if |s| == 19 then Some(None) else
        match ParseOffset(s[19..])
        case None => None
        case Some(o) => Some(Some(o));
      if date.None? || time.None? || offset.None? then None
      else
        Some(DateTime(date.value.0, date.value.1, date.value.2,
                      time.value.0, time.value.1, time.value.2, 0, offset.value))
  }

  lemma OffsetRoundTrip(offset: int)
    requires -86400 < offset < 86400
    ensures ParseOffset(OffsetText(offset)) == Some(offset)
  {
    var a := if offset < 0 then -offset else offset;
    SecondsSplit(a);
    ParseOffsetParts(if offset < 0 then '-' else '+', a / 3600, (a % 3600) / 60, a % 60);
  }

  /** Reading back a rendered offset gives its hours, minutes and seconds. */
  lemma ParseOffsetParts(sign: char, hh: nat, mm: nat, ss: nat)
    requires sign == '+' || sign == '-'
    requires hh < 24 && mm < 60 && ss < 60
    ensures ParseOffset(OffsetFields(sign, hh, mm, ss)) == Some(SignedSeconds(sign, hh, mm, ss))
  {
    OffsetFieldsLayout(sign, hh, mm, ss);
    PadRoundTrip(hh, 2);
    PadRoundTrip(mm, 2);
    if ss != 0 {
      PadRoundTrip(ss, 2);
    }
  }

  /** Where each part of a rendered offset sits. */
  lemma OffsetFieldsLayout(sign: char, hh: nat, mm: nat, ss: nat)
    requires hh < 24 && mm < 60 && ss < 60
    ensures var t := OffsetFields(sign, hh, mm, ss);
      && t[0] == sign && t[3] == ':'
      && t[1..3] == Pad(hh, 2) && t[4..6] == Pad(mm, 2)
      && (|t| == 9 <==> ss != 0)
      && (ss != 0 ==> t[6] == ':' && t[7..9] == Pad(ss, 2))
  {
    var t := OffsetFields(sign, hh, mm, ss);
    var tail := if ss != 0 then ":" + Pad(ss, 2) else "";
    assert t == [sign] + Pad(hh, 2) + ":" + Pad(mm, 2) + tail;
  }

  lemma SecondsSplit(a: nat)
    requires a < 86400
    ensures a / 3600 < 24 && (a % 3600) / 60 < 60 && a % 60 < 60
    ensures (a / 3600) * 3600 + ((a % 3600) / 60) * 60 + a % 60 == a
  {
  }

  /**
   * The rendering is seconds-precise and loses nothing else: reading it back
   * gives the timestamp with its microseconds cleared.
   */
  lemma IsoFormatRoundTrip(d: DateTime)
    requires ValidDateTime(d)
    ensures ParseIsoFormat(ToIsoFormat(d)) == Some(d.(microsecond := 0))
  {
    var date := Fields(d.year, 4, d.month, d.day, '-');
    var time := Fields(d.hour, 2, d.minute, d.second, ':');
    var offset := if d.utcOffset.Some? then OffsetText(d.utcOffset.value) else "";
    var s := ToIsoFormat(d);
    assert s == date + "T" + time + offset;
    assert s[..10] == date;
    assert s[11..19] == time;
    assert s[19..] == offset;
    FieldsRoundTrip(d.year, 4, d.month, d.day, '-');
    FieldsRoundTrip(d.hour, 2, d.minute, d.second, ':');
    if d.utcOffset.Some? {
      OffsetRoundTrip(d.utcOffset.value);
    }
  }

  // ---------------------------------------------------------------------------
  // The alias generator: snake_case field names to camelCase JSON keys

  /** `to_camel`: the first `_`-piece as is, every later piece capitalized. */
  function ToCamel(s: string): string {
    var pieces := Split(s, '_');
    pieces[0] + CapitalizeAll(pieces[1..])
  }

  function CapitalizeAll(ws: seq<string>): string {
    if ws == [] then [] else Capitalize(ws[0]) + CapitalizeAll(ws[1..])
  }

  /** The inverse direction: every upper-case letter becomes `_` and its lower case. */
  function ToSnake(t: string): string {
    if t == [] then []
    else (if IsUpper(t[0]) then ['_', Lower(t[0])] else [t[0]]) + ToSnake(t[1..])
  }

  /**
   * A snake_case identifier: lower-case letters, digits and underscores, and
   * every underscore is followed by a lower-case letter.
   */
  predicate Identifier(s: string) {
    && (forall i :: 0 <= i < |s| ==> IsLower(s[i]) || IsDigit(s[i]) || s[i] == '_')
    && (forall i :: 0 <= i < |s| && s[i] == '_' ==> i + 1 < |s| && IsLower(s[i + 1]))
  }

  lemma {:induction false} CapitalizeAllHasNoUnderscore(ws: seq<string>)
    requires forall i :: 0 <= i < |ws| ==> '_' !in ws[i]
    ensures '_' !in CapitalizeAll(ws)
  {
    if ws != [] {
      CapitalizeAllHasNoUnderscore(ws[1..]);
      var c := Capitalize(ws[0]);
      forall i | 0 <= i < |c| ensures c[i] != '_' {
        assert ws[0][i] != '_';
      }
    }
  }

  /** The camelCase key never contains an underscore. */
  lemma ToCamelHasNoUnderscore(s: string)
    ensures '_' !in ToCamel(s)
  {
    var pieces := Split(s, '_');
    CapitalizeAllHasNoUnderscore(pieces[1..]);
  }

  /** A name without underscores is its own alias. */
  lemma ToCamelWithoutUnderscore(s: string)
    requires '_' !in s
    ensures ToCamel(s) == s
  {
    SplitWithoutSep(s, '_');
  }

  /** `a_b` becomes `a` followed by `b` capitalized. */
  lemma ToCamelTwoPieces(a: string, b: string)
    requires '_' !in a && '_' !in b
    ensures ToCamel(a + "_" + b) == a + Capitalize(b)
  {
    SplitAtSep(a, b, '_');
    SplitWithoutSep(a, '_');
    SplitWithoutSep(b, '_');
    var pieces := Split(a + "_" + b, '_');
    assert pieces == [a, b];
    assert pieces[1..] == [b];
    assert CapitalizeAll([b]) == Capitalize(b) + CapitalizeAll([]);
  }

  lemma {:induction false} ToSnakeAppend(a: string, b: string)
    ensures ToSnake(a + b) == ToSnake(a) + ToSnake(b)
  {
    if a != [] {
      var head := if IsUpper(a[0]) then ['_', Lower(a[0])] else [a[0]];
      assert (a + b)[0] == a[0];
      assert (a + b)[1..] == a[1..] + b;
      ToSnakeAppend(a[1..], b);
      calc {
        ToSnake(a + b);
        head + ToSnake(a[1..] + b);
        head + (ToSnake(a[1..]) + ToSnake(b));
        (head + ToSnake(a[1..])) + ToSnake(b);
        ToSnake(a) + ToSnake(b);
      }
    } else {
      assert a + b == b;
    }
  }

  lemma {:induction false} ToSnakeWithoutUpper(a: string)
    requires forall i :: 0 <= i < |a| ==> !IsUpper(a[i])
    ensures ToSnake(a) == a
  {
    if a != [] {
      ToSnakeWithoutUpper(a[1..]);
      assert a == [a[0]] + a[1..];
    }
  }

  /** The pieces of an identifier: the first has no capitals, later ones start with a letter. */
  predicate WellFormedPieces(ws: seq<string>) {
    && |ws| >= 1
    && (forall k :: 0 <= k < |ws[0]| ==> IsLower(ws[0][k]) || IsDigit(ws[0][k]))
    && (forall i :: 1 <= i < |ws| ==> LaterPiece(ws[i]))
  }

  predicate LaterPiece(w: string) {
    && |w| >= 1 && IsLower(w[0])
    && (forall k :: 0 <= k < |w| ==> IsLower(w[k]) || IsDigit(w[k]))
  }

  lemma {:induction false} IdentifierPieces(s: string)
    requires Identifier(s)
    ensures WellFormedPieces(Split(s, '_'))
  {
    if s != [] {
      var tail := s[1..];
      assert Identifier(tail) by {
        forall i | 0 <= i < |tail| && tail[i] == '_'
          ensures i + 1 < |tail| && IsLower(tail[i + 1])
        {
          assert s[i + 1] == '_';
        }
      }
      IdentifierPieces(tail);
      var rest := Split(tail, '_');
      if s[0] == '_' {
        assert |s| >= 2 && IsLower(s[1]);
        assert tail[0] == s[1];
        assert rest[0] == [tail[0]] + Split(tail[1..], '_')[0];
        assert LaterPiece(rest[0]);
        assert Split(s, '_') == [[]] + rest;
      } else {
        assert Split(s, '_') == [[s[0]] + rest[0]] + rest[1..];
      }
    }
  }

  lemma {:induction false} ToSnakeCapitalizeAll(ws: seq<string>)
    requires forall i :: 0 <= i < |ws| ==> LaterPiece(ws[i])
    ensures ToSnake(CapitalizeAll(ws)) == Prefixed(ws, '_')
  {
    if ws != [] {
      ToSnakeCapitalize(ws[0]);
      ToSnakeAppend(Capitalize(ws[0]), CapitalizeAll(ws[1..]));
      ToSnakeCapitalizeAll(ws[1..]);
    }
  }

  /** A capitalized later piece turns back into `_` and the piece. */
  lemma ToSnakeCapitalize(w: string)
    requires LaterPiece(w)
    ensures ToSnake(Capitalize(w)) == "_" + w
  {
    var rest := w[1..];
    CapitalizeLaterPiece(w);
    ToSnakeCons(Upper(w[0]), rest);
    LaterPieceRest(w);
    ToSnakeWithoutUpper(rest);
    UpperThenLower(w[0]);
    assert w == [w[0]] + rest;
  }

  lemma LaterPieceRest(w: string)
    requires LaterPiece(w)
    ensures forall i :: 0 <= i < |w[1..]| ==> !IsUpper(w[1..][i])
  {
    forall i | 0 <= i < |w[1..]| ensures !IsUpper(w[1..][i]) {
      assert w[1..][i] == w[i + 1];
    }
  }

  lemma LaterPieceHasNoUnderscore(w: string)
    requires LaterPiece(w)
    ensures '_' !in w
  {
  }

  lemma CapitalizeLaterPiece(w: string)
    requires LaterPiece(w)
    ensures Capitalize(w) == [Upper(w[0])] + w[1..]
  {
    LaterPieceRest(w);
    LowerAllIdentity(w[1..]);
  }

  lemma ToSnakeCons(c: char, s: string)
    ensures ToSnake([c] + s) == (if IsUpper(c) then ['_', Lower(c)] else [c]) + ToSnake(s)
  {
    assert ([c] + s)[0] == c && ([c] + s)[1..] == s;
  }

  lemma UpperThenLower(c: char)
    requires IsLower(c)
    ensures IsUpper(Upper(c)) && Lower(Upper(c)) == c
  {
  }

  /** `ToSnake` undoes `ToCamel` on identifiers. */
  lemma CamelSnakeRoundTrip(s: string)
    requires Identifier(s)
    ensures ToSnake(ToCamel(s)) == s
  {
    var pieces := Split(s, '_');
    IdentifierPieces(s);
    ToSnakeAppend(pieces[0], CapitalizeAll(pieces[1..]));
    ToSnakeWithoutUpper(pieces[0]);
    ToSnakeCapitalizeAll(pieces[1..]);
    SplitJoin(s, '_');
  }

  /** Hence distinct identifiers never share an alias. */
  lemma ToCamelInjective(a: string, b: string)
    requires Identifier(a) && Identifier(b)
    requires ToCamel(a) == ToCamel(b)
    ensures a == b
  {
    CamelSnakeRoundTrip(a);
    CamelSnakeRoundTrip(b);
  }

  // ---------------------------------------------------------------------------
  // Given and family name

  /**
   * `get_fullname`: the name split at its first space. The given name is the
   * text before that space and the family name everything after it, later
   * spaces included; without a space the whole name is the given name.
   */
  function GetFullname(name: string): (r: (string, string))
    ensures name == "" ==> r == ("", "")
    ensures ' ' !in r.0
    ensures ' ' in name ==> r.0 + " " + r.1 == name
    ensures ' ' !in name ==> r == (name, "")
  {
    if name == "" then ("", "")
    else
      match IndexOf(name, ' ')
      case None => (name, "")
      case Some(i) =>
        assert name == name[..i] + " " + name[i + 1..];
        (name[..i], name[i + 1..])
  }

  /** A name splits at its first space, whatever follows it. */
  lemma GetFullnameAtFirstSpace(given: string, family: string)
    requires ' ' !in given
    ensures GetFullname(given + " " + family) == (given, family)
  {
    var name := given + " " + family;
    IndexOfAfter(given, family, ' ');
    assert name[..|given|] == given;
    assert name[|given| + 1..] == family;
  }

  /** The examples the plugin's own tests pin down. */
  lemma GetFullnameExamples()
    ensures GetFullname("John Doe Roe") == ("John", "Doe Roe")
    ensures GetFullname("John Doe") == ("John", "Doe")
    ensures GetFullname("John") == ("John", "")
    ensures GetFullname("") == ("", "")
  {
    GetFullnameAtFirstSpace("John", "Doe Roe");
    assert "John" + " " + "Doe Roe" == "John Doe Roe";
    GetFullnameAtFirstSpace("John", "Doe");
    assert "John" + " " + "Doe" == "John Doe";
  }

  // ---------------------------------------------------------------------------
  // Error payloads

  const HTTP_400_BAD_REQUEST := 400
  const HTTP_403_FORBIDDEN := 403
  const HTTP_404_NOT_FOUND := 404

  /** A REST framework `Response`: its data and its status code. */
  datatype Response = Response(data: Json, status: int)

  /**
   * `api_field_errors`: `{"field_errors": {...}}` with the given status,
   * 400 unless stated. The inner object holds exactly the given fields, in
   * order, and each field's message is found under its name.
   */
  function ApiFieldErrors(fieldErrors: seq<(string, string)>, statusCode: int := HTTP_400_BAD_REQUEST): (r: Response)
    ensures r.status == statusCode
    ensures ObjectKeys(r.data) == ["field_errors"]
    ensures Get(r.data, "field_errors").Some? && Get(r.data, "field_errors").value.JObject?
    ensures ObjectKeys(Get(r.data, "field_errors").value) == Keys(fieldErrors)
    ensures Distinct(Keys(fieldErrors)) ==>
      forall i :: 0 <= i < |fieldErrors| ==>
        At(r.data, ["field_errors", fieldErrors[i].0]) == Some(JString(fieldErrors[i].1))
  {
    var members := StringMembers(fieldErrors);
    var r := Response(JObject([("field_errors", JObject(members))]), statusCode);
    assert Keys(r.data.members) == ["field_errors"];
    assert Get(r.data, "field_errors") == Some(JObject(members));
    assert Keys(members) == Keys(fieldErrors);
    if Distinct(Keys(members)) then
      assert forall i :: 0 <= i < |fieldErrors| ==>
        At(r.data, ["field_errors", fieldErrors[i].0]) == Some(JString(fieldErrors[i].1)) by {
        forall i | 0 <= i < |fieldErrors|
          ensures At(r.data, ["field_errors", fieldErrors[i].0]) == Some(JString(fieldErrors[i].1))
        {
          AtTwo(r.data, "field_errors", fieldErrors[i].0);
          LookupDistinct(members, i);
        }
      }
      r
    else r
  }

  /** `api_error`: `{"error": [message]}` with the given status, 400 unless stated. */
  function ApiError(error: string, statusCode: int := HTTP_400_BAD_REQUEST): (r: Response)
    ensures r.status == statusCode
    ensures ObjectKeys(r.data) == ["error"]
    ensures Get(r.data, "error") == Some(JArray([JString(error)]))
  {
    Response(JObject([("error", JArray([JString(error)]))]), statusCode)
  }

  /** The first message of an `api_error` payload (`response.data["error"][0]`). */
  function FirstError(r: Response): Option<string> {
    match Get(r.data, "error")
    case Some(JArray(items)) => if |items| > 0 && items[0].JString? then Some(items[0].str) else None
    case _ => None
  }
}
