/** The text of JSON documents: `json.dumps(sort_keys=True, separators=(",", ":"))`, with and
    without `ensure_ascii`, and `json.loads` (RFC 8259; string escapes as in its section 7). */
module JsonText {
  import opened Strings
  import opened Json

  // ---------------------------------------------------------------- printing

  function Digit(d: nat): char
    requires d < 10
  {
    ('0' as int + d) as char
  }

  function HexDigit(d: nat): char
    requires d < 16
  {
    if d < 10 then Digit(d) else ('a' as int + d - 10) as char
  }

  /** `\uXXXX` without the backslash and the u. */
  function Hex4(n: nat): string
    requires n < 0x10000
  {
    var a := n / 16;
    var b := a / 16;
    [HexDigit(b / 16), HexDigit(b % 16), HexDigit(a % 16), HexDigit(n % 16)]
  }

  function EscapeUnit(n: nat): string
    requires n < 0x10000
  {
    "\\u" + Hex4(n)
  }

  function Escape(c: char, ascii: bool): string {
    var n := c as int;
    if c == '"' then "\\\""
    else if c == '\\' then "\\\\"
    else if c == '\n' then "\\n"
    else if c == '\r' then "\\r"
    else if c == '\t' then "\\t"
    else if n == 8 then "\\b"
    else if n == 12 then "\\f"
    else if n < 0x20 || (ascii && 0x7f <= n < 0x10000) then EscapeUnit(n)
    else if ascii && 0x10000 <= n then
      EscapeUnit(0xD800 + (n - 0x10000) / 0x400) + EscapeUnit(0xDC00 + (n - 0x10000) % 0x400)
    else [c]
  }

  function EscapeAll(s: string, ascii: bool): string {
    if s == "" then "" else Escape(s[0], ascii) + EscapeAll(s[1..], ascii)
  }

  function Quote(s: string, ascii: bool): string {
    "\"" + EscapeAll(s, ascii) + "\""
  }

  function PrintNat(n: nat): string {
    if n < 10 then [Digit(n)] else PrintNat(n / 10) + [Digit(n % 10)]
  }

  function PrintInt(i: int): string {
    if i < 0 then "-" + PrintNat(-i) else PrintNat(i)
  }

  function Dumps(j: Json, ascii: bool): string
    decreases j, 1
  {
    match j
    case Null => "null"
    case Bool(b) => if b then "true" else "false"
    case Int(i) => PrintInt(i)
    case Str(s) => Quote(s, ascii)
    case Arr(xs) => "[" + PrintItems(xs, ascii) + "]"
    case Obj(m) => "{" + PrintMembers(j, SortedKeys(m.Keys), ascii) + "}"
  }

  function PrintItems(xs: seq<Json>, ascii: bool): string
    decreases xs, 0
  {
    if xs == [] then ""
    else if |xs| == 1 then Dumps(xs[0], ascii)
    else Dumps(xs[0], ascii) + "," + PrintItems(xs[1..], ascii)
  }

  function PrintMembers(j: Json, ks: seq<string>, ascii: bool): string
    requires j.Obj? && forall k | k in ks :: k in j.fields
    decreases j, 0, |ks|
  {
    if ks == [] then ""
    else
      var member := Quote(ks[0], ascii) + ":" + Dumps(j.fields[ks[0]], ascii);
      if |ks| == 1 then member else member + "," + PrintMembers(j, ks[1..], ascii)
  }

  lemma OneSorted(b: string)
    ensures SortedKeys({b}) == [b]
  {
    assert Min({b}) == b && {b} - {b} == {};
  }

  lemma TwoSorted(a: string, b: string)
    requires Less(a, b)
    ensures SortedKeys({a, b}) == [a, b]
  {
    Irreflexive(a);
    var ks := {a, b};
    assert IsMin(a, ks);
    MinUnique(Min(ks), a, ks);
    assert ks - {a} == {b};
    OneSorted(b);
  }

  /** The text of an object with two members, the lesser key first. */
  lemma TwoMembers(a: string, x: Json, b: string, y: Json, ascii: bool)
    requires Less(a, b)
    ensures Dumps(Obj(map[a := x, b := y]), ascii) ==
      "{" + (Quote(a, ascii) + ":" + Dumps(x, ascii) + "," + (Quote(b, ascii) + ":" + Dumps(y, ascii))) + "}"
  {
    hide Quote;
    Irreflexive(a);
    var m := map[a := x, b := y];
    assert m.Keys == {a, b} && m[a] == x && m[b] == y;
    TwoSorted(a, b);
    TwoPrinted(m, a, b, ascii);
  }

  lemma TwoPrinted(m: map<string, Json>, a: string, b: string, ascii: bool)
    requires a in m && b in m
    ensures PrintMembers(Obj(m), [a, b], ascii) ==
      Quote(a, ascii) + ":" + Dumps(m[a], ascii) + "," + (Quote(b, ascii) + ":" + Dumps(m[b], ascii))
  {
    hide Quote, Dumps;
    assert [a, b][1..] == [b];
  }

  // ---------------------------------------------------------------- parsing

  predicate IsSpace(c: char) {
    c == ' ' || c == '\t' || c == '\n' || c == '\r'
  }

  function Skip(s: string): (r: string)
    ensures |r| <= |s|
  {
    if s != "" && IsSpace(s[0]) then Skip(s[1..]) else s
  }

  predicate IsDigit(c: char) {
    '0' <= c <= '9'
  }

  function HexValue(c: char): Option<nat> {
    if IsDigit(c) then Some(c as int - '0' as int)
    else if 'a' <= c <= 'f' then Some(c as int - 'a' as int + 10)
    else if 'A' <= c <= 'F' then Some(c as int - 'A' as int + 10)
    else None
  }

  /** The code unit of `\uXXXX` at the head of `s`. */
  function ReadUnit(s: string): (r: Option<nat>)
    ensures r.Some? ==> 6 <= |s| && r.value < 0x10000
  {
    if |s| < 6 || s[0] != '\\' || s[1] != 'u' then None
    else
      match (HexValue(s[2]), HexValue(s[3]), HexValue(s[4]), HexValue(s[5]))
      case (Some(a), Some(b), Some(c), Some(d)) =>
        if a < 16 && b < 16 && c < 16 && d < 16 then Some(((a * 16 + b) * 16 + c) * 16 + d) else None
      case _ => None
  }

  function Unescape(c: char): Option<char> {
    if c == '"' || c == '\\' || c == '/' then Some(c)
    else if c == 'n' then Some('\n')
    else if c == 'r' then Some('\r')
    else if c == 't' then Some('\t')
    else if c == 'b' then Some(8 as char)
    else if c == 'f' then Some(12 as char)
    else None
  }

  /** One character of a string literal and what follows it. A lone surrogate has no `char`. */
  function ReadChar(s: string): (r: Option<(char, string)>)
    requires s != ""
    ensures r.Some? ==> |r.value.1| < |s|
  {
    if s[0] != '\\' then (if s[0] as int < 0x20 then None else Some((s[0], s[1..])))
    else if |s| < 2 then None
    else if s[1] != 'u' then (match Unescape(s[1]) case None => None case Some(c) => Some((c, s[2..])))
    else
      match ReadUnit(s)
      case None => None
      case Some(n) =>
        if n < 0xD800 || 0xE000 <= n then Some((n as char, s[6..]))
        else if 0xDC00 <= n then None
        else
          match ReadUnit(s[6..])
          case Some(l) =>
            if 0xDC00 <= l < 0xE000
            then Some((((n - 0xD800) * 0x400 + (l - 0xDC00) + 0x10000) as char, s[12..]))
            else None
          case None => None
  }

  /** The rest of a string literal whose opening quote has been read. */
  function ReadString(s: string): (r: Option<(string, string)>)
    ensures r.Some? ==> |r.value.1| < |s|
    decreases |s|
  {
    if s == "" then None
    else if s[0] == '"' then Some(("", s[1..]))
    else
      match ReadChar(s)
      case None => None
      case Some((c, rest)) =>
        match ReadString(rest)
        case None => None
        case Some((t, rest')) => Some(([c] + t, rest'))
  }

  function Digits(s: string): (ds: string)
    ensures |ds| <= |s| && ds == s[..|ds|] && forall i :: 0 <= i < |ds| ==> IsDigit(ds[i])
  {
    if s != "" && IsDigit(s[0]) then [s[0]] + Digits(s[1..]) else ""
  }

  function NatValue(ds: string): nat
    requires forall i :: 0 <= i < |ds| ==> IsDigit(ds[i])
  {
    if ds == "" then 0
    else
      assert IsDigit(ds[|ds|-1]);
      NatValue(ds[..|ds|-1]) * 10 + (ds[|ds|-1] as int - '0' as int)
  }

  /** A fraction or an exponent makes the number a float, which no document holds. */
  function ReadNat(s: string): (r: Option<(nat, string)>)
    ensures r.Some? ==> |r.value.1| < |s|
  {
    var ds := Digits(s);
    var used := if ds != "" && ds[0] == '0' then 1 else |ds|;
    var rest := s[used..];
    if used == 0 || (rest != "" && rest[0] in {'.', 'e', 'E'}) then None
    else Some((NatValue(ds[..used]), rest))
  }

  predicate StartsWith(s: string, p: string) {
    p <= s
  }

  function ReadNumber(s: string): (r: Option<(Json, string)>)
    ensures r.Some? ==> |r.value.1| < |s|
  {
    if s == "" then None
    else if s[0] == '-' then
      (match ReadNat(s[1..]) case None => None case Some((n, rest)) => Some((Negative(n), rest)))
    else
      (match ReadNat(s) case None => None case Some((n, rest)) => Some((Int(n), rest)))
  }

  function Negative(n: int): Json {
    Int(-n)
  }

  function ReadLiteral(s: string): (r: Option<(Json, string)>)
    ensures r.Some? ==> |r.value.1| < |s|
  {
    if StartsWith(s, "null") then Some((Null, s[4..]))
    else if StartsWith(s, "true") then Some((Bool(true), s[4..]))
    else if StartsWith(s, "false") then Some((Bool(false), s[5..]))
    else None
  }

  function ReadQuoted(s: string): (r: Option<(Json, string)>)
    requires s != ""
    ensures r.Some? ==> |r.value.1| < |s|
  {
    match ReadString(s[1..]) case None => None case Some((t, rest)) => Some((Str(t), rest))
  }

  function ReadValue(s: string): (r: Option<(Json, string)>)
    ensures r.Some? ==> |r.value.1| < |s|
    decreases |s|, 1
  {
    if s == "" then None
    else if s[0] == '"' then ReadQuoted(s)
    else if s[0] == '[' then ReadArray(s)
    else if s[0] == '{' then ReadObject(s)
    else if s[0] == '-' || IsDigit(s[0]) then ReadNumber(s)
    else ReadLiteral(s)
  }

  function ReadArray(s: string): (r: Option<(Json, string)>)
    requires s != ""
    ensures r.Some? ==> |r.value.1| < |s|
    decreases |s|, 0
  {
    var t := Skip(s[1..]);
    if t != "" && t[0] == ']' then Some((Arr([]), t[1..]))
    else match ReadItems(t) case None => None case Some((xs, rest)) => Some((Arr(xs), rest))
  }

  function ReadObject(s: string): (r: Option<(Json, string)>)
    requires s != ""
    ensures r.Some? ==> |r.value.1| < |s|
    decreases |s|, 0
  {
    var t := Skip(s[1..]);
    if t != "" && t[0] == '}' then Some((Obj(map[]), t[1..]))
    else match ReadMembers(t) case None => None case Some((m, rest)) => Some((Obj(m), rest))
  }

  function ReadItems(s: string): (r: Option<(seq<Json>, string)>)
    ensures r.Some? ==> |r.value.1| < |s|
    decreases |s|, 2
  {
    match ReadValue(s)
    case None => None
    case Some((x, rest)) =>
      var t := Skip(rest);
      if t == "" then None
      else if t[0] == ']' then Some(([x], t[1..]))
      else if t[0] != ',' then None
      else
        match ReadItems(Skip(t[1..]))
        case None => None
        case Some((xs, rest')) => Some(([x] + xs, rest'))
  }

  /** Of two members with one key the later wins. */
  function ReadMembers(s: string): (r: Option<(map<string, Json>, string)>)
    ensures r.Some? ==> |r.value.1| < |s|
    decreases |s|, 2
  {
    if s == "" || s[0] != '"' then None
    else
      match ReadString(s[1..])
      case None => None
      case Some((k, afterKey)) =>
        var colon := Skip(afterKey);
        if colon == "" || colon[0] != ':' then None
        else
          match ReadValue(Skip(colon[1..]))
          case None => None
          case Some((v, rest)) =>
            var t := Skip(rest);
            if t == "" then None
            else if t[0] == '}' then Some((map[k := v], t[1..]))
            else if t[0] != ',' then None
            else
              match ReadMembers(Skip(t[1..]))
              case None => None
              case Some((m, rest')) => Some((map[k := v] + m, rest'))
  }

  function Loads(s: string): Option<Json> {
    match ReadValue(Skip(s))
    case None => None
    case Some((j, rest)) => if Skip(rest) == "" then Some(j) else None
  }

  // ---------------------------------------------------------------- round trip

  lemma HexDigitRead(d: nat)
    requires d < 16
    ensures HexValue(HexDigit(d)) == Some(d)
  {
  }

  lemma UnitRead(n: nat, rest: string)
    requires n < 0x10000
    ensures ReadUnit(EscapeUnit(n) + rest) == Some(n) && (EscapeUnit(n) + rest)[6..] == rest
  {
    var s := EscapeUnit(n) + rest;
    var a := n / 16;
    var b := a / 16;
    assert s[..6] == EscapeUnit(n) && s[6..] == rest;
    assert s[2] == HexDigit(b / 16) && s[3] == HexDigit(b % 16) && s[4] == HexDigit(a % 16) && s[5] == HexDigit(n % 16);
    HexDigitRead(b / 16);
    HexDigitRead(b % 16);
    HexDigitRead(a % 16);
    HexDigitRead(n % 16);
  }

  lemma UnitChar(c: char, rest: string)
    requires c as int < 0x10000
    ensures ReadChar(EscapeUnit(c as int) + rest) == Some((c, rest))
  {
    UnitRead(c as int, rest);
    hide ReadUnit;
  }

  /** A character outside the basic plane is read back from its two halves. */
  lemma PairChar(c: char, h: nat, l: nat, rest: string)
    requires 0x10000 <= c as int
    requires h == 0xD800 + (c as int - 0x10000) / 0x400 && l == 0xDC00 + (c as int - 0x10000) % 0x400
    ensures ReadChar(EscapeUnit(h) + EscapeUnit(l) + rest) == Some((c, rest))
  {
    UnitRead(h, EscapeUnit(l) + rest);
    UnitRead(l, rest);
    hide ReadUnit;
    assert EscapeUnit(h) + EscapeUnit(l) + rest == EscapeUnit(h) + (EscapeUnit(l) + rest);
    assert (EscapeUnit(h) + (EscapeUnit(l) + rest))[12..] == rest;
  }

  lemma CharRead(c: char, ascii: bool, rest: string)
    ensures Escape(c, ascii) != "" && Escape(c, ascii)[0] != '"'
    ensures ReadChar(Escape(c, ascii) + rest) == Some((c, rest))
  {
    hide ReadUnit;
    var n := c as int;
    var e := Escape(c, ascii);
    if ascii && 0x10000 <= n {
      PairChar(c, 0xD800 + (n - 0x10000) / 0x400, 0xDC00 + (n - 0x10000) % 0x400, rest);
    } else if n < 0x10000 && e == EscapeUnit(n) {
      UnitChar(c, rest);
    } else {
      assert (e + rest)[|e|..] == rest;
    }
  }

  lemma {:induction false} StringRead(s: string, ascii: bool, rest: string)
    ensures ReadString(EscapeAll(s, ascii) + "\"" + rest) == Some((s, rest))
  {
    if s == "" {
      assert EscapeAll(s, ascii) + "\"" + rest == ['"'] + rest;
    } else {
      var tail := EscapeAll(s[1..], ascii) + "\"" + rest;
      assert EscapeAll(s, ascii) + "\"" + rest == Escape(s[0], ascii) + tail;
      CharRead(s[0], ascii, tail);
      StringRead(s[1..], ascii, rest);
      assert s == [s[0]] + s[1..];
    }
  }

  lemma {:induction false} NatDigits(n: nat)
    ensures PrintNat(n) != "" && forall i :: 0 <= i < |PrintNat(n)| ==> IsDigit(PrintNat(n)[i])
    ensures NatValue(PrintNat(n)) == n
    ensures PrintNat(n)[0] == '0' ==> n == 0
  {
    if n >= 10 {
      NatDigits(n / 10);
      assert PrintNat(n)[..|PrintNat(n)|-1] == PrintNat(n / 10);
    }
  }

  lemma {:induction false} DigitsStop(ds: string, rest: string)
    requires forall i :: 0 <= i < |ds| ==> IsDigit(ds[i])
    requires rest == "" || !IsDigit(rest[0])
    ensures Digits(ds + rest) == ds
  {
    if ds == "" {
      assert ds + rest == rest;
    } else {
      assert (ds + rest)[1..] == ds[1..] + rest;
      DigitsStop(ds[1..], rest);
    }
  }

  /** What may follow a document inside a larger text. */
  predicate Stops(rest: string) {
    rest == "" || rest[0] in {',', ']', '}', '\n'}
  }

  lemma NatRead(n: nat, rest: string)
    requires Stops(rest)
    ensures ReadNat(PrintNat(n) + rest) == Some((n, rest))
  {
    NatDigits(n);
    DigitsStop(PrintNat(n), rest);
    assert (PrintNat(n) + rest)[|PrintNat(n)|..] == rest;
    assert PrintNat(n)[..|PrintNat(n)|] == PrintNat(n);
  }

  lemma Unspaced(j: Json, ascii: bool, rest: string)
    ensures Dumps(j, ascii) != "" && !IsSpace(Dumps(j, ascii)[0]) && Dumps(j, ascii)[0] !in {']', '}'}
    ensures Skip(Dumps(j, ascii) + rest) == Dumps(j, ascii) + rest
  {
    if j.Int? { NatDigits(if j.i < 0 then -j.i else j.i); }
  }

  lemma IntRead(i: int, rest: string)
    requires Stops(rest)
    ensures ReadNumber(PrintInt(i) + rest) == Some((Int(i), rest))
    ensures (PrintInt(i) + rest)[0] == '-' || IsDigit((PrintInt(i) + rest)[0])
  {
    hide ReadNat, PrintNat, NatValue;
    var n: nat := if i < 0 then -i else i;
    NatDigits(n);
    NatRead(n, rest);
    if i < 0 {
      assert (PrintInt(i) + rest)[1..] == PrintNat(n) + rest;
    }
  }

  lemma LiteralRead(j: Json, ascii: bool, rest: string)
    requires j.Null? || j.Bool?
    ensures ReadLiteral(Dumps(j, ascii) + rest) == Some((j, rest))
    ensures Dumps(j, ascii)[0] in {'n', 't', 'f'}
  {
    var d := Dumps(j, ascii);
    var s := d + rest;
    assert s[..|d|] == d && s[|d|..] == rest && s[0] == d[0];
    assert StartsWith(s, d);
  }

  lemma QuoteRead(t: string, ascii: bool, rest: string)
    ensures ReadQuoted(Quote(t, ascii) + rest) == Some((Str(t), rest))
  {
    assert (Quote(t, ascii) + rest)[1..] == EscapeAll(t, ascii) + "\"" + rest;
    StringRead(t, ascii, rest);
  }

  /** Reading the text of a document gives the document back, whatever follows it. */
  lemma {:induction false} ValueRead(j: Json, ascii: bool, rest: string)
    requires Stops(rest)
    ensures ReadValue(Dumps(j, ascii) + rest) == Some((j, rest))
    decreases j, 2
  {
    match j
    case Int(i) => IntRead(i, rest);
    case Str(t) => QuoteRead(t, ascii, rest);
    case Arr(xs) => ArrayRead(xs, ascii, rest);
    case Obj(m) => ObjectRead(j, ascii, rest);
    case _ => LiteralRead(j, ascii, rest);
  }

  lemma {:induction false} ArrayRead(xs: seq<Json>, ascii: bool, rest: string)
    ensures ReadArray("[" + PrintItems(xs, ascii) + "]" + rest) == Some((Arr(xs), rest))
    decreases xs, 1
  {
    var s := "[" + PrintItems(xs, ascii) + "]" + rest;
    assert s[1..] == PrintItems(xs, ascii) + "]" + rest;
    if xs == [] {
      assert s[1..] == "]" + rest;
    } else {
      ItemsRead(xs, ascii, rest);
    }
  }

  /** The last item, and an item with more to come. */
  lemma LastItem(t: string, x: Json, tail: string)
    requires ReadValue(t) == Some((x, tail)) && tail != "" && tail[0] == ']'
    ensures ReadItems(t) == Some(([x], tail[1..]))
  {
    assert Skip(tail) == tail;
  }

  lemma NextItem(t: string, x: Json, tail: string, xs: seq<Json>, rest: string)
    requires ReadValue(t) == Some((x, tail)) && tail != "" && tail[0] == ','
    requires ReadItems(Skip(tail[1..])) == Some((xs, rest))
    ensures ReadItems(t) == Some(([x] + xs, rest))
  {
    assert Skip(tail) == tail;
  }

  lemma {:induction false} ItemsRead(xs: seq<Json>, ascii: bool, rest: string)
    requires xs != []
    ensures var t := PrintItems(xs, ascii) + "]" + rest;
            Skip(t) == t && t != "" && t[0] != ']' && ReadItems(t) == Some((xs, rest))
    decreases xs, 0
  {
    hide *;
    var t := PrintItems(xs, ascii) + "]" + rest;
    FirstItem(xs, ascii, rest);
    if |xs| == 1 {
      ItemText(xs[0], ascii, "]" + rest);
      assert ("]" + rest)[1..] == rest && xs == [xs[0]];
      LastItem(t, xs[0], "]" + rest);
    } else {
      var more := PrintItems(xs[1..], ascii) + "]" + rest;
      ItemText(xs[0], ascii, "," + more);
      assert ("," + more)[1..] == more && xs == [xs[0]] + xs[1..];
      ItemsRead(xs[1..], ascii, rest);
      NextItem(t, xs[0], "," + more, xs[1..], rest);
    }
  }

  lemma {:induction false} ItemText(x: Json, ascii: bool, tail: string)
    requires Stops(tail)
    ensures var t := Dumps(x, ascii) + tail;
            Skip(t) == t && t != "" && t[0] != ']' && ReadValue(t) == Some((x, tail))
    decreases x, 3
  {
    Unspaced(x, ascii, tail);
    ValueRead(x, ascii, tail);
  }

  lemma FirstItem(xs: seq<Json>, ascii: bool, rest: string)
    requires xs != []
    ensures PrintItems(xs, ascii) + "]" + rest == Dumps(xs[0], ascii) +
      if |xs| == 1 then "]" + rest else "," + (PrintItems(xs[1..], ascii) + "]" + rest)
  {
    if |xs| == 1 {
      assert PrintItems(xs, ascii) == Dumps(xs[0], ascii);
    } else {
      assert PrintItems(xs, ascii) == Dumps(xs[0], ascii) + "," + PrintItems(xs[1..], ascii);
      Reassociate(Dumps(xs[0], ascii), PrintItems(xs[1..], ascii), "]", rest);
    }
  }

  lemma {:induction false} ObjectRead(j: Json, ascii: bool, rest: string)
    requires j.Obj?
    ensures ReadObject(Dumps(j, ascii) + rest) == Some((j, rest))
    decreases j, 1
  {
    var ks := SortedKeys(j.fields.Keys);
    if ks == [] {
      assert j.fields == map[];
      assert Dumps(j, ascii) == "{}";
      assert (Dumps(j, ascii) + rest)[1..] == "}" + rest && ("}" + rest)[1..] == rest;
    } else {
      MembersRead(j, ks, ascii, rest);
      assert Picked(j.fields, ks) == j.fields;
      BracesRead(PrintMembers(j, ks, ascii), rest, Picked(j.fields, ks));
    }
  }

  lemma BracesRead(body: string, rest: string, m: map<string, Json>)
    requires var t := body + "}" + rest;
             Skip(t) == t && t != "" && t[0] == '"' && ReadMembers(t) == Some((m, rest))
    ensures ReadObject("{" + body + "}" + rest) == Some((Obj(m), rest))
  {
    assert ("{" + body + "}" + rest)[1..] == body + "}" + rest;
  }

  /** One member is read up to the separator that ends it. */
  lemma MemberRead(t: string, k: string, colon: string, v: Json, tail: string)
    requires t != "" && t[0] == '"' && ReadString(t[1..]) == Some((k, colon))
    requires colon != "" && colon[0] == ':' && ReadValue(Skip(colon[1..])) == Some((v, tail))
    requires tail != "" && (tail[0] == '}' || tail[0] == ',')
    ensures ReadMembers(t) ==
      if tail[0] == '}' then Some((map[k := v], tail[1..]))
      else match ReadMembers(Skip(tail[1..])) case None => None case Some((m, r)) => Some((map[k := v] + m, r))
  {
    assert Skip(colon) == colon && Skip(tail) == tail;
  }

  lemma {:induction false} MemberText(k: string, v: Json, ascii: bool, tail: string)
    requires tail != "" && (tail[0] == '}' || tail[0] == ',')
    ensures var t := Quote(k, ascii) + ":" + Dumps(v, ascii) + tail;
      Skip(t) == t && t != "" && t[0] == '"' && ReadMembers(t) ==
        if tail[0] == '}' then Some((map[k := v], tail[1..]))
        else match ReadMembers(Skip(tail[1..])) case None => None case Some((m, r)) => Some((map[k := v] + m, r))
    decreases v, 3
  {
    hide EscapeAll, Dumps, ReadString, ReadValue, ReadMembers;
    var t := Quote(k, ascii) + ":" + Dumps(v, ascii) + tail;
    var value := Dumps(v, ascii) + tail;
    var colon := ":" + value;
    assert t[1..] == EscapeAll(k, ascii) + "\"" + colon && colon[1..] == value;
    StringRead(k, ascii, colon);
    Unspaced(v, ascii, tail);
    ValueRead(v, ascii, tail);
    MemberRead(t, k, colon, v, tail);
  }

  lemma {:induction false} MembersRead(j: Json, ks: seq<string>, ascii: bool, rest: string)
    requires j.Obj? && ks != [] && (forall k | k in ks :: k in j.fields) && Sorted(ks)
    ensures var t := PrintMembers(j, ks, ascii) + "}" + rest;
            Skip(t) == t && t != "" && t[0] == '"' && ReadMembers(t) == Some((Picked(j.fields, ks), rest))
    decreases j, 0, |ks|
  {
    var k, v := ks[0], j.fields[ks[0]];
    var more := PrintMembers(j, ks[1..], ascii) + "}" + rest;
    var tail := if |ks| == 1 then "}" + rest else "," + more;
    FirstMember(j, ks, ascii, rest);
    MemberText(k, v, ascii, tail);
    PickFirst(j.fields, ks);
    if |ks| == 1 {
      assert tail[1..] == rest;
    } else {
      assert tail[1..] == more;
      MembersRead(j, ks[1..], ascii, rest);
    }
  }

  lemma FirstMember(j: Json, ks: seq<string>, ascii: bool, rest: string)
    requires j.Obj? && ks != [] && (forall k | k in ks :: k in j.fields)
    ensures PrintMembers(j, ks, ascii) + "}" + rest == Quote(ks[0], ascii) + ":" + Dumps(j.fields[ks[0]], ascii) +
      if |ks| == 1 then "}" + rest else "," + (PrintMembers(j, ks[1..], ascii) + "}" + rest)
  {
    var member := Quote(ks[0], ascii) + ":" + Dumps(j.fields[ks[0]], ascii);
    if |ks| == 1 {
      assert PrintMembers(j, ks, ascii) == member;
    } else {
      assert PrintMembers(j, ks, ascii) == member + "," + PrintMembers(j, ks[1..], ascii);
      Reassociate(member, PrintMembers(j, ks[1..], ascii), "}", rest);
    }
  }

  lemma Reassociate(a: string, b: string, close: string, rest: string)
    ensures a + "," + b + close + rest == a + ("," + (b + close + rest))
  {
  }

  lemma PickFirst(m: map<string, Json>, ks: seq<string>)
    requires ks != [] && (forall k | k in ks :: k in m) && Sorted(ks)
    ensures Picked(m, ks) == map[ks[0] := m[ks[0]]] + Picked(m, ks[1..])
    ensures |ks| == 1 ==> Picked(m, ks) == map[ks[0] := m[ks[0]]]
  {
  }

  /** `json.loads` undoes `json.dumps`. */
  lemma LoadsDumps(j: Json, ascii: bool)
    ensures Loads(Dumps(j, ascii)) == Some(j)
  {
    Unspaced(j, ascii, "");
    ValueRead(j, ascii, "");
    assert Dumps(j, ascii) + "" == Dumps(j, ascii);
  }

  /** Two documents with one text are one document. */
  lemma DumpsInjective(j: Json, k: Json, ascii: bool)
    requires Dumps(j, ascii) == Dumps(k, ascii)
    ensures j == k
  {
    LoadsDumps(j, ascii);
    LoadsDumps(k, ascii);
  }
}
