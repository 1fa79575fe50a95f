/** The ledger as JSON lines: one row per line, and reading the lines back. */
module Jsonl {
  import opened Strings
  import opened Json
  import opened JsonText
  import opened Ledger

  // ---------------------------------------------------------------- lines

  /** Where `str.splitlines` ends a line. */
  predicate IsBreak(c: char) {
    '\n' <= c <= '\r' || '\U{1C}' <= c <= '\U{1E}' || c == '\U{85}' || c == '\U{2028}' || c == '\U{2029}'
  }

  /** The first line and what follows it; a carriage return and a line feed are one break. */
  function TakeLine(s: string): (r: (string, string))
    ensures s != "" ==> |r.1| < |s|
  {
    if s == "" then ("", "")
    else if s[0] == '\r' && |s| > 1 && s[1] == '\n' then ("", s[2..])
    else if IsBreak(s[0]) then ("", s[1..])
    else
      var (line, rest) := TakeLine(s[1..]);
      ([s[0]] + line, if s[1..] == "" then "" else rest)
  }

  /** `s.splitlines()`. */
  function SplitLines(s: string): seq<string>
    decreases |s|
  {
    if s == "" then [] else var (line, rest) := TakeLine(s); [line] + SplitLines(rest)
  }

  /** Printable ASCII. */
  ghost predicate Printable(s: string) {
    forall k :: 0 <= k < |s| ==> ' ' <= s[k] <= '~'
  }

  lemma {:induction false} LineTaken(line: string, rest: string)
    requires Printable(line)
    ensures TakeLine(line + "\n" + rest) == (line, rest)
  {
    var s := line + "\n" + rest;
    if line == "" {
      assert s[1..] == rest;
    } else {
      LineTaken(line[1..], rest);
      assert s[1..] == line[1..] + "\n" + rest;
      assert s[0] == line[0] && [line[0]] + line[1..] == line;
    }
  }

  // ---------------------------------------------------------------- escaped text is printable

  lemma HexPrintable(n: nat)
    requires n < 0x10000
    ensures Printable(EscapeUnit(n))
  {
  }

  lemma PairPrintable(n: nat)
    requires 0x10000 <= n < 0x110000
    ensures Printable(EscapeUnit(0xD800 + (n - 0x10000) / 0x400) + EscapeUnit(0xDC00 + (n - 0x10000) % 0x400))
  {
    hide EscapeUnit;
    HexPrintable(0xD800 + (n - 0x10000) / 0x400);
    HexPrintable(0xDC00 + (n - 0x10000) % 0x400);
  }

  lemma EscapePrintable(c: char)
    ensures Printable(Escape(c, true))
  {
    hide EscapeUnit;
    var n := c as int;
    if n < 0x10000 { HexPrintable(n); } else { PairPrintable(n); }
  }

  lemma {:induction false} EscapedPrintable(s: string)
    ensures Printable(EscapeAll(s, true))
  {
    hide Escape;
    if s != "" {
      EscapePrintable(s[0]);
      EscapedPrintable(s[1..]);
    }
  }

  lemma {:induction false} NatPrintable(n: nat)
    ensures Printable(PrintNat(n))
  {
    if n >= 10 { NatPrintable(n / 10); }
  }

  lemma {:induction false} DumpsPrintable(j: Json)
    ensures Printable(Dumps(j, true))
    decreases j, 1
  {
    hide Printable, PrintNat, EscapeAll, PrintItems, PrintMembers, SortedKeys;
    WordsPrintable();
    match j
    case Int(i) => NatPrintable(if i < 0 then -i else i); Joined("-", PrintNat(if i < 0 then -i else i));
    case Str(s) => EscapedPrintable(s); Wrapped("\"", EscapeAll(s, true), "\"");
    case Arr(xs) => ItemsPrintable(xs); Wrapped("[", PrintItems(xs, true), "]");
    case Obj(m) =>
      MembersPrintable(j, SortedKeys(m.Keys));
      Wrapped("{", PrintMembers(j, SortedKeys(m.Keys), true), "}");
    case _ =>
  }

  lemma WordsPrintable()
    ensures Printable("null") && Printable("true") && Printable("false") && Printable("-")
    ensures Printable("\"") && Printable("[") && Printable("]") && Printable("{") && Printable("}")
  {
  }

  lemma Wrapped(a: string, body: string, b: string)
    requires Printable(a) && Printable(body) && Printable(b)
    ensures Printable(a + body + b)
  {
  }

  lemma {:induction false} ItemsPrintable(xs: seq<Json>)
    ensures Printable(PrintItems(xs, true))
    decreases xs, 0
  {
    if xs != [] {
      DumpsPrintable(xs[0]);
      ItemsPrintable(xs[1..]);
    }
  }

  lemma {:induction false} MembersPrintable(j: Json, ks: seq<string>)
    requires j.Obj? && forall k :: k in ks ==> k in j.fields
    ensures Printable(PrintMembers(j, ks, true))
    decreases j, 0, |ks|
  {
    if ks != [] {
      assert ks[0] in ks;
      DumpsPrintable(j.fields[ks[0]]);
      MemberPrintable(ks[0], Dumps(j.fields[ks[0]], true));
      MembersPrintable(j, ks[1..]);
      hide Quote, Dumps;
      var member := Quote(ks[0], true) + ":" + Dumps(j.fields[ks[0]], true);
      Joined(member, ",");
      Joined(member + ",", PrintMembers(j, ks[1..], true));
    }
  }

  lemma MemberPrintable(k: string, value: string)
    requires Printable(value)
    ensures Printable(Quote(k, true) + ":" + value)
  {
    hide EscapeAll;
    EscapedPrintable(k);
  }

  lemma Joined(a: string, b: string)
    requires Printable(a) && Printable(b)
    ensures Printable(a + b)
  {
  }

  // ---------------------------------------------------------------- rows

  datatype Outcome<+T> = Ok(value: T) | Fail(code: string)

  /** The nine columns of a row. */
  function RowDoc(e: Event): map<string, Json> {
    map["id" := Str(e.id), "operation_id" := OrNull(e.operationId), "parent_event_hash" := Str(e.parentHash),
        "event_type" := Str(e.eventType), "worker_id" := Str(e.workerId), "payload_json" := Str(e.payload.text),
        "artifact_hash" := OrNull(e.artifactHash), "event_hash" := Str(e.eventHash), "created_at" := Str(e.createdAt)]
  }

  function Line(e: Event): string {
    Dumps(Obj(RowDoc(e)), true)
  }

  /** `_ledger_jsonl`. */
  function LedgerJsonl(es: History): string {
    if es == [] then "" else Line(es[0]) + "\n" + LedgerJsonl(es[1..])
  }

  function Lines(es: History): seq<string> {
    if es == [] then [] else [Line(es[0])] + Lines(es[1..])
  }

  lemma {:induction false} LinesSplit(es: History)
    ensures SplitLines(LedgerJsonl(es)) == Lines(es)
  {
    if es != [] {
      LinesSplit(es[1..]);
      DumpsPrintable(Obj(RowDoc(es[0])));
      LineTaken(Line(es[0]), LedgerJsonl(es[1..]));
    }
  }

  /** The lines read as documents; the first bad line decides. */
  function ParseLines(lines: seq<string>): Outcome<seq<map<string, Json>>> {
    if lines == [] then Ok([])
    else
      match ParseLines(lines[..|lines|-1])
      case Fail(code) => Fail(code)
      case Ok(docs) =>
        match Loads(lines[|lines|-1])
        case None => Fail("JSON_DECODE_ERROR")
        case Some(Obj(m)) => Ok(docs + [m])
        case Some(_) => Fail("INVALID_LEDGER_EVENT")
  }

  lemma {:induction false} FailsEarly(lines: seq<string>, n: nat)
    requires n <= |lines| && ParseLines(lines[..n]).Fail?
    ensures ParseLines(lines) == ParseLines(lines[..n])
  {
    if n < |lines| {
      assert lines[..|lines|-1][..n] == lines[..n];
      FailsEarly(lines[..|lines|-1], n);
    } else {
      assert lines[..n] == lines;
    }
  }

  /** The loop of `_read_ledger_jsonl`. */
  method ReadLines(lines: seq<string>) returns (r: Outcome<seq<map<string, Json>>>)
    ensures r == ParseLines(lines)
  {
    hide Loads;
    var docs: seq<map<string, Json>> := [];
    for k := 0 to |lines|
      invariant ParseLines(lines[..k]) == Ok(docs)
    {
      assert lines[..k+1][..k] == lines[..k];
      var j := Loads(lines[k]);
      if j.None? {
        FailsEarly(lines, k + 1);
        return Fail("JSON_DECODE_ERROR");
      }
      if !j.value.Obj? {
        FailsEarly(lines, k + 1);
        return Fail("INVALID_LEDGER_EVENT");
      }
      docs := docs + [j.value.fields];
    }
    assert lines[..|lines|] == lines;
    return Ok(docs);
  }

  const REQUIRED := ["id", "parent_event_hash", "event_type", "worker_id", "payload_json", "event_hash", "created_at"]

  /** `event.get(column)` is None for a column that may not be. */
  predicate MissingColumn(m: map<string, Json>) {
    exists k :: k in REQUIRED && (k !in m || m[k].Null?)
  }

  /** What a column of type TEXT keeps of a bound value: a text as it is, a 64-bit integer or a truth value in
      digits; a list or an object cannot be bound. */
  function Kept(j: Json): Option<string> {
    match j
    case Str(s) => Some(s)
    case Int(i) => if -0x8000_0000_0000_0000 <= i < 0x8000_0000_0000_0000 then Some(PrintInt(i)) else None
    case Bool(b) => Some(if b then "1" else "0")
    case _ => None
  }

  predicate TextColumn(m: map<string, Json>, k: string) {
    k in m && Kept(m[k]).Some?
  }

  predicate NullableColumn(m: map<string, Json>, k: string) {
    k in m ==> m[k].Null? || Kept(m[k]).Some?
  }

  function KeptText(m: map<string, Json>, k: string): string
    requires TextColumn(m, k)
  {
    Kept(m[k]).value
  }

  function KeptOption(m: map<string, Json>, k: string): Option<string> {
    if k in m then Kept(m[k]) else None
  }

  /** The row a document inserts. */
  function DecodeRow(m: map<string, Json>): Outcome<Event> {
    if MissingColumn(m) then Fail("INVALID_LEDGER_EVENT")
    else if TextColumn(m, "id") && TextColumn(m, "parent_event_hash") && TextColumn(m, "event_type")
            && TextColumn(m, "worker_id") && TextColumn(m, "payload_json") && TextColumn(m, "event_hash")
            && TextColumn(m, "created_at") && NullableColumn(m, "operation_id") && NullableColumn(m, "artifact_hash")
    then
      Ok(Event(KeptText(m, "id"), KeptOption(m, "operation_id"), KeptText(m, "parent_event_hash"), KeptText(m, "event_type"),
               KeptText(m, "worker_id"), Column(KeptText(m, "payload_json")), KeptOption(m, "artifact_hash"),
               KeptText(m, "event_hash"), KeptText(m, "created_at")))
    else Fail("COLUMN_TYPE")
  }

  lemma NoColumnMissing(e: Event)
    ensures !MissingColumn(RowDoc(e))
  {
    var m := RowDoc(e);
    assert forall k :: k in REQUIRED ==> k in m && m[k].Str?;
  }

  /** The row is read back as it was. */
  lemma RowReadsBack(e: Event)
    requires e.payload == Column(e.payload.text)
    ensures DecodeRow(RowDoc(e)) == Ok(e)
  {
    hide Column, MissingColumn;
    NoColumnMissing(e);
  }

  /** The rows inserted; ids are the primary key, and one failure undoes all. */
  function DecodeRows(docs: seq<map<string, Json>>): Outcome<History> {
    if docs == [] then Ok([])
    else
      match DecodeRows(docs[..|docs|-1])
      case Fail(code) => Fail(code)
      case Ok(es) =>
        match DecodeRow(docs[|docs|-1])
        case Fail(code) => Fail(code)
        case Ok(e) => if IdOf(es, e.id) then Fail("DUPLICATE_ID") else Ok(es + [e])
  }

  lemma {:induction false} DecodeFailsEarly(docs: seq<map<string, Json>>, n: nat)
    requires n <= |docs| && DecodeRows(docs[..n]).Fail?
    ensures DecodeRows(docs) == DecodeRows(docs[..n])
  {
    hide DecodeRow, IdOf;
    if n < |docs| {
      assert docs[..|docs|-1][..n] == docs[..n];
      DecodeFailsEarly(docs[..|docs|-1], n);
    } else {
      assert docs[..n] == docs;
    }
  }

  /** The insert loop of `_import_ledger_events`. */
  method InsertRows(docs: seq<map<string, Json>>) returns (r: Outcome<History>)
    ensures r == DecodeRows(docs)
  {
    hide DecodeRow, IdOf;
    var rows: History := [];
    for k := 0 to |docs|
      invariant DecodeRows(docs[..k]) == Ok(rows)
    {
      assert docs[..k+1][..k] == docs[..k];
      var row := DecodeRow(docs[k]);
      if row.Fail? {
        DecodeFailsEarly(docs, k + 1);
        return Fail(row.code);
      }
      if IdOf(rows, row.value.id) {
        DecodeFailsEarly(docs, k + 1);
        return Fail("DUPLICATE_ID");
      }
      rows := rows + [row.value];
    }
    assert docs[..|docs|] == docs;
    return Ok(rows);
  }

  // ---------------------------------------------------------------- the round trip of the text

  function Docs(es: History): seq<map<string, Json>> {
    seq(|es|, k requires 0 <= k < |es| => RowDoc(es[k]))
  }

  lemma {:induction false} LineAt(es: History, k: nat)
    requires k < |es|
    ensures |Lines(es)| == |es| && Lines(es)[k] == Line(es[k])
  {
    LinesLength(es);
    if k > 0 { LineAt(es[1..], k - 1); }
  }

  lemma {:induction false} LinesLength(es: History)
    ensures |Lines(es)| == |es|
  {
    if es != [] { LinesLength(es[1..]); }
  }

  lemma {:induction false} LinesParse(es: History, n: nat)
    requires n <= |es|
    ensures |Lines(es)| == |es| && ParseLines(Lines(es)[..n]) == Ok(Docs(es)[..n])
  {
    hide Loads, Dumps, RowDoc, Lines;
    LinesLength(es);
    if n > 0 {
      LinesParse(es, n - 1);
      LineAt(es, n - 1);
      LoadsDumps(Obj(RowDoc(es[n-1])), true);
      assert Lines(es)[..n][..n-1] == Lines(es)[..n-1];
      assert Docs(es)[..n] == Docs(es)[..n-1] + [RowDoc(es[n-1])];
    }
  }

  /** Every event's payload column is what its text parses to. */
  ghost predicate Consistent(es: History) {
    forall k :: 0 <= k < |es| ==> es[k].payload == Column(es[k].payload.text)
  }

  lemma DecodeStep(docs: seq<map<string, Json>>, m: map<string, Json>, es: History, e: Event)
    requires DecodeRows(docs) == Ok(es) && DecodeRow(m) == Ok(e) && !IdOf(es, e.id)
    ensures DecodeRows(docs + [m]) == Ok(es + [e])
  {
    hide DecodeRow, IdOf;
    var more := docs + [m];
    assert more[..|more|-1] == docs && more[|more|-1] == m;
  }

  lemma {:induction false} DocsDecode(es: History, n: nat)
    requires n <= |es| && Consistent(es) && DistinctIds(es)
    ensures DecodeRows(Docs(es)[..n]) == Ok(es[..n])
  {
    hide DecodeRow, RowDoc, Column, IdOf, DistinctIds, DecodeRows;
    if n > 0 {
      DocsDecode(es, n - 1);
      RowReadsBack(es[n-1]);
      NewId(es, n - 1);
      DecodeStep(Docs(es)[..n-1], RowDoc(es[n-1]), es[..n-1], es[n-1]);
      assert Docs(es)[..n] == Docs(es)[..n-1] + [RowDoc(es[n-1])];
      assert es[..n] == es[..n-1] + [es[n-1]];
    } else {
      NothingDecodes();
    }
  }

  lemma NothingDecodes()
    ensures DecodeRows([]) == Ok([])
  {
  }

  /** All nine columns of every event survive printing, splitting and reading back. */
  lemma LedgerReadsBack(es: History)
    requires Consistent(es) && DistinctIds(es)
    ensures ParseLines(SplitLines(LedgerJsonl(es))) == Ok(Docs(es)) && DecodeRows(Docs(es)) == Ok(es)
  {
    hide *;
    LinesSplit(es);
    LinesParse(es, |es|);
    DocsDecode(es, |es|);
    DocsLength(es);
    assert Lines(es)[..|es|] == Lines(es) && Docs(es)[..|es|] == Docs(es) && es[..|es|] == es;
  }

  lemma DocsLength(es: History)
    ensures |Docs(es)| == |es|
  {
  }
}
