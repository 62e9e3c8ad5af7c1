/** The CSV import and export of pages/autochase/invoices.tsx: the
    quote-aware line splitter, the line and row rules of `parseCsv`, and
    the line `exportCsv` writes for an invoice. The quoting rules are
    those of rules 5 to 7 of section 2 of RFC 4180, read leniently. */
module CsvImport {
  import opened Wrappers
  import opened Strings
  import opened Types

  /** The fields `splitCsvLine` collects from the rest `s` of a line,
      given whether it is inside quotes and the field read so far: `""`
      inside quotes is one literal quote, any other quote toggles the
      quoting, and a comma outside quotes ends the field. */
  function Scan(s: string, inQ: bool, cur: string): (r: seq<string>)
    ensures |r| >= 1
    decreases |s|
  {
    if s == [] then [cur]
    else if s[0] == '"' then
      if inQ && |s| > 1 && s[1] == '"' then Scan(s[2..], inQ, cur + ['"'])
      else Scan(s[1..], !inQ, cur)
    else if s[0] == ',' && !inQ then [cur] + Scan(s[1..], false, "")
    else Scan(s[1..], inQ, cur + [s[0]])
  }

  /** The untrimmed fields of a line. */
  function RawFields(line: string): seq<string> {
    Scan(line, false, "")
  }

  /** `splitCsvLine`. */
  function SplitCsvLine(line: string): seq<string> {
    TrimAll(RawFields(line))
  }

  /** `splitCsvLine` as the source runs it: one pass over the characters. */
  method SplitLine(line: string) returns (fields: seq<string>)
    ensures fields == SplitCsvLine(line)
  {
    var res: seq<string> := [];
    var cur := "";
    var inQ := false;
    var i := 0;
    while i < |line|
      invariant 0 <= i <= |line|
      invariant res + Scan(line[i..], inQ, cur) == RawFields(line)
      decreases |line| - i
    {
      var ch := line[i];
      assert line[i..][0] == ch && line[i..][1..] == line[i + 1..];
      if ch == '"' {
        if inQ && i + 1 < |line| && line[i + 1] == '"' {
          assert line[i..][1] == line[i + 1] && line[i..][2..] == line[i + 2..];
          cur := cur + ['"'];
          i := i + 1;
        } else {
          inQ := !inQ;
        }
      } else if ch == ',' && !inQ {
        res := res + [cur];
        cur := "";
      } else {
        cur := cur + [ch];
      }
      i := i + 1;
    }
    assert line[i..] == [];
    fields := TrimAll(res + [cur]);
  }

  /** Every field comes back trimmed. */
  lemma FieldsTrimmed(line: string)
    ensures forall i :: 0 <= i < |SplitCsvLine(line)| ==> Trim(SplitCsvLine(line)[i]) == SplitCsvLine(line)[i]
  {
    forall i | 0 <= i < |SplitCsvLine(line)|
      ensures Trim(SplitCsvLine(line)[i]) == SplitCsvLine(line)[i]
    {
      TrimIdempotent(RawFields(line)[i]);
    }
  }

  lemma {:induction false} ScanUnquoted(s: string, cur: string)
    requires '"' !in s
    ensures Scan(s, false, cur) == [cur + Split(s, ',')[0]] + Split(s, ',')[1..]
    decreases |s|
  {
    if s == [] {
      assert cur + "" == cur;
    } else {
      var rest := Split(s[1..], ',');
      ScanUnquoted(s[1..], if s[0] == ',' then "" else cur + [s[0]]);
      if s[0] == ',' {
        assert "" + rest[0] == rest[0];
        assert rest == [rest[0]] + rest[1..];
        assert cur + "" == cur;
      } else {
        assert cur + [s[0]] + rest[0] == cur + ([s[0]] + rest[0]);
      }
    }
  }

  /** A line without quotes is split at every comma, giving one field
      more than it has commas. */
  lemma UnquotedLine(line: string)
    requires '"' !in line
    ensures SplitCsvLine(line) == TrimAll(Split(line, ','))
    ensures |SplitCsvLine(line)| == Count(line, ',') + 1
  {
    ScanUnquoted(line, "");
    var pieces := Split(line, ',');
    assert "" + pieces[0] == pieces[0];
    assert pieces == [pieces[0]] + pieces[1..];
  }

  /** The commas of `s` outside quotes, reading every quote as a toggle
      from the state `inQ`; a doubled quote inside quotes toggles twice
      and so leaves the state as it was. */
  function CommasOutside(s: string, inQ: bool): nat
    decreases |s|
  {
    if s == [] then 0
    else if s[0] == '"' then CommasOutside(s[1..], !inQ)
    else (if s[0] == ',' && !inQ then 1 else 0) + CommasOutside(s[1..], inQ)
  }

  lemma {:induction false} ScanCount(s: string, inQ: bool, cur: string)
    ensures |Scan(s, inQ, cur)| == CommasOutside(s, inQ) + 1
    decreases |s|
  {
    if s == [] {
    } else if s[0] == '"' {
      if inQ && |s| > 1 && s[1] == '"' {
        ScanCount(s[2..], inQ, cur + ['"']);
        assert s[1..][1..] == s[2..];
      } else {
        ScanCount(s[1..], !inQ, cur);
      }
    } else if s[0] == ',' && !inQ {
      ScanCount(s[1..], false, "");
    } else {
      ScanCount(s[1..], inQ, cur + [s[0]]);
    }
  }

  /** Every line has one field more than it has commas outside quotes. */
  lemma FieldCount(line: string)
    ensures |SplitCsvLine(line)| == CommasOutside(line, false) + 1
  {
    ScanCount(line, false, "");
  }

  /** `f` with every quote doubled. */
  function Escape(f: string): (r: string)
    decreases |f|
  {
    if f == [] then ""
    else if f[0] == '"' then "\"\"" + Escape(f[1..])
    else [f[0]] + Escape(f[1..])
  }

  /** `f` as a quoted CSV field. */
  function Quote(f: string): string {
    "\"" + Escape(f) + "\""
  }

  lemma {:induction false} ScanEscaped(f: string, rest: string, cur: string)
    requires rest == [] || rest[0] != '"'
    ensures Scan(Escape(f) + "\"" + rest, true, cur) == Scan(rest, false, cur + f)
    decreases |f|
  {
    var s := Escape(f) + "\"" + rest;
    if f == [] {
      assert s == "\"" + rest;
      assert s[1..] == rest;
      assert cur + f == cur;
    } else if f[0] == '"' {
      assert s == "\"\"" + (Escape(f[1..]) + "\"" + rest);
      ScanEscaped(f[1..], rest, cur + ['"']);
      assert cur + ['"'] + f[1..] == cur + f;
    } else {
      assert s == [f[0]] + (Escape(f[1..]) + "\"" + rest);
      ScanEscaped(f[1..], rest, cur + [f[0]]);
      assert cur + [f[0]] + f[1..] == cur + f;
    }
  }

  /** A quoted field is read back whole: its commas do not split it and
      its doubled quotes come back single. */
  lemma QuotedField(f: string, rest: string, cur: string)
    requires rest == [] || rest[0] != '"'
    ensures Scan(Quote(f) + rest, false, cur) == Scan(rest, false, cur + f)
  {
    var s := Quote(f) + rest;
    assert s == "\"" + (Escape(f) + "\"" + rest);
    assert s[1..] == Escape(f) + "\"" + rest;
    ScanEscaped(f, rest, cur);
  }

  function QuoteAll(fs: seq<string>): (r: seq<string>)
    ensures |r| == |fs|
  {
    seq(|fs|, i requires 0 <= i < |fs| => Quote(fs[i]))
  }

  /** Any fields, quoted and joined with commas, split back into exactly
      those fields (before trimming). */
  lemma {:induction false} QuotedRoundTrip(fs: seq<string>)
    requires |fs| >= 1
    ensures RawFields(Join(QuoteAll(fs), ",")) == fs
    decreases |fs|
  {
    var q := QuoteAll(fs);
    if |fs| == 1 {
      assert Join(q, ",") == Quote(fs[0]) + "";
      QuotedField(fs[0], "", "");
      assert "" + fs[0] == fs[0];
    } else {
      var j := Join(q[1..], ",");
      assert q[1..] == QuoteAll(fs[1..]);
      QuotedRoundTrip(fs[1..]);
      assert Join(q, ",") == Quote(fs[0]) + ("," + j);
      QuotedField(fs[0], "," + j, "");
      assert ("," + j)[1..] == j;
      assert "" + fs[0] == fs[0];
      assert fs == [fs[0]] + fs[1..];
    }
  }

  /** A field `exportCsv` writes unquoted and that reads back as itself:
      no comma, quote or line break, and no whitespace at either end. */
  predicate Plain(s: string) {
    && ',' !in s && '"' !in s && '\n' !in s && '\r' !in s
    && (s == [] || (!IsSpace(s[0]) && !IsSpace(s[|s| - 1])))
  }

  /** Plain fields joined with commas split back into the same fields. */
  lemma PlainRoundTrip(fs: seq<string>)
    requires |fs| >= 1
    requires forall i :: 0 <= i < |fs| ==> Plain(fs[i])
    ensures SplitCsvLine(Join(fs, ",")) == fs
  {
    JoinAvoids(fs, ",", '"');
    UnquotedLine(Join(fs, ","));
    SplitJoin(fs, ',');
    TrimAllFixed(fs);
  }

  /** `text.split(/\r?\n/)`: the pieces between newlines, each but the
      last without one `\r` it ends with. */
  function DropCR(pieces: seq<string>): (r: seq<string>)
    ensures |r| == |pieces|
  {
    seq(|pieces|, i requires 0 <= i < |pieces| =>
      if i < |pieces| - 1 && |pieces[i]| > 0 && pieces[i][|pieces[i]| - 1] == '\r'
      then pieces[i][..|pieces[i]| - 1] else pieces[i])
  }

  /** `filter((l) => l.trim().length)`. */
  function NonBlankLines(ls: seq<string>): (r: seq<string>)
    ensures forall l :: l in r <==> l in ls && Trim(l) != ""
    ensures |r| <= |ls|
  {
    if ls == [] then []
    else (if Trim(ls[0]) != "" then [ls[0]] else []) + NonBlankLines(ls[1..])
  }

  function Lines(text: string): seq<string> {
    NonBlankLines(DropCR(Split(text, '\n')))
  }

  /** The effects `parseCsv` calls: `crypto.randomUUID()` for the row
      read from line `i`, the clock as an ISO timestamp, and
      `Math.round(parseFloat(s) * 100)`. */
  datatype ImportEnv = ImportEnv(newId: nat -> string, nowIso: string, cents: string -> int)

  /** `header.indexOf(k)`. */
  function IndexOf(xs: seq<string>, k: string): (r: int)
    ensures -1 <= r < |xs|
    ensures r >= 0 ==> xs[r] == k
  {
    if xs == [] then -1
    else if xs[0] == k then 0
    else
      var i := IndexOf(xs[1..], k);
      if i == -1 then -1 else i + 1
  }

  /** A key the header lacks has no column; one it has has the first
      column holding it. */
  lemma {:induction false} IndexOfFirst(xs: seq<string>, k: string)
    ensures IndexOf(xs, k) == -1 <==> k !in xs
    ensures IndexOf(xs, k) >= 0 ==> k !in xs[..IndexOf(xs, k)]
    decreases |xs|
  {
    if xs != [] && xs[0] != k {
      IndexOfFirst(xs[1..], k);
      assert xs == [xs[0]] + xs[1..];
      if IndexOf(xs, k) >= 0 {
        assert xs[..IndexOf(xs, k)] == [xs[0]] + xs[1..][..IndexOf(xs, k) - 1];
      }
    }
  }

  /** `cols[idx(k)] || dflt`: a missing column or an empty cell gives
      the default. */
  function Cell(cols: seq<string>, header: seq<string>, k: string, dflt: string): string
    requires |cols| >= |header|
  {
    var i := IndexOf(header, k);
    if i >= 0 && cols[i] != "" then cols[i] else dflt
  }

  /** `s.slice(0, 10)`. */
  function Take10(s: string): (r: string)
    ensures |r| <= 10 && IsPrefix(r, s)
    ensures |r| == if |s| <= 10 then |s| else 10
  {
    if |s| <= 10 then s else s[..10]
  }

  /** The invoice read from the columns of line `i`. */
  function MakeRow(cols: seq<string>, header: seq<string>, i: nat, env: ImportEnv): Invoice
    requires |cols| >= |header|
  {
    Invoice(
      env.newId(i),
      Cell(cols, header, "clientName", ""),
      Cell(cols, header, "clientEmail", ""),
      Cell(cols, header, "invoiceNumber", ""),
      env.cents(Cell(cols, header, "amount", "0")),
      Some(Cell(cols, header, "currency", "ZAR")),
      Take10(Cell(cols, header, "dueDate", Take10(env.nowIso))),
      ToLower(Cell(cols, header, "paid", "")) == "true",
      Some(Cell(cols, header, "paymentLink", "")),
      env.nowIso)
  }

  /** The row line `i` contributes: none when it has fewer columns than
      the header (or there is no such line). */
  function RowAt(lines: seq<string>, header: seq<string>, i: nat, env: ImportEnv): (r: seq<Invoice>)
    ensures |r| <= 1
  {
    if i >= |lines| then []
    else
      var cols := SplitCsvLine(lines[i]);
      if |cols| < |header| then [] else [MakeRow(cols, header, i, env)]
  }

  function RowReader(lines: seq<string>, header: seq<string>, env: ImportEnv): nat -> seq<Invoice> {
    (i: nat) => RowAt(lines, header, i, env)
  }

  /** The rows `read` gives for lines 1 to n - 1, in order. */
  function Rows(read: nat -> seq<Invoice>, n: nat): seq<Invoice> {
    if n <= 1 then [] else Rows(read, n - 1) + read(n - 1)
  }

  /** `parseCsv`. */
  function ParseCsv(text: string, env: ImportEnv): seq<Invoice> {
    var lines := Lines(text);
    if |lines| == 0 then [] else Rows(RowReader(lines, SplitCsvLine(lines[0]), env), |lines|)
  }

  /** `parseCsv` as the source runs it: one pass over the data lines. */
  method ParseCsvLines(text: string, env: ImportEnv) returns (out: seq<Invoice>)
    ensures out == ParseCsv(text, env)
  {
    var lines := Lines(text);
    if |lines| == 0 {
      return [];
    }
    var header := SplitLine(lines[0]);
    out := ReadRows(lines, header, env);
  }

  /** The loop of `parseCsv` over lines 1 to the end. */
  method ReadRows(lines: seq<string>, header: seq<string>, env: ImportEnv) returns (out: seq<Invoice>)
    requires |lines| >= 1
    ensures out == Rows(RowReader(lines, header, env), |lines|)
  {
    out := [];
    for i := 1 to |lines|
      invariant out == Rows(RowReader(lines, header, env), i)
    {
      var row := ReadRow(lines, header, i, env);
      out := out + row;
    }
  }

  /** One pass of the loop: split line `i` and skip it when it has fewer
      cells than the header; what it adds is the next row read. */
  method ReadRow(lines: seq<string>, header: seq<string>, i: nat, env: ImportEnv) returns (row: seq<Invoice>)
    requires 1 <= i < |lines|
    ensures row == RowReader(lines, header, env)(i)
    ensures Rows(RowReader(lines, header, env), i + 1) == Rows(RowReader(lines, header, env), i) + row
  {
    var cols := SplitLine(lines[i]);
    RowStep(lines, header, i, env, cols);
    if |cols| < |header| {
      row := [];
    } else {
      row := [MakeRow(cols, header, i, env)];
    }
    RowsNext(RowReader(lines, header, env), i, row);
  }

  lemma RowsNext(read: nat -> seq<Invoice>, i: nat, row: seq<Invoice>)
    requires i >= 1 && read(i) == row
    ensures Rows(read, i + 1) == Rows(read, i) + row
  {
  }

  lemma RowStep(lines: seq<string>, header: seq<string>, i: nat, env: ImportEnv, cols: seq<string>)
    requires i < |lines| && cols == SplitCsvLine(lines[i])
    ensures RowReader(lines, header, env)(i) == if |cols| < |header| then [] else [MakeRow(cols, header, i, env)]
  {
  }

  lemma {:induction false} RowsBound(read: nat -> seq<Invoice>, n: nat)
    requires forall i :: |read(i)| <= 1
    ensures |Rows(read, n)| <= if n == 0 then 0 else n - 1
    decreases n
  {
    if n > 1 {
      RowsBound(read, n - 1);
    }
  }

  /** Blank and whitespace-only lines are ignored; the first line left
      is the header and each later line gives at most one invoice. */
  lemma ParseCsvBound(text: string, env: ImportEnv)
    ensures forall l :: l in Lines(text) ==> Trim(l) != ""
    ensures Lines(text) == [] ==> ParseCsv(text, env) == []
    ensures |Lines(text)| >= 1 ==> |ParseCsv(text, env)| <= |Lines(text)| - 1
  {
    var lines := Lines(text);
    if |lines| >= 1 {
      var read := RowReader(lines, SplitCsvLine(lines[0]), env);
      assert forall i :: read(i) == RowAt(lines, SplitCsvLine(lines[0]), i, env);
      RowsBound(read, |lines|);
    }
  }

  /** Empty input reads as no invoices. */
  lemma ParseCsvEmpty(env: ImportEnv)
    ensures ParseCsv("", env) == []
  {
    assert Split("", '\n') == [""];
    assert Trim("") == "";
    assert DropCR([""]) == [""];
  }

  /** The cell rules of a row: `paid` is set iff its cell reads "true" in
      any letter case; the currency is never empty, and an empty currency
      cell gives "ZAR"; the due date is the first ten characters of its
      cell (of the import time when the cell is empty or missing). */
  lemma RowRules(cols: seq<string>, header: seq<string>, i: nat, env: ImportEnv)
    requires |cols| >= |header|
    ensures var inv := MakeRow(cols, header, i, env);
      && (inv.paid <==> ToLower(Cell(cols, header, "paid", "")) == "true")
      && inv.currency.Some? && inv.currency.value != ""
      && (IndexOf(header, "currency") >= 0 && cols[IndexOf(header, "currency")] == "" ==> inv.currency == Some("ZAR"))
      && (IndexOf(header, "currency") >= 0 && cols[IndexOf(header, "currency")] != "" ==>
            inv.currency == Some(cols[IndexOf(header, "currency")]))
      && (var d := Cell(cols, header, "dueDate", Take10(env.nowIso));
          inv.dueDate == d[..if |d| <= 10 then |d| else 10])
  {
  }

  /** A column the header lacks gives the default of its field: "" for
      the texts, `cents("0")` for the amount, "ZAR" for the currency,
      unpaid, and the first ten characters of the import time for the
      due date. */
  lemma RowDefaults(cols: seq<string>, header: seq<string>, i: nat, env: ImportEnv)
    requires |cols| >= |header|
    ensures var inv := MakeRow(cols, header, i, env);
      && ("clientName" !in header ==> inv.clientName == "")
      && ("clientEmail" !in header ==> inv.clientEmail == "")
      && ("invoiceNumber" !in header ==> inv.invoiceNumber == "")
      && ("amount" !in header ==> inv.amount == env.cents("0"))
      && ("currency" !in header ==> inv.currency == Some("ZAR"))
      && ("dueDate" !in header ==> inv.dueDate == Take10(env.nowIso))
      && ("paid" !in header ==> !inv.paid)
      && ("paymentLink" !in header ==> inv.paymentLink == Some(""))
  {
    IndexOfFirst(header, "clientName");
    IndexOfFirst(header, "clientEmail");
    IndexOfFirst(header, "invoiceNumber");
    IndexOfFirst(header, "amount");
    IndexOfFirst(header, "currency");
    IndexOfFirst(header, "dueDate");
    IndexOfFirst(header, "paid");
    IndexOfFirst(header, "paymentLink");
    assert ToLower("") == "";
  }

  /** The columns `exportCsv` writes, in order. */
  const Headers: seq<string> := ["invoiceNumber", "clientName", "clientEmail", "amount", "currency", "dueDate", "paid", "paymentLink"]

  /** `r.currency || 'ZAR'`. */
  function CurrencyOut(inv: Invoice): string {
    if inv.currency.Some? && inv.currency.value != "" then inv.currency.value else "ZAR"
  }

  /** The cells of an invoice's export line; `money` is
      `(amount / 100).toFixed(2)`. */
  function ExportCells(inv: Invoice, money: int -> string): (r: seq<string>)
    ensures |r| == |Headers|
  {
    [inv.invoiceNumber, inv.clientName, inv.clientEmail, money(inv.amount), CurrencyOut(inv),
     inv.dueDate, if inv.paid then "true" else "false", inv.paymentLink.GetOr("")]
  }

  /** The line `exportCsv` writes for an invoice. */
  function ExportLine(inv: Invoice, money: int -> string): string {
    Join(ExportCells(inv, money), ",")
  }

  /** The lines `exportCsv` writes: the header, then one per invoice. */
  function ExportedLines(rows: seq<Invoice>, money: int -> string): (r: seq<string>)
    ensures |r| == |rows| + 1
  {
    [Join(Headers, ",")] + seq(|rows|, i requires 0 <= i < |rows| => ExportLine(rows[i], money))
  }

  /** The file `exportCsv` writes. */
  function ExportText(rows: seq<Invoice>, money: int -> string): string {
    Join(ExportedLines(rows, money), "\n")
  }

  /** An invoice whose exported cells are plain, whose amount survives
      formatting and parsing, and whose due date is a non-empty string of
      at most ten characters. */
  predicate Exportable(inv: Invoice, money: int -> string, cents: string -> int) {
    && (forall i :: 0 <= i < |ExportCells(inv, money)| ==> Plain(ExportCells(inv, money)[i]))
    && money(inv.amount) != "" && cents(money(inv.amount)) == inv.amount
    && inv.dueDate != "" && |inv.dueDate| <= 10
  }

  /** What importing an exported invoice gives back: the same invoice
      with a fresh id and creation time, and its currency and payment
      link defaults written out. */
  function Reimported(inv: Invoice, i: nat, env: ImportEnv): Invoice {
    inv.(id := env.newId(i), createdAt := env.nowIso,
         currency := Some(CurrencyOut(inv)), paymentLink := Some(inv.paymentLink.GetOr("")))
  }

  /** A non-empty run of ASCII letters. */
  predicate Word(s: string) {
    s != [] && forall i :: 0 <= i < |s| ==> 'a' <= s[i] <= 'z' || 'A' <= s[i] <= 'Z'
  }

  lemma WordPlain(s: string)
    requires Word(s)
    ensures Plain(s)
  {
  }

  lemma HeadersPlain()
    ensures forall i :: 0 <= i < |Headers| ==> Plain(Headers[i])
  {
    forall i | 0 <= i < |Headers|
      ensures Plain(Headers[i])
    {
      WordPlain(Headers[i]);
    }
  }

  lemma HeaderPositions()
    ensures IndexOf(Headers, "invoiceNumber") == 0 && IndexOf(Headers, "clientName") == 1
    ensures IndexOf(Headers, "clientEmail") == 2 && IndexOf(Headers, "amount") == 3
    ensures IndexOf(Headers, "currency") == 4 && IndexOf(Headers, "dueDate") == 5
    ensures IndexOf(Headers, "paid") == 6 && IndexOf(Headers, "paymentLink") == 7
  {
    LateHeaderPositions();
  }

  lemma LateHeaderPositions()
    ensures IndexOf(Headers, "currency") == 4 && IndexOf(Headers, "dueDate") == 5
    ensures IndexOf(Headers, "paid") == 6 && IndexOf(Headers, "paymentLink") == 7
  {
    PaidPosition();
    PaymentLinkPosition();
  }

  lemma PaidPosition()
    ensures IndexOf(Headers, "paid") == 6
  {
  }

  lemma PaymentLinkPosition()
    ensures IndexOf(Headers, "paymentLink") == 7
  {
  }

  /** A key no earlier column holds is found at its own column. */
  lemma {:induction false} IndexOfAt(xs: seq<string>, i: nat)
    requires i < |xs|
    requires forall j :: 0 <= j < i ==> xs[j] != xs[i]
    ensures IndexOf(xs, xs[i]) == i
    decreases i
  {
    if i > 0 {
      assert xs[1..][i - 1] == xs[i];
      IndexOfAt(xs[1..], i - 1);
    }
  }

  /** The `paid` cell as exported reads back as the flag. */
  lemma PaidCell(paid: bool)
    ensures (ToLower(if paid then "true" else "false") == "true") == paid
  {
    ToLowerFixed("true");
    assert |ToLower("false")| != |"true"|;
  }

  /** The cells of an exported invoice give back the invoice, when the
      amount survives formatting and parsing and the due date is a
      non-empty string of at most ten characters. */
  lemma ReadExportedRow(inv: Invoice, money: int -> string, i: nat, env: ImportEnv)
    requires money(inv.amount) != "" && env.cents(money(inv.amount)) == inv.amount
    requires inv.dueDate != "" && |inv.dueDate| <= 10
    ensures MakeRow(ExportCells(inv, money), Headers, i, env) == Reimported(inv, i, env)
  {
    MakeRowInHeaderOrder(ExportCells(inv, money), i, env);
    PaidCell(inv.paid);
  }

  /** Columns in the order of `Headers` fill the fields of that name;
      an empty cell for a field with a default gives the default. */
  lemma MakeRowInHeaderOrder(cols: seq<string>, i: nat, env: ImportEnv)
    requires |cols| == |Headers|
    requires cols[3] != "" && cols[4] != "" && cols[5] != "" && |cols[5]| <= 10
    ensures MakeRow(cols, Headers, i, env) ==
      Invoice(env.newId(i), cols[1], cols[2], cols[0], env.cents(cols[3]), Some(cols[4]), cols[5],
              ToLower(cols[6]) == "true", Some(cols[7]), env.nowIso)
  {
    FrontCells(cols);
    BackCells(cols, Take10(env.nowIso));
  }

  lemma FrontCells(cols: seq<string>)
    requires |cols| == |Headers| && cols[3] != ""
    ensures Cell(cols, Headers, "invoiceNumber", "") == cols[0]
    ensures Cell(cols, Headers, "clientName", "") == cols[1]
    ensures Cell(cols, Headers, "clientEmail", "") == cols[2]
    ensures Cell(cols, Headers, "amount", "0") == cols[3]
  {
    HeaderPositions();
  }

  lemma BackCells(cols: seq<string>, today: string)
    requires |cols| == |Headers| && cols[4] != "" && cols[5] != ""
    ensures Cell(cols, Headers, "currency", "ZAR") == cols[4]
    ensures Cell(cols, Headers, "dueDate", today) == cols[5]
    ensures Cell(cols, Headers, "paid", "") == cols[6]
    ensures Cell(cols, Headers, "paymentLink", "") == cols[7]
  {
    HeaderPositions();
  }

  lemma {:induction false} NonBlankKeepsAll(ls: seq<string>)
    requires forall j :: 0 <= j < |ls| ==> Trim(ls[j]) != ""
    ensures NonBlankLines(ls) == ls
    decreases |ls|
  {
    if ls != [] {
      var rest := ls[1..];
      assert forall j :: 0 <= j < |rest| ==> rest[j] == ls[j + 1];
      NonBlankKeepsAll(rest);
      assert ls == [ls[0]] + rest;
    }
  }

  /** A line of at least two cells without line breaks has no line break
      and is not blank. */
  lemma CellsLine(cells: seq<string>)
    requires |cells| >= 2
    requires forall i :: 0 <= i < |cells| ==> '\n' !in cells[i] && '\r' !in cells[i]
    ensures '\n' !in Join(cells, ",") && '\r' !in Join(cells, ",")
    ensures Trim(Join(cells, ",")) != ""
  {
    JoinAvoids(cells, ",", '\n');
    JoinAvoids(cells, ",", '\r');
    var line := Join(cells, ",");
    assert line == cells[0] + "," + Join(cells[1..], ",");
    assert line[|cells[0]|] == ',';
    TrimNonBlank(line, |cells[0]|);
  }

  /** The line of an exportable invoice has no line break and is not
      blank. */
  lemma ExportedLine(inv: Invoice, money: int -> string, cents: string -> int)
    requires Exportable(inv, money, cents)
    ensures var line := ExportLine(inv, money);
      '\n' !in line && '\r' !in line && Trim(line) != ""
  {
    var cells := ExportCells(inv, money);
    assert forall i :: 0 <= i < |cells| ==> Plain(cells[i]);
    CellsLine(cells);
  }

  lemma HeaderLine()
    ensures var line := Join(Headers, ",");
      '\n' !in line && '\r' !in line && Trim(line) != ""
  {
    HeadersPlain();
    CellsLine(Headers);
  }

  lemma DropCRKeeps(xs: seq<string>)
    requires forall j :: 0 <= j < |xs| ==> '\r' !in xs[j]
    ensures DropCR(xs) == xs
  {
    forall j | 0 <= j < |xs|
      ensures DropCR(xs)[j] == xs[j]
    {
      if |xs[j]| > 0 {
        assert xs[j][|xs[j]| - 1] in xs[j];
      }
    }
  }

  /** No exported line has a line break or is blank. */
  lemma ExportedLinesClean(rows: seq<Invoice>, money: int -> string, cents: string -> int)
    requires forall k :: 0 <= k < |rows| ==> Exportable(rows[k], money, cents)
    ensures var xs := ExportedLines(rows, money);
      forall j :: 0 <= j < |xs| ==> '\n' !in xs[j] && '\r' !in xs[j] && Trim(xs[j]) != ""
  {
    var xs := ExportedLines(rows, money);
    forall j | 0 <= j < |xs|
      ensures '\n' !in xs[j] && '\r' !in xs[j] && Trim(xs[j]) != ""
    {
      if j == 0 {
        HeaderLine();
      } else {
        assert xs[j] == ExportLine(rows[j - 1], money);
        ExportedLine(rows[j - 1], money, cents);
      }
    }
  }

  /** Non-blank lines without line breaks, joined with newlines, are
      read back as those lines. */
  lemma LinesOfJoin(xs: seq<string>)
    requires |xs| >= 1
    requires forall j :: 0 <= j < |xs| ==> '\n' !in xs[j] && '\r' !in xs[j] && Trim(xs[j]) != ""
    ensures Lines(Join(xs, "\n")) == xs
  {
    SplitJoin(xs, '\n');
    DropCRKeeps(xs);
    NonBlankKeepsAll(xs);
  }

  /** When line k gives exactly the invoice `out[k - 1]`, the rows are `out`. */
  lemma {:induction false} RowsExactly(read: nat -> seq<Invoice>, n: nat, out: seq<Invoice>)
    requires n >= 1 && |out| == n - 1
    requires forall k :: 0 <= k < n - 1 ==> read(k + 1) == [out[k]]
    ensures Rows(read, n) == out
    decreases n
  {
    if n > 1 {
      RowsExactly(read, n - 1, out[..n - 2]);
      assert out == out[..n - 2] + [out[n - 2]];
    }
  }

  lemma ExportedRowAt(rows: seq<Invoice>, money: int -> string, env: ImportEnv, k: nat)
    requires k < |rows| && Exportable(rows[k], money, env.cents)
    ensures RowReader(ExportedLines(rows, money), Headers, env)(k + 1) == [Reimported(rows[k], k + 1, env)]
  {
    var lines := ExportedLines(rows, money);
    var cells := ExportCells(rows[k], money);
    assert lines[k + 1] == ExportLine(rows[k], money);
    PlainRoundTrip(cells);
    RowStep(lines, Headers, k + 1, env, cells);
    ReadExportedRow(rows[k], money, k + 1, env);
  }

  /** The rows an export should read back as: the same invoices, each with a fresh id. */
  function ReimportedAll(rows: seq<Invoice>, env: ImportEnv): (r: seq<Invoice>)
    ensures |r| == |rows|
  {
    seq(|rows|, k requires 0 <= k < |rows| => Reimported(rows[k], k + 1, env))
  }

  /** Each data line of an export reads back as its own row. */
  lemma ExportedRowsEach(rows: seq<Invoice>, money: int -> string, env: ImportEnv)
    requires forall k :: 0 <= k < |rows| ==> Exportable(rows[k], money, env.cents)
    ensures forall k :: 0 <= k < |rows| ==>
      RowReader(ExportedLines(rows, money), Headers, env)(k + 1) == [ReimportedAll(rows, env)[k]]
  {
    forall k | 0 <= k < |rows|
      ensures RowReader(ExportedLines(rows, money), Headers, env)(k + 1) == [ReimportedAll(rows, env)[k]]
    {
      var want := ReimportedAll(rows, env)[k];
      assert want == Reimported(rows[k], k + 1, env);
      ExportedRowAt(rows, money, env, k);
    }
  }

  /** Rows that read back one by one read back as a whole. */
  lemma ExportedRowsAll(lines: seq<string>, rows: seq<Invoice>, env: ImportEnv)
    requires |lines| == |rows| + 1
    requires forall k :: 0 <= k < |rows| ==> RowReader(lines, Headers, env)(k + 1) == [ReimportedAll(rows, env)[k]]
    ensures Rows(RowReader(lines, Headers, env), |lines|) == ReimportedAll(rows, env)
  {
    RowsExactly(RowReader(lines, Headers, env), |lines|, ReimportedAll(rows, env));
  }

  /** The header line of an export reads back as the header names. */
  lemma HeaderRead()
    ensures SplitCsvLine(Join(Headers, ",")) == Headers
  {
    HeadersPlain();
    PlainRoundTrip(Headers);
  }

  /** Importing what `exportCsv` wrote gives back the same invoices, in
      the same order, when every cell is plain: each with a fresh id and
      creation time and its currency and payment-link defaults written
      out. */
  lemma ExportRoundTrip(rows: seq<Invoice>, money: int -> string, env: ImportEnv)
    requires forall k :: 0 <= k < |rows| ==> Exportable(rows[k], money, env.cents)
    ensures ParseCsv(ExportText(rows, money), env) == ReimportedAll(rows, env)
  {
    var lines := ExportedLines(rows, money);
    assert Lines(ExportText(rows, money)) == lines by {
      ExportedLinesClean(rows, money, env.cents);
      LinesOfJoin(lines);
    }
    assert SplitCsvLine(lines[0]) == Headers by {
      HeaderRead();
    }
    ExportedRowsEach(rows, money, env);
    ExportedRowsAll(lines, rows, env);
  }
}
