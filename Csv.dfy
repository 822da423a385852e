/**
  `generateCSV(data)`: a header line and one line per record, each field
  wrapped in double quotes after `sanitizeInput`; the message alone has its
  double quotes doubled and its line feeds written as a backslash and `n`
  first.
 */
module Csv {
  import opened JsText
  import opened Html
  import opened Pipeline

  /** The column titles, in order. */
  const Headers: seq<string> := ["URL", "Contato", "Conquista", "Oportunidade", "WhatsApp", "Blog URL", "Mensagem"]

  /** `headers.join(',')`. */
  const Header := Join(Headers, ',')

  /** `"${s}"`. */
  function Quote(s: string): string {
    "\"" + s + "\""
  }

  /** `s.replace(/"/g, '""')`. */
  function DoubleQuotes(s: string): string {
    if s == [] then []
    else (if s[0] == '"' then "\"\"" else [s[0]]) + DoubleQuotes(s[1..])
  }

  /** Reading a doubled field back: each `""` becomes one `"`. */
  function UndoubleQuotes(s: string): string
    decreases |s|
  {
    if s == [] then []
    else if |s| >= 2 && s[0] == '"' && s[1] == '"' then "\"" + UndoubleQuotes(s[2..])
    else [s[0]] + UndoubleQuotes(s[1..])
  }

  /** `s.replace(/\n/g, '\\n')`: each line feed becomes a backslash followed by `n`. */
  function EscapeNewlines(s: string): string {
    if s == [] then []
    else (if s[0] == '\n' then "\\n" else [s[0]]) + EscapeNewlines(s[1..])
  }

  /** Reading the message back: each backslash followed by `n` becomes a line feed. */
  function UnescapeNewlines(s: string): string
    decreases |s|
  {
    if s == [] then []
    else if |s| >= 2 && s[0] == '\\' && s[1] == 'n' then "\n" + UnescapeNewlines(s[2..])
    else [s[0]] + UnescapeNewlines(s[1..])
  }

  /**
    A plain field: sanitized and quoted, its own double quotes left single.
    It is enclosed in quotes, and between them is the sanitized value, which
    decodes back to the value.
   */
  function Cell(s: string): (c: string)
    ensures |c| >= 2 && c[0] == '"' && c[|c| - 1] == '"'
    ensures Inner(c) == Escape(s)
  {
    var c := Quote(Escape(s));
    assert Inner(c) == Escape(s);
    c
  }

  /**
    Whether the text between a field's enclosing quotes is well formed for
    section 2 of RFC 4180: every double quote in it is one of an adjacent pair.
   */
  predicate PairedQuotes(s: string)
    decreases |s|
  {
    if s == [] then true
    else if s[0] == '"' then |s| >= 2 && s[1] == '"' && PairedQuotes(s[2..])
    else PairedQuotes(s[1..])
  }

  /**
    The message field: quotes doubled, line feeds spelled out, then sanitized
    and quoted. Unlike a plain field, it always has its quotes paired, and it
    holds no line feed whatever the message.
   */
  function MessageCell(m: string): (c: string)
    ensures |c| >= 2 && c[0] == '"' && c[|c| - 1] == '"'
    ensures PairedQuotes(Inner(c))
    ensures '\n' !in c
  {
    var d := DoubleQuotes(m);
    var e := EscapeNewlines(d);
    DoubleQuotesPaired(m);
    EscapeNewlinesKeepsPaired(d);
    EscapeKeepsPaired(e);
    EscapeNewlinesRemovesThem(d);
    EscapeAvoids(e, '\n');
    var c := Quote(Escape(e));
    assert Inner(c) == Escape(e);
    c
  }

  /** The seven fields of a record's line, in the order of the header. */
  function Cells(r: Record): seq<string> {
    [Cell(r.url), Cell(r.contato), Cell(r.conquista), Cell(r.oportunidade),
     Cell(r.whatsapp), Cell(r.blogUrl), MessageCell(r.mensagem)]
  }

  /** `csvRow.join(',')`. */
  function Row(r: Record): string {
    Join(Cells(r), ',')
  }

  /** The lines of the records, in order. */
  function Rows(data: seq<Record>): (rows: seq<string>)
    ensures |rows| == |data|
  {
    seq(|data|, i requires 0 <= i < |data| => Row(data[i]))
  }

  /** `generateCSV(data)`. */
  function GenerateCsv(data: seq<Record>): string {
    Join([Header] + Rows(data), '\n')
  }

  /** The text between a field's enclosing quotes. */
  function Inner(cell: string): string
    requires |cell| >= 2
  {
    cell[1..|cell| - 1]
  }

  /** Doubling the quotes adds no other character. */
  lemma {:induction false} DoubleQuotesAvoids(s: string, c: char)
    requires c !in s && c != '"'
    ensures c !in DoubleQuotes(s)
  {
    if s != [] {
      DoubleQuotesAvoids(s[1..], c);
    }
  }

  /** Halving the doubled quotes gives back the text. */
  lemma {:induction false} DoubleQuotesRoundTrip(s: string)
    ensures UndoubleQuotes(DoubleQuotes(s)) == s
  {
    if s != [] {
      DoubleQuotesRoundTrip(s[1..]);
      var d := DoubleQuotes(s);
      if s[0] == '"' {
        assert d == "\"\"" + DoubleQuotes(s[1..]);
        assert d[2..] == DoubleQuotes(s[1..]);
      } else {
        assert d == [s[0]] + DoubleQuotes(s[1..]);
        assert d[1..] == DoubleQuotes(s[1..]);
      }
      assert [s[0]] + s[1..] == s;
    }
  }

  /** The message field holds no line feed, whatever the message holds. */
  lemma {:induction false} EscapeNewlinesRemovesThem(s: string)
    ensures '\n' !in EscapeNewlines(s)
  {
    if s != [] {
      EscapeNewlinesRemovesThem(s[1..]);
    }
  }

  /** Spelling out line feeds adds no other character than a backslash and `n`. */
  lemma {:induction false} EscapeNewlinesAvoids(s: string, c: char)
    requires c !in s && c != '\\' && c != 'n'
    ensures c !in EscapeNewlines(s)
  {
    if s != [] {
      EscapeNewlinesAvoids(s[1..], c);
    }
  }

  /** Without a backslash in the message, the spelled-out line feeds read back as line feeds. */
  lemma {:induction false} NewlinesRoundTrip(s: string)
    requires '\\' !in s
    ensures UnescapeNewlines(EscapeNewlines(s)) == s
  {
    if s != [] {
      assert '\\' !in s[1..];
      NewlinesRoundTrip(s[1..]);
      var e := EscapeNewlines(s);
      if s[0] == '\n' {
        assert e == "\\n" + EscapeNewlines(s[1..]);
        assert e[2..] == EscapeNewlines(s[1..]);
      } else {
        assert e == [s[0]] + EscapeNewlines(s[1..]);
        assert e[1..] == EscapeNewlines(s[1..]);
        assert e[0] != '\\';
      }
      assert [s[0]] + s[1..] == s;
    }
  }

  /** Doubled quotes are always paired. */
  lemma {:induction false} DoubleQuotesPaired(s: string)
    ensures PairedQuotes(DoubleQuotes(s))
  {
    if s != [] {
      DoubleQuotesPaired(s[1..]);
      var d := DoubleQuotes(s);
      if s[0] == '"' {
        assert d == "\"\"" + DoubleQuotes(s[1..]);
        assert d[2..] == DoubleQuotes(s[1..]);
      } else {
        assert d == [s[0]] + DoubleQuotes(s[1..]);
        assert d[1..] == DoubleQuotes(s[1..]);
      }
    }
  }

  /** Sanitizing a character other than a double quote gives no double quote. */
  lemma EscapeCharQuoteFree(c: char)
    requires c != '"'
    ensures '"' !in EscapeChar(c)
  {
  }

  /** A quote-free prefix does not change whether the quotes are paired. */
  lemma {:induction false} QuoteFreePrefix(x: string, y: string)
    requires '"' !in x
    ensures PairedQuotes(x + y) == PairedQuotes(y)
  {
    if x == [] {
      assert x + y == y;
    } else {
      assert x[0] != '"' && '"' !in x[1..];
      QuoteFreePrefix(x[1..], y);
      assert (x + y)[0] == x[0] && (x + y)[1..] == x[1..] + y;
    }
  }

  /** As written, a plain value holding a single double quote gives a field whose quotes are not paired. */
  lemma {:induction false} OneQuoteBreaksCell(a: string, b: string)
    requires '"' !in a && '"' !in b
    ensures !PairedQuotes(Inner(Cell(a + "\"" + b)))
  {
    assert Inner(Cell(a + "\"" + b)) == Escape(a + "\"" + b);
    OneQuoteBreaksEscape(a, b);
  }

  lemma {:induction false} OneQuoteBreaksEscape(a: string, b: string)
    requires '"' !in a && '"' !in b
    ensures !PairedQuotes(Escape(a + "\"" + b))
  {
    if a == [] {
      assert a + "\"" + b == ['"'] + b;
      EscapeCons('"', b);
      EscapeAvoids(b, '"');
      var e := Escape(a + "\"" + b);
      assert e == "\"" + Escape(b);
      assert |e| >= 2 ==> e[1] == Escape(b)[0];
    } else {
      OneQuoteBreaksEscape(a[1..], b);
      assert a + "\"" + b == [a[0]] + (a[1..] + "\"" + b);
      EscapeCons(a[0], a[1..] + "\"" + b);
      EscapeCharQuoteFree(a[0]);
      QuoteFreePrefix(EscapeChar(a[0]), Escape(a[1..] + "\"" + b));
    }
  }

  /** The entry `loja.com/a"b`, which `isValidUrl` does not refuse for its quote, gives a URL field whose quote is not paired. */
  lemma LoneQuoteUrlBreaksCell()
    ensures !PairedQuotes(Inner(Cell("loja.com/a\"b")))
  {
    assert "loja.com/a\"b" == "loja.com/a" + "\"" + "b";
    OneQuoteBreaksCell("loja.com/a", "b");
  }

  /** A pair of quotes in front keeps the quotes paired. */
  lemma QuotePairInFront(e: string)
    requires PairedQuotes(e)
    ensures PairedQuotes("\"\"" + e)
  {
    assert ("\"\"" + e)[2..] == e;
  }

  /** Spelling out the line feeds of a text that starts with a given character. */
  lemma EscapeNewlinesCons(c: char, rest: string)
    ensures EscapeNewlines([c] + rest) == (if c == '\n' then "\\n" else [c]) + EscapeNewlines(rest)
  {
    assert ([c] + rest)[1..] == rest;
  }

  /** Sanitizing keeps paired quotes paired. */
  lemma {:induction false} EscapeKeepsPaired(s: string)
    requires PairedQuotes(s)
    ensures PairedQuotes(Escape(s))
    decreases |s|
  {
    if s == [] {
    } else if s[0] == '"' {
      var t := s[2..];
      EscapeKeepsPaired(t);
      assert Escape(s) == "\"\"" + Escape(t) by {
        assert s == ['"'] + (['"'] + t);
        EscapeCons('"', ['"'] + t);
        EscapeCons('"', t);
      }
      QuotePairInFront(Escape(t));
    } else {
      var t := s[1..];
      EscapeKeepsPaired(t);
      assert Escape(s) == EscapeChar(s[0]) + Escape(t) by {
        assert s == [s[0]] + t;
        EscapeCons(s[0], t);
      }
      EscapeCharQuoteFree(s[0]);
      QuoteFreePrefix(EscapeChar(s[0]), Escape(t));
    }
  }

  /** Spelling out line feeds keeps paired quotes paired. */
  lemma {:induction false} EscapeNewlinesKeepsPaired(s: string)
    requires PairedQuotes(s)
    ensures PairedQuotes(EscapeNewlines(s))
    decreases |s|
  {
    if s == [] {
    } else if s[0] == '"' {
      var t := s[2..];
      EscapeNewlinesKeepsPaired(t);
      assert EscapeNewlines(s) == "\"\"" + EscapeNewlines(t) by {
        assert s == ['"'] + (['"'] + t);
        EscapeNewlinesCons('"', ['"'] + t);
        EscapeNewlinesCons('"', t);
      }
      QuotePairInFront(EscapeNewlines(t));
    } else {
      var t := s[1..];
      EscapeNewlinesKeepsPaired(t);
      var x := if s[0] == '\n' then "\\n" else [s[0]];
      assert EscapeNewlines(s) == x + EscapeNewlines(t) by {
        assert s == [s[0]] + t;
        EscapeNewlinesCons(s[0], t);
      }
      QuoteFreePrefix(x, EscapeNewlines(t));
    }
  }

  /**
    The message field reads back, between its quotes, as the message, when
    the message holds no backslash; with a backslash followed by `n` in it,
    the field would read back with a line feed there instead.
   */
  lemma MessageCellDecodes(m: string)
    requires '\\' !in m
    ensures var c := MessageCell(m);
      |c| >= 2 && c[0] == '"' && c[|c| - 1] == '"'
      && UndoubleQuotes(UnescapeNewlines(Unescape(Inner(c)))) == m
  {
    var c := MessageCell(m);
    var d := DoubleQuotes(m);
    assert Inner(c) == Escape(EscapeNewlines(d));
    DoubleQuotesAvoids(m, '\\');
    NewlinesRoundTrip(d);
    DoubleQuotesRoundTrip(m);
  }

  /** A plain field holds a line feed only when its value does. */
  lemma CellHasNoNewline(v: string)
    requires '\n' !in v
    ensures '\n' !in Cell(v)
  {
    EscapeAvoids(v, '\n');
  }

  /** The plain fields of a record hold no line feed. */
  predicate NoNewlineFields(r: Record) {
    && '\n' !in r.url && '\n' !in r.contato && '\n' !in r.conquista && '\n' !in r.oportunidade
    && '\n' !in r.whatsapp && '\n' !in r.blogUrl
  }

  /** A record's line is a single line when its plain fields are. */
  lemma RowHasNoNewline(r: Record)
    requires NoNewlineFields(r)
    ensures '\n' !in Row(r)
  {
    CellHasNoNewline(r.url);
    CellHasNoNewline(r.contato);
    CellHasNoNewline(r.conquista);
    CellHasNoNewline(r.oportunidade);
    CellHasNoNewline(r.whatsapp);
    CellHasNoNewline(r.blogUrl);
    SevenFieldsOneLine(Cell(r.url), Cell(r.contato), Cell(r.conquista), Cell(r.oportunidade),
      Cell(r.whatsapp), Cell(r.blogUrl), MessageCell(r.mensagem));
  }

  /** Seven fields without a line feed make a line without one. */
  lemma SevenFieldsOneLine(c0: string, c1: string, c2: string, c3: string, c4: string, c5: string, c6: string)
    requires '\n' !in c0 && '\n' !in c1 && '\n' !in c2 && '\n' !in c3
    requires '\n' !in c4 && '\n' !in c5 && '\n' !in c6
    ensures '\n' !in Join([c0, c1, c2, c3, c4, c5, c6], ',')
  {
    JoinAvoids([c0, c1, c2, c3, c4, c5, c6], ',', '\n');
  }

  /** The header is a single line. */
  lemma HeaderHasNoNewline()
    ensures '\n' !in Header
  {
    JoinAvoids(Headers, ',', '\n');
  }

  /**
    When no plain field holds a line feed, the lines of the file are the
    header followed by one line per record, in order.
   */
  lemma CsvLines(data: seq<Record>)
    requires forall i :: 0 <= i < |data| ==> NoNewlineFields(data[i])
    ensures Split(GenerateCsv(data), '\n') == [Header] + Rows(data)
    ensures |Split(GenerateCsv(data), '\n')| == |data| + 1
  {
    HeaderHasNoNewline();
    RowsHaveNoNewline(data);
    SingleLines(Header, Rows(data));
    SplitJoin([Header] + Rows(data), '\n');
  }

  /** The record lines are single lines. */
  lemma RowsHaveNoNewline(data: seq<Record>)
    requires forall i :: 0 <= i < |data| ==> NoNewlineFields(data[i])
    ensures forall i :: 0 <= i < |Rows(data)| ==> '\n' !in Rows(data)[i]
  {
    forall i | 0 <= i < |data|
      ensures '\n' !in Rows(data)[i]
    {
      RowHasNoNewline(data[i]);
    }
  }

  lemma SingleLines(head: string, rest: seq<string>)
    requires '\n' !in head
    requires forall i :: 0 <= i < |rest| ==> '\n' !in rest[i]
    ensures forall i :: 0 <= i < |[head] + rest| ==> '\n' !in ([head] + rest)[i]
  {
    forall i | 0 <= i < |[head] + rest|
      ensures '\n' !in ([head] + rest)[i]
    {
      if i > 0 {
        assert ([head] + rest)[i] == rest[i - 1];
      }
    }
  }
}
