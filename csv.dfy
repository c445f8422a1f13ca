/**
 * Comma-separated text in the form of section 2 of RFC 4180, except that
 * records are separated by a bare line feed (as both exporters write them)
 * rather than the RFC's CR LF: fields separated by commas, and a field that
 * is enclosed in double quotes with every inner double quote doubled.
 * The encoders are what the exporters emit; the reader is the independent
 * definition that the round-trip lemmas relate them to.
 */
module Csv {
  import opened Wrappers
  import opened Text
  import opened Money

  /** Doubles every double quote (`s.replace(/"/g, '""')`). */
  function Escape(s: string): (r: string)
    ensures |r| >= |s|
  {
    if s == [] then ""
    else (if s[0] == '"' then "\"\"" else [s[0]]) + Escape(s[1..])
  }

  /** The quoted form of a field: `"` + escaped text + `"`. */
  function Quote(s: string): string
  {
    "\"" + Escape(s) + "\""
  }

  /** A field the way an exporter writes it: verbatim, or quoted. */
  datatype Cell = Plain(text: string) | Quoted(text: string)

  /** A verbatim field can be read back only if it holds no delimiter, quote or line feed. */
  predicate PlainSafe(s: string)
  {
    forall i :: 0 <= i < |s| ==> s[i] != ',' && s[i] != '"' && s[i] != '\n'
  }

  predicate Readable(c: Cell)
  {
    c.Plain? ==> PlainSafe(c.text)
  }

  /** A line the reader can recover: at least one field, and every field readable. */
  predicate ReadableRecord(cells: seq<Cell>)
  {
    |cells| >= 1 && forall i :: 0 <= i < |cells| ==> Readable(cells[i])
  }

  function EncodeCell(c: Cell): string
  {
    match c
    case Plain(s) => s
    case Quoted(s) => Quote(s)
  }

  /** One line: the encoded fields joined by commas. */
  function EncodeRecord(cells: seq<Cell>): string
  {
    if |cells| == 0 then "" else if |cells| == 1 then EncodeCell(cells[0])
    else EncodeCell(cells[0]) + "," + EncodeRecord(cells[1..])
  }

  /** The whole text: the lines joined by line feeds, without a final line feed. */
  function EncodeRecords(records: seq<seq<Cell>>): string
  {
    if |records| == 0 then "" else if |records| == 1 then EncodeRecord(records[0])
    else EncodeRecord(records[0]) + "\n" + EncodeRecords(records[1..])
  }

  function Texts(cells: seq<Cell>): (r: seq<string>)
    ensures |r| == |cells|
  {
    if cells == [] then [] else [cells[0].text] + Texts(cells[1..])
  }

  function AllTexts(records: seq<seq<Cell>>): (r: seq<seq<string>>)
    ensures |r| == |records|
  {
    if records == [] then [] else [Texts(records[0])] + AllTexts(records[1..])
  }

  // ---- the reader ----

  /** Reads the rest of a quoted field (after its opening quote): its text and what follows the closing quote. */
  function ReadQuoted(s: string): (r: Option<(string, string)>)
    ensures r.Some? ==> |r.value.1| < |s|
  {
    if s == [] then None
    else if s[0] == '"' then
      if |s| >= 2 && s[1] == '"' then
        match ReadQuoted(s[2..])
        case Some((t, rest)) => Some(("\"" + t, rest))
        case None => None
      else Some(("", s[1..]))
    else
      match ReadQuoted(s[1..])
      case Some((t, rest)) => Some(([s[0]] + t, rest))
      case None => None
  }

  /** Reads a verbatim field: everything up to the next comma or line feed. */
  function ReadPlain(s: string): (r: (string, string))
    ensures |r.1| <= |s| && AtFieldEnd(r.1)
  {
    if s == [] || s[0] == ',' || s[0] == '\n' then ("", s)
    else var (t, rest) := ReadPlain(s[1..]); ([s[0]] + t, rest)
  }

  /** After a field there is either the end of the text, a comma or a line feed. */
  predicate AtFieldEnd(s: string)
  {
    s == [] || s[0] == ',' || s[0] == '\n'
  }

  predicate AtRecordEnd(s: string)
  {
    s == [] || s[0] == '\n'
  }

  /** Reads one field, quoted or verbatim; a quoted field must be followed by a field end. */
  function ReadField(s: string): (r: Option<(string, string)>)
    ensures r.Some? ==> |r.value.1| <= |s| && AtFieldEnd(r.value.1)
  {
    if s != [] && s[0] == '"' then
      match ReadQuoted(s[1..])
      case Some((t, rest)) =>
        if AtFieldEnd(rest) then Some((t, rest)) else None
      case None => None
    else
      Some(ReadPlain(s))
  }

  /** Reads the fields of one line, and what follows the line. */
  function ReadRecord(s: string): (r: Option<(seq<string>, string)>)
    ensures r.Some? ==> |r.value.1| <= |s| && AtRecordEnd(r.value.1)
    decreases |s|
  {
    match ReadField(s)
    case None => None
    case Some((field, rest)) =>
      if rest != [] && rest[0] == ',' then
        match ReadRecord(rest[1..])
        case Some((fields, after)) => Some(([field] + fields, after))
        case None => None
      else Some(([field], rest))
  }

  /** Reads every line of a text. */
  function ReadRecords(s: string): Option<seq<seq<string>>>
    decreases |s|
  {
    match ReadRecord(s)
    case None => None
    case Some((fields, rest)) =>
      if rest == [] then Some([fields])
      else
        match ReadRecords(rest[1..])
        case Some(more) => Some([fields] + more)
        case None => None
  }

  // ---- round trips ----

  /** Reading an escaped text up to its closing quote gives back the text (RFC 4180, section 2, rule 7). */
  lemma {:induction false} ReadQuotedEscape(s: string, rest: string)
    requires rest == [] || rest[0] != '"'
    ensures ReadQuoted(Escape(s) + "\"" + rest) == Some((s, rest))
    decreases |s|
  {
    if s == [] {
      assert Escape(s) + "\"" + rest == "\"" + rest;
    } else {
      ReadQuotedEscape(s[1..], rest);
      var tail := Escape(s[1..]) + "\"" + rest;
      EscapeHead(s, rest);
      if s[0] == '"' {
        ReadQuotedDoubled(tail, s[1..], rest);
        assert "\"" + s[1..] == s;
      } else {
        ReadQuotedChar(s[0], tail, s[1..], rest);
        assert [s[0]] + s[1..] == s;
      }
    }
  }

  /** The escaped form of a non-empty text: its first character's escape, then the rest. */
  lemma EscapeHead(s: string, rest: string)
    requires s != []
    ensures s[0] == '"' ==> Escape(s) + "\"" + rest == "\"\"" + (Escape(s[1..]) + "\"" + rest)
    ensures s[0] != '"' ==> Escape(s) + "\"" + rest == [s[0]] + (Escape(s[1..]) + "\"" + rest)
  {
  }

  /** A doubled quote inside a quoted field reads as one quote. */
  lemma ReadQuotedDoubled(tail: string, t: string, rest: string)
    requires ReadQuoted(tail) == Some((t, rest))
    ensures ReadQuoted("\"\"" + tail) == Some(("\"" + t, rest))
  {
    var u := "\"\"" + tail;
    assert u[0] == '"' && u[1] == '"' && u[2..] == tail;
  }

  /** Any other character inside a quoted field reads as itself. */
  lemma ReadQuotedChar(c: char, tail: string, t: string, rest: string)
    requires c != '"' && ReadQuoted(tail) == Some((t, rest))
    ensures ReadQuoted([c] + tail) == Some(([c] + t, rest))
  {
    assert ([c] + tail)[1..] == tail;
  }

  lemma {:induction false} ReadPlainSafe(s: string, rest: string)
    requires PlainSafe(s) && AtFieldEnd(rest)
    ensures ReadPlain(s + rest) == (s, rest)
    decreases |s|
  {
    if s == [] {
      assert s + rest == rest;
    } else {
      assert (s + rest)[1..] == s[1..] + rest;
      ReadPlainSafe(s[1..], rest);
      assert [s[0]] + s[1..] == s;
    }
  }

  lemma ReadFieldEncode(c: Cell, rest: string)
    requires Readable(c) && AtFieldEnd(rest)
    ensures ReadField(EncodeCell(c) + rest) == Some((c.text, rest))
  {
    match c
    case Plain(s) =>
      if s != [] {
        assert (s + rest)[0] == s[0];
      }
      ReadPlainSafe(s, rest);
    case Quoted(s) =>
      var text := Quote(s) + rest;
      assert text == "\"" + (Escape(s) + "\"" + rest);
      assert text[1..] == Escape(s) + "\"" + rest;
      ReadQuotedEscape(s, rest);
  }

  lemma {:induction false} ReadRecordEncode(cells: seq<Cell>, rest: string)
    requires ReadableRecord(cells) && AtRecordEnd(rest)
    ensures ReadRecord(EncodeRecord(cells) + rest) == Some((Texts(cells), rest))
    decreases |cells|
  {
    if |cells| == 1 {
      ReadFieldEncode(cells[0], rest);
      assert Texts(cells) == [cells[0].text];
    } else {
      var tail := EncodeRecord(cells[1..]) + rest;
      EncodeRecordSplit(cells, rest);
      ReadFieldEncode(cells[0], "," + tail);
      ReadableTail(cells);
      ReadRecordEncode(cells[1..], rest);
      ReadRecordComma(EncodeCell(cells[0]) + ("," + tail), cells[0].text, tail, Texts(cells[1..]), rest);
      assert Texts(cells) == [cells[0].text] + Texts(cells[1..]);
    }
  }

  /** A line of several fields: the first field, a comma, and the rest of the line. */
  lemma EncodeRecordSplit(cells: seq<Cell>, rest: string)
    requires |cells| > 1
    ensures EncodeRecord(cells) + rest == EncodeCell(cells[0]) + ("," + (EncodeRecord(cells[1..]) + rest))
  {
  }

  lemma ReadableTail(cells: seq<Cell>)
    requires ReadableRecord(cells) && |cells| > 1
    ensures ReadableRecord(cells[1..])
  {
    forall i | 0 <= i < |cells| - 1 ensures Readable(cells[1..][i]) {
      assert cells[1..][i] == cells[i + 1];
    }
  }

  /** A field followed by a comma is the first of the fields read from the line. */
  lemma ReadRecordComma(s: string, field: string, tail: string, fields: seq<string>, after: string)
    requires ReadField(s) == Some((field, "," + tail))
    requires ReadRecord(tail) == Some((fields, after))
    ensures ReadRecord(s) == Some(([field] + fields, after))
  {
    assert ("," + tail)[1..] == tail;
  }

  /** Every encoded text reads back as the texts of its fields, line by line. */
  lemma {:induction false} ReadRecordsEncode(records: seq<seq<Cell>>)
    requires |records| >= 1
    requires forall i :: 0 <= i < |records| ==> ReadableRecord(records[i])
    ensures ReadRecords(EncodeRecords(records)) == Some(AllTexts(records))
    decreases |records|
  {
    if |records| == 1 {
      assert EncodeRecords(records) == EncodeRecord(records[0]) + "";
      ReadRecordEncode(records[0], "");
      assert AllTexts(records) == [Texts(records[0])];
    } else {
      var tail := EncodeRecords(records[1..]);
      assert EncodeRecords(records) == EncodeRecord(records[0]) + ("\n" + tail);
      ReadRecordEncode(records[0], "\n" + tail);
      assert ("\n" + tail)[1..] == tail;
      ReadRecordsEncode(records[1..]);
      assert AllTexts(records) == [Texts(records[0])] + AllTexts(records[1..]);
    }
  }

  /** Lines that each encode one record, joined by line feeds, are the encoding of those records. */
  lemma {:induction false} JoinEncodedRecords(lines: seq<string>, records: seq<seq<Cell>>)
    requires |lines| == |records|
    requires forall i :: 0 <= i < |lines| ==> lines[i] == EncodeRecord(records[i])
    ensures Join(lines, "\n") == EncodeRecords(records)
    decreases |lines|
  {
    if |lines| > 1 {
      JoinEncodedRecords(lines[1..], records[1..]);
    }
  }

  lemma {:induction false} AllTextsAt(records: seq<seq<Cell>>, i: nat)
    requires i < |records|
    ensures AllTexts(records)[i] == Texts(records[i])
    decreases i
  {
    if i > 0 {
      AllTextsAt(records[1..], i - 1);
    }
  }

  /** A line with a further field after its first: the first field, a comma, the rest of the line. */
  lemma EncodeRecordCons(c: Cell, rest: seq<Cell>)
    requires |rest| >= 1
    ensures EncodeRecord([c] + rest) == EncodeCell(c) + "," + EncodeRecord(rest)
  {
    assert ([c] + rest)[1..] == rest;
  }

  /** A rupee amount rendered to two decimals never needs quoting: it holds only digits, a dot and a minus sign. */
  lemma RupeeAmountSafe(paise: int)
    ensures PlainSafe(Fixed2(paise)) && PlainSafe("₹" + Fixed2(paise))
  {
    Fixed2Alphabet(paise);
    var s := "₹" + Fixed2(paise);
    forall k | 0 <= k < |s| ensures s[k] != ',' && s[k] != '"' && s[k] != '\n' {
      if k > 0 {
        assert s[k] == Fixed2(paise)[k - 1];
      }
    }
  }
}
