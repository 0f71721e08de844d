/** Comma-separated text as the report export writes it, and a reader for the
    escaping rules of section 2 of RFC 4180 (rules 5 to 7: a field may be enclosed
    in double quotes, and a double quote inside such a field is written twice).
    Records are separated by a single line feed, as the export joins them. */
module Csv {
  import opened Common

  /** Doubles every double quote. */
  function Escape(s: string): string
  {
    if s == [] then [] else (if s[0] == '"' then "\"\"" else [s[0]]) + Escape(s[1..])
  }

  /** A field enclosed in double quotes with its quotes doubled. */
  function QuoteField(s: string): string
  {
    "\"" + Escape(s) + "\""
  }

  /** Concatenates the parts with the separator between neighbours. */
  function Join(parts: seq<string>, sep: char): string
  {
    if parts == [] then []
    else if |parts| == 1 then parts[0]
    else parts[0] + [sep] + Join(parts[1..], sep)
  }

  /** Every field enclosed in quotes. */
  function QuoteAll(fields: seq<string>): seq<string>
  {
    seq(|fields|, i requires 0 <= i < |fields| => QuoteField(fields[i]))
  }

  // ---------------------------------------------------------------- reading

  /** Reads the inside of a quoted field, the opening quote already consumed:
      a doubled quote stands for one quote, a single quote closes the field.
      Gives the field and the text after the closing quote; None if the text
      ends before the field is closed. */
  function ReadQuoted(s: string): (r: Option<(string, string)>)
    ensures r.Some? ==> |r.value.1| < |s|
  {
    if s == [] then None
    else if s[0] == '"' then
      if |s| > 1 && s[1] == '"' then
        match ReadQuoted(s[2..])
        case None => None
        case Some((f, rest)) => Some(("\"" + f, rest))
      else Some(([], s[1..]))
    else
      match ReadQuoted(s[1..])
      case None => None
      case Some((f, rest)) => Some(([s[0]] + f, rest))
  }

  predicate AtFieldEnd(rest: string)
  {
    rest == [] || rest[0] == ',' || rest[0] == '\n'
  }

  /** Reads an unquoted field: everything up to the next comma, line feed or end of text. */
  function ReadPlain(s: string): (r: (string, string))
    ensures r.0 + r.1 == s && AtFieldEnd(r.1)
  {
    if AtFieldEnd(s) then ([], s)
    else
      var (f, rest) := ReadPlain(s[1..]);
      assert [s[0]] + (f + rest) == s;
      ([s[0]] + f, rest)
  }

  /** Reads one field, quoted or not. A closing quote must be followed by a
      comma, a line feed or the end of the text. */
  function ReadField(s: string): (r: Option<(string, string)>)
    ensures r.Some? ==> |r.value.1| <= |s| && AtFieldEnd(r.value.1)
  {
    if s != [] && s[0] == '"' then
      match ReadQuoted(s[1..])
      case None => None
      case Some((f, rest)) => if AtFieldEnd(rest) then Some((f, rest)) else None
    else
      Some(ReadPlain(s))
  }

  /** Reads the comma-separated fields of one record; the text left over is empty
      or starts with the line feed that ends the record. */
  function ReadRecord(s: string): (r: Option<(seq<string>, string)>)
    ensures r.Some? ==> |r.value.1| <= |s| && (r.value.1 == [] || r.value.1[0] == '\n')
    decreases |s|
  {
    match ReadField(s)
    case None => None
    case Some((f, rest)) =>
      if rest != [] && rest[0] == ',' then
        match ReadRecord(rest[1..])
        case None => None
        case Some((fs, rest')) => Some(([f] + fs, rest'))
      else Some(([f], rest))
  }

  /** Reads a whole text as a sequence of records. */
  function ReadRecords(s: string): Option<seq<seq<string>>>
    decreases |s|
  {
    match ReadRecord(s)
    case None => None
    case Some((fs, rest)) =>
      if rest == [] then Some([fs])
      else
        match ReadRecords(rest[1..])
        case None => None
        case Some(rs) => Some([fs] + rs)
  }

  /** Reads text that must be exactly one quoted field. */
  function UnquoteField(s: string): Option<string>
  {
    if s != [] && s[0] == '"' then
      match ReadQuoted(s[1..])
      case Some((f, rest)) => if rest == [] then Some(f) else None
      case None => None
    else None
  }

  // ---------------------------------------------------------------- round trips

  lemma ReadQuotedDoubled(t: string)
    ensures ReadQuoted(t).Some? ==>
      ReadQuoted("\"\"" + t) == Some(("\"" + ReadQuoted(t).value.0, ReadQuoted(t).value.1))
  {
    assert ("\"\"" + t)[2..] == t;
  }

  lemma ReadQuotedOther(c: char, t: string)
    requires c != '"'
    ensures ReadQuoted(t).Some? ==>
      ReadQuoted([c] + t) == Some(([c] + ReadQuoted(t).value.0, ReadQuoted(t).value.1))
  {
    assert ([c] + t)[1..] == t;
  }

  /** The escaped text followed by a closing quote reads back as the original text. */
  lemma {:induction false} ReadQuotedEscape(x: string, rest: string)
    requires rest == [] || rest[0] != '"'
    ensures ReadQuoted(Escape(x) + "\"" + rest) == Some((x, rest))
  {
    var s := Escape(x) + "\"" + rest;
    if x == [] {
      assert s == ['"'] + rest;
      assert |s| > 1 ==> s[1] == rest[0];
      assert s[1..] == rest;
    } else {
      var t := Escape(x[1..]) + "\"" + rest;
      ReadQuotedEscape(x[1..], rest);
      if x[0] == '"' {
        assert s == "\"\"" + t;
        ReadQuotedDoubled(t);
      } else {
        assert s == [x[0]] + t;
        ReadQuotedOther(x[0], t);
      }
      assert [x[0]] + x[1..] == x;
    }
  }

  /** Unquoting a quoted field gives back the original text, whatever it holds. */
  lemma UnquoteQuoteField(x: string)
    ensures UnquoteField(QuoteField(x)) == Some(x)
  {
    ReadQuotedEscape(x, []);
    assert QuoteField(x)[1..] == Escape(x) + "\"" + [];
  }

  /** Quoting is injective: different fields never produce the same text. */
  lemma QuoteFieldInjective(x: string, y: string)
    ensures QuoteField(x) == QuoteField(y) ==> x == y
  {
    UnquoteQuoteField(x);
    UnquoteQuoteField(y);
  }

  /** A field that can be written without quotes: no quote, comma or line feed. */
  predicate Plain(f: string)
  {
    forall i :: 0 <= i < |f| ==> f[i] != '"' && f[i] != ',' && f[i] != '\n'
  }

  /** `part` is how `field` is written in a record: either quoted, or as-is when plain. */
  predicate Encodes(part: string, field: string)
  {
    part == QuoteField(field) || (part == field && Plain(field))
  }

  lemma {:induction false} ReadPlainField(x: string, rest: string)
    requires Plain(x) && AtFieldEnd(rest)
    ensures ReadPlain(x + rest) == (x, rest)
  {
    if x != [] {
      ReadPlainField(x[1..], rest);
      assert (x + rest)[1..] == x[1..] + rest;
      assert [x[0]] + x[1..] == x;
    } else {
      assert x + rest == rest;
    }
  }

  /** `parts` are how the non-empty record `fields` is written, field by field. */
  predicate EncodesRecord(parts: seq<string>, fields: seq<string>)
  {
    |parts| == |fields| > 0 && forall i :: 0 <= i < |parts| ==> Encodes(parts[i], fields[i])
  }

  lemma ReadFieldEncoded(part: string, field: string, rest: string)
    requires Encodes(part, field) && AtFieldEnd(rest)
    ensures ReadField(part + rest) == Some((field, rest))
  {
    if part == QuoteField(field) {
      ReadQuotedEscape(field, rest);
      assert (part + rest)[1..] == Escape(field) + "\"" + rest;
    } else {
      ReadPlainField(field, rest);
    }
  }

  /** A record written as its encoded parts joined by commas reads back as its fields. */
  lemma {:induction false} ReadRecordJoin(parts: seq<string>, fields: seq<string>, rest: string)
    requires EncodesRecord(parts, fields)
    requires rest == [] || rest[0] == '\n'
    ensures ReadRecord(Join(parts, ',') + rest) == Some((fields, rest))
  {
    if |parts| == 1 {
      ReadFieldEncoded(parts[0], fields[0], rest);
      assert [fields[0]] == fields;
    } else {
      var after := Join(parts[1..], ',') + rest;
      assert Join(parts, ',') + rest == parts[0] + ([','] + after);
      ReadFieldEncoded(parts[0], fields[0], [','] + after);
      assert ([','] + after)[1..] == after;
      assert EncodesRecord(parts[1..], fields[1..]);
      ReadRecordJoin(parts[1..], fields[1..], rest);
      assert [fields[0]] + fields[1..] == fields;
    }
  }

  /** Lines written as records and joined by line feeds read back as those records. */
  lemma {:induction false} ReadRecordsJoin(lines: seq<string>, parts: seq<seq<string>>, records: seq<seq<string>>)
    requires |lines| == |parts| == |records| > 0
    requires forall i :: 0 <= i < |lines| ==> lines[i] == Join(parts[i], ',')
    requires forall i :: 0 <= i < |lines| ==> EncodesRecord(parts[i], records[i])
    ensures ReadRecords(Join(lines, '\n')) == Some(records)
  {
    if |lines| == 1 {
      ReadRecordJoin(parts[0], records[0], []);
      assert Join(lines, '\n') + [] == Join(lines, '\n');
      assert [records[0]] == records;
    } else {
      var after := Join(lines[1..], '\n');
      ReadRecordJoin(parts[0], records[0], ['\n'] + after);
      assert Join(lines, '\n') == Join(parts[0], ',') + (['\n'] + after);
      assert (['\n'] + after)[1..] == after;
      ReadRecordsJoin(lines[1..], parts[1..], records[1..]);
      assert [records[0]] + records[1..] == records;
    }
  }

  // ---------------------------------------------------------------- numbers

  function DigitChar(d: nat): char
    requires d < 10
  {
    ('0' as int + d) as char
  }

  /** The decimal text of a natural number, as the host's toString writes it. */
  function Decimal(n: nat): (r: string)
    ensures r != [] && forall i :: 0 <= i < |r| ==> '0' <= r[i] <= '9'
  {
    if n < 10 then [DigitChar(n)] else Decimal(n / 10) + [DigitChar(n % 10)]
  }

  /** The value of a string of decimal digits. */
  function DecimalValue(s: string): nat
    requires forall i :: 0 <= i < |s| ==> '0' <= s[i] <= '9'
  {
    if s == [] then 0 else 10 * DecimalValue(s[..|s| - 1]) + (s[|s| - 1] - '0') as nat
  }

  lemma {:induction false} DecimalRoundTrip(n: nat)
    ensures DecimalValue(Decimal(n)) == n
  {
    if n >= 10 {
      DecimalRoundTrip(n / 10);
      var r := Decimal(n);
      assert r == Decimal(n / 10) + [DigitChar(n % 10)];
      assert r[..|r| - 1] == Decimal(n / 10);
      assert (r[|r| - 1] - '0') as nat == n % 10;
    }
  }
}
