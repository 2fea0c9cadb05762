/** A reader for one line of comma-separated values as section 2 of RFC 4180
    describes them: a field that opens with a double quote runs to its
    closing quote, a doubled quote inside it standing for one quote; any
    other field runs to the next comma. It is the independent partner
    against which the ticket desk's report is read back. */
module CsvReader {
  import opened Wrappers
  import opened Strings
  import opened AdminTickets

  /** Whether a field opens with a double quote, which makes a reader take it
      as a quoted field. */
  predicate StartsWithQuote(f: string) {
    |f| > 0 && f[0] == '"'
  }

  /** A field a reader takes as it is: no comma and no opening quote. */
  predicate Plain(f: string) {
    ',' !in f && !StartsWithQuote(f)
  }

  /** The inside of a quoted field, after its opening quote: a doubled quote
      stands for one quote and a lone quote closes the field. Yields the text
      and what follows the closing quote; `None` when the field never
      closes. */
  function ReadQuoted(s: string): (r: Option<(string, string)>)
    ensures r.Some? ==> |r.value.1| < |s|
    decreases |s|
  {
    if s == [] then None
    else if s[0] == '"' then
      if |s| >= 2 && s[1] == '"' then
        match ReadQuoted(s[2..])
        case None => None
        case Some(p) => Some(("\"" + p.0, p.1))
      else Some(("", s[1..]))
    else
      match ReadQuoted(s[1..])
      case None => None
      case Some(p) => Some(([s[0]] + p.0, p.1))
  }

  /** An unquoted field: the text up to the first comma, and what follows
      that comma, if there is one. */
  function ReadUnquoted(s: string): (r: (string, Option<string>))
    ensures r.1.Some? ==> |r.1.value| < |s|
    decreases |s|
  {
    if s == [] then ("", None)
    else if s[0] == ',' then ("", Some(s[1..]))
    else
      var r := ReadUnquoted(s[1..]);
      ([s[0]] + r.0, r.1)
  }

  /** The fields of one line. A quoted field that never closes is read as
      the rest of the line, and anything after a closing quote other than a
      comma is dropped. */
  function ReadFields(line: string): seq<string>
    decreases |line|
  {
    if StartsWithQuote(line) then
      match ReadQuoted(line[1..])
      case None => [line]
      case Some(p) =>
        if |p.1| > 0 && p.1[0] == ',' then [p.0] + ReadFields(p.1[1..]) else [p.0]
    else
      var r := ReadUnquoted(line);
      if r.1.None? then [r.0] else [r.0] + ReadFields(r.1.value)
  }

  /** An unquoted field followed by a comma is read up to that comma. */
  lemma {:induction false} ReadUnquotedThen(f: string, rest: string)
    requires ',' !in f
    ensures ReadUnquoted(f + "," + rest) == (f, Some(rest))
    decreases |f|
  {
    var s := f + "," + rest;
    if f == [] {
      assert s[1..] == rest;
    } else {
      assert s[1..] == f[1..] + "," + rest;
      ReadUnquotedThen(f[1..], rest);
      assert [f[0]] + f[1..] == f;
    }
  }

  /** An unquoted field at the end of the line is read whole. */
  lemma {:induction false} ReadUnquotedLast(f: string)
    requires ',' !in f
    ensures ReadUnquoted(f) == (f, None)
    decreases |f|
  {
    if f != [] {
      ReadUnquotedLast(f[1..]);
      assert [f[0]] + f[1..] == f;
    }
  }

  /** The body a writer escapes (RFC 4180, section 2, item 7) is read back
      up to its closing quote, whatever follows unless it is another
      quote. */
  lemma {:induction false} ReadQuotedEscape(s: string, rest: string)
    requires !StartsWithQuote(rest)
    ensures ReadQuoted(Escape(s) + "\"" + rest) == Some((s, rest))
    decreases |s|
  {
    var t := Escape(s) + "\"" + rest;
    if s == [] {
      assert t == "\"" + rest;
      assert t[1..] == rest;
    } else if s[0] == '"' {
      assert Escape(s) == "\"\"" + Escape(s[1..]);
      assert t[2..] == Escape(s[1..]) + "\"" + rest;
      ReadQuotedEscape(s[1..], rest);
      assert "\"" + s[1..] == s;
    } else {
      assert Escape(s) == [s[0]] + Escape(s[1..]);
      assert t[1..] == Escape(s[1..]) + "\"" + rest;
      ReadQuotedEscape(s[1..], rest);
      assert [s[0]] + s[1..] == s;
    }
  }

  /** A quoted field at the end of the line reads back as the text that was
      quoted, commas and quotes included. */
  lemma ReadQuotedField(s: string)
    ensures ReadFields(Quote(s)) == [s]
  {
    var q := Quote(s);
    assert q[1..] == Escape(s) + "\"" + "";
    ReadQuotedEscape(s, "");
  }

  /** A plain field at the end of the line reads back as itself. */
  lemma ReadPlainField(f: string)
    requires Plain(f)
    ensures ReadFields(f) == [f]
  {
    ReadUnquotedLast(f);
  }

  /** Plain fields joined by commas, then a last field, read back as the
      plain fields followed by what the last one reads as. */
  lemma {:induction false} ReadJoin(parts: seq<string>, last: string)
    requires forall i :: 0 <= i < |parts| ==> Plain(parts[i])
    ensures ReadFields(Join(parts + [last], ",")) == parts + ReadFields(last)
    decreases |parts|
  {
    if parts == [] {
      assert parts + [last] == [last];
    } else {
      var all := parts + [last];
      assert all[1..] == parts[1..] + [last];
      var tail := Join(all[1..], ",");
      assert Join(all, ",") == parts[0] + "," + tail;
      ReadUnquotedThen(parts[0], tail);
      ReadJoin(parts[1..], last);
      assert [parts[0]] + parts[1..] == parts;
    }
  }
}
