/** Comma-separated values as in section 2 of RFC 4180. The writer quotes every
    field with '"', doubles every '"' inside a field, separates fields with ','
    and ends every record with "\n". The reader accepts quoted and unquoted
    fields and records ended by "\n", "\r\n" or the end of the text. */
module Csv {
  import opened Wrappers

  /** A field's characters with every '"' doubled. */
  function Escape(f: string): string {
    if f == [] then [] else (if f[0] == '"' then "\"\"" else [f[0]]) + Escape(f[1..])
  }

  function EncodeField(f: string): string {
    "\"" + Escape(f) + "\""
  }

  function EncodeFields(fs: seq<string>): string
  {
    if fs == [] then ""
    else if |fs| == 1 then EncodeField(fs[0])
    else EncodeField(fs[0]) + "," + EncodeFields(fs[1..])
  }

  function EncodeRecord(fs: seq<string>): string {
    EncodeFields(fs) + "\n"
  }

  /** One line per record, in order, and no header. */
  function Encode(rows: seq<seq<string>>): string {
    if rows == [] then "" else EncodeRecord(rows[0]) + Encode(rows[1..])
  }

  /** The writer's text is empty exactly when there is no record, and
      otherwise ends with the last record's line break. */
  lemma {:induction false} EncodeEndsWithLineBreak(rows: seq<seq<string>>)
    ensures rows == [] <==> Encode(rows) == []
    ensures rows != [] ==> Encode(rows)[|Encode(rows)| - 1] == '\n'
  {
    if rows != [] {
      EncodeEndsWithLineBreak(rows[1..]);
    }
  }

  lemma {:induction false} EncodeAppend(a: seq<seq<string>>, b: seq<seq<string>>)
    ensures Encode(a + b) == Encode(a) + Encode(b)
  {
    if a == [] {
      assert a + b == b;
    } else {
      assert (a + b)[1..] == a[1..] + b;
      EncodeAppend(a[1..], b);
    }
  }

  /** Characters allowed in a field written without quotes. */
  predicate IsPlain(c: char) {
    c != ',' && c != '"' && c != '\n' && c != '\r'
  }

  /** Length of the longest prefix made of plain characters. */
  function PlainLength(s: string): (n: nat)
    ensures n <= |s|
    ensures forall i :: 0 <= i < n ==> IsPlain(s[i])
    ensures n < |s| ==> !IsPlain(s[n])
  {
    if s != [] && IsPlain(s[0]) then 1 + PlainLength(s[1..]) else 0
  }

  /** The rest of a quoted field, after its opening quote: its value and the
      text after the closing quote; None when the quote is never closed. */
  function ParseQuoted(s: string): (r: Option<(string, string)>)
    ensures r.Some? ==> |r.value.1| < |s|
    decreases |s|
  {
    if s == [] then None
    else if s[0] == '"' then
      if |s| > 1 && s[1] == '"' then
        match ParseQuoted(s[2..])
        case None => None
        case Some((f, rest)) => Some(("\"" + f, rest))
      else
        Some(("", s[1..]))
    else
      match ParseQuoted(s[1..])
      case None => None
      case Some((f, rest)) => Some(([s[0]] + f, rest))
  }

  /** One field and the text after it. */
  function ParseField(s: string): (r: Option<(string, string)>)
    ensures r.Some? ==> |r.value.1| <= |s|
  {
    if s != [] && s[0] == '"' then ParseQuoted(s[1..])
    else
      var n := PlainLength(s);
      Some((s[..n], s[n..]))
  }

  /** One record, up to and including its line break, and the text after it.
      A quoted field followed by anything but a separator is malformed. */
  function ParseRecord(s: string): (r: Option<(seq<string>, string)>)
    ensures r.Some? ==> |r.value.0| > 0
    ensures r.Some? ==> |r.value.1| < |s| || (s == [] && r.value.1 == [])
    decreases |s|
  {
    match ParseField(s)
    case None => None
    case Some((f, rest)) =>
      if rest == [] then Some(([f], []))
      else if rest[0] == '\n' then Some(([f], rest[1..]))
      else if |rest| > 1 && rest[0] == '\r' && rest[1] == '\n' then Some(([f], rest[2..]))
      else if rest[0] == ',' then
        match ParseRecord(rest[1..])
        case None => None
        case Some((fs, tail)) => Some(([f] + fs, tail))
      else None
  }

  /** All records of a text; an empty text has none. */
  function Decode(s: string): (r: Option<seq<seq<string>>>)
    ensures r.Some? ==> forall i :: 0 <= i < |r.value| ==> |r.value[i]| > 0
    decreases |s|
  {
    if s == [] then Some([])
    else
      match ParseRecord(s)
      case None => None
      case Some((fs, rest)) =>
        match Decode(rest)
        case None => None
        case Some(rows) => Some([fs] + rows)
  }

  lemma {:induction false} ParseQuotedEscaped(f: string, tail: string)
    requires tail == [] || tail[0] != '"'
    ensures ParseQuoted(Escape(f) + "\"" + tail) == Some((f, tail))
    decreases |f|
  {
    var s := Escape(f) + "\"" + tail;
    if f == [] {
      assert s == "\"" + tail;
      assert s[1..] == tail;
    } else if f[0] == '"' {
      assert s == "\"\"" + (Escape(f[1..]) + "\"" + tail);
      assert s[2..] == Escape(f[1..]) + "\"" + tail;
      ParseQuotedEscaped(f[1..], tail);
      assert "\"" + f[1..] == f;
    } else {
      assert s == [f[0]] + (Escape(f[1..]) + "\"" + tail);
      assert s[1..] == Escape(f[1..]) + "\"" + tail;
      ParseQuotedEscaped(f[1..], tail);
      assert [f[0]] + f[1..] == f;
    }
  }

  lemma ParseFieldEncoded(f: string, tail: string)
    requires tail == [] || tail[0] != '"'
    ensures ParseField(EncodeField(f) + tail) == Some((f, tail))
  {
    var s := EncodeField(f) + tail;
    assert s[0] == '"';
    assert s[1..] == Escape(f) + "\"" + tail;
    ParseQuotedEscaped(f, tail);
  }

  /** A last encoded field: the record ends at its line break. */
  lemma ParseRecordLast(f: string, tail: string)
    ensures ParseRecord(EncodeField(f) + "\n" + tail) == Some(([f], tail))
  {
    assert EncodeField(f) + "\n" + tail == EncodeField(f) + ("\n" + tail);
    ParseFieldEncoded(f, "\n" + tail);
    assert ("\n" + tail)[1..] == tail;
  }

  /** An encoded field followed by a separator: the record goes on. */
  lemma ParseRecordNext(f: string, more: string, fs: seq<string>, tail: string)
    requires ParseRecord(more) == Some((fs, tail))
    ensures ParseRecord(EncodeField(f) + "," + more) == Some(([f] + fs, tail))
  {
    assert EncodeField(f) + "," + more == EncodeField(f) + ("," + more);
    ParseFieldEncoded(f, "," + more);
    assert ("," + more)[1..] == more;
  }

  lemma {:induction false} ParseRecordEncoded(fs: seq<string>, tail: string)
    requires fs != []
    ensures ParseRecord(EncodeRecord(fs) + tail) == Some((fs, tail))
    decreases |fs|
  {
    if |fs| == 1 {
      ParseRecordLast(fs[0], tail);
      assert EncodeRecord(fs) + tail == EncodeField(fs[0]) + "\n" + tail;
      assert [fs[0]] == fs;
    } else {
      var more := EncodeRecord(fs[1..]) + tail;
      ParseRecordEncoded(fs[1..], tail);
      ParseRecordNext(fs[0], more, fs[1..], tail);
      assert EncodeRecord(fs) + tail == EncodeField(fs[0]) + "," + more;
      assert [fs[0]] + fs[1..] == fs;
    }
  }

  /** Reading what was written gives back the same records, field for field. */
  lemma {:induction false} DecodeEncode(rows: seq<seq<string>>)
    requires forall i :: 0 <= i < |rows| ==> rows[i] != []
    ensures Decode(Encode(rows)) == Some(rows)
  {
    if rows != [] {
      var rest := Encode(rows[1..]);
      ParseRecordEncoded(rows[0], rest);
      DecodeEncode(rows[1..]);
      assert [rows[0]] + rows[1..] == rows;
    }
  }

  /** Number of line-break characters ('\n' or '\r'). */
  function LineBreaks(s: string): nat {
    if s == [] then 0 else (if s[0] == '\n' || s[0] == '\r' then 1 else 0) + LineBreaks(s[1..])
  }

  lemma {:induction false} LineBreaksAppend(a: string, b: string)
    ensures LineBreaks(a + b) == LineBreaks(a) + LineBreaks(b)
    decreases |a|
  {
    if a == [] {
      assert a + b == b;
    } else {
      assert (a + b)[1..] == a[1..] + b;
      LineBreaksAppend(a[1..], b);
    }
  }

  predicate NoLineBreak(f: string) {
    forall i :: 0 <= i < |f| ==> f[i] != '\n' && f[i] != '\r'
  }

  lemma {:induction false} EscapeNoLineBreak(f: string)
    requires NoLineBreak(f)
    ensures LineBreaks(Escape(f)) == 0
    decreases |f|
  {
    if f != [] {
      var head := if f[0] == '"' then "\"\"" else [f[0]];
      LineBreaksAppend(head, Escape(f[1..]));
      EscapeNoLineBreak(f[1..]);
      assert head[1..] == [] || head[1..] == "\"";
    }
  }

  lemma {:induction false} RecordLineBreaks(fs: seq<string>)
    requires forall i :: 0 <= i < |fs| ==> NoLineBreak(fs[i])
    ensures LineBreaks(EncodeFields(fs)) == 0
    decreases |fs|
  {
    if fs != [] {
      var f := fs[0];
      EscapeNoLineBreak(f);
      LineBreaksAppend("\"", Escape(f));
      LineBreaksAppend("\"" + Escape(f), "\"");
      if |fs| > 1 {
        LineBreaksAppend(EncodeField(f), ",");
        LineBreaksAppend(EncodeField(f) + ",", EncodeFields(fs[1..]));
        RecordLineBreaks(fs[1..]);
      }
    }
  }

  /** With no line break inside any field, the text has exactly one line
      break per record. */
  lemma {:induction false} EncodeOneLinePerRecord(rows: seq<seq<string>>)
    requires forall i, j :: 0 <= i < |rows| && 0 <= j < |rows[i]| ==> NoLineBreak(rows[i][j])
    ensures LineBreaks(Encode(rows)) == |rows|
  {
    if rows != [] {
      RecordLineBreaks(rows[0]);
      LineBreaksAppend(EncodeFields(rows[0]), "\n");
      LineBreaksAppend(EncodeRecord(rows[0]), Encode(rows[1..]));
      EncodeOneLinePerRecord(rows[1..]);
    }
  }
}
