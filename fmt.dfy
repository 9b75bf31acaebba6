/**
 * The parts of Rust's `Debug` formatting the wrapper's `Display` and `Debug` impls produce:
 * `Formatter::debug_struct` in its one-line form, and a `str` printed with `{:?}`.
 */
module Fmt {

  /** `f.debug_struct(name).field(n1, v1)….field(nk, vk).finish()`: the values are already formatted. */
  function DebugStruct(name: string, fields: seq<(string, string)>): string {
    if fields == [] then name else name + " { " + FieldList(fields) + " }"
  }

  /** `n1: v1, n2: v2, …` */
  function FieldList(fields: seq<(string, string)>): string
    requires fields != []
  {
    fields[0].0 + ": " + fields[0].1 + (if |fields| == 1 then "" else ", " + FieldList(fields[1..]))
  }

  /** A two-field struct, spelled out. */
  lemma DebugStructTwo(name: string, a: (string, string), b: (string, string))
    ensures DebugStruct(name, [a, b]) == name + " { " + a.0 + ": " + a.1 + ", " + b.0 + ": " + b.1 + " }"
  {
    assert [a, b][1..] == [b];
    assert FieldList([b]) == b.0 + ": " + b.1;
    assert FieldList([a, b]) == a.0 + ": " + a.1 + ", " + b.0 + ": " + b.1;
  }

  /** A three-field struct, spelled out. */
  lemma DebugStructThree(name: string, a: (string, string), b: (string, string), c: (string, string))
    ensures DebugStruct(name, [a, b, c]) ==
      name + " { " + a.0 + ": " + a.1 + ", " + b.0 + ": " + b.1 + ", " + c.0 + ": " + c.1 + " }"
  {
    assert [a, b, c][1..] == [b, c];
    assert [b, c][1..] == [c];
    assert FieldList([c]) == c.0 + ": " + c.1;
    assert FieldList([b, c]) == b.0 + ": " + b.1 + ", " + c.0 + ": " + c.1;
    assert FieldList([a, b, c]) == a.0 + ": " + a.1 + ", " + b.0 + ": " + b.1 + ", " + c.0 + ": " + c.1;
  }

  /** The characters `char::escape_debug` writes as a two-character backslash escape inside a `str`. */
  predicate IsEscaped(c: char) {
    c == '"' || c == '\\' || c == '\n' || c == '\r' || c == '\t' || c == '\0'
  }

  /**
   * One character of `{:?}` of a `str`. Non-printable and grapheme-extending characters,
   * which Rust writes as `\u{…}`, are copied here like any other.
   */
  function EscapeChar(c: char): (r: string)
    ensures IsEscaped(c) ==> |r| == 2 && r[0] == '\\'
    ensures !IsEscaped(c) ==> r == [c]
  {
    match c
    case '"' => "\\\""
    case '\\' => "\\\\"
    case '\n' => "\\n"
    case '\r' => "\\r"
    case '\t' => "\\t"
    case '\0' => "\\0"
    case _ => [c]
  }

  function Escape(s: string): string {
    if s == [] then [] else EscapeChar(s[0]) + Escape(s[1..])
  }

  /** `format!("{:?}", s)` for a `str`: quoted, with the escapes above. */
  function DebugStr(s: string): (r: string)
    ensures |r| >= 2 && r[0] == '"' && r[|r| - 1] == '"'
  {
    "\"" + Escape(s) + "\""
  }

  /** Undoes `Escape`: reads a backslash and the letter after it back as one character. */
  function Unescape(s: string): string
    decreases |s|
  {
    if s == [] then []
    else if s[0] == '\\' && |s| >= 2 then
      [match s[1]
       case '"' => '"'
       case 'n' => '\n'
       case 'r' => '\r'
       case 't' => '\t'
       case '0' => '\0'
       case c => c] + Unescape(s[2..])
    else [s[0]] + Unescape(s[1..])
  }

  /** No information is lost by the quoting: the escaped text determines the original. */
  lemma {:induction false} UnescapeEscape(s: string)
    ensures Unescape(Escape(s)) == s
  {
    if s != [] {
      UnescapeEscape(s[1..]);
      var e := EscapeChar(s[0]);
      assert e + Escape(s[1..]) == Escape(s);
      if IsEscaped(s[0]) {
        assert (e + Escape(s[1..]))[2..] == Escape(s[1..]);
      } else {
        assert (e + Escape(s[1..]))[1..] == Escape(s[1..]);
      }
    }
  }

  /** Text without quotes, backslashes or control escapes is printed verbatim between quotes. */
  lemma {:induction false} DebugStrPlain(s: string)
    requires forall i :: 0 <= i < |s| ==> !IsEscaped(s[i])
    ensures DebugStr(s) == "\"" + s + "\""
  {
    EscapePlain(s);
  }

  lemma {:induction false} EscapePlain(s: string)
    requires forall i :: 0 <= i < |s| ==> !IsEscaped(s[i])
    ensures Escape(s) == s
  {
    if s != [] {
      EscapePlain(s[1..]);
      assert s == [s[0]] + s[1..];
    }
  }
}
