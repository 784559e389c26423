/**
 Public keys travel either as one base64 string (DNS records, trust records) or
 as a PEM block of 64-character lines. This is the codec between the two, on text.
 */
module Pem {

  const BEGIN := "-----BEGIN PUBLIC KEY-----"
  const END := "-----END PUBLIC KEY-----"

  // ------------------------------------------------- the string operations used

  /** `s.replace(pattern, '')` with a literal, non-global pattern. */
  function DropFirst(s: string, pattern: string): string
    requires pattern != ""
  {
    if |s| < |pattern| then s
    else if s[..|pattern|] == pattern then s[|pattern|..]
    else [s[0]] + DropFirst(s[1..], pattern)
  }

  /** `s.replace(/\r?\n/g, '')` */
  function DropNewlines(s: string): string {
    if s == "" then ""
    else if s[0] == '\n' then DropNewlines(s[1..])
    else if |s| > 1 && s[0] == '\r' && s[1] == '\n' then DropNewlines(s[2..])
    else [s[0]] + DropNewlines(s[1..])
  }

  /** White space and line terminators, as `trim` sees them. */
  predicate IsSpace(c: char) {
    c in " \t\n\r\U{000B}\U{000C}\U{00A0}\U{1680}\U{2028}\U{2029}\U{202F}\U{205F}\U{3000}\U{FEFF}"
    || '\U{2000}' <= c <= '\U{200A}'
  }

  function TrimStart(s: string): string {
    if s != "" && IsSpace(s[0]) then TrimStart(s[1..]) else s
  }

  function TrimEnd(s: string): string {
    if s != "" && IsSpace(s[|s| - 1]) then TrimEnd(s[..|s| - 1]) else s
  }

  /** What `.` does not match. */
  predicate IsLineTerminator(c: char) {
    c in "\n\r\U{2028}\U{2029}"
  }

  /** The length of the longest match of `.{1,limit}` at the start of `s`, 0 if there is none. */
  function MatchLength(s: string, limit: nat): (n: nat)
    ensures n <= |s| && n <= limit
    ensures n < |s| && n < limit ==> IsLineTerminator(s[n])
    ensures forall i :: 0 <= i < n ==> !IsLineTerminator(s[i])
  {
    if s == "" || limit == 0 || IsLineTerminator(s[0]) then 0 else 1 + MatchLength(s[1..], limit - 1)
  }

  /** `s.match(/.{1,64}/g) || []` */
  function Lines(s: string): seq<string>
    decreases |s|
  {
    if s == "" then []
    else
      var n := MatchLength(s, 64);
      if n == 0 then Lines(s[1..]) else [s[..n]] + Lines(s[n..])
  }

  function Join(lines: seq<string>): string {
    if lines == [] then "" else if |lines| == 1 then lines[0] else lines[0] + "\n" + Join(lines[1..])
  }

  // ------------------------------------------------------------------ the codec

  function PemToBase64(pem: string): string {
    TrimEnd(TrimStart(DropNewlines(DropFirst(DropFirst(pem, BEGIN), END))))
  }

  function Base64ToPem(base64: string): string {
    Join([BEGIN] + Lines(base64) + [END])
  }

  // ------------------------------------------------------------------- base64

  predicate IsBase64Char(c: char) {
    'A' <= c <= 'Z' || 'a' <= c <= 'z' || '0' <= c <= '9' || c == '+' || c == '/' || c == '='
  }

  predicate IsBase64(s: string) {
    forall c :: c in s ==> IsBase64Char(c)
  }

  function Concat(lines: seq<string>): string {
    if lines == [] then "" else lines[0] + Concat(lines[1..])
  }

  lemma {:induction false} MatchesAll(b: string, limit: nat)
    requires IsBase64(b)
    ensures MatchLength(b, limit) == if |b| < limit then |b| else limit
  {
    if b != "" && limit > 0 {
      assert b[0] in b;
      assert IsBase64(b[1..]) by {
        assert forall c :: c in b[1..] ==> c in b;
      }
      MatchesAll(b[1..], limit - 1);
    }
  }

  /** Full lines of 64 characters and one last, non-empty line. */
  ghost predicate Wrapped(ls: seq<string>) {
    && (forall i :: 0 <= i < |ls| ==> 1 <= |ls[i]| <= 64 && IsBase64(ls[i]))
    && (forall i :: 0 <= i < |ls| - 1 ==> |ls[i]| == 64)
  }

  lemma WrappedMore(line: string, rest: seq<string>)
    requires Wrapped(rest) && IsBase64(line) && 1 <= |line| <= 64 && (rest != [] ==> |line| == 64)
    ensures Wrapped([line] + rest)
  {
    var ls := [line] + rest;
    assert forall i :: 0 < i < |ls| ==> ls[i] == rest[i - 1];
  }

  /** The body is cut into full lines of 64 characters and one last, non-empty line. */
  lemma {:induction false} LinesOf64(b: string)
    requires IsBase64(b)
    ensures Concat(Lines(b)) == b && Wrapped(Lines(b))
    decreases |b|
  {
    if b != "" {
      MatchesAll(b, 64);
      var n := MatchLength(b, 64);
      assert IsBase64(b[..n]) && IsBase64(b[n..]) by {
        assert forall c :: c in b[..n] || c in b[n..] ==> c in b;
      }
      LinesOf64(b[n..]);
      assert b[..n] + b[n..] == b;
      WrappedMore(b[..n], Lines(b[n..]));
    }
  }

  // -------------------------------------------- PEM blocks, however they are wrapped

  function Eol(crlf: bool): string {
    if crlf then "\r\n" else "\n"
  }

  /** The lines, each with its own kind of line end. */
  function Body(lines: seq<(string, bool)>): string {
    if lines == [] then "" else lines[0].0 + Eol(lines[0].1) + Body(lines[1..])
  }

  function Texts(lines: seq<(string, bool)>): string {
    if lines == [] then "" else lines[0].0 + Texts(lines[1..])
  }

  ghost predicate AllBase64(lines: seq<(string, bool)>) {
    forall i :: 0 <= i < |lines| ==> IsBase64(lines[i].0)
  }

  lemma DropFirstAtStart(pattern: string, rest: string)
    requires pattern != ""
    ensures DropFirst(pattern + rest, pattern) == rest
  {
    assert (pattern + rest)[..|pattern|] == pattern;
  }

  lemma DropFirstSkips(c: char, s: string, pattern: string)
    requires pattern != "" && pattern[0] != c
    ensures DropFirst([c] + s, pattern) == [c] + DropFirst(s, pattern)
  {
    assert ([c] + s)[0] == c && ([c] + s)[1..] == s;
    assert |pattern| <= |[c] + s| ==> ([c] + s)[..|pattern|][0] == c;
  }

  lemma {:induction false} DropFirstAfter(before: string, pattern: string, rest: string)
    requires pattern != "" && pattern[0] !in before
    ensures DropFirst(before + (pattern + rest), pattern) == before + rest
  {
    if before == "" {
      assert before + (pattern + rest) == pattern + rest && before + rest == rest;
      DropFirstAtStart(pattern, rest);
    } else {
      DropFirstAfter(before[1..], pattern, rest);
      DropFirstSkips(before[0], before[1..] + (pattern + rest), pattern);
      assert before == [before[0]] + before[1..];
      assert before + (pattern + rest) == [before[0]] + (before[1..] + (pattern + rest));
      assert before + rest == [before[0]] + (before[1..] + rest);
    }
  }

  lemma {:induction false} DropNewlinesLine(line: string, crlf: bool, rest: string)
    requires IsBase64(line)
    ensures DropNewlines(line + Eol(crlf) + rest) == line + DropNewlines(rest)
  {
    var s := line + Eol(crlf) + rest;
    if line == "" {
      assert s == Eol(crlf) + rest;
      assert crlf ==> s[2..] == rest;
      assert !crlf ==> s[1..] == rest;
      assert line + DropNewlines(rest) == DropNewlines(rest);
    } else {
      assert line[0] in line;
      assert IsBase64(line[1..]) by {
        assert forall c :: c in line[1..] ==> c in line;
      }
      DropNewlinesLine(line[1..], crlf, rest);
      assert s[1..] == line[1..] + Eol(crlf) + rest;
    }
  }

  lemma {:induction false} DropNewlinesBody(lines: seq<(string, bool)>, tail: string)
    requires AllBase64(lines)
    ensures DropNewlines(Body(lines) + tail) == Texts(lines) + DropNewlines(tail)
    ensures '-' !in Body(lines) && IsBase64(Texts(lines))
  {
    if lines == [] {
      assert Body(lines) + tail == tail;
    } else {
      DropNewlinesBody(lines[1..], tail);
      DropNewlinesLine(lines[0].0, lines[0].1, Body(lines[1..]) + tail);
      assert Body(lines) + tail == lines[0].0 + Eol(lines[0].1) + (Body(lines[1..]) + tail);
      assert forall c :: c in lines[0].0 ==> IsBase64Char(c);
    }
  }

  lemma TrimBase64(b: string)
    requires IsBase64(b)
    ensures TrimEnd(TrimStart(b)) == b
  {
    if b != "" {
      assert b[0] in b && b[|b| - 1] in b;
    }
  }

  lemma Unframe(begin: string, body: string, end: string, tail: string)
    requires begin != "" && end != "" && end[0] !in body
    ensures DropFirst(DropFirst(begin + body + end + tail, begin), end) == body + tail
  {
    assert begin + body + end + tail == begin + (body + (end + tail));
    DropFirstAtStart(begin, body + (end + tail));
    DropFirstAfter(body, end, tail);
  }

  lemma TailIsNewline(tail: string)
    requires tail in {"", "\n", "\r\n"}
    ensures DropNewlines(tail) == ""
  {
    if tail == "\r\n" {
      assert tail[2..] == "";
    } else if tail == "\n" {
      assert tail[1..] == "";
    }
  }

  lemma FramedTexts(first: bool, lines: seq<(string, bool)>)
    requires AllBase64(lines)
    ensures Body([("", first)] + lines) == Eol(first) + Body(lines)
    ensures Texts([("", first)] + lines) == Texts(lines)
    ensures AllBase64([("", first)] + lines)
  {
    var framed := [("", first)] + lines;
    assert framed[1..] == lines;
  }

  /** Any LF or CRLF wrapping, at any line length, with or without a last line end, is undone. */
  lemma UnwrapAnyWrapping(first: bool, lines: seq<(string, bool)>, tail: string)
    requires AllBase64(lines) && tail in {"", "\n", "\r\n"}
    ensures PemToBase64(BEGIN + Eol(first) + Body(lines) + END + tail) == Texts(lines)
  {
    var framed := [("", first)] + lines;
    FramedTexts(first, lines);
    DropNewlinesBody(framed, tail);
    var begin, body, end := BEGIN, Body(framed), END;
    assert end[0] == '-';
    Unframe(begin, body, end, tail);
    assert BEGIN + Eol(first) + Body(lines) + END + tail == begin + body + end + tail by {
      assert begin + (Eol(first) + Body(lines)) == begin + Eol(first) + Body(lines);
    }
    TailIsNewline(tail);
    assert Texts(lines) + "" == Texts(lines);
    TrimBase64(Texts(lines));
  }

  function WithLf(ls: seq<string>): seq<(string, bool)> {
    seq(|ls|, i requires 0 <= i < |ls| => (ls[i], false))
  }

  lemma {:induction false} JoinIsBody(ls: seq<string>, end: string)
    ensures Join(ls + [end]) == Body(WithLf(ls)) + end
    ensures Texts(WithLf(ls)) == Concat(ls)
  {
    if ls == [] {
      assert ls + [end] == [end] && Join([end]) == end;
      assert Body(WithLf(ls)) + end == end;
    } else {
      JoinIsBody(ls[1..], end);
      assert (ls + [end])[1..] == ls[1..] + [end];
      assert WithLf(ls)[1..] == WithLf(ls[1..]);
      assert Body(WithLf(ls)) + end == ls[0] + "\n" + (Body(WithLf(ls[1..])) + end);
    }
  }

  lemma WrappedShape(b: string)
    requires IsBase64(b)
    ensures Base64ToPem(b) == BEGIN + "\n" + Body(WithLf(Lines(b))) + END
  {
    var ls := Lines(b);
    JoinIsBody(ls, END);
    assert [BEGIN] + ls + [END] == [BEGIN] + (ls + [END]);
    assert ([BEGIN] + (ls + [END]))[1..] == ls + [END];
  }

  /** `pemToBase64` undoes `base64ToPem`. */
  lemma RoundTrip(b: string)
    requires IsBase64(b)
    ensures PemToBase64(Base64ToPem(b)) == b
  {
    LinesOf64(b);
    WrappedShape(b);
    JoinIsBody(Lines(b), END);
    var pem := BEGIN + Eol(false) + Body(WithLf(Lines(b))) + END;
    assert pem + "" == pem;
    UnwrapAnyWrapping(false, WithLf(Lines(b)), "");
  }

  /** Different base64 gives different blocks. */
  lemma Injective(b: string, c: string)
    requires IsBase64(b) && IsBase64(c)
    ensures Base64ToPem(b) == Base64ToPem(c) ==> b == c
  {
    RoundTrip(b);
    RoundTrip(c);
  }

  /** Re-wrapping any wrapped body gives the one canonical block, and doing it again changes nothing. */
  lemma RewrapIsCanonical(first: bool, lines: seq<(string, bool)>, tail: string)
    requires AllBase64(lines) && tail in {"", "\n", "\r\n"}
    ensures var once := Base64ToPem(PemToBase64(BEGIN + Eol(first) + Body(lines) + END + tail));
            once == Base64ToPem(Texts(lines)) && Base64ToPem(PemToBase64(once)) == once
  {
    UnwrapAnyWrapping(first, lines, tail);
    DropNewlinesBody(lines, "");
    RoundTrip(Texts(lines));
  }

  /** A joined block begins and ends with its frame, each on a line of its own. */
  lemma JoinIsFramed(begin: string, lines: seq<string>, end: string)
    ensures begin + "\n" <= Join([begin] + lines + [end])
    ensures |Join([begin] + lines + [end])| >= |end|
    ensures Join([begin] + lines + [end])[|Join([begin] + lines + [end])| - |end|..] == end
    ensures lines == [] ==> Join([begin] + lines + [end]) == begin + "\n" + end
  {
    var all := [begin] + lines + [end];
    assert all[0] == begin && all[1..] == lines + [end];
    JoinEnds(lines, end);
    assert Join(all) == begin + "\n" + Join(lines + [end]);
    assert |Join(all)| - |end| >= |begin| + 1;
    if lines == [] {
      assert lines + [end] == [end];
    }
  }

  lemma {:induction false} JoinEnds(lines: seq<string>, end: string)
    ensures |Join(lines + [end])| >= |end|
    ensures Join(lines + [end])[|Join(lines + [end])| - |end|..] == end
  {
    if lines == [] {
      assert lines + [end] == [end];
    } else {
      assert (lines + [end])[1..] == lines[1..] + [end];
      JoinEnds(lines[1..], end);
    }
  }

  /** The block is framed as RFC 7468 writes a public key, with the base64 on lines of its own. */
  lemma BlockIs(b: string)
    ensures BEGIN + "\n" <= Base64ToPem(b)
    ensures |Base64ToPem(b)| >= |END| && Base64ToPem(b)[|Base64ToPem(b)| - |END|..] == END
    ensures b == "" ==> Base64ToPem(b) == BEGIN + "\n" + END
  {
    JoinIsFramed(BEGIN, Lines(b), END);
  }

  /** A key of no characters is the bare frame. */
  lemma EmptyBlock()
    ensures Base64ToPem("") == "-----BEGIN PUBLIC KEY-----\n-----END PUBLIC KEY-----"
  {
    BlockIs("");
    var whole := "-----BEGIN PUBLIC KEY-----\n-----END PUBLIC KEY-----";
    assert whole[..26] == BEGIN;
    assert whole[27..] == END;
    assert whole == whole[..26] + [whole[26]] + whole[27..];
  }

  lemma {:induction false} NothingToDrop(s: string, pattern: string)
    requires pattern != "" && pattern[0] !in s
    ensures DropFirst(s, pattern) == s
    ensures '\n' !in s ==> DropNewlines(s) == s
  {
    if s != "" {
      assert s == [s[0]] + s[1..];
      NothingToDrop(s[1..], pattern);
    }
  }

  /** Text without a frame or a line feed, and with no space at its ends, is returned as it is, single carriage returns included. */
  lemma OtherTextStays(s: string)
    requires '-' !in s && '\n' !in s && s != "" && IsBase64Char(s[0]) && IsBase64Char(s[|s| - 1])
    ensures PemToBase64(s) == s
  {
    assert BEGIN[0] == '-' && END[0] == '-';
    NothingToDrop(s, BEGIN);
    NothingToDrop(s, END);
    NothingToTrim(s);
  }

  lemma NothingToTrim(s: string)
    requires s != "" && IsBase64Char(s[0]) && IsBase64Char(s[|s| - 1])
    ensures TrimEnd(TrimStart(s)) == s
  {
    NoSpace(s[0]);
    NoSpace(s[|s| - 1]);
  }

  lemma NoSpace(c: char)
    requires IsBase64Char(c)
    ensures !IsSpace(c)
  {
  }
}
