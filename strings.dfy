/** The handful of Python `str` and list operations the core relies on:
    `strip`, `join`, slicing with `[:n]` and `[-n:]`, `rsplit`, `in`,
    `lower`/`upper` and decimal rendering of integers. */
module Strings {

  /** Python's `str.isspace()` for one character: the ASCII whitespace and
      separator controls, plus the Unicode space and line/paragraph separators. */
  predicate IsSpace(c: char) {
    || ('\t' <= c <= '\r')
    || ('\U{001C}' <= c <= ' ')
    || c == '\U{0085}' || c == '\U{00A0}' || c == '\U{1680}'
    || ('\U{2000}' <= c <= '\U{200A}')
    || c == '\U{2028}' || c == '\U{2029}' || c == '\U{202F}' || c == '\U{205F}'
    || c == '\U{3000}'
  }

  /** `not s.strip()`: the text is empty or whitespace only. */
  predicate Blank(s: string) {
    forall i :: 0 <= i < |s| ==> IsSpace(s[i])
  }

  /** A non-empty text with no whitespace at either end: what a non-blank
      `strip` returns. */
  predicate Trimmed(s: string) {
    s != [] && !IsSpace(s[0]) && !IsSpace(s[|s| - 1])
  }

  /** Python's `s.lstrip()`: drops the leading whitespace and keeps a suffix. */
  function TrimLeft(s: string): (r: string)
    ensures |r| <= |s| && r == s[|s| - |r|..]
    ensures r == [] || !IsSpace(r[0])
    ensures forall i :: 0 <= i < |s| - |r| ==> IsSpace(s[i])
  {
    if |s| > 0 && IsSpace(s[0]) then TrimLeft(s[1..]) else s
  }

  /** Python's `s.rstrip()`: drops the trailing whitespace and keeps a prefix. */
  function TrimRight(s: string): (r: string)
    ensures |r| <= |s| && r == s[..|r|]
    ensures r == [] || !IsSpace(r[|r| - 1])
    ensures forall i :: |r| <= i < |s| ==> IsSpace(s[i])
  {
    if |s| > 0 && IsSpace(s[|s| - 1]) then TrimRight(s[..|s| - 1]) else s
  }

  /** Python's `s.strip()`. */
  function Strip(s: string): (r: string)
    ensures |r| <= |s|
    ensures r == [] <==> Blank(s)
    ensures r != [] ==> !IsSpace(r[0]) && !IsSpace(r[|r| - 1])
  {
    var l := TrimLeft(s);
    assert Blank(s) ==> l == [];
    assert l == [] ==> Blank(s);
    TrimRight(l)
  }

  /** A text whose two ends are not whitespace is left alone by `strip`. */
  lemma StripKeepsTrimmed(s: string)
    requires s != [] && !IsSpace(s[0]) && !IsSpace(s[|s| - 1])
    ensures Strip(s) == s
  {
  }

  /** `strip` is idempotent. */
  lemma StripIdempotent(s: string)
    ensures Strip(Strip(s)) == Strip(s)
  {
    if Strip(s) != [] {
      StripKeepsTrimmed(Strip(s));
    }
  }

  /** The triple-quoted literals of the source start and end with a newline that
      `.strip()` removes; what is left is the framed text, untouched. */
  lemma StripFramed(x: string)
    requires x != [] && !IsSpace(x[0]) && !IsSpace(x[|x| - 1])
    ensures Strip("\n" + x + "\n") == x
  {
    var s := "\n" + x + "\n";
    assert s[1..] == x + "\n";
    assert TrimLeft(s) == x + "\n";
    assert (x + "\n")[..|x|] == x;
    assert TrimRight(x + "\n") == TrimRight(x);
  }

  /** A text that opens and closes with a non-space character, followed by a
      newline: `strip` removes that newline only. */
  lemma StripClosedLine(x: string)
    requires x != [] && !IsSpace(x[0]) && !IsSpace(x[|x| - 1])
    ensures Strip(x + "\n") == x
  {
    var s := x + "\n";
    assert s[0] == x[0];
    StripFromNonSpace(s);
    assert s[..|s| - 1] == x;
  }

  /** A text ending in a non-space character loses only an added newline. */
  lemma TrimRightNewline(x: string)
    requires x != [] && !IsSpace(x[|x| - 1])
    ensures TrimRight(x + "\n") == x
  {
    assert (x + "\n")[..|x|] == x;
  }

  /** Trailing whitespace is only ever taken from the last non-blank piece. */
  lemma {:induction false} TrimRightAppend(a: string, b: string)
    requires !Blank(b)
    ensures TrimRight(a + b) == a + TrimRight(b)
  {
    if IsSpace(b[|b| - 1]) {
      var b' := b[..|b| - 1];
      assert !Blank(b') by {
        var k :| 0 <= k < |b| && !IsSpace(b[k]);
        assert k < |b| - 1 && b'[k] == b[k];
      }
      assert (a + b)[..|a + b| - 1] == a + b';
      TrimRightAppend(a, b');
    }
  }

  /** Trailing whitespace after a text is dropped together with the text's own. */
  lemma {:induction false} TrimRightBlankTail(a: string, b: string)
    requires Blank(b)
    ensures TrimRight(a + b) == TrimRight(a)
  {
    if b != [] {
      var b' := b[..|b| - 1];
      assert (a + b)[..|a + b| - 1] == a + b';
      assert (a + b)[|a + b| - 1] == b[|b| - 1];
      TrimRightBlankTail(a, b');
    } else {
      assert a + b == a;
    }
  }

  /** A literal that starts with fixed text and ends with a substituted value:
      `strip` removes the framing newlines and the value's trailing whitespace. */
  lemma StripOpenFramed(head: string, tail: string)
    requires head != [] && !IsSpace(head[0])
    ensures !Blank(tail) ==> Strip("\n" + head + tail + "\n") == head + TrimRight(tail)
  {
    var s := "\n" + head + tail + "\n";
    assert s[1..] == head + tail + "\n";
    assert TrimLeft(s) == head + tail + "\n";
    if !Blank(tail) {
      assert !Blank(tail + "\n") by {
        var k :| 0 <= k < |tail| && !IsSpace(tail[k]);
        assert (tail + "\n")[k] == tail[k];
      }
      assert head + tail + "\n" == head + (tail + "\n");
      TrimRightAppend(head, tail + "\n");
      assert (tail + "\n")[..|tail|] == tail;
      assert TrimRight(tail + "\n") == TrimRight(tail);
    }
  }

  /** The same literal with a blank value: `strip` takes the value and the
      head's own trailing whitespace. */
  lemma StripOpenFramedBlank(head: string, tail: string)
    requires head != [] && !IsSpace(head[0]) && Blank(tail)
    ensures Strip("\n" + head + tail + "\n") == TrimRight(head)
  {
    var s := "\n" + head + tail + "\n";
    assert Blank(tail + "\n") by {
      forall i | 0 <= i < |tail + "\n"| ensures IsSpace((tail + "\n")[i]) {
        if i < |tail| {
          assert (tail + "\n")[i] == tail[i];
        }
      }
    }
    assert s[0] == '\n' && s[1..] == head + (tail + "\n");
    assert TrimLeft(s) == head + (tail + "\n");
    TrimRightBlankTail(head, tail + "\n");
  }

  /** A literal whose fixed text ends with a line `intro`, followed by a
      substituted value: `strip` keeps the value up to its trailing
      whitespace, and a blank value takes the line break with it. */
  lemma StripColonFramed(intro: string, tail: string)
    requires intro != [] && !IsSpace(intro[0]) && !IsSpace(intro[|intro| - 1])
    ensures !Blank(tail) ==> Strip("\n" + (intro + "\n") + tail + "\n") == intro + "\n" + TrimRight(tail)
    ensures Blank(tail) ==> Strip("\n" + (intro + "\n") + tail + "\n") == intro
  {
    var head := intro + "\n";
    assert head[0] == intro[0];
    StripOpenFramed(head, tail);
    if Blank(tail) {
      StripOpenFramedBlank(head, tail);
      TrimRightNewline(intro);
    }
  }

  /** A text starting with a non-space character loses only trailing space. */
  lemma StripFromNonSpace(s: string)
    requires s != [] && !IsSpace(s[0])
    ensures Strip(s) == TrimRight(s) && Strip(s) != [] && Strip(s)[0] == s[0]
  {
  }

  /** Python's `s[:n]` for a non-negative `n`. */
  function Take<T>(s: seq<T>, n: nat): (r: seq<T>)
    ensures r <= s && |r| == if n <= |s| then n else |s|
  {
    if n <= |s| then s[..n] else s
  }

  /** Python's `s[-n:]` for a non-negative `n`: note that `s[-0:]` is the
      whole of `s`, not the empty sequence. */
  function PyTail<T>(s: seq<T>, n: nat): (r: seq<T>)
    ensures |r| <= |s| && r == s[|s| - |r|..]
    ensures n == 0 ==> r == s
    ensures n > 0 ==> |r| == if n <= |s| then n else |s|
  {
    if n == 0 || n >= |s| then s else s[|s| - n..]
  }

  /** Python's `sep.join(parts)`. */
  function Join(parts: seq<string>, sep: string): string
  {
    if |parts| == 0 then ""
    else if |parts| == 1 then parts[0]
    else parts[0] + sep + Join(parts[1..], sep)
  }

  /** Appending one more piece to a join adds a separator and that piece. */
  lemma {:induction false} JoinSnoc(parts: seq<string>, x: string, sep: string)
    requires parts != []
    ensures Join(parts + [x], sep) == Join(parts, sep) + sep + x
  {
    if |parts| == 1 {
      assert parts + [x] == [parts[0], x];
      assert ([parts[0], x])[1..] == [x];
    } else {
      assert (parts + [x])[1..] == parts[1..] + [x];
      JoinSnoc(parts[1..], x, sep);
    }
  }

  /** A join of several pieces begins with the first piece and a separator. */
  lemma JoinStartsWithFirst(parts: seq<string>, sep: string)
    requires parts != []
    ensures parts[0] <= Join(parts, sep)
    ensures |parts| > 1 ==> parts[0] + sep <= Join(parts, sep)
  {
  }

  /** The concatenation of a list of pieces: Python's `"".join(parts)`. */
  function Concat(parts: seq<string>): string
  {
    if parts == [] then "" else parts[0] + Concat(parts[1..])
  }

  lemma {:induction false} ConcatAppend(a: seq<string>, b: seq<string>)
    ensures Concat(a + b) == Concat(a) + Concat(b)
  {
    if a != [] {
      assert (a + b)[1..] == a[1..] + b;
      ConcatAppend(a[1..], b);
    } else {
      assert a + b == b;
    }
  }

  /** Python's `sub in s`. */
  predicate Contains(s: string, sub: string)
  {
    sub <= s || (|s| > 0 && Contains(s[1..], sub))
  }

  /** Python's `s.rsplit(c, 1)[-1]`: the text after the last `c`, or the whole
      text when it holds no `c`. */
  function AfterLast(s: string, c: char): (r: string)
    ensures c !in r
    ensures |r| <= |s| && r == s[|s| - |r|..]
    ensures c !in s ==> r == s
    ensures c in s ==> |r| < |s| && s[|s| - |r| - 1] == c
  {
    if s == [] then []
    else if s[|s| - 1] == c then []
    else
      var r := AfterLast(s[..|s| - 1], c) + [s[|s| - 1]];
      assert c in s[..|s| - 1] <==> c in s;
      r
  }

  /** ASCII case mapping of one character (Python's `lower`/`upper` restricted
      to the letters A to Z). */
  function LowerChar(c: char): char {
    if 'A' <= c <= 'Z' then (c as int + 32) as char else c
  }

  function UpperChar(c: char): char {
    if 'a' <= c <= 'z' then (c as int - 32) as char else c
  }

  function Lower(s: string): (r: string)
    ensures |r| == |s| && forall i :: 0 <= i < |s| ==> r[i] == LowerChar(s[i])
  {
    seq(|s|, i requires 0 <= i < |s| => LowerChar(s[i]))
  }

  function Upper(s: string): (r: string)
    ensures |r| == |s| && forall i :: 0 <= i < |s| ==> r[i] == UpperChar(s[i])
  {
    seq(|s|, i requires 0 <= i < |s| => UpperChar(s[i]))
  }

  predicate IsDigit(c: char) {
    '0' <= c <= '9'
  }

  /** Python's `str(n)` for a non-negative integer. */
  function NatToString(n: nat): (r: string)
    ensures r != [] && forall i :: 0 <= i < |r| ==> IsDigit(r[i])
  {
    var d := ['0', '1', '2', '3', '4', '5', '6', '7', '8', '9'][n % 10];
    if n < 10 then [d] else NatToString(n / 10) + [d]
  }
}
