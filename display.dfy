/**
 * `repr` (src/debug.c): the quoted, escaped form in which the debugger
 * shows a string operand.  Seven control characters are written as a
 * backslash and a letter; every other character, the backslash and the
 * double quote included, is copied as it is.
 */
module Display {
  import opened CString
  import opened Wrappers

  /** The letter that follows the backslash for each of the seven control characters `repr` expands. */
  function EscapeLetter(ch: char): Option<char>
  {
    if ch == '\n' then Some('n')
    else if ch == '\t' then Some('t')
    else if ch == '\r' then Some('r')
    else if ch == '\U{000B}' then Some('v')
    else if ch == '\U{000C}' then Some('f')
    else if ch == '\U{0008}' then Some('b')
    else if ch == '\U{0007}' then Some('a')
    else None
  }

  /** The control character a letter stands for after a backslash, if any. */
  function UnescapeLetter(l: char): (r: Option<char>)
    ensures r.Some? ==> EscapeLetter(r.value) == Some(l)
  {
    if l == 'n' then Some('\n')
    else if l == 't' then Some('\t')
    else if l == 'r' then Some('\r')
    else if l == 'v' then Some('\U{000B}')
    else if l == 'f' then Some('\U{000C}')
    else if l == 'b' then Some('\U{0008}')
    else if l == 'a' then Some('\U{0007}')
    else None
  }

  predicate Special(ch: char)
  {
    EscapeLetter(ch).Some?
  }

  function EscapeChar(ch: char): string
  {
    if Special(ch) then ['\\', EscapeLetter(ch).value] else [ch]
  }

  /** The characters between the quotes. */
  function Escaped(s: string): (r: string)
    ensures forall k :: 0 <= k < |r| ==> !Special(r[k])
  {
    if |s| == 0 then [] else EscapeChar(s[0]) + Escaped(s[1..])
  }

  /** The whole text `repr` builds, without its terminating NUL. */
  function Quoted(s: string): (r: string)
    ensures |r| == |Escaped(s)| + 2 && r[0] == '"' && r[|r| - 1] == '"'
    ensures forall k :: 0 <= k < |r| ==> !Special(r[k])
  {
    ['"'] + Escaped(s) + ['"']
  }

  /** Read an escaped text back: a backslash and a known letter give the control character. */
  function Unescape(r: string): string
  {
    if |r| == 0 then []
    else if r[0] == '\\' && |r| >= 2 && UnescapeLetter(r[1]).Some? then [UnescapeLetter(r[1]).value] + Unescape(r[2..])
    else [r[0]] + Unescape(r[1..])
  }

  lemma {:induction false} EscapedAppend(s: string, ch: char)
    ensures Escaped(s + [ch]) == Escaped(s) + EscapeChar(ch)
    decreases |s|
  {
    if |s| == 0 {
      assert Escaped([ch]) == EscapeChar(ch) + Escaped([]);
    } else {
      assert (s + [ch])[1..] == s[1..] + [ch];
      EscapedAppend(s[1..], ch);
    }
  }

  /**
   * Each character grows by at most one, so the `2 * size + 3` bytes
   * `repr` allocates hold the text and its NUL; the text is the string
   * itself exactly when no character is special.
   */
  lemma {:induction false} EscapedLength(s: string)
    ensures |s| <= |Escaped(s)| <= 2 * |s|
    ensures |Escaped(s)| == |s| <==> forall k :: 0 <= k < |s| ==> !Special(s[k])
    ensures (forall k :: 0 <= k < |s| ==> !Special(s[k])) ==> Escaped(s) == s
    decreases |s|
  {
    if |s| > 0 {
      EscapedLength(s[1..]);
      assert forall k :: 1 <= k < |s| ==> s[k] == s[1..][k - 1];
      if (forall k :: 0 <= k < |s| ==> !Special(s[k])) {
        assert s == [s[0]] + s[1..];
      }
    }
  }

  /** Quoting is undone by reading back, for any string without a backslash. */
  lemma {:induction false} UnescapeEscaped(s: string)
    requires forall k :: 0 <= k < |s| ==> s[k] != '\\'
    ensures Unescape(Escaped(s)) == s
    decreases |s|
  {
    if |s| > 0 {
      var e := Escaped(s[1..]);
      assert forall k :: 0 <= k < |s[1..]| ==> s[1..][k] == s[k + 1];
      UnescapeEscaped(s[1..]);
      if Special(s[0]) {
        var l := EscapeLetter(s[0]).value;
        assert UnescapeLetter(l) == Some(s[0]);
        assert (['\\', l] + e)[2..] == e;
      } else {
        assert ([s[0]] + e)[1..] == e;
      }
    }
  }

  /** The backslash is not escaped, so a backslash followed by `n` is shown as a newline is. */
  lemma BackslashIsAmbiguous()
    ensures Quoted("\n") == Quoted("\\n")
    ensures "\n" != "\\n"
  {
    assert Escaped("\n") == "\\n" + Escaped([]);
    assert Escaped("\\n") == "\\" + Escaped("n");
    assert Escaped("n") == "n" + Escaped([]);
  }

  /** The three cases in src/test_memory.c. */
  lemma ReprExamples()
    ensures Quoted("\n") == "\"\\n\""
    ensures Quoted("\t") == "\"\\t\""
    ensures Quoted("a") == "\"a\""
  {
    assert Escaped("\n") == "\\n" + Escaped([]);
    assert Escaped("\t") == "\\t" + Escaped([]);
    assert Escaped("a") == "a" + Escaped([]);
  }

  /**
   * `repr`: allocate `2 * size + 3` characters, open the quote, expand the
   * string character by character, close the quote and terminate.  `size`
   * is `strlen(s)`, so the loop's own test for a NUL never fires.
   */
  method Repr(s: seq<char>) returns (p: array<char>)
    ensures p.Length == 2 * CLength(s) + 3
    ensures var q := Quoted(Content(s)); |q| < p.Length && p[..|q|] == q && p[|q|] == NUL
  {
    var size := CLength(s);
    ghost var t := Content(s);
    p := new char[size * 2 + 3];
    var j := 0;
    p[j] := '"';
    j := j + 1;
    var i := 0;
    while i < size
      invariant 0 <= i <= size
      invariant 1 <= j <= 2 * i + 1
      invariant p[..j] == ['"'] + Escaped(t[..i])
    {
      var c := s[i];
      EscapedAppend(t[..i], c);
      assert t[..i + 1] == t[..i] + [c];
      j := Expand(p, j, c);
      i := i + 1;
    }
    assert t[..i] == t;
    p[j] := '"';
    assert p[..j + 1] == p[..j] + ['"'];
    j := j + 1;
    p[j] := NUL;
    assert p[..j] == Quoted(t);
  }

  /** One round of the loop: store `c`, or a backslash and its letter, at `j`. */
  method Expand(p: array<char>, j: nat, c: char) returns (j': nat)
    requires j + 2 <= p.Length
    modifies p
    ensures j' == j + |EscapeChar(c)| && j < j' <= j + 2
    ensures p[..j'] == old(p[..j]) + EscapeChar(c)
  {
    var e := EscapeLetter(c);
    if e.Some? {
      p[j] := '\\';
      p[j + 1] := e.value;
      j' := j + 2;
    } else {
      p[j] := c;
      j' := j + 1;
    }
    assert p[..j'] == p[..j] + p[j..j'];
  }
}
