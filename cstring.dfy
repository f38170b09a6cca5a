/**
 * C strings held in character buffers: the content of a buffer is what
 * precedes its first NUL, and `drop_first_last_inplace` (src/memory.c)
 * shifts a string one place left and cuts its last character.
 */
module CString {

  const NUL: char := '\0'

  /** `strlen`: the index of the first NUL, or the whole buffer when there is none. */
  function CLength(s: seq<char>): (n: nat)
    ensures n <= |s|
    ensures forall k :: 0 <= k < n ==> s[k] != NUL
    ensures n < |s| ==> s[n] == NUL
  {
    if |s| == 0 || s[0] == NUL then 0 else 1 + CLength(s[1..])
  }

  /** The string a buffer holds. */
  function Content(s: seq<char>): string
  {
    s[..CLength(s)]
  }

  /** A string without NUL is its own content, however the buffer continues after a NUL. */
  lemma ContentOfTerminated(t: string, rest: seq<char>)
    requires forall k :: 0 <= k < |t| ==> t[k] != NUL
    ensures Content(t + [NUL] + rest) == t
  {
    var s := t + [NUL] + rest;
    var n := CLength(s);
    assert s[|t|] == NUL;
    assert forall k :: 0 <= k < |t| ==> s[k] == t[k];
    assert s[..n] == t;
  }

  /** The buffer after `drop_first_last_inplace(str, len)`. */
  function Dropped(s: seq<char>, len: nat): (r: seq<char>)
    requires 2 <= len <= |s|
    ensures |r| == |s|
  {
    s[1..len - 1] + [NUL] + s[len - 1..]
  }

  /**
   * `drop_first_last_inplace`: copy each of the first `len - 1` characters
   * from its right neighbour, then end the string at `len - 2`.  Fewer than
   * two characters would make the final store fall before the buffer.
   */
  method DropFirstLast(str: array<char>, len: int)
    requires 2 <= len <= str.Length
    modifies str
    ensures str[..] == Dropped(old(str[..]), len)
  {
    ghost var s := str[..];
    var i := 0;
    while i < len - 1
      invariant 0 <= i <= len - 1
      invariant forall k :: 0 <= k < i ==> str[k] == s[k + 1]
      invariant forall k :: i <= k < str.Length ==> str[k] == s[k]
    {
      str[i] := str[i + 1];
      i := i + 1;
    }
    str[len - 2] := NUL;
    assert str[..] == Dropped(s, len);
  }

  /** What the buffer then holds: the string without its first and last characters, and the cells past it untouched. */
  lemma DroppedContent(s: seq<char>, len: nat)
    requires 2 <= len <= |s|
    requires forall k :: 0 <= k < len ==> s[k] != NUL
    ensures Content(Dropped(s, len)) == s[1..len - 1]
    ensures Dropped(s, len)[len - 1..] == s[len - 1..]
  {
    ContentOfTerminated(s[1..len - 1], s[len - 1..]);
  }

  /** The example beside the function and in src/test_memory.c: "1234" becomes "23". */
  lemma DropExample()
    ensures Content(Dropped("1234" + [NUL], 4)) == "23"
  {
    DroppedContent("1234" + [NUL], 4);
  }
}
