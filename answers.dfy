/**
 * `ask` (src/debug.c): the yes-or-no question the debugger puts before
 * leaving or restarting a program that is being stepped.  Each answer is
 * one line of the terminal, already stripped of surrounding blanks.
 */
module Answers {
  import opened Wrappers

  datatype Reply = Yes | No | Again

  /** The lower-case letter `strcasecmp` compares an ASCII letter as. */
  function Lower(ch: char): char {
    if 'A' <= ch <= 'Z' then (ch as int + 32) as char else ch
  }

  /** `strcasecmp(p, w) == 0`. */
  predicate CaseEq(p: string, w: string) {
    |p| == |w| && forall k :: 0 <= k < |p| ==> Lower(p[k]) == Lower(w[k])
  }

  function Lowered(p: string): (r: string)
    ensures |r| == |p| && forall k :: 0 <= k < |p| ==> r[k] == Lower(p[k])
  {
    seq(|p|, k requires 0 <= k < |p| => Lower(p[k]))
  }

  /**
   * One answer: a first letter Y or y accepts when it is alone or the word
   * is "yes" in any case, N or n likewise refuses with "no"; anything else,
   * the empty line included, asks again.
   */
  function Classify(p: string): (r: Reply)
    ensures r == Yes ==> |p| > 0 && Lower(p[0]) == 'y'
    ensures r == No ==> |p| > 0 && Lower(p[0]) == 'n'
    ensures |p| == 0 ==> r == Again
  {
    if |p| > 0 && (p[0] == 'Y' || p[0] == 'y') then
      (if |p| == 1 then Yes else if CaseEq(p, "yes") then Yes else Again)
    else if |p| > 0 && (p[0] == 'N' || p[0] == 'n') then
      (if |p| == 1 then No else if CaseEq(p, "no") then No else Again)
    else Again
  }

  lemma LowerIs(ch: char, l: char)
    requires 'a' <= l <= 'z'
    ensures Lower(ch) == l <==> ch == l || ch as int == l as int - 32
  {
  }

  lemma CaseEqLowered(p: string, w: string)
    requires forall k :: 0 <= k < |w| ==> 'a' <= w[k] <= 'z'
    ensures CaseEq(p, w) <==> Lowered(p) == w
  {
    if CaseEq(p, w) {
      assert forall k :: 0 <= k < |w| ==> Lower(w[k]) == w[k];
      assert Lowered(p) == w;
    }
  }

  /** The accepted answers are exactly "y" and "yes", the refusals "n" and "no", up to case. */
  lemma ClassifyIff(p: string)
    ensures Classify(p) == Yes <==> Lowered(p) == "y" || Lowered(p) == "yes"
    ensures Classify(p) == No <==> Lowered(p) == "n" || Lowered(p) == "no"
  {
    CaseEqLowered(p, "yes");
    CaseEqLowered(p, "no");
    if |p| > 0 {
      LowerIs(p[0], 'y');
      LowerIs(p[0], 'n');
      assert Lowered(p)[0] == Lower(p[0]);
      if |p| == 1 {
        assert Lowered(p) == [Lower(p[0])];
      }
    }
  }

  /**
   * The reply and the lines left after asking: there is a reply exactly when
   * some answer is a yes or a no, and it is the first such answer, with the
   * lines after it left over.
   */
  predicate Answered(answers: seq<string>, reply: Option<Reply>, rest: seq<string>) {
    (reply.Some? <==> exists k :: 0 <= k < |answers| && Classify(answers[k]) != Again)
    && (reply.Some? ==> reply.value != Again)
    && (reply.Some? ==> exists k :: (0 <= k < |answers|
      && (forall j :: 0 <= j < k ==> Classify(answers[j]) == Again)
      && reply.value == Classify(answers[k]) && rest == answers[k + 1..]))
    && (reply.None? ==> rest == [])
  }

  /**
   * `ask`: read answers until one is a yes or a no.  Where the C function
   * would wait for ever, an exhausted list gives None.
   */
  method Ask(answers: seq<string>) returns (reply: Option<Reply>, rest: seq<string>)
    ensures Answered(answers, reply, rest)
  {
    var i := 0;
    while i < |answers| && Classify(answers[i]) == Again
      invariant 0 <= i <= |answers|
      invariant forall j :: 0 <= j < i ==> Classify(answers[j]) == Again
    {
      i := i + 1;
    }
    if i < |answers| {
      reply, rest := Some(Classify(answers[i])), answers[i + 1..];
    } else {
      reply, rest := None, [];
    }
  }
}
