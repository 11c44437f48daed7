/** The confirmation gate of `resize_dir`: any answer other than "y" or "yes", in any case, cancels. */
module Confirm {

  /** Lower-casing of one character; only ASCII capitals change. */
  function LowerChar(c: char): char
  {
    if 'A' <= c <= 'Z' then (c as int + 32) as char else c
  }

  /** `str.lower()` restricted to ASCII: same length, each character lowered in place. */
  function Lower(s: string): (r: string)
    ensures |r| == |s|
    ensures forall i :: 0 <= i < |s| ==> r[i] == LowerChar(s[i])
  {
    if s == [] then [] else [LowerChar(s[0])] + Lower(s[1..])
  }

  /** The accepted answers, spelled out: "y" or "yes" in any mix of cases. */
  predicate Affirmative(response: string)
  {
    || (|response| == 1 && response[0] in "yY")
    || (|response| == 3 && response[0] in "yY" && response[1] in "eE" && response[2] in "sS")
  }

  lemma LowerCharTo(c: char, l: char)
    requires 'a' <= l <= 'z'
    ensures LowerChar(c) == l <==> c == l || c as int == l as int - 32
  {
  }

  /** What lower-casing maps to "y" or "yes". */
  lemma LowerYes(response: string)
    ensures (Lower(response) == "y" || Lower(response) == "yes") <==> Affirmative(response)
  {
    var l := Lower(response);
    if |response| == 1 {
      LowerCharTo(response[0], 'y');
      assert l == "y" <==> l[0] == 'y';
    } else if |response| == 3 {
      LowerCharTo(response[0], 'y');
      LowerCharTo(response[1], 'e');
      LowerCharTo(response[2], 's');
      assert l == "yes" <==> l[0] == 'y' && l[1] == 'e' && l[2] == 's';
    }
  }

  /**
   * The confirmation gate of `resize_dir`: the batch goes ahead only when the
   * lower-cased answer is "y" or "yes", that is, on exactly the affirmative spellings.
   */
  predicate Proceeds(response: string): (b: bool)
    ensures b <==> Affirmative(response)
  {
    LowerYes(response);
    Lower(response) == "y" || Lower(response) == "yes"
  }

  /** Pressing Enter (the empty answer) cancels, even though the prompt reads "(Y/n)". */
  lemma EmptyCancels()
    ensures !Proceeds("")
  {
  }

  /** Lower-casing twice changes nothing more. */
  lemma {:induction false} LowerIdempotent(s: string)
    ensures Lower(Lower(s)) == Lower(s)
  {
    if s != [] {
      LowerIdempotent(s[1..]);
    }
  }
}
