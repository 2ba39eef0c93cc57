/** Cutting a string at its last separator. */
module Strings {

  /** There is one way to do it. */
  lemma LastSeparator(sep: char, a: string, x: string, b: string, y: string)
    requires a + [sep] + x == b + [sep] + y && sep !in x && sep !in y
    ensures a == b && x == y
  {
    var s := a + [sep] + x;
    assert s[|a|] == sep && s[|b|] == sep;
    assert s[|a| + 1..] == x && s[|b| + 1..] == y;
    assert |x| == |y|;
    assert s[..|a|] == a && s[..|b|] == b;
  }
}
