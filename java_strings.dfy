/** The few java.lang.String and Spring StringUtils operations the core relies on. */
module JavaStrings {
  import opened Wrappers

  /** Character.toUpperCase, restricted to the ASCII letters. */
  function UpperChar(c: char): char
  {
    if 'a' <= c <= 'z' then (c as int - 32) as char else c
  }

  /** String.toUpperCase, one character at a time. */
  function Upper(s: string): string
  {
    seq(|s|, i requires 0 <= i < |s| => UpperChar(s[i]))
  }

  /** String.equalsIgnoreCase on non-null strings: equal once both are upper-cased. */
  predicate EqualsIgnoreCase(a: string, b: string)
  {
    Upper(a) == Upper(b)
  }

  /** StringUtils.hasLength: neither null nor empty. */
  predicate HasLength(s: Option<string>)
  {
    s.Some? && |s.value| > 0
  }

  /** Ignoring case is an equivalence, and it identifies strings of equal length only. */
  lemma EqualsIgnoreCaseIsEquivalence(a: string, b: string, c: string)
    ensures EqualsIgnoreCase(a, a)
    ensures EqualsIgnoreCase(a, b) ==> EqualsIgnoreCase(b, a)
    ensures EqualsIgnoreCase(a, b) && EqualsIgnoreCase(b, c) ==> EqualsIgnoreCase(a, c)
    ensures EqualsIgnoreCase(a, b) ==> |a| == |b|
  {
    if EqualsIgnoreCase(a, b) {
      assert |Upper(a)| == |a| && |Upper(b)| == |b|;
    }
  }
}
