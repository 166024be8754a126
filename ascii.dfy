/**
 * The byte-wise case mappings PHP uses when it names a method: `ucfirst`
 * for the name `__get` builds, and the ASCII lower-casing under which
 * `method_exists` and method calls compare names.
 */
module Ascii {

  function LowerChar(c: char): char {
    if 'A' <= c <= 'Z' then (c as int - 'A' as int + 'a' as int) as char else c
  }

  function UpperChar(c: char): char {
    if 'a' <= c <= 'z' then (c as int - 'a' as int + 'A' as int) as char else c
  }

  /** Every character lower-cased; the length and each position are kept. */
  function Lower(s: string): (r: string)
    ensures |r| == |s|
    ensures forall i :: 0 <= i < |s| ==> r[i] == LowerChar(s[i])
  {
    seq(|s|, i requires 0 <= i < |s| => LowerChar(s[i]))
  }

  /** `ucfirst`: the first character upper-cased, the rest untouched. */
  function UcFirst(s: string): (r: string)
    ensures |r| == |s|
    ensures s != [] ==> r[0] == UpperChar(s[0]) && r[1..] == s[1..]
  {
    if s == [] then s else [UpperChar(s[0])] + s[1..]
  }

  /** Two names PHP treats as the same method name. */
  predicate SameName(a: string, b: string) {
    Lower(a) == Lower(b)
  }

  /** Upper-casing a character and then lower-casing it is the same as lower-casing it. */
  lemma LowerUpper(c: char)
    ensures LowerChar(UpperChar(c)) == LowerChar(c)
  {
  }

  /** Lower-casing distributes over concatenation. */
  lemma LowerAppend(a: string, b: string)
    ensures Lower(a + b) == Lower(a) + Lower(b)
  {
  }

  /** `ucfirst` changes nothing that a case-insensitive comparison can see. */
  lemma LowerUcFirst(s: string)
    ensures Lower(UcFirst(s)) == Lower(s)
  {
    if s != [] {
      LowerUpper(s[0]);
    }
  }
}
