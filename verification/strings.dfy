/** Strings as sequences of characters, with the two text operations the
    classifier, the upload validator and the configuration use: lowering the
    case of ASCII letters, and Python's substring test `sub in s`. */
module AsciiStrings {

  predicate IsUpper(c: char) {
    'A' <= c <= 'Z'
  }

  /** No upper-case ASCII letter occurs in `s`. */
  predicate IsLowercase(s: string) {
    forall i :: 0 <= i < |s| ==> !IsUpper(s[i])
  }

  /** Every string of `xs` is lower-case. */
  predicate AllLowercase(xs: seq<string>) {
    forall k :: 0 <= k < |xs| ==> IsLowercase(xs[k])
  }

  /** An upper-case ASCII letter becomes the letter 32 code points above it,
      'A' to 'a' through 'Z' to 'z'; every other character is kept. */
  function LowerChar(c: char): (r: char)
    ensures !IsUpper(r)
    ensures IsUpper(c) ==> 'a' <= r <= 'z' && r as int == c as int - 'A' as int + 'a' as int
    ensures !IsUpper(c) ==> r == c
  {
    if IsUpper(c) then (c as int - 'A' as int + 'a' as int) as char else c
  }

  /** `s.lower()`, restricted to the ASCII letters. */
  function Lower(s: string): (r: string)
    ensures |r| == |s|
    ensures IsLowercase(r)
    ensures IsLowercase(s) ==> r == s
    ensures forall i :: 0 <= i < |s| && !IsUpper(s[i]) ==> r[i] == s[i]
    ensures forall i :: 0 <= i < |s| && IsUpper(s[i]) ==> r[i] == LowerChar(s[i])
  {
    seq(|s|, i requires 0 <= i < |s| => LowerChar(s[i]))
  }

  /** Each capital becomes its own lower-case letter, not merely some
      lower-case character. */
  lemma LowerExamples()
    ensures Lower("SQL") == "sql"
    ensures Lower("Node.JS") == "node.js"
  {
    assert Lower("SQL")[0] == 's' && Lower("SQL")[1] == 'q' && Lower("SQL")[2] == 'l';
  }

  /** Lowering twice is lowering once. */
  lemma LowerIdempotent(s: string)
    ensures Lower(Lower(s)) == Lower(s)
  {
  }

  /** Lowering works character by character, so it distributes over concatenation
      and over slicing. */
  lemma LowerSlice(s: string, i: int, j: int)
    requires 0 <= i <= j <= |s|
    ensures Lower(s[i..j]) == Lower(s)[i..j]
  {
  }

  /** `sub` starts at position `i` of `s`: the reference meaning of a substring. */
  predicate OccursAt(s: string, sub: string, i: int) {
    0 <= i && i + |sub| <= |s| && s[i..i + |sub|] == sub
  }

  /** Python's `sub in s` for strings: true for the empty `sub`, otherwise true
      exactly when `sub` starts at some position of `s`. */
  function Contains(s: string, sub: string): (r: bool)
    ensures r <==> exists i :: OccursAt(s, sub, i)
    decreases |s|
  {
    if |sub| > |s| then
      false
    else if sub <= s then
      assert OccursAt(s, sub, 0);
      true
    else
      var r := Contains(s[1..], sub);
      ShiftOccurrence(s, sub);
      r
  }

  /** Occurrences in `s[1..]` are the occurrences in `s` after position 0. */
  lemma ShiftOccurrence(s: string, sub: string)
    requires |s| > 0
    ensures (exists i :: OccursAt(s, sub, i)) <==> (sub <= s || exists i :: OccursAt(s[1..], sub, i))
  {
    if exists i :: OccursAt(s, sub, i) {
      var i :| OccursAt(s, sub, i);
      if i == 0 {
        assert sub <= s;
      } else {
        assert s[1..][i - 1..i - 1 + |sub|] == s[i..i + |sub|];
        assert OccursAt(s[1..], sub, i - 1);
      }
    }
    if sub <= s {
      assert s[0..|sub|] == sub;
      assert OccursAt(s, sub, 0);
    }
    if exists i :: OccursAt(s[1..], sub, i) {
      var i :| OccursAt(s[1..], sub, i);
      assert s[1..][i..i + |sub|] == s[i + 1..i + 1 + |sub|];
      assert OccursAt(s, sub, i + 1);
    }
  }

  /** `any(w in s for w in words)`: some word of `words` is a substring of `s`. */
  function AnyContained(words: seq<string>, s: string): (r: bool)
    ensures r <==> exists k, i :: 0 <= k < |words| && OccursAt(s, words[k], i)
  {
    if words == [] then false
    else Contains(s, words[0]) || AnyContained(words[1..], s)
  }
}
