/**
 * The string operations the source applies to field values: JavaScript's
 * `toLowerCase()` and `replace(str, str)` with a one-character pattern, and
 * Python's `split(sep)[-1]`.
 */
module Text {

  /** The position of the first occurrence of `c` in `s`. */
  function IndexOf(s: string, c: char): (i: nat)
    requires c in s
    ensures i < |s| && s[i] == c
    ensures forall j :: 0 <= j < i ==> s[j] != c
  {
    if s[0] == c then 0 else 1 + IndexOf(s[1..], c)
  }

  function LowerChar(c: char): char {
    if 'A' <= c <= 'Z' then (c as int - 'A' as int + 'a' as int) as char else c
  }

  /** `s.toLowerCase()` for ASCII letters; every other character is kept. */
  function LowerCase(s: string): string {
    seq(|s|, i requires 0 <= i < |s| => LowerChar(s[i]))
  }

  /**
   * `s.replace(x, y)` with a string pattern of one character: JavaScript
   * replaces the FIRST occurrence only.
   */
  function ReplaceFirst(s: string, x: char, y: char): (r: string)
    ensures x !in s ==> r == s
    ensures x in s ==> r == s[IndexOf(s, x) := y]
  {
    if s == [] then []
    else if s[0] == x then [y] + s[1..]
    else
      var rest := ReplaceFirst(s[1..], x, y);
      assert x in s ==> [s[0]] + rest == s[IndexOf(s, x) := y];
      [s[0]] + rest
  }

  /**
   * Python's `s.split(sep)[-1]`: the characters after the last separator
   * (all of `s` when it has none), collected from the end of `s`.
   */
  function LastSegment(s: string, sep: char): string {
    if s == [] || s[|s| - 1] == sep then ""
    else LastSegment(s[..|s| - 1], sep) + [s[|s| - 1]]
  }

  /**
   * The last segment is a separator-free suffix of `s`, and either all of
   * `s` or preceded by a separator: the text after the last separator.
   */
  lemma {:induction false} LastSegmentIsSuffix(s: string, sep: char)
    ensures var r := LastSegment(s, sep);
      sep !in r && |r| <= |s| && s[|s| - |r|..] == r &&
      (|r| < |s| ==> s[|s| - |r| - 1] == sep)
  {
    if s != [] {
      var u := s[..|s| - 1];
      var c := s[|s| - 1];
      if c != sep {
        LastSegmentIsSuffix(u, sep);
        var r := LastSegment(u, sep);
        assert s[|s| - |r| - 1..] == u[|u| - |r|..] + [c];
        if |r| < |u| {
          assert s[|s| - |r| - 2] == u[|u| - |r| - 1];
        }
      }
    }
  }

  /** Whatever ends in a separator, followed by a separator-free name, ends in that name. */
  lemma {:induction false} LastSegmentAfterSeparator(prefix: string, name: string, sep: char)
    requires |prefix| > 0 && prefix[|prefix| - 1] == sep
    requires sep !in name
    ensures LastSegment(prefix + name, sep) == name
    decreases |name|
  {
    var s := prefix + name;
    if name == [] {
      assert s == prefix;
    } else {
      var init := name[..|name| - 1];
      assert s[..|s| - 1] == prefix + init;
      assert sep !in init by { assert forall x :: x in init ==> x in name; }
      LastSegmentAfterSeparator(prefix, init, sep);
      assert name == init + [name[|name| - 1]];
    }
  }

  /**
   * A GitHub branch `ref` gives its branch name: "refs/heads/" + name gives
   * name for every name without a '/' ("refs/heads/main" gives "main").
   */
  lemma BranchOfRef(name: string)
    requires '/' !in name
    ensures LastSegment("refs/heads/" + name, '/') == name
  {
    LastSegmentAfterSeparator("refs/heads/", name, '/');
  }
}
