/** The Foundation string operations the core uses, on `seq<char>`:
    `lowercased()` (ASCII letters), `contains`, `hasPrefix`/`hasSuffix`,
    `components(separatedBy:)`, `split(separator:)` and `joined(separator:)`. */
module Strings {

  function LowerChar(c: char): char {
    if 'A' <= c <= 'Z' then (c as int - 'A' as int + 'a' as int) as char else c
  }

  function Lowercase(s: string): (r: string)
    ensures |r| == |s|
    ensures forall i :: 0 <= i < |s| ==> r[i] == LowerChar(s[i])
  {
    seq(|s|, i requires 0 <= i < |s| => LowerChar(s[i]))
  }

  predicate HasPrefix(s: string, p: string) { |p| <= |s| && s[..|p|] == p }

  predicate HasSuffix(s: string, p: string) { |p| <= |s| && s[|s| - |p|..] == p }

  /** `s.contains(sub)`: `sub` occurs at some position of `s`. */
  predicate Contains(s: string, sub: string)
    decreases |s|
  {
    HasPrefix(s, sub) || (s != [] && Contains(s[1..], sub))
  }

  /** `components(separatedBy:)` with a one-character separator: every
      separator splits, so empty components are kept and there is always one
      more component than separators. */
  function Components(s: string, sep: char): (r: seq<string>)
    ensures |r| >= 1
    ensures forall i :: 0 <= i < |r| ==> sep !in r[i]
  {
    if s == [] then [""]
    else if s[0] == sep then [""] + Components(s[1..], sep)
    else
      var rest := Components(s[1..], sep);
      [[s[0]] + rest[0]] + rest[1..]
  }

  /** `joined(separator:)`. */
  function Join(parts: seq<string>, sep: string): string {
    if |parts| == 0 then ""
    else if |parts| == 1 then parts[0]
    else parts[0] + sep + Join(parts[1..], sep)
  }

  /** Joining the components with the separator gives the string back. */
  lemma {:induction false} JoinComponents(s: string, sep: char)
    ensures Join(Components(s, sep), [sep]) == s
  {
    if s != [] {
      JoinComponents(s[1..], sep);
      var rest := Components(s[1..], sep);
      if s[0] != sep {
        if |rest| > 1 {
          assert rest == [rest[0]] + rest[1..];
          assert Join(rest, [sep]) == rest[0] + [sep] + Join(rest[1..], [sep]);
        }
      }
    }
  }

  /** A trailing separator and separator-free tail add one last component. */
  lemma {:induction false} ComponentsAppend(s: string, sep: char, tail: string)
    requires sep !in tail
    ensures Components(s + [sep] + tail, sep) == Components(s, sep) + [tail]
    decreases |s|
  {
    if s == [] {
      assert [sep] + tail == [sep] + tail;
      ComponentsNoSep(tail, sep);
      assert ([sep] + tail)[1..] == tail;
    } else {
      assert (s + [sep] + tail)[1..] == s[1..] + [sep] + tail;
      ComponentsAppend(s[1..], sep, tail);
    }
  }

  lemma {:induction false} ComponentsNoSep(s: string, sep: char)
    requires sep !in s
    ensures Components(s, sep) == [s]
  {
    if s != [] {
      assert s[0] in s && s == [s[0]] + s[1..];
      ComponentsNoSep(s[1..], sep);
    }
  }

  /** Splitting at one separator splits the components there. */
  lemma {:induction false} ComponentsSplitAt(a: string, sep: char, b: string)
    ensures Components(a + [sep] + b, sep) == Components(a, sep) + Components(b, sep)
    decreases |a|
  {
    if a == [] {
      assert a + [sep] + b == [sep] + b && ([sep] + b)[1..] == b;
    } else {
      assert (a + [sep] + b)[0] == a[0];
      assert (a + [sep] + b)[1..] == a[1..] + [sep] + b;
      ComponentsSplitAt(a[1..], sep, b);
    }
  }

  /** Splitting a join of separator-free parts gives the parts back. */
  lemma {:induction false} ComponentsJoin(parts: seq<string>, sep: char)
    requires |parts| >= 1 && forall i :: 0 <= i < |parts| ==> sep !in parts[i]
    ensures Components(Join(parts, [sep]), sep) == parts
  {
    if |parts| == 1 {
      ComponentsNoSep(parts[0], sep);
    } else {
      ComponentsNoSep(parts[0], sep);
      ComponentsJoin(parts[1..], sep);
      ComponentsSplitAt(parts[0], sep, Join(parts[1..], [sep]));
      assert parts == [parts[0]] + parts[1..];
    }
  }

  /** A string with no upper-case ASCII letter is its own lower-case form. */
  lemma LowercaseFixed(s: string)
    requires forall i :: 0 <= i < |s| ==> !('A' <= s[i] <= 'Z')
    ensures Lowercase(s) == s
  {
  }

  /** `split(separator:)` with its default `omittingEmptySubsequences: true`. */
  function SplitOmittingEmpty(s: string, sep: char): (r: seq<string>)
    ensures forall i :: 0 <= i < |r| ==> r[i] != "" && sep !in r[i]
  {
    NonEmpty(Components(s, sep))
  }

  function NonEmpty(parts: seq<string>): (r: seq<string>)
    ensures forall i :: 0 <= i < |r| ==> r[i] != "" && r[i] in parts
    ensures forall p :: p in parts && p != "" ==> p in r
  {
    if parts == [] then []
    else if parts[0] == "" then NonEmpty(parts[1..])
    else [parts[0]] + NonEmpty(parts[1..])
  }
}
