/** Values and string operations shared by every stack: Option and Result for
    optional settings and raised errors, and the Python string operations the
    stacks use ("-".join, str.split, `in` on strings, lower/upper, replace). */
module Common {

  datatype Option<+T> = None | Some(value: T) {
    function GetOr(default: T): T {
      match this
      case Some(v) => v
      case None => default
    }
  }

  /** The exceptions the stacks raise while they are being constructed. */
  datatype Error =
    | EnvironmentNotFound(environment: string)      // ValueError: environment not in configuration
    | MissingField(field: string, requiredBy: string) // ValueError: a mode needs a field that is unset
    | UnknownEnumMember(enumName: string, member: string) // AttributeError from getattr on a library enum
    | NotAContainer(key: string)                    // TypeError: `in` applied to a non-container value

  datatype Result<+T> = Success(value: T) | Failure(error: Error)

  datatype Outcome = Pass | Fail(error: Error)

  /** `sep.join(parts)` */
  function Join(sep: string, parts: seq<string>): string
  {
    if |parts| == 0 then ""
    else if |parts| == 1 then parts[0]
    else parts[0] + sep + Join(sep, parts[1..])
  }

  /** Joining a head before at least one more part puts the separator after it. */
  lemma JoinCons(sep: string, head: string, rest: seq<string>)
    requires |rest| > 0
    ensures Join(sep, [head] + rest) == head + sep + Join(sep, rest)
  {
    assert ([head] + rest)[1..] == rest;
  }

  /** Position of the first occurrence of `c` in `s`. */
  function IndexOf(s: string, c: char): (k: nat)
    requires c in s
    ensures k < |s| && s[k] == c && c !in s[..k]
  {
    if s[0] == c then 0 else 1 + IndexOf(s[1..], c)
  }

  /** The first occurrence is at or before any occurrence. */
  lemma {:induction false} IndexOfAtMost(s: string, c: char, j: nat)
    requires j < |s| && s[j] == c
    ensures IndexOf(s, c) <= j
  {
    if s[0] != c {
      assert s[1..][j - 1] == c;
      IndexOfAtMost(s[1..], c, j - 1);
    }
  }

  /** `s.split(c)` for a one-character separator: never empty, and no piece holds the separator. */
  function Split(s: string, c: char): (parts: seq<string>)
    ensures |parts| >= 1
    ensures forall i :: 0 <= i < |parts| ==> c !in parts[i]
    decreases |s|
  {
    if c !in s then [s]
    else
      var k := IndexOf(s, c);
      [s[..k]] + Split(s[k + 1..], c)
  }

  /** Joining the pieces of a split with the same separator gives back the string. */
  lemma {:induction false} JoinSplit(s: string, c: char)
    ensures Join([c], Split(s, c)) == s
    decreases |s|
  {
    if c in s {
      var k := IndexOf(s, c);
      var rest := Split(s[k + 1..], c);
      JoinSplit(s[k + 1..], c);
      assert Split(s, c) == [s[..k]] + rest;
      assert ([s[..k]] + rest)[1..] == rest;
      assert Join([c], Split(s, c)) == s[..k] + [c] + Join([c], rest);
      assert s == s[..k] + [c] + s[k + 1..];
    }
  }

  /** Joining a tail of the parts gives a suffix of joining all of them. */
  lemma {:induction false} JoinTailIsSuffix(sep: string, parts: seq<string>, m: nat)
    requires m < |parts|
    ensures |Join(sep, parts[m..])| <= |Join(sep, parts)|
    ensures Join(sep, parts)[|Join(sep, parts)| - |Join(sep, parts[m..])|..] == Join(sep, parts[m..])
  {
    if m > 0 {
      assert |parts| >= 2;
      assert parts[1..][m - 1..] == parts[m..];
      JoinTailIsSuffix(sep, parts[1..], m - 1);
      var whole := Join(sep, parts);
      var tail := Join(sep, parts[1..]);
      var t := Join(sep, parts[m..]);
      assert whole == (parts[0] + sep) + tail;
      assert whole[|whole| - |tail|..] == tail;
      assert tail[|tail| - |t|..] == t;
      assert whole[|whole| - |t|..] == tail[|tail| - |t|..];
    }
  }

  /** `needle` occurs in `hay` starting at position `i`. */
  predicate OccursAt(hay: string, needle: string, i: int)
  {
    0 <= i <= |hay| - |needle| && hay[i..i + |needle|] == needle
  }

  /** Python's `needle in hay` on strings. */
  predicate Contains(hay: string, needle: string)
  {
    exists i :: 0 <= i <= |hay| && OccursAt(hay, needle, i)
  }

  /** An occurrence in the tail of a string is one in the string. */
  lemma ContainsTail(s: string, needle: string)
    requires |s| > 0
    ensures Contains(s[1..], needle) ==> Contains(s, needle)
  {
    if Contains(s[1..], needle) {
      var i :| 0 <= i <= |s[1..]| && OccursAt(s[1..], needle, i);
      assert s[i + 1..i + 1 + |needle|] == s[1..][i..i + |needle|];
      assert OccursAt(s, needle, i + 1);
    }
  }

  /** A string that contains `needle` keeps containing it inside any longer string. */
  lemma ContainsWithin(hay: string, needle: string, before: string, after: string)
    requires Contains(hay, needle)
    ensures Contains(before + hay + after, needle)
  {
    var i :| 0 <= i <= |hay| && OccursAt(hay, needle, i);
    var big := before + hay + after;
    var j := |before| + i;
    assert big[j..j + |needle|] == hay[i..i + |needle|];
    assert OccursAt(big, needle, j);
  }

  /** A needle holding a character that the haystack lacks is not contained in it. */
  lemma MissingCharNotContained(hay: string, needle: string, ch: char)
    requires ch in needle && ch !in hay
    ensures !Contains(hay, needle)
  {
    var k :| 0 <= k < |needle| && needle[k] == ch;
    forall i | 0 <= i <= |hay| ensures !OccursAt(hay, needle, i) {
      if i <= |hay| - |needle| {
        assert hay[i..i + |needle|][k] == hay[i + k];
        assert hay[i + k] in hay;
      }
    }
  }

  function LowerChar(c: char): char
  {
    if 'A' <= c <= 'Z' then (c as int + 32) as char else c
  }

  function UpperChar(c: char): char
  {
    if 'a' <= c <= 'z' then (c as int - 32) as char else c
  }

  /** `s.lower()` on ASCII letters. */
  function ToLower(s: string): (r: string)
    ensures |r| == |s|
    ensures forall i :: 0 <= i < |s| ==> r[i] == LowerChar(s[i])
  {
    seq(|s|, i requires 0 <= i < |s| => LowerChar(s[i]))
  }

  /** `s.upper()` on ASCII letters. */
  function ToUpper(s: string): (r: string)
    ensures |r| == |s|
    ensures forall i :: 0 <= i < |s| ==> r[i] == UpperChar(s[i])
  {
    seq(|s|, i requires 0 <= i < |s| => UpperChar(s[i]))
  }

  /** Lower-casing ignores the case the string was written in. */
  lemma LowerIgnoresCase(s: string)
    ensures ToLower(ToUpper(s)) == ToLower(s)
  {
    var a, b := ToLower(ToUpper(s)), ToLower(s);
    forall i | 0 <= i < |s| ensures a[i] == b[i] {
      var c := s[i];
      if 'a' <= c <= 'z' {
        assert UpperChar(c) == (c as int - 32) as char;
      }
    }
  }

  /** `s.replace(pat, rep)`: every non-overlapping occurrence, scanning left to right. */
  function ReplaceAll(s: string, pat: string, rep: string): (r: string)
    requires |pat| > 0
    decreases |s|
  {
    if |s| < |pat| then s
    else if s[..|pat|] == pat then rep + ReplaceAll(s[|pat|..], pat, rep)
    else [s[0]] + ReplaceAll(s[1..], pat, rep)
  }

  /** A string without the pattern is left as it is. */
  lemma {:induction false} ReplaceAllAbsent(s: string, pat: string, rep: string)
    requires |pat| > 0 && !Contains(s, pat)
    ensures ReplaceAll(s, pat, rep) == s
    decreases |s|
  {
    if |s| >= |pat| {
      assert s[0..|pat|] == s[..|pat|];
      assert !OccursAt(s, pat, 0);
      ContainsTail(s, pat);
      ReplaceAllAbsent(s[1..], pat, rep);
      assert [s[0]] + s[1..] == s;
    }
  }

  /** Decimal rendering of a natural number (Python's f"{n}"). */
  function NatToString(n: nat): (r: string)
    ensures |r| >= 1
  {
    var d := ['0', '1', '2', '3', '4', '5', '6', '7', '8', '9'][n % 10];
    if n < 10 then [d] else NatToString(n / 10) + [d]
  }

  /** Insertion-ordered dictionary lookup (`key in d` and `d[key]`). */
  function Lookup<V>(entries: seq<(string, V)>, key: string): (r: Option<V>)
    ensures r.None? <==> forall i :: 0 <= i < |entries| ==> entries[i].0 != key
    ensures r.Some? ==> exists i :: 0 <= i < |entries| && entries[i] == (key, r.value)
  {
    if |entries| == 0 then None
    else if entries[0].0 == key then Some(entries[0].1)
    else Lookup(entries[1..], key)
  }
}
