/**
 * The handful of JavaScript string operations the core uses: `startsWith`, `endsWith`,
 * `split`, `replace` of a literal (first occurrence only) and number-to-decimal rendering.
 */
module Strs {

  import opened Lists

  predicate StartsWith(s: string, prefix: string) {
    |prefix| <= |s| && s[..|prefix|] == prefix
  }

  predicate EndsWith(s: string, suffix: string) {
    |suffix| <= |s| && s[|s| - |suffix|..] == suffix
  }

  /** Index of the first occurrence of `c` in `s` (`s.indexOf(c)` when it is not -1). */
  function FirstIndex(s: string, c: char): (i: nat)
    requires c in s
    ensures i < |s| && s[i] == c && c !in s[..i]
  {
    if s[0] == c then 0 else 1 + FirstIndex(s[1..], c)
  }

  /** `s.split(sep)` for a one-character separator: never empty, one part more than there are separators. */
  function Split(s: string, sep: char): (parts: seq<string>)
    ensures |parts| >= 1
    decreases |s|
  {
    if sep in s then
      var i := FirstIndex(s, sep);
      [s[..i]] + Split(s[i + 1..], sep)
    else
      [s]
  }

  /** `parts.join(sep)`, the inverse of Split. */
  function Join(parts: seq<string>, sep: char): string
    requires |parts| >= 1
  {
    if |parts| == 1 then parts[0] else parts[0] + [sep] + Join(parts[1..], sep)
  }

  /** No part produced by Split contains the separator. */
  lemma {:induction false} SplitPartsLackSeparator(s: string, sep: char)
    ensures forall k :: 0 <= k < |Split(s, sep)| ==> sep !in Split(s, sep)[k]
    decreases |s|
  {
    if sep in s {
      var i := FirstIndex(s, sep);
      SplitPartsLackSeparator(s[i + 1..], sep);
      assert Split(s, sep) == [s[..i]] + Split(s[i + 1..], sep);
    }
  }

  /** Joining the parts back with the separator gives the original string. */
  lemma {:induction false} JoinSplit(s: string, sep: char)
    ensures Join(Split(s, sep), sep) == s
    decreases |s|
  {
    if sep in s {
      var i := FirstIndex(s, sep);
      var rest := Split(s[i + 1..], sep);
      calc {
        Join(Split(s, sep), sep);
        Join([s[..i]] + rest, sep);
        { JoinCons(s[..i], rest, sep); }
        s[..i] + [sep] + Join(rest, sep);
        { JoinSplit(s[i + 1..], sep); }
        s[..i] + [sep] + s[i + 1..];
        { SplitAround(s, i); }
        s;
      }
    }
  }

  lemma SplitAround(s: string, i: nat)
    requires i < |s|
    ensures s[..i] + [s[i]] + s[i + 1..] == s
  {
  }

  lemma JoinCons(part: string, rest: seq<string>, sep: char)
    requires |rest| >= 1
    ensures Join([part] + rest, sep) == part + [sep] + Join(rest, sep)
  {
    assert ([part] + rest)[1..] == rest;
  }

  /**
   * `s.split(sep)[0]` is the text before the first separator: a prefix of `s` that holds no
   * separator and is either all of `s` or followed by one.
   */
  lemma HeadPart(s: string, sep: char)
    ensures StartsWith(s, Split(s, sep)[0])
    ensures sep !in Split(s, sep)[0]
    ensures Split(s, sep)[0] == s || s[|Split(s, sep)[0]|] == sep
  {
    SplitPartsLackSeparator(s, sep);
  }

  /** `s.split(sep).filter(Boolean)`: the parts, with empty ones dropped. */
  function Segments(s: string, sep: char): (segs: seq<string>)
  {
    NonEmpty(Split(s, sep))
  }

  /** `Boolean` as a filter callback on strings: only the empty string is falsy. */
  predicate Truthy(part: string) {
    part != ""
  }

  /** `.filter(Boolean)`: every non-empty part, in order, and nothing else. */
  function NonEmpty(parts: seq<string>): (r: seq<string>)
    ensures r == Filter(parts, Truthy)
    ensures forall k :: 0 <= k < |r| ==> r[k] != "" && r[k] in parts
    ensures forall k :: 0 <= k < |parts| && parts[k] != "" ==> parts[k] in r
  {
    if parts == [] then []
    else if parts[0] == "" then NonEmpty(parts[1..])
    else [parts[0]] + NonEmpty(parts[1..])
  }

  /** `s.replace(pat, rep)` with a string pattern: only the first occurrence is replaced. */
  function ReplaceFirst(s: string, pat: string, rep: string): string
    requires pat != ""
  {
    if StartsWith(s, pat) then rep + s[|pat|..]
    else if s == [] then []
    else [s[0]] + ReplaceFirst(s[1..], pat, rep)
  }

  /**
   * For an entry `res:*` whose resource part holds no `:`, replacing the first `:*` by `:`
   * leaves the prefix `res:`.
   */
  lemma {:induction false} ReplaceWildcardSuffix(res: string)
    requires ':' !in res
    ensures ReplaceFirst(res + ":*", ":*", ":") == res + ":"
  {
    if res == [] {
      assert StartsWith(":*", ":*");
    } else {
      assert !StartsWith(res + ":*", ":*") by {
        assert (res + ":*")[0] == res[0];
        assert res[0] in res;
      }
      assert (res + ":*")[1..] == res[1..] + ":*";
      ReplaceWildcardSuffix(res[1..]);
      assert [res[0]] + res[1..] == res;
    }
  }

  function DigitChar(d: nat): char
    requires d < 10
  {
    (d + '0' as int) as char
  }

  /** Decimal rendering of a non-negative integer, as a template literal prints it. */
  function Decimal(n: nat): (s: string)
    ensures |s| >= 1
    ensures forall k :: 0 <= k < |s| ==> '0' <= s[k] <= '9'
    decreases n
  {
    if n < 10 then [DigitChar(n)] else Decimal(n / 10) + [DigitChar(n % 10)]
  }
}
