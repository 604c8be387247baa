/**
 * The tenant slug the register route derives from a tenant name:
 * lower-case it, turn every character outside `[a-z0-9]` into `-`, collapse runs of
 * `-`, and drop one leading and one trailing `-`.
 *
 * Lower-casing is ASCII only.
 */
module Slug {

  predicate LowerAlnum(c: char) {
    'a' <= c <= 'z' || '0' <= c <= '9'
  }

  predicate SlugChar(c: char) {
    LowerAlnum(c) || c == '-'
  }

  /** `toLowerCase` on one character, restricted to ASCII. */
  function LowerAscii(c: char): (d: char)
    ensures 'A' <= c <= 'Z' ==> 'a' <= d <= 'z'
    ensures !('A' <= c <= 'Z') ==> d == c
  {
    if 'A' <= c <= 'Z' then (c as int + 32) as char else c
  }

  /** `toLowerCase()` followed by `replace(/[^a-z0-9]/g, '-')`. */
  function Dashify(s: string): (t: string)
    ensures |t| == |s|
    ensures forall k :: 0 <= k < |t| ==> t[k] == if LowerAlnum(LowerAscii(s[k])) then LowerAscii(s[k]) else '-'
  {
    seq(|s|, k requires 0 <= k < |s| => if LowerAlnum(LowerAscii(s[k])) then LowerAscii(s[k]) else '-')
  }

  /** `replace(/-+/g, '-')`: every run of dashes becomes one dash. */
  function Collapse(s: string): string {
    if |s| <= 1 then s
    else if s[0] == '-' && s[1] == '-' then Collapse(s[1..])
    else [s[0]] + Collapse(s[1..])
  }

  /** `replace(/^-|-$/g, '')`: one leading and one trailing dash removed. */
  function TrimDashes(s: string): string {
    var a := if |s| > 0 && s[0] == '-' then s[1..] else s;
    if |a| > 0 && a[|a| - 1] == '-' then a[..|a| - 1] else a
  }

  function Slugify(name: string): string {
    TrimDashes(Collapse(Dashify(name)))
  }

  predicate NoDoubleDash(s: string) {
    forall k :: 0 <= k < |s| - 1 ==> !(s[k] == '-' && s[k + 1] == '-')
  }

  /** A well-formed slug: `[a-z0-9-]` only, no `--`, no dash at either end. */
  predicate IsSlug(s: string) {
    (forall k :: 0 <= k < |s| ==> SlugChar(s[k]))
    && NoDoubleDash(s)
    && (|s| > 0 ==> s[0] != '-' && s[|s| - 1] != '-')
  }

  /** The alphanumeric characters of a string, in order. */
  function Alnums(s: string): (r: string)
    ensures forall k :: 0 <= k < |r| ==> LowerAlnum(r[k])
  {
    if s == [] then [] else (if LowerAlnum(s[0]) then [s[0]] else []) + Alnums(s[1..])
  }

  /** The string lower-cased, character by character. */
  function Lowered(s: string): (t: string)
    ensures |t| == |s| && forall k :: 0 <= k < |s| ==> t[k] == LowerAscii(s[k])
  {
    seq(|s|, k requires 0 <= k < |s| => LowerAscii(s[k]))
  }

  lemma {:induction false} AlnumsAppend(a: string, b: string)
    ensures Alnums(a + b) == Alnums(a) + Alnums(b)
  {
    if a == [] {
      assert a + b == b;
    } else {
      assert (a + b)[0] == a[0];
      assert (a + b)[1..] == a[1..] + b;
      AlnumsAppend(a[1..], b);
    }
  }

  /** Collapsing keeps the first character and draws every character from the input. */
  lemma {:induction false} CollapseShape(s: string)
    ensures |Collapse(s)| <= |s|
    ensures |s| > 0 ==> |Collapse(s)| > 0 && Collapse(s)[0] == s[0]
    ensures forall k :: 0 <= k < |Collapse(s)| ==> Collapse(s)[k] in s
  {
    if |s| > 1 {
      CollapseShape(s[1..]);
      assert forall c :: c in s[1..] ==> c in s;
    }
  }

  /** No two dashes are adjacent after collapsing. */
  lemma {:induction false} CollapseNoDoubleDash(s: string)
    ensures NoDoubleDash(Collapse(s))
  {
    if |s| > 1 {
      CollapseNoDoubleDash(s[1..]);
      CollapseShape(s[1..]);
      if !(s[0] == '-' && s[1] == '-') {
        var c := Collapse(s);
        assert c == [s[0]] + Collapse(s[1..]);
        assert c[1] == s[1];
      }
    }
  }

  /** Collapsing only removes dashes. */
  lemma {:induction false} CollapseAlnums(s: string)
    ensures Alnums(Collapse(s)) == Alnums(s)
  {
    if |s| > 1 {
      CollapseAlnums(s[1..]);
      if !(s[0] == '-' && s[1] == '-') {
        AlnumsAppend([s[0]], Collapse(s[1..]));
      }
    }
  }

  /** A string without `--` is left as it is. */
  lemma {:induction false} CollapseFixes(s: string)
    requires NoDoubleDash(s)
    ensures Collapse(s) == s
  {
    if |s| > 1 {
      CollapseFixes(s[1..]);
      assert s == [s[0]] + s[1..];
    }
  }

  /** Dropping a leading dash keeps the rest free of `--` and changes no letter or digit. */
  lemma DropFirstDash(s: string)
    requires NoDoubleDash(s) && |s| > 0 && s[0] == '-'
    ensures NoDoubleDash(s[1..]) && Alnums(s[1..]) == Alnums(s)
    ensures |s| > 1 ==> s[1] != '-'
  {
    assert s == [s[0]] + s[1..];
    AlnumsAppend([s[0]], s[1..]);
  }

  /** Dropping a trailing dash keeps the rest free of `--` and changes no letter or digit. */
  lemma DropLastDash(s: string)
    requires NoDoubleDash(s) && |s| > 0 && s[|s| - 1] == '-'
    ensures NoDoubleDash(s[..|s| - 1]) && Alnums(s[..|s| - 1]) == Alnums(s)
    ensures |s| > 1 ==> s[|s| - 2] != '-'
  {
    var t := s[..|s| - 1];
    forall k | 0 <= k < |t| - 1 ensures !(t[k] == '-' && t[k + 1] == '-') {
      assert t[k] == s[k] && t[k + 1] == s[k + 1];
    }
    assert s == t + [s[|s| - 1]];
    AlnumsAppend(t, [s[|s| - 1]]);
    assert Alnums([s[|s| - 1]]) == [];
  }

  /** Trimming a string without `--` leaves no dash at either end and removes only dashes. */
  lemma TrimShape(s: string)
    requires NoDoubleDash(s)
    ensures var t := TrimDashes(s);
      NoDoubleDash(t) && (|t| > 0 ==> t[0] != '-' && t[|t| - 1] != '-')
      && (forall k :: 0 <= k < |t| ==> t[k] in s)
      && Alnums(t) == Alnums(s)
  {
    var a := if |s| > 0 && s[0] == '-' then s[1..] else s;
    if |s| > 0 && s[0] == '-' {
      DropFirstDash(s);
    }
    assert forall k :: 0 <= k < |a| ==> a[k] in s;
    if |a| > 0 && a[|a| - 1] == '-' {
      DropLastDash(a);
      var t := a[..|a| - 1];
      assert forall k :: 0 <= k < |t| ==> t[k] == a[k];
    }
  }

  /** The derived slug is always well formed. */
  lemma SlugifyIsSlug(name: string)
    ensures IsSlug(Slugify(name))
  {
    var d := Dashify(name);
    var c := Collapse(d);
    CollapseShape(d);
    CollapseNoDoubleDash(d);
    TrimShape(c);
    var t := TrimDashes(c);
    forall k | 0 <= k < |t| ensures SlugChar(t[k]) {
      assert t[k] in c;
      var j :| 0 <= j < |c| && c[j] == t[k];
      assert c[j] in d;
    }
  }

  /** A well-formed slug derives to itself. */
  lemma SlugifyFixesSlugs(s: string)
    requires IsSlug(s)
    ensures Slugify(s) == s
  {
    assert Dashify(s) == s;
    CollapseFixes(s);
  }

  /** Deriving twice gives what deriving once gives. */
  lemma SlugifyIdempotent(name: string)
    ensures Slugify(Slugify(name)) == Slugify(name)
  {
    SlugifyIsSlug(name);
    SlugifyFixesSlugs(Slugify(name));
  }

  /** The letters and digits survive, lower-cased and in order; only separators change. */
  lemma {:induction false} DashifyAlnums(s: string)
    ensures Alnums(Dashify(s)) == Alnums(Lowered(s))
  {
    if s != [] {
      DashifyAlnums(s[1..]);
      assert Dashify(s)[1..] == Dashify(s[1..]);
      assert Lowered(s)[1..] == Lowered(s[1..]);
    }
  }

  lemma SlugifyKeepsAlnums(name: string)
    ensures Alnums(Slugify(name)) == Alnums(Lowered(name))
  {
    var d := Dashify(name);
    DashifyAlnums(name);
    CollapseAlnums(d);
    CollapseNoDoubleDash(d);
    TrimShape(Collapse(d));
  }

  /** A name without an ASCII letter or digit derives the empty slug. */
  lemma NoAlnumsEmptySlug(name: string)
    requires Alnums(Lowered(name)) == ""
    ensures Slugify(name) == ""
  {
    SlugifyIsSlug(name);
    SlugifyKeepsAlnums(name);
  }
}
