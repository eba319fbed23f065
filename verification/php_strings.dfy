/**
 * The string primitives of PHP that the movie-information components rely on
 * (trim, explode, implode, str_replace, strtolower, ucfirst, array_unique),
 * each with the properties the components depend on.
 *
 * Strings are sequences of Unicode scalar values; PHP's byte strings are
 * modelled character by character (see the README for what that leaves out).
 */
module PhpStrings {
  import opened SeqFacts

  /** The characters PHP's `trim` strips when it is given no character list. */
  const TrimSet: set<char> := {' ', '\t', '\n', '\r', '\0', '\U{0B}'}

  /** Leading characters in `cs` removed. */
  function TrimLeft(s: string, cs: set<char>): (r: string)
    ensures |r| <= |s|
    ensures r == [] || r[0] !in cs
  {
    if s != [] && s[0] in cs then TrimLeft(s[1..], cs) else s
  }

  /** Trailing characters in `cs` removed (PHP `rtrim($s, $cs)`). */
  function TrimRight(s: string, cs: set<char>): (r: string)
    ensures |r| <= |s|
    ensures r == [] || r[|r| - 1] !in cs
    ensures r != [] ==> r[0] == s[0]
  {
    if s != [] && s[|s| - 1] in cs then TrimRight(s[..|s| - 1], cs) else s
  }

  /** PHP `trim($s, $cs)`: characters in `cs` removed from both ends. */
  function TrimChars(s: string, cs: set<char>): (r: string)
    ensures |r| <= |s|
    ensures r == [] || (r[0] !in cs && r[|r| - 1] !in cs)
  {
    TrimRight(TrimLeft(s, cs), cs)
  }

  /** PHP `trim($s)`. */
  function Trim(s: string): string
  {
    TrimChars(s, TrimSet)
  }

  /** Every character of `s` is in `cs`. */
  ghost predicate AllIn(s: string, cs: set<char>)
  {
    forall i :: 0 <= i < |s| ==> s[i] in cs
  }

  lemma {:induction false} TrimLeftPadded(pre: string, x: string, cs: set<char>)
    requires AllIn(pre, cs)
    requires x == [] || x[0] !in cs
    ensures TrimLeft(pre + x, cs) == x
    decreases |pre|
  {
    if pre == [] {
      assert pre + x == x;
    } else {
      assert (pre + x)[1..] == pre[1..] + x;
      TrimLeftPadded(pre[1..], x, cs);
    }
  }

  lemma {:induction false} TrimRightPadded(x: string, post: string, cs: set<char>)
    requires AllIn(post, cs)
    requires x == [] || x[|x| - 1] !in cs
    ensures TrimRight(x + post, cs) == x
    decreases |post|
  {
    if post == [] {
      assert x + post == x;
    } else {
      var shorter := post[..|post| - 1];
      assert (x + post)[..|x + post| - 1] == x + shorter;
      TrimRightPadded(x, shorter, cs);
    }
  }

  /**
   * Trimming undoes padding: a string whose first and last characters are
   * outside `cs`, padded on both sides with characters from `cs`, is
   * recovered exactly by `TrimChars`.
   */
  lemma TrimCharsPadded(pre: string, x: string, post: string, cs: set<char>)
    requires AllIn(pre, cs) && AllIn(post, cs)
    requires x != [] && x[0] !in cs && x[|x| - 1] !in cs
    ensures TrimChars(pre + x + post, cs) == x
  {
    assert pre + x + post == pre + (x + post);
    TrimLeftPadded(pre, x + post, cs);
    TrimRightPadded(x, post, cs);
  }

  /** Trimming twice is trimming once. */
  lemma TrimCharsIdempotent(s: string, cs: set<char>)
    ensures TrimChars(TrimChars(s, cs), cs) == TrimChars(s, cs)
  {
    var r := TrimChars(s, cs);
    if r != [] {
      TrimCharsPadded([], r, [], cs);
      assert [] + r + [] == r;
    }
  }

  /** PHP `explode($d, $s)` for a one-character delimiter. */
  function Explode(d: char, s: string): (parts: seq<string>)
    ensures |parts| >= 1
    ensures forall i :: 0 <= i < |parts| ==> d !in parts[i]
  {
    if s == [] then [""]
    else
      var rest := Explode(d, s[1..]);
      if s[0] == d then [""] + rest else [[s[0]] + rest[0]] + rest[1..]
  }

  /** PHP `implode($glue, $xs)`. */
  function Implode(glue: string, xs: seq<string>): string
  {
    if xs == [] then "" else if |xs| == 1 then xs[0] else xs[0] + glue + Implode(glue, xs[1..])
  }

  lemma ImplodeCons(glue: string, x: string, ys: seq<string>)
    ensures Implode(glue, [x] + ys) == if ys == [] then x else x + glue + Implode(glue, ys)
  {
    assert ([x] + ys)[1..] == ys;
  }

  /** Joining the pieces of an explode with the same delimiter gives the string back. */
  lemma {:induction false} ImplodeExplode(d: char, s: string)
    ensures Implode([d], Explode(d, s)) == s
  {
    if s != [] {
      ImplodeExplode(d, s[1..]);
      var rest := Explode(d, s[1..]);
      ConsTail(s);
      if s[0] == d {
        ImplodeCons([d], "", rest);
        EmptyPrefix([d] + s[1..]);
      } else {
        ConsTail(rest);
        ImplodeCons([d], [s[0]] + rest[0], rest[1..]);
        ImplodeCons([d], rest[0], rest[1..]);
        if rest[1..] != [] {
          ConsRegroup(s[0], rest[0], [d], Implode([d], rest[1..]));
        }
      }
    }
  }

  lemma {:induction false} ExplodeNoDelimiterPrefix(d: char, x: string, t: string)
    requires d !in x
    ensures Explode(d, x + t) == [x + Explode(d, t)[0]] + Explode(d, t)[1..]
    decreases |x|
  {
    var e := Explode(d, t);
    if x != [] {
      ConsSplit(x, t);
      ExplodeNoDelimiterPrefix(d, x[1..], t);
      ConsIndex(x[1..] + e[0], e[1..]);
      ConsJoin(x, e[0]);
    } else {
      EmptyPrefix(t);
      EmptyPrefix(e[0]);
      ConsTail(e);
    }
  }

  /** Splitting a join of delimiter-free pieces gives the pieces back. */
  lemma {:induction false} ExplodeImplode(d: char, xs: seq<string>)
    requires |xs| >= 1
    requires forall i :: 0 <= i < |xs| ==> d !in xs[i]
    ensures Explode(d, Implode([d], xs)) == xs
  {
    EmptySuffix(xs[0]);
    if |xs| == 1 {
      ExplodeNoDelimiterPrefix(d, xs[0], "");
      assert Explode(d, "")[1..] == [];
      assert [xs[0]] == xs;
    } else {
      var tail := Implode([d], xs[1..]);
      ExplodeImplode(d, xs[1..]);
      AppendAssoc(xs[0], [d], tail);
      ExplodeNoDelimiterPrefix(d, xs[0], [d] + tail);
      ConsIndex(d, tail);
      ConsIndex("", xs[1..]);
      ConsTail(xs);
    }
  }

  /** The same for pieces followed by a final empty piece, as after a trailing delimiter. */
  lemma ExplodeImplodeTrailing(d: char, xs: seq<string>)
    requires forall i :: 0 <= i < |xs| ==> d !in xs[i]
    ensures Explode(d, Implode([d], xs + [""])) == xs + [""]
  {
    ExplodeImplode(d, xs + [""]);
  }

  /** `pat` occurs in `s` at index `i`. */
  ghost predicate OccursAt(s: string, pat: string, i: int)
  {
    0 <= i && i + |pat| <= |s| && s[i..i + |pat|] == pat
  }

  /**
   * PHP `str_replace($pat, $rep, $s)` for one search string: occurrences are
   * replaced left to right, without overlap and without rescanning the
   * replacement text; an empty search string leaves the subject unchanged.
   */
  function Replace(s: string, pat: string, rep: string): string
    decreases |s|
  {
    if pat == [] || |s| < |pat| then s
    else if s[..|pat|] == pat then rep + Replace(s[|pat|..], pat, rep)
    else [s[0]] + Replace(s[1..], pat, rep)
  }

  /** An occurrence in the tail of `s` is an occurrence in `s`, one place further on. */
  lemma OccursAtTail(s: string, pat: string, i: nat)
    requires s != []
    ensures OccursAt(s[1..], pat, i) == OccursAt(s, pat, i + 1)
  {
    if i + |pat| <= |s| - 1 {
      SliceOfTail(s, i, i + |pat|);
    }
  }

  /** Replacing a string that does not occur changes nothing. */
  lemma {:induction false} ReplaceAbsent(s: string, pat: string, rep: string)
    requires forall i :: 0 <= i < |s| ==> !OccursAt(s, pat, i)
    ensures Replace(s, pat, rep) == s
    decreases |s|
  {
    if pat != [] && |s| >= |pat| {
      assert !OccursAt(s, pat, 0);
      forall i | 0 <= i < |s| - 1
        ensures !OccursAt(s[1..], pat, i)
      {
        assert !OccursAt(s, pat, i + 1);
        OccursAtTail(s, pat, i);
      }
      ReplaceAbsent(s[1..], pat, rep);
      ConsTail(s);
    }
  }

  /**
   * When the first occurrence of `pat` in `a + pat + b` is the one after `a`,
   * the replacement puts `rep` there and carries on with `b`.
   */
  lemma {:induction false} ReplaceFirst(a: string, pat: string, b: string, rep: string)
    requires pat != []
    requires forall i :: 0 <= i < |a| ==> !OccursAt(a + pat + b, pat, i)
    ensures Replace(a + pat + b, pat, rep) == a + rep + Replace(b, pat, rep)
    decreases |a|
  {
    var s := a + pat + b;
    AroundPattern(a, pat, b);
    if a != [] {
      assert !OccursAt(s, pat, 0);
      forall i | 0 <= i < |a| - 1
        ensures !OccursAt(a[1..] + pat + b, pat, i)
      {
        assert !OccursAt(s, pat, i + 1);
        OccursAtTail(s, pat, i);
      }
      ReplaceFirst(a[1..], pat, b, rep);
      ConsAssoc(a, rep, Replace(b, pat, rep));
    }
  }

  function LowerChar(c: char): char
  {
    if 'A' <= c <= 'Z' then (c as int + 32) as char else c
  }

  function UpperChar(c: char): char
  {
    if 'a' <= c <= 'z' then (c as int - 32) as char else c
  }

  /** PHP 8 `strtolower`: ASCII letters lower-cased, everything else kept. */
  function Lower(s: string): (r: string)
    ensures |r| == |s|
    ensures forall i :: 0 <= i < |s| ==> r[i] == LowerChar(s[i])
  {
    seq(|s|, i requires 0 <= i < |s| => LowerChar(s[i]))
  }

  /** Lower-casing brings in no character that is not a lower-case letter. */
  lemma LowerAbsent(s: string, c: char)
    requires c !in s && !('a' <= c <= 'z')
    ensures c !in Lower(s)
  {
    forall i | 0 <= i < |s|
      ensures Lower(s)[i] != c
    {
      assert s[i] != c;
    }
  }

  /** PHP `ucfirst`: the first character upper-cased (ASCII). */
  function Ucfirst(s: string): (r: string)
    ensures |r| == |s|
    ensures s != [] ==> r[0] == UpperChar(s[0]) && r[1..] == s[1..]
  {
    if s == [] then [] else [UpperChar(s[0])] + s[1..]
  }

  /** PHP `str_replace($from, $to, $s)` where every search string is one character. */
  function ReplaceChars(s: string, from: set<char>, to: char): (r: string)
    ensures |r| == |s|
    ensures forall i :: 0 <= i < |s| ==> r[i] == if s[i] in from then to else s[i]
  {
    if s == [] then [] else [if s[0] in from then to else s[0]] + ReplaceChars(s[1..], from, to)
  }

  /** No value appears twice. */
  predicate NoDup(xs: seq<string>)
  {
    forall i, j :: 0 <= i < j < |xs| ==> xs[i] != xs[j]
  }

  /** The first occurrence of each value of `xs` not in `seen`, in order. */
  function UniqueFrom(xs: seq<string>, seen: set<string>): (r: seq<string>)
    ensures forall x :: x in r <==> x in xs && x !in seen
    ensures NoDup(r)
    ensures |r| <= |xs|
  {
    if xs == [] then []
    else if xs[0] in seen then UniqueFrom(xs[1..], seen)
    else
      var rest := UniqueFrom(xs[1..], seen + {xs[0]});
      assert forall x :: x in [xs[0]] + rest <==> x in xs && x !in seen by {
        assert xs == [xs[0]] + xs[1..];
      }
      [xs[0]] + rest
  }

  /** PHP `array_unique` on a list of strings: the first occurrence of each value, in order. */
  function Unique(xs: seq<string>): seq<string>
  {
    UniqueFrom(xs, {})
  }

  lemma {:induction false} UniqueFromNoDup(xs: seq<string>, seen: set<string>)
    requires NoDup(xs)
    requires forall i :: 0 <= i < |xs| ==> xs[i] !in seen
    ensures UniqueFrom(xs, seen) == xs
  {
    if xs != [] {
      assert forall i :: 1 <= i < |xs| ==> xs[i] != xs[0];
      UniqueFromNoDup(xs[1..], seen + {xs[0]});
      assert [xs[0]] + xs[1..] == xs;
    }
  }

  /** A list without repeated values is left unchanged by `array_unique`. */
  lemma UniqueNoDup(xs: seq<string>)
    requires NoDup(xs)
    ensures Unique(xs) == xs
  {
    UniqueFromNoDup(xs, {});
  }
}
