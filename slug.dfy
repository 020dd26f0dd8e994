/**
 * The slug the blog editor derives from a post's title: lowercase, fold the
 * accented vowels and `ñ` to their base letters, drop every character other
 * than `a-z`, `0-9`, whitespace and `-`, turn each run of whitespace into one
 * `-`, then squash each run of `-` into one.
 */
module Slug {

  /** `toLowerCase` on ASCII and on the Latin-1 capitals U+00C0..U+00DE (U+00D7 `×` has no case). */
  function Lower(c: char): (d: char)
    ensures !('A' <= d <= 'Z')
    ensures 'A' <= c <= 'Z' ==> 'a' <= d <= 'z' && d as int == c as int + 32
    ensures Kept(c) ==> d == c
  {
    if 'A' <= c <= 'Z' then (c as int + 32) as char
    else if 'À' <= c <= 'Þ' && c != '×' then (c as int + 32) as char
    else c
  }

  /**
   * The six accent replacements `[áàäâ]`, `[éèëê]`, `[íìïî]`, `[óòöô]`,
   * `[úùüû]` and `ñ`: each rewrites single characters of disjoint sets, so
   * applying them one after the other is one map over the characters.
   */
  function Fold(c: char): (d: char)
    ensures Kept(c) ==> d == c
    ensures d != c ==> d == 'a' || d == 'e' || d == 'i' || d == 'o' || d == 'u' || d == 'n'
  {
    if c == 'á' || c == 'à' || c == 'ä' || c == 'â' then 'a'
    else if c == 'é' || c == 'è' || c == 'ë' || c == 'ê' then 'e'
    else if c == 'í' || c == 'ì' || c == 'ï' || c == 'î' then 'i'
    else if c == 'ó' || c == 'ò' || c == 'ö' || c == 'ô' then 'o'
    else if c == 'ú' || c == 'ù' || c == 'ü' || c == 'û' then 'u'
    else if c == 'ñ' then 'n'
    else c
  }

  /** The JavaScript regular-expression class `\s`: white space and line terminators. */
  predicate IsSpace(c: char)
  {
    || c == '\t' || c == '\n' || c == '\U{000B}' || c == '\U{000C}' || c == '\r' || c == ' '
    || c == '\U{00A0}' || c == '\U{1680}' || '\U{2000}' <= c <= '\U{200A}'
    || c == '\U{2028}' || c == '\U{2029}' || c == '\U{202F}' || c == '\U{205F}'
    || c == '\U{3000}' || c == '\U{FEFF}'
  }

  /** The characters `[^a-z0-9\s-]` does not match, so the filter keeps them. */
  predicate Kept(c: char)
  {
    'a' <= c <= 'z' || '0' <= c <= '9' || IsSpace(c) || c == '-'
  }

  /** The characters a slug is made of. */
  predicate SlugChar(c: char)
  {
    'a' <= c <= 'z' || '0' <= c <= '9' || c == '-'
  }

  /** `s.toLowerCase()`. */
  function Lowercase(s: string): (r: string)
    ensures |r| == |s|
    ensures forall i | 0 <= i < |r| :: !('A' <= r[i] <= 'Z')
    ensures forall i | 0 <= i < |s| && Kept(s[i]) :: r[i] == s[i]
  {
    seq(|s|, i requires 0 <= i < |s| => Lower(s[i]))
  }

  /** The six accent `replace` calls. */
  function FoldAccents(s: string): (r: string)
    ensures |r| == |s|
    ensures forall i | 0 <= i < |s| && Kept(s[i]) :: r[i] == s[i]
  {
    seq(|s|, i requires 0 <= i < |s| => Fold(s[i]))
  }

  /** `s.replace(/[^a-z0-9\s-]/g, '')`. */
  function DropDisallowed(s: string): (r: string)
    ensures |r| <= |s|
  {
    if s == [] then []
    else (if Kept(s[0]) then [s[0]] else []) + DropDisallowed(s[1..])
  }

  /** The two character classes whose runs the last two `replace` calls collapse. */
  datatype RunClass = Whitespace | Hyphen

  predicate InClass(c: char, cls: RunClass)
  {
    match cls
    case Whitespace => IsSpace(c)
    case Hyphen => c == '-'
  }

  /** `s` without its leading run of `cls` characters. */
  function DropRun(s: string, cls: RunClass): (t: string)
    ensures |t| <= |s| && t == s[|s| - |t|..]
    ensures t == [] || !InClass(t[0], cls)
    ensures s != [] && InClass(s[0], cls) ==> |t| < |s|
  {
    if s == [] || !InClass(s[0], cls) then s else DropRun(s[1..], cls)
  }

  /** What `DropRun` drops is class characters only. */
  lemma {:induction false} DropRunDropsClass(s: string, cls: RunClass)
    ensures forall k | 0 <= k < |s| - |DropRun(s, cls)| :: InClass(s[k], cls)
    decreases |s|
  {
    if s != [] && InClass(s[0], cls) {
      DropRunDropsClass(s[1..], cls);
      forall k | 0 <= k < |s| - |DropRun(s, cls)|
        ensures InClass(s[k], cls)
      {
        if k > 0 {
          assert s[k] == s[1..][k - 1];
        }
      }
    }
  }

  /**
   * A global `replace` of the pattern "one or more `cls` characters" by `r`:
   * the regular expression matches greedily from left to right, so each
   * maximal run becomes a single `r`.
   */
  function CollapseRuns(s: string, cls: RunClass, r: char): (o: string)
    ensures |o| <= |s|
    ensures o == [] <==> s == []
    decreases |s|
  {
    if s == [] then []
    else if InClass(s[0], cls) then [r] + CollapseRuns(DropRun(s, cls), cls, r)
    else [s[0]] + CollapseRuns(s[1..], cls, r)
  }

  /** `s.replace(/\s+/g, '-')`. */
  function HyphenateSpaces(s: string): (r: string)
    ensures |r| <= |s| && (r == [] <==> s == [])
  {
    CollapseRuns(s, Whitespace, '-')
  }

  /** `s.replace(/-+/g, '-')`. */
  function SquashHyphens(s: string): (r: string)
    ensures |r| <= |s| && (r == [] <==> s == [])
  {
    CollapseRuns(s, Hyphen, '-')
  }

  /** The slug chain applied to a title. */
  function Slugify(title: string): (slug: string)
    ensures |slug| <= |title|
  {
    SquashHyphens(HyphenateSpaces(DropDisallowed(FoldAccents(Lowercase(title)))))
  }

  /** `s` never holds two hyphens in a row. */
  predicate NoDoubleHyphen(s: string)
  {
    forall i | 0 <= i < |s| - 1 :: !(s[i] == '-' && s[i + 1] == '-')
  }

  /** Every character of `s` is a slug character. */
  predicate AllSlugChars(s: string)
  {
    forall c | c in s :: SlugChar(c)
  }

  // ----- the filter -----

  /** The filter keeps exactly the allowed characters, in order. */
  lemma {:induction false} DropDisallowedKeeps(s: string)
    ensures forall c | c in DropDisallowed(s) :: Kept(c) && c in s
    ensures (forall c | c in s :: Kept(c)) ==> DropDisallowed(s) == s
  {
    if s != [] {
      DropDisallowedKeeps(s[1..]);
      assert s == [s[0]] + s[1..];
    }
  }

  /** An allowed first (last) character survives the filter as its first (last) character. */
  lemma {:induction false} DropDisallowedEnds(s: string)
    requires s != []
    ensures Kept(s[0]) ==> DropDisallowed(s) != [] && DropDisallowed(s)[0] == s[0]
    ensures Kept(s[|s| - 1]) ==>
      DropDisallowed(s) != [] && DropDisallowed(s)[|DropDisallowed(s)| - 1] == s[|s| - 1]
  {
    if |s| > 1 {
      DropDisallowedEnds(s[1..]);
    }
  }

  // ----- collapsing runs -----

  /** Each character of the result is `r` or a character of `s` outside the class. */
  lemma {:induction false} CollapseRunsChars(s: string, cls: RunClass, r: char)
    ensures forall c | c in CollapseRuns(s, cls, r) :: c == r || (c in s && !InClass(c, cls))
    decreases |s|
  {
    if s == [] {
    } else if InClass(s[0], cls) {
      var t := DropRun(s, cls);
      CollapseRunsChars(t, cls, r);
      forall c | c in t
        ensures c in s
      {
        var k :| 0 <= k < |t| && t[k] == c;
        assert s[|s| - |t| + k] == c;
      }
    } else {
      CollapseRunsChars(s[1..], cls, r);
    }
  }

  /** The first character of the result: `r` for a leading run, the first character otherwise. */
  lemma CollapseRunsFirst(s: string, cls: RunClass, r: char)
    requires s != []
    ensures CollapseRuns(s, cls, r) != []
    ensures CollapseRuns(s, cls, r)[0] == if InClass(s[0], cls) then r else s[0]
  {
  }

  /** A trailing run becomes a trailing `r`. */
  lemma {:induction false} CollapseRunsLast(s: string, cls: RunClass, r: char)
    requires s != [] && InClass(s[|s| - 1], cls)
    ensures CollapseRuns(s, cls, r) != []
    ensures CollapseRuns(s, cls, r)[|CollapseRuns(s, cls, r)| - 1] == r
    decreases |s|
  {
    if InClass(s[0], cls) {
      var t := DropRun(s, cls);
      assert CollapseRuns(s, cls, r) == [r] + CollapseRuns(t, cls, r);
      if t != [] {
        assert t[|t| - 1] == s[|s| - 1];
        CollapseRunsLast(t, cls, r);
      }
    } else {
      var t := s[1..];
      assert |s| > 1;
      assert t[|t| - 1] == s[|s| - 1];
      assert CollapseRuns(s, cls, r) == [s[0]] + CollapseRuns(t, cls, r);
      CollapseRunsLast(t, cls, r);
    }
  }

  /** No two characters of the class stand next to each other in `o`. */
  predicate Separated(o: string, cls: RunClass)
  {
    forall i | 0 <= i < |o| - 1 :: !(InClass(o[i], cls) && InClass(o[i + 1], cls))
  }

  /** When `r` belongs to the class, the result never holds two class characters in a row. */
  lemma {:induction false} CollapseRunsSeparated(s: string, cls: RunClass, r: char)
    requires InClass(r, cls)
    ensures Separated(CollapseRuns(s, cls, r), cls)
    decreases |s|
  {
    var o := CollapseRuns(s, cls, r);
    if s == [] {
    } else {
      var t := if InClass(s[0], cls) then DropRun(s, cls) else s[1..];
      var rest := CollapseRuns(t, cls, r);
      assert o == [o[0]] + rest;
      CollapseRunsSeparated(t, cls, r);
      if rest != [] {
        CollapseRunsFirst(t, cls, r);
        assert !InClass(o[0], cls) || !InClass(rest[0], cls);
      }
      forall i | 0 <= i < |o| - 1
        ensures !(InClass(o[i], cls) && InClass(o[i + 1], cls))
      {
        if i > 0 {
          assert o[i] == rest[i - 1] && o[i + 1] == rest[i];
        }
      }
    }
  }

  /** Collapsing changes nothing where there is no class character. */
  lemma {:induction false} CollapseRunsNoClass(s: string, cls: RunClass, r: char)
    requires forall c | c in s :: !InClass(c, cls)
    ensures CollapseRuns(s, cls, r) == s
    decreases |s|
  {
    if s != [] {
      CollapseRunsNoClass(s[1..], cls, r);
      assert s == [s[0]] + s[1..];
    }
  }

  /** Squashing changes nothing where hyphens already stand alone. */
  lemma {:induction false} SquashHyphensSingles(s: string)
    requires NoDoubleHyphen(s)
    ensures SquashHyphens(s) == s
    decreases |s|
  {
    if s != [] {
      assert NoDoubleHyphen(s[1..]) by {
        forall i | 0 <= i < |s[1..]| - 1
          ensures !(s[1..][i] == '-' && s[1..][i + 1] == '-')
        {
          assert s[1..][i] == s[i + 1] && s[1..][i + 1] == s[i + 2];
        }
      }
      SquashHyphensSingles(s[1..]);
      if s[0] == '-' {
        assert DropRun(s, Hyphen) == s[1..];
      }
      assert s == [s[0]] + s[1..];
    }
  }

  // ----- the slug -----

  /** The slug holds only `a-z`, `0-9` and `-`. */
  lemma SlugCharsOnly(title: string)
    ensures AllSlugChars(Slugify(title))
  {
    var f := DropDisallowed(FoldAccents(Lowercase(title)));
    var h := HyphenateSpaces(f);
    DropDisallowedKeeps(FoldAccents(Lowercase(title)));
    CollapseRunsChars(f, Whitespace, '-');
    assert forall c | c in h :: SlugChar(c);
    CollapseRunsChars(h, Hyphen, '-');
  }

  /** The slug never holds two consecutive hyphens. */
  lemma SlugHasNoDoubleHyphen(title: string)
    ensures NoDoubleHyphen(Slugify(title))
  {
    var o := Slugify(title);
    var h := HyphenateSpaces(DropDisallowed(FoldAccents(Lowercase(title))));
    assert o == CollapseRuns(h, Hyphen, '-');
    CollapseRunsSeparated(h, Hyphen, '-');
    assert Separated(o, Hyphen);
    forall i | 0 <= i < |o| - 1
      ensures !(o[i] == '-' && o[i + 1] == '-')
    {
      assert !(InClass(o[i], Hyphen) && InClass(o[i + 1], Hyphen));
    }
  }

  /** Lowercasing and folding leave slug characters alone. */
  lemma SlugCharsUnmapped(s: string)
    requires AllSlugChars(s)
    ensures Lowercase(s) == s && FoldAccents(s) == s
  {
    forall i | 0 <= i < |s|
      ensures Lowercase(s)[i] == s[i] && FoldAccents(s)[i] == s[i]
    {
      assert s[i] in s;
    }
  }

  /** A string of slug characters without double hyphens is its own slug. */
  lemma SlugFixedPoint(s: string)
    requires AllSlugChars(s) && NoDoubleHyphen(s)
    ensures Slugify(s) == s
  {
    SlugCharsUnmapped(s);
    DropDisallowedKeeps(s);
    assert DropDisallowed(s) == s;
    CollapseRunsNoClass(s, Whitespace, '-');
    assert HyphenateSpaces(s) == s;
    SquashHyphensSingles(s);
  }

  /** Deriving a slug from a slug gives the same slug back. */
  lemma SlugifyIdempotent(title: string)
    ensures Slugify(Slugify(title)) == Slugify(title)
  {
    SlugCharsOnly(title);
    SlugHasNoDoubleHyphen(title);
    SlugFixedPoint(Slugify(title));
  }

  /**
   * Leading hyphens are not stripped: a title that starts with white space
   * or a hyphen gives a slug that starts with `-`.
   */
  lemma SlugKeepsLeadingHyphen(title: string)
    requires title != [] && (IsSpace(title[0]) || title[0] == '-')
    ensures Slugify(title) != [] && Slugify(title)[0] == '-'
  {
    var l := FoldAccents(Lowercase(title));
    assert l[0] == title[0];
    DropDisallowedEnds(l);
    var f := DropDisallowed(l);
    CollapseRunsFirst(f, Whitespace, '-');
    CollapseRunsFirst(HyphenateSpaces(f), Hyphen, '-');
  }

  /**
   * Trailing hyphens are not stripped: a title that ends with white space
   * or a hyphen gives a slug that ends with `-`.
   */
  lemma SlugKeepsTrailingHyphen(title: string)
    requires title != [] && (IsSpace(title[|title| - 1]) || title[|title| - 1] == '-')
    ensures Slugify(title) != [] && Slugify(title)[|Slugify(title)| - 1] == '-'
  {
    var f := DropDisallowed(FoldAccents(Lowercase(title)));
    FilteredEndsLikeTitle(title);
    HyphenateEndsWithHyphen(f);
    CollapseRunsLast(HyphenateSpaces(f), Hyphen, '-');
  }

  /** A title ending in white space or a hyphen still does so after lowercasing, folding and filtering. */
  lemma FilteredEndsLikeTitle(title: string)
    requires title != [] && (IsSpace(title[|title| - 1]) || title[|title| - 1] == '-')
    ensures var f := DropDisallowed(FoldAccents(Lowercase(title)));
      f != [] && f[|f| - 1] == title[|title| - 1]
  {
    var l := FoldAccents(Lowercase(title));
    assert l[|l| - 1] == title[|title| - 1];
    DropDisallowedEnds(l);
  }

  /** Replacing white-space runs keeps a final white space or hyphen as a final hyphen. */
  lemma HyphenateEndsWithHyphen(f: string)
    requires f != [] && (IsSpace(f[|f| - 1]) || f[|f| - 1] == '-')
    ensures HyphenateSpaces(f) != [] && HyphenateSpaces(f)[|HyphenateSpaces(f)| - 1] == '-'
  {
    if IsSpace(f[|f| - 1]) {
      CollapseRunsLast(f, Whitespace, '-');
    } else {
      CollapseRunsNoClassLast(f, Whitespace, '-');
    }
  }

  /** A last character outside the class stays the last character. */
  lemma {:induction false} CollapseRunsNoClassLast(s: string, cls: RunClass, r: char)
    requires s != [] && !InClass(s[|s| - 1], cls)
    ensures CollapseRuns(s, cls, r) != []
    ensures CollapseRuns(s, cls, r)[|CollapseRuns(s, cls, r)| - 1] == s[|s| - 1]
    decreases |s|
  {
    if InClass(s[0], cls) {
      var t := DropRun(s, cls);
      DropRunDropsClass(s, cls);
      assert t != [];
      assert t[|t| - 1] == s[|s| - 1];
      CollapseRunsNoClassLast(t, cls, r);
    } else if |s| > 1 {
      CollapseRunsNoClassLast(s[1..], cls, r);
    }
  }

  /** The base letter an accented vowel or `ñ`, capital or small, stands for. */
  predicate FoldsTo(c: char, base: char)
  {
    || (base == 'a' && (c == 'á' || c == 'à' || c == 'ä' || c == 'â' || c == 'Á' || c == 'À' || c == 'Ä' || c == 'Â'))
    || (base == 'e' && (c == 'é' || c == 'è' || c == 'ë' || c == 'ê' || c == 'É' || c == 'È' || c == 'Ë' || c == 'Ê'))
    || (base == 'i' && (c == 'í' || c == 'ì' || c == 'ï' || c == 'î' || c == 'Í' || c == 'Ì' || c == 'Ï' || c == 'Î'))
    || (base == 'o' && (c == 'ó' || c == 'ò' || c == 'ö' || c == 'ô' || c == 'Ó' || c == 'Ò' || c == 'Ö' || c == 'Ô'))
    || (base == 'u' && (c == 'ú' || c == 'ù' || c == 'ü' || c == 'û' || c == 'Ú' || c == 'Ù' || c == 'Ü' || c == 'Û'))
    || (base == 'n' && (c == 'ñ' || c == 'Ñ'))
  }

  /** Lowercasing and folding turn each accented vowel and `ñ`, capital or small, into its base letter. */
  lemma AccentsFoldToBase(c: char, base: char)
    requires FoldsTo(c, base)
    ensures Fold(Lower(c)) == base
  {
  }

  /** A word character: what the slug keeps, one for one, after lowercasing and folding. */
  predicate WordChar(c: char)
  {
    'a' <= c <= 'z' || 'A' <= c <= 'Z' || '0' <= c <= '9' || FoldsTo(c, 'a') || FoldsTo(c, 'e')
    || FoldsTo(c, 'i') || FoldsTo(c, 'o') || FoldsTo(c, 'u') || FoldsTo(c, 'n')
  }

  /** Lowercasing and folding turn a word character into a small ASCII letter or a digit. */
  lemma WordCharFolds(c: char)
    requires WordChar(c)
    ensures var d := Fold(Lower(c)); 'a' <= d <= 'z' || '0' <= d <= '9'
  {
  }

  /**
   * A title of letters, digits and accented letters keeps every character:
   * its slug is the lowercased, folded title, so each accented letter stands
   * as its base letter rather than being dropped.
   */
  lemma WordSlug(title: string)
    requires forall c | c in title :: WordChar(c)
    ensures Slugify(title) == FoldAccents(Lowercase(title))
    ensures |Slugify(title)| == |title|
    ensures forall i, b | 0 <= i < |title| && FoldsTo(title[i], b) :: Slugify(title)[i] == b
  {
    var l := FoldAccents(Lowercase(title));
    forall c | c in l
      ensures 'a' <= c <= 'z' || '0' <= c <= '9'
    {
      var k :| 0 <= k < |l| && l[k] == c;
      assert title[k] in title;
      WordCharFolds(title[k]);
    }
    DropDisallowedKeeps(l);
    CollapseRunsNoClass(l, Whitespace, '-');
    CollapseRunsNoClass(l, Hyphen, '-');
    forall i, b | 0 <= i < |title| && FoldsTo(title[i], b)
      ensures l[i] == b
    {
      AccentsFoldToBase(title[i], b);
    }
  }
}
