/**
 * What the slug keeps of a title: every letter and digit, in order, with
 * accented letters as their base letters, and exactly one hyphen for each
 * run of white space and hyphens that stands between two words.
 */
module SlugContent {
  import opened Slug

  /** White space or a hyphen: the characters the last two `replace` calls rewrite. */
  predicate Separator(c: char)
  {
    IsSpace(c) || c == '-'
  }

  /** A small ASCII letter or a digit. */
  predicate LetterOrDigit(c: char)
  {
    'a' <= c <= 'z' || '0' <= c <= '9'
  }

  /** The characters of `s` that are not separators, in order. */
  function Words(s: string): string
  {
    if s == [] then [] else (if Separator(s[0]) then [] else [s[0]]) + Words(s[1..])
  }

  /** The small ASCII letters and digits of `s`, in order. */
  function LettersAndDigits(s: string): string
  {
    if s == [] then [] else (if LetterOrDigit(s[0]) then [s[0]] else []) + LettersAndDigits(s[1..])
  }

  /** The title after lowercasing, folding and filtering: what the two run replacements work on. */
  function Prepared(title: string): string
  {
    DropDisallowed(FoldAccents(Lowercase(title)))
  }

  // ----- the characters that survive, in order -----

  /** The filter works on each character alone: filtering a concatenation filters each part. */
  lemma {:induction false} DropDisallowedAppend(s: string, t: string)
    ensures DropDisallowed(s + t) == DropDisallowed(s) + DropDisallowed(t)
    decreases |s|
  {
    if s == [] {
      assert s + t == t;
    } else {
      var h := if Kept(s[0]) then [s[0]] else [];
      DropStep(s, t);
      DropDisallowedAppend(s[1..], t);
      Regroup(h, DropDisallowed(s[1..]), DropDisallowed(t));
    }
  }

  /** One unfolding of `DropDisallowed` on `s + t`. */
  lemma DropStep(s: string, t: string)
    requires s != []
    ensures DropDisallowed(s + t) == (if Kept(s[0]) then [s[0]] else []) + DropDisallowed(s[1..] + t)
  {
    assert (s + t)[0] == s[0];
    assert (s + t)[1..] == s[1..] + t;
  }

  /** Apart from white space and hyphens, the filter keeps exactly the letters and digits, in order. */
  lemma {:induction false} FilteredWords(s: string)
    ensures Words(DropDisallowed(s)) == LettersAndDigits(s)
    decreases |s|
  {
    if s != [] {
      FilteredWords(s[1..]);
      var rest := DropDisallowed(s[1..]);
      if Kept(s[0]) {
        assert Separator(s[0]) <==> !LetterOrDigit(s[0]);
        var f := [s[0]] + rest;
        assert f[0] == s[0] && f[1..] == rest;
      } else {
        assert !LetterOrDigit(s[0]);
        assert DropDisallowed(s) == rest;
      }
    }
  }

  /** A run of class characters holds no word character. */
  lemma {:induction false} DropRunWords(s: string, cls: RunClass)
    ensures Words(DropRun(s, cls)) == Words(s)
    decreases |s|
  {
    if s != [] && InClass(s[0], cls) {
      DropRunWords(s[1..], cls);
    }
  }

  /**
   * Replacing runs of white space or of hyphens by a separator loses no
   * other character and adds none: the non-separators stay, in order.
   */
  lemma {:induction false} CollapseRunsWords(s: string, cls: RunClass, r: char)
    requires Separator(r)
    ensures Words(CollapseRuns(s, cls, r)) == Words(s)
    decreases |s|
  {
    if s != [] {
      var t := if InClass(s[0], cls) then DropRun(s, cls) else s[1..];
      var o := CollapseRuns(s, cls, r);
      assert o[1..] == CollapseRuns(t, cls, r);
      CollapseRunsWords(t, cls, r);
      if InClass(s[0], cls) {
        DropRunWords(s, cls);
      }
    }
  }

  /**
   * Without its hyphens, the slug is exactly the letters and digits of the
   * lowercased, folded title, in order: nothing else is dropped.
   */
  lemma SlugWords(title: string)
    ensures Words(Slugify(title)) == LettersAndDigits(FoldAccents(Lowercase(title)))
  {
    var l := FoldAccents(Lowercase(title));
    var f := DropDisallowed(l);
    FilteredWords(l);
    CollapseRunsWords(f, Whitespace, '-');
    CollapseRunsWords(HyphenateSpaces(f), Hyphen, '-');
  }

  /** Every character of `Words(s)` is a character of `s`. */
  lemma {:induction false} WordsFromString(s: string)
    ensures forall c | c in Words(s) :: c in s
    decreases |s|
  {
    if s != [] {
      WordsFromString(s[1..]);
    }
  }

  /** A letter or digit of `s` is among `LettersAndDigits(s)`. */
  lemma {:induction false} LetterKept(s: string, i: int)
    requires 0 <= i < |s| && LetterOrDigit(s[i])
    ensures s[i] in LettersAndDigits(s)
    decreases i
  {
    if i > 0 {
      LetterKept(s[1..], i - 1);
    }
  }

  /**
   * In any title, a letter, digit or accented letter survives into the slug
   * as its lowercase base letter; an accented vowel or `ñ` is never dropped.
   */
  lemma WordCharSurvives(title: string, i: int)
    requires 0 <= i < |title| && WordChar(title[i])
    ensures Fold(Lower(title[i])) in Slugify(title)
    ensures forall b | FoldsTo(title[i], b) :: b in Slugify(title)
  {
    var l := FoldAccents(Lowercase(title));
    WordCharFolds(title[i]);
    LetterKept(l, i);
    SlugWords(title);
    WordsFromString(Slugify(title));
    forall b | FoldsTo(title[i], b)
      ensures b in Slugify(title)
    {
      AccentsFoldToBase(title[i], b);
    }
  }

  // ----- one hyphen between two words -----

  /** Lowercasing and folding work character by character, so they distribute over concatenation. */
  lemma MapsAppend(x: string, y: string)
    ensures Lowercase(x + y) == Lowercase(x) + Lowercase(y)
    ensures FoldAccents(x + y) == FoldAccents(x) + FoldAccents(y)
  {
    assert forall i | 0 <= i < |x + y| :: Lowercase(x + y)[i] == (Lowercase(x) + Lowercase(y))[i];
    assert forall i | 0 <= i < |x + y| :: FoldAccents(x + y)[i] == (FoldAccents(x) + FoldAccents(y))[i];
  }

  /** Separators pass lowercasing, folding and filtering unchanged. */
  lemma SeparatorsPrepared(w: string)
    requires forall c | c in w :: Separator(c)
    ensures Prepared(w) == w
  {
    forall i | 0 <= i < |w|
      ensures Lowercase(w)[i] == w[i] && FoldAccents(w)[i] == w[i]
    {
      assert w[i] in w;
    }
    assert Lowercase(w) == w;
    assert FoldAccents(w) == w;
    DropDisallowedKeeps(w);
  }

  /** Preparing a title made of two words around separators prepares each part. */
  lemma PreparedJoin(a: string, w: string, b: string)
    requires forall c | c in w :: Separator(c)
    ensures Prepared(a + w + b) == Prepared(a) + w + Prepared(b)
  {
    MapsAppend(a + w, b);
    MapsAppend(a, w);
    var la := FoldAccents(Lowercase(a));
    var lb := FoldAccents(Lowercase(b));
    var lw := FoldAccents(Lowercase(w));
    assert FoldAccents(Lowercase(a + w + b)) == la + lw + lb;
    SeparatorsPrepared(w);
    DropDisallowedAppend(la + lw, lb);
    DropDisallowedAppend(la, lw);
  }

  /** A title ending in a word character still ends in a letter or digit once prepared. */
  lemma PreparedLast(a: string)
    requires a != [] && WordChar(a[|a| - 1])
    ensures Prepared(a) != [] && LetterOrDigit(Prepared(a)[|Prepared(a)| - 1])
  {
    var l := FoldAccents(Lowercase(a));
    assert l[|l| - 1] == Fold(Lower(a[|a| - 1]));
    WordCharFolds(a[|a| - 1]);
    DropDisallowedEnds(l);
  }

  /** A title starting with a word character still starts with a letter or digit once prepared. */
  lemma PreparedFirst(b: string)
    requires b != [] && WordChar(b[0])
    ensures Prepared(b) != [] && LetterOrDigit(Prepared(b)[0])
  {
    var l := FoldAccents(Lowercase(b));
    assert l[0] == Fold(Lower(b[0]));
    WordCharFolds(b[0]);
    DropDisallowedEnds(l);
  }

  /** How the leading run of a concatenation relates to the leading run of its first part. */
  lemma {:induction false} DropRunAppend(s: string, t: string, cls: RunClass)
    ensures DropRun(s, cls) != [] ==> DropRun(s + t, cls) == DropRun(s, cls) + t
    ensures DropRun(s, cls) == [] ==> DropRun(s + t, cls) == DropRun(t, cls)
    decreases |s|
  {
    if s == [] {
      assert s + t == t;
    } else if InClass(s[0], cls) {
      var st := s + t;
      assert st[0] == s[0];
      assert st[1..] == s[1..] + t;
      assert DropRun(st, cls) == DropRun(s[1..] + t, cls);
      assert DropRun(s, cls) == DropRun(s[1..], cls);
      DropRunAppend(s[1..], t, cls);
    } else {
      var st := s + t;
      assert st[0] == s[0];
      assert DropRun(s, cls) == s;
      assert DropRun(st, cls) == st;
    }
  }

  /**
   * Runs never straddle a boundary where one side does not touch the class,
   * so the replacement of a concatenation is the concatenation of the replacements.
   */
  lemma {:induction false} CollapseRunsAppend(s: string, t: string, cls: RunClass, r: char)
    requires s == [] || t == [] || !InClass(s[|s| - 1], cls) || !InClass(t[0], cls)
    ensures CollapseRuns(s + t, cls, r) == CollapseRuns(s, cls, r) + CollapseRuns(t, cls, r)
    decreases |s|
  {
    if s == [] {
      assert s + t == t;
    } else if InClass(s[0], cls) {
      var u := DropRun(s, cls);
      if u != [] {
        assert u[|u| - 1] == s[|s| - 1];
        CollapseRunsAppend(u, t, cls, r);
      }
      AppendAfterRun(s, t, cls, r);
    } else {
      if |s| > 1 {
        assert s[1..][|s[1..]| - 1] == s[|s| - 1];
      }
      CollapseRunsAppend(s[1..], t, cls, r);
      AppendAfterOther(s, t, cls, r);
    }
  }

  /** The step of `CollapseRunsAppend` for a leading run, given the fact for what follows the run. */
  lemma AppendAfterRun(s: string, t: string, cls: RunClass, r: char)
    requires s != [] && InClass(s[0], cls)
    requires s == [] || t == [] || !InClass(s[|s| - 1], cls) || !InClass(t[0], cls)
    requires DropRun(s, cls) != [] ==>
      CollapseRuns(DropRun(s, cls) + t, cls, r) == CollapseRuns(DropRun(s, cls), cls, r) + CollapseRuns(t, cls, r)
    ensures CollapseRuns(s + t, cls, r) == CollapseRuns(s, cls, r) + CollapseRuns(t, cls, r)
  {
    var u := DropRun(s, cls);
    RunStep(s, t, cls, r);
    RunHead(s, cls, r);
    DropRunAppend(s, t, cls);
    if u == [] {
      RunToEnd(s, cls);
      RunHead(t, cls, r);
    } else {
      Regroup([r], CollapseRuns(u, cls, r), CollapseRuns(t, cls, r));
    }
  }

  /** The step of `CollapseRunsAppend` for a leading character outside the class. */
  lemma AppendAfterOther(s: string, t: string, cls: RunClass, r: char)
    requires s != [] && !InClass(s[0], cls)
    requires CollapseRuns(s[1..] + t, cls, r) == CollapseRuns(s[1..], cls, r) + CollapseRuns(t, cls, r)
    ensures CollapseRuns(s + t, cls, r) == CollapseRuns(s, cls, r) + CollapseRuns(t, cls, r)
  {
    OtherStep(s, t, cls, r);
    Regroup([s[0]], CollapseRuns(s[1..], cls, r), CollapseRuns(t, cls, r));
  }

  /** One unfolding of `CollapseRuns` on `s + t` when `s` starts with a run. */
  lemma RunStep(s: string, t: string, cls: RunClass, r: char)
    requires s != [] && InClass(s[0], cls)
    ensures CollapseRuns(s + t, cls, r) == [r] + CollapseRuns(DropRun(s + t, cls), cls, r)
  {
    var st := s + t;
    assert st[0] == s[0];
  }

  /** One unfolding of `CollapseRuns` on `s + t` when `s` starts outside the class. */
  lemma OtherStep(s: string, t: string, cls: RunClass, r: char)
    requires s != [] && !InClass(s[0], cls)
    ensures CollapseRuns(s + t, cls, r) == [s[0]] + CollapseRuns(s[1..] + t, cls, r)
  {
    var st := s + t;
    assert st[0] == s[0];
    assert st[1..] == s[1..] + t;
  }

  /** One unfolding of `CollapseRuns` at the start of a string: a run or not. */
  lemma RunHead(s: string, cls: RunClass, r: char)
    ensures s != [] && InClass(s[0], cls) ==> CollapseRuns(s, cls, r) == [r] + CollapseRuns(DropRun(s, cls), cls, r)
    ensures s == [] || !InClass(s[0], cls) ==> DropRun(s, cls) == s
  {
  }

  /** Concatenation regrouped around a leading part. */
  lemma Regroup(h: string, x: string, y: string)
    ensures h + (x + y) == (h + x) + y
  {
  }

  /** When the leading run is the whole string, its last character is in the class. */
  lemma RunToEnd(s: string, cls: RunClass)
    requires s != [] && DropRun(s, cls) == []
    ensures InClass(s[|s| - 1], cls)
  {
    DropRunDropsClass(s, cls);
  }

  /** A string made only of class characters is one run: it becomes a single `r`. */
  lemma CollapseRunsAllClass(s: string, cls: RunClass, r: char)
    requires s != [] && forall c | c in s :: InClass(c, cls)
    ensures CollapseRuns(s, cls, r) == [r]
  {
    assert DropRun(s, cls) == [];
  }

  /** White space and hyphens alone become hyphens alone, at least one. */
  lemma HyphenatedSeparators(w: string)
    requires w != [] && forall c | c in w :: Separator(c)
    ensures HyphenateSpaces(w) != [] && forall c | c in HyphenateSpaces(w) :: c == '-'
  {
    CollapseRunsChars(w, Whitespace, '-');
    CollapseRunsFirst(w, Whitespace, '-');
  }

  /** Replacing white-space runs in two words around separators: words, hyphens, words. */
  lemma HyphenateJoin(pa: string, w: string, pb: string)
    requires pa != [] && LetterOrDigit(pa[|pa| - 1])
    requires pb != [] && LetterOrDigit(pb[0])
    requires w != [] && forall c | c in w :: Separator(c)
    ensures HyphenateSpaces(pa + w + pb) == HyphenateSpaces(pa) + (HyphenateSpaces(w) + HyphenateSpaces(pb))
  {
    assert pa + w + pb == pa + (w + pb);
    LetterNotSpace(pb[0]);
    CollapseRunsAppend(w, pb, Whitespace, '-');
    LetterNotSpace(pa[|pa| - 1]);
    CollapseRunsAppend(pa, w + pb, Whitespace, '-');
  }

  /** Letters and digits are not white space. */
  lemma LetterNotSpace(c: char)
    requires LetterOrDigit(c)
    ensures !InClass(c, Whitespace) && !InClass(c, Hyphen)
  {
  }

  /** What `HyphenateJoin` leaves at the seams: a word end, hyphens, a word start. */
  lemma HyphenateSeams(pa: string, w: string, pb: string)
    requires pa != [] && LetterOrDigit(pa[|pa| - 1])
    requires pb != [] && LetterOrDigit(pb[0])
    requires w != [] && forall c | c in w :: Separator(c)
    ensures var ha := HyphenateSpaces(pa); ha != [] && LetterOrDigit(ha[|ha| - 1])
    ensures var hb := HyphenateSpaces(pb); hb != [] && LetterOrDigit(hb[0])
    ensures var hw := HyphenateSpaces(w); hw != [] && forall c | c in hw :: c == '-'
  {
    HyphenatedSeparators(w);
    assert !IsSpace(pa[|pa| - 1]);
    CollapseRunsNoClassLast(pa, Whitespace, '-');
    assert !IsSpace(pb[0]);
    CollapseRunsFirst(pb, Whitespace, '-');
  }

  /** Squashing hyphens between two hyphen-free ends leaves one hyphen. */
  lemma SquashJoin(ha: string, hw: string, hb: string)
    requires ha != [] && LetterOrDigit(ha[|ha| - 1])
    requires hb != [] && LetterOrDigit(hb[0])
    requires hw != [] && forall c | c in hw :: c == '-'
    ensures SquashHyphens(ha + (hw + hb)) == SquashHyphens(ha) + "-" + SquashHyphens(hb)
  {
    CollapseRunsAppend(hw, hb, Hyphen, '-');
    CollapseRunsAppend(ha, hw + hb, Hyphen, '-');
    CollapseRunsAllClass(hw, Hyphen, '-');
  }

  /**
   * Between two words, any run of white space and hyphens becomes exactly
   * one hyphen: "Hola  mundo" and "Hola - mundo" both give "hola-mundo".
   */
  lemma SlugJoin(a: string, w: string, b: string)
    requires a != [] && WordChar(a[|a| - 1])
    requires b != [] && WordChar(b[0])
    requires w != [] && forall c | c in w :: Separator(c)
    ensures Slugify(a + w + b) == Slugify(a) + "-" + Slugify(b)
  {
    PreparedJoin(a, w, b);
    PreparedLast(a);
    PreparedFirst(b);
    HyphenateJoin(Prepared(a), w, Prepared(b));
    HyphenateSeams(Prepared(a), w, Prepared(b));
    SquashJoin(HyphenateSpaces(Prepared(a)), HyphenateSpaces(w), HyphenateSpaces(Prepared(b)));
  }
}
