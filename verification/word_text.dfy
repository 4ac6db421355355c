/** The string handling of the translation page (src/app/page.tsx): the
    word cleaner of `handleWordClick` and the `split(/(\s+)/)` segmentation
    that turns the original text into clickable words. */
module WordText {
  import opened Strings

  // ---------------------------------------------------------------------
  // Removing punctuation

  /** The characters of `[.,/#!$%^&*;:{}=\-_`~()]`. */
  const Punctuation := ".,/#!$%^&*;:{}=-_`~()"

  predicate IsPunct(c: char) {
    c in Punctuation
  }

  /** `s.replace(/[.,/#!$%^&*;:{}=\-_`~()]/g, "")`: the result holds no
      punctuation. */
  function StripPunct(s: string): (r: string)
    ensures forall i | 0 <= i < |r| :: !IsPunct(r[i])
    decreases |s|
  {
    if |s| == 0 then ""
    else if IsPunct(s[0]) then StripPunct(s[1..])
    else [s[0]] + StripPunct(s[1..])
  }

  /** Removal keeps every other character as often as `s` holds it. */
  lemma {:induction false} StripPunctKeepsOthers(s: string)
    ensures forall c | !IsPunct(c) :: multiset(StripPunct(s))[c] == multiset(s)[c]
    decreases |s|
  {
    if |s| > 0 {
      assert s == [s[0]] + s[1..];
      StripPunctKeepsOthers(s[1..]);
    }
  }

  /** Removal works piece by piece, so the kept characters stay in order. */
  lemma {:induction false} StripPunctAppend(a: string, b: string)
    ensures StripPunct(a + b) == StripPunct(a) + StripPunct(b)
    decreases |a|
  {
    if |a| == 0 {
      assert a + b == b;
    } else {
      assert (a + b)[0] == a[0];
      assert (a + b)[1..] == a[1..] + b;
      StripPunctAppend(a[1..], b);
    }
  }

  /** A string is left as it is exactly when it holds no punctuation. */
  lemma {:induction false} StripPunctFixedPoint(s: string)
    ensures StripPunct(s) == s <==> forall i | 0 <= i < |s| :: !IsPunct(s[i])
    decreases |s|
  {
    if |s| > 0 {
      StripPunctFixedPoint(s[1..]);
      if IsPunct(s[0]) {
        assert |StripPunct(s)| <= |s[1..]| by { StripPunctShrinks(s[1..]); }
      } else {
        assert forall i | 1 <= i < |s| :: s[i] == s[1..][i - 1];
      }
    }
  }

  lemma {:induction false} StripPunctShrinks(s: string)
    ensures |StripPunct(s)| <= |s|
    decreases |s|
  {
    if |s| > 0 {
      StripPunctShrinks(s[1..]);
    }
  }

  /** Removal leaves only white space exactly when `s` holds nothing but
      punctuation and white space. */
  lemma {:induction false} StripPunctAllSpace(s: string)
    ensures AllSpace(StripPunct(s)) <==> forall i | 0 <= i < |s| :: IsPunct(s[i]) || IsSpace(s[i])
    decreases |s|
  {
    if |s| > 0 {
      StripPunctAllSpace(s[1..]);
      assert forall i | 1 <= i < |s| :: s[i] == s[1..][i - 1];
      if !IsPunct(s[0]) {
        assert StripPunct(s)[0] == s[0];
        assert StripPunct(s)[1..] == StripPunct(s[1..]);
      }
    }
  }

  /** Removing punctuation keeps a string free of white space. */
  lemma {:induction false} StripPunctNoSpace(s: string)
    requires NoSpace(s)
    ensures NoSpace(StripPunct(s))
    decreases |s|
  {
    if |s| > 0 {
      assert NoSpace(s[1..]) by { assert forall i | 0 <= i < |s[1..]| :: s[1..][i] == s[i + 1]; }
      StripPunctNoSpace(s[1..]);
    }
  }

  // ---------------------------------------------------------------------
  // Trimming

  /** The length of the white-space run `s` starts with. */
  function LeadingSpaceLength(s: string): (n: nat)
    ensures n <= |s| && AllSpace(s[..n])
    ensures n < |s| ==> !IsSpace(s[n])
    decreases |s|
  {
    if |s| > 0 && IsSpace(s[0]) then
      var n := 1 + LeadingSpaceLength(s[1..]);
      assert s[..n] == [s[0]] + s[1..][..n - 1];
      n
    else 0
  }

  /** The length of the white-space run `s` ends with. */
  function TrailingSpaceLength(s: string): (n: nat)
    ensures n <= |s|
    ensures forall k | |s| - n <= k < |s| :: IsSpace(s[k])
    ensures n < |s| ==> !IsSpace(s[|s| - n - 1])
    decreases |s|
  {
    if |s| > 0 && IsSpace(s[|s| - 1]) then
      var t := s[..|s| - 1];
      var m := TrailingSpaceLength(t);
      assert forall k | 0 <= k < |t| :: s[k] == t[k];
      m + 1
    else 0
  }

  /** `s.trim()`: the result is the piece of `s` after its leading white
      space, followed in `s` by white space only, and it neither starts nor
      ends with white space. */
  function Trim(s: string): (r: string)
    ensures var i := LeadingSpaceLength(s);
            i + |r| <= |s| && r == s[i..i + |r|] && AllSpace(s[i + |r|..])
    ensures r == [] || (!IsSpace(r[0]) && !IsSpace(r[|r| - 1]))
  {
    var i := LeadingSpaceLength(s);
    var t := s[i..];
    var r := t[..|t| - TrailingSpaceLength(t)];
    assert s[i + |r|..] == t[|r|..];
    r
  }

  /** Trimming leaves a string alone when it neither starts nor ends with
      white space. */
  lemma TrimFixedPoint(s: string)
    requires s == [] || (!IsSpace(s[0]) && !IsSpace(s[|s| - 1]))
    ensures Trim(s) == s
  {
    assert LeadingSpaceLength(s) == 0;
    assert TrailingSpaceLength(s) == 0;
  }

  /** Trimming gives the empty string exactly for all-white-space input. */
  lemma TrimEmpty(s: string)
    ensures Trim(s) == [] <==> AllSpace(s)
  {
    var i := LeadingSpaceLength(s);
    assert s == s[..i] + s[i..];
    assert i < |s| ==> !IsSpace(s[i]);
  }

  /** Trimming a string without punctuation gives one without punctuation. */
  lemma TrimKeepsPunctFree(s: string)
    requires forall k | 0 <= k < |s| :: !IsPunct(s[k])
    ensures forall k | 0 <= k < |Trim(s)| :: !IsPunct(Trim(s)[k])
  {
    var i := LeadingSpaceLength(s);
    assert forall k | 0 <= k < |Trim(s)| :: Trim(s)[k] == s[i + k];
  }

  // ---------------------------------------------------------------------
  // The word cleaner of handleWordClick

  /** `word.replace(/[.,/#!$%^&*;:{}=\-_`~()]/g, "").trim()`: no punctuation,
      no white space at either end, and what is left is the punctuation-free
      word with only white space cut from its ends. */
  function Clean(word: string): (r: string)
    ensures forall i | 0 <= i < |r| :: !IsPunct(r[i])
    ensures r == [] || (!IsSpace(r[0]) && !IsSpace(r[|r| - 1]))
    ensures var p := StripPunct(word);
            var i := LeadingSpaceLength(p);
            i + |r| <= |p| && r == p[i..i + |r|] && AllSpace(p[..i]) && AllSpace(p[i + |r|..])
  {
    var p := StripPunct(word);
    var r := Trim(p);
    var i := LeadingSpaceLength(p);
    TrimKeepsPunctFree(p);
    assert i + |r| <= |p| && r == p[i..i + |r|] && AllSpace(p[..i]) && AllSpace(p[i + |r|..]);
    r
  }

  /** Cleaning a cleaned word changes nothing. */
  lemma CleanIdempotent(word: string)
    ensures Clean(Clean(word)) == Clean(word)
  {
    var c := Clean(word);
    StripPunctFixedPoint(c);
    TrimFixedPoint(c);
  }

  /** A click is ignored exactly when the word holds nothing but punctuation
      and white space. */
  lemma CleanEmpty(word: string)
    ensures Clean(word) == [] <==> forall i | 0 <= i < |word| :: IsPunct(word[i]) || IsSpace(word[i])
  {
    TrimEmpty(StripPunct(word));
    StripPunctAllSpace(word);
  }

  /** A word without white space is cleaned by removing its punctuation
      alone. */
  lemma CleanWordWithoutSpace(word: string)
    requires NoSpace(word)
    ensures Clean(word) == StripPunct(word)
    ensures NoSpace(Clean(word))
  {
    StripPunctNoSpace(word);
    var p := StripPunct(word);
    if p != [] {
      TrimFixedPoint(p);
    }
  }

  // ---------------------------------------------------------------------
  // Segmenting the original text

  /** The length of the run of non-white-space characters `s` starts with. */
  function LeadingWordLength(s: string): (n: nat)
    ensures n <= |s| && NoSpace(s[..n])
    ensures n < |s| ==> IsSpace(s[n])
    decreases |s|
  {
    if |s| > 0 && !IsSpace(s[0]) then
      var n := 1 + LeadingWordLength(s[1..]);
      assert s[..n] == [s[0]] + s[1..][..n - 1];
      n
    else 0
  }

  /** The leading word length is the one length that fits its contract. */
  lemma {:induction false} LeadingWordLengthIs(s: string, n: nat)
    requires n <= |s| && NoSpace(s[..n])
    requires n < |s| ==> IsSpace(s[n])
    ensures LeadingWordLength(s) == n
    decreases n
  {
    if n > 0 {
      assert !IsSpace(s[..n][0]);
      assert s[1..][..n - 1] == s[1..n];
      LeadingWordLengthIs(s[1..], n - 1);
    }
  }

  /** The leading white-space run length is the one length that fits its
      contract. */
  lemma {:induction false} LeadingSpaceLengthIs(s: string, n: nat)
    requires n <= |s| && AllSpace(s[..n])
    requires n < |s| ==> !IsSpace(s[n])
    ensures LeadingSpaceLength(s) == n
    decreases n
  {
    if n > 0 {
      assert IsSpace(s[..n][0]);
      assert s[1..][..n - 1] == s[1..n];
      LeadingSpaceLengthIs(s[1..], n - 1);
    }
  }

  /** The shape of `s.split(/(\s+)/)`: the pieces between white-space runs
      at even positions, the maximal runs themselves (kept because the
      pattern captures them) at odd positions, and only the first and last
      piece may be empty. Joined, they give `s` back. */
  predicate IsSegmentation(segs: seq<string>, s: string) {
    && |segs| % 2 == 1
    && Concat(segs) == s
    && (forall i | 0 <= i < |segs| :: i % 2 == 0 ==> NoSpace(segs[i]))
    && (forall i | 0 <= i < |segs| :: i % 2 == 1 ==> AllSpace(segs[i]))
    && (forall i | 0 < i < |segs| - 1 :: segs[i] != [])
  }

  /** Putting the leading word and the white-space run after it in front
      of a segmentation of the rest of the text gives a segmentation of the
      whole text. */
  lemma ConsSegmentation(s: string, w: nat, k: nat, tail: seq<string>)
    requires w < |s| && NoSpace(s[..w]) && IsSpace(s[w])
    requires 0 < k <= |s| - w && AllSpace(s[w..][..k])
    requires w + k < |s| ==> !IsSpace(s[w + k])
    requires IsSegmentation(tail, s[w + k..])
    requires s[w + k..] == [] ==> tail == [[]]
    requires tail[0] == [] ==> s[w + k..] == [] || IsSpace(s[w + k..][0])
    ensures IsSegmentation([s[..w], s[w..][..k]] + tail, s)
    ensures s[..w] == [] ==> IsSpace(s[0])
  {
    var a, b, c := s[..w], s[w..][..k], s[w + k..];
    var segs := [a, b] + tail;
    assert c != [] ==> c[0] == s[w + k];
    assert tail[0] == [] ==> |tail| == 1;
    ConcatTwo(a, b, tail);
    assert s == a + b + c;
    assert forall i | 2 <= i < |segs| :: segs[i] == tail[i - 2];
  }

  /** `s.split(/(\s+)/)`: the leading word, then (if the text goes on)
      the white-space run after it and the segments of the rest. */
  function Segments(s: string): seq<string>
    decreases |s|
  {
    var w := LeadingWordLength(s);
    if w == |s| then [s]
    else
      var k := LeadingSpaceLength(s[w..]);
      assert k > 0 by { assert IsSpace(s[w..][0]); }
      [s[..w], s[w..][..k]] + Segments(s[w + k..])
  }

  /** The pieces `Segments` returns have the shape of the split: the empty
      text gives one empty piece, and the first piece is empty only when the
      text starts with white space. */
  lemma {:induction false} SegmentsShape(s: string)
    ensures IsSegmentation(Segments(s), s)
    ensures s == [] ==> Segments(s) == [[]]
    ensures Segments(s)[0] == [] ==> s == [] || IsSpace(s[0])
    decreases |s|
  {
    var w := LeadingWordLength(s);
    if w == |s| {
      assert [s][1..] == [];
      assert s[..w] == s;
      assert Segments(s) == [s];
    } else {
      var k := LeadingSpaceLength(s[w..]);
      assert k > 0 by { assert IsSpace(s[w..][0]); }
      assert w + k < |s| ==> s[w + k] == s[w..][k];
      assert s[w..][k..] == s[w + k..];
      var tail := Segments(s[w + k..]);
      SegmentsShape(s[w + k..]);
      ConsSegmentation(s, w, k, tail);
      var segs := Segments(s);
      assert segs == [s[..w], s[w..][..k]] + tail;
    }
  }

  /** Past its first two pieces, a segmentation of more than one piece is a
      segmentation of the rest of the text, which starts with a character
      that is not white space if it has any. */
  lemma SegmentationRest(segs: seq<string>, s: string)
    requires IsSegmentation(segs, s) && |segs| > 1
    ensures |segs| >= 3 && segs[1] != []
    ensures NoSpace(segs[0]) && AllSpace(segs[1])
    ensures s == segs[0] + segs[1] + Concat(segs[2..])
    ensures IsSegmentation(segs[2..], Concat(segs[2..]))
    ensures Concat(segs[2..]) != [] ==> !IsSpace(Concat(segs[2..])[0])
  {
    var t := segs[2..];
    assert segs == [segs[0], segs[1]] + t;
    ConcatTwo(segs[0], segs[1], t);
    assert forall j | 0 <= j < |t| :: t[j] == segs[j + 2];
    assert Concat(t) == t[0] + Concat(t[1..]);
    assert t[0] == [] ==> |t| == 1;
  }

  /** A word, a non-empty white-space run and a rest that does not start
      with white space: the word is the leading word, and the run is the
      leading run after it. */
  lemma WordRunRest(a: string, b: string, c: string, s: string)
    requires s == a + b + c
    requires NoSpace(a) && b != [] && AllSpace(b)
    requires c != [] ==> !IsSpace(c[0])
    ensures LeadingWordLength(s) == |a| && s[..|a|] == a
    ensures LeadingSpaceLength(s[|a|..]) == |b| && s[|a|..][..|b|] == b
    ensures s[|a| + |b|..] == c
  {
    assert s[..|a|] == a && s[|a|] == b[0];
    LeadingWordLengthIs(s, |a|);
    assert s[|a|..] == b + c;
    assert (b + c)[..|b|] == b;
    LeadingSpaceLengthIs(s[|a|..], |b|);
  }

  /** A segmentation with one piece is the whole text, which is then a
      single word. */
  lemma SingleSegmentation(segs: seq<string>, s: string)
    requires IsSegmentation(segs, s) && |segs| == 1
    ensures segs == [s] && LeadingWordLength(s) == |s|
  {
    assert Concat(segs) == segs[0] + Concat(segs[1..]);
    assert s[..|s|] == s == segs[0];
    LeadingWordLengthIs(s, |s|);
  }

  /** `Segments` is the only way to cut a text into such a shape. */
  lemma {:induction false} SegmentationUnique(segs: seq<string>, s: string)
    requires IsSegmentation(segs, s)
    ensures segs == Segments(s)
    decreases |segs|
  {
    if |segs| == 1 {
      SingleSegmentation(segs, s);
    } else {
      SegmentationRest(segs, s);
      var a, b, t := segs[0], segs[1], segs[2..];
      WordRunRest(a, b, Concat(t), s);
      SegmentationUnique(t, Concat(t));
      assert segs == [a, b] + t;
    }
  }

  /** A segment of the rendered original text: white-space runs become
      plain spans, everything else a clickable word button. */
  datatype Piece = Gap(text: string) | WordButton(text: string)

  /** The `map` over the segments, testing each with `/\s+/`. */
  function Render(segs: seq<string>): seq<Piece> {
    seq(|segs|, i requires 0 <= i < |segs| => if HasSpace(segs[i]) then Gap(segs[i]) else WordButton(segs[i]))
  }

  function Texts(pieces: seq<Piece>): seq<string> {
    seq(|pieces|, i requires 0 <= i < |pieces| => pieces[i].text)
  }

  /** Rendering keeps each segment's text. */
  lemma TextsOfRender(segs: seq<string>)
    ensures Texts(Render(segs)) == segs
  {
    assert forall i | 0 <= i < |segs| :: Texts(Render(segs))[i] == segs[i];
  }

  /** Even segments become word buttons, odd ones white-space spans. */
  lemma PieceKind(segs: seq<string>, s: string, i: nat)
    requires IsSegmentation(segs, s) && i < |segs|
    ensures Render(segs)[i].WordButton? <==> i % 2 == 0
  {
    if i % 2 == 1 {
      assert IsSpace(segs[i][0]);
    }
  }

  /** Rendering the original text alternates word buttons and white-space
      spans, starting and ending with a button, and shows the text exactly. */
  lemma RenderAlternates(s: string)
    ensures var pieces := Render(Segments(s));
      && |pieces| % 2 == 1
      && (forall i | 0 <= i < |pieces| :: pieces[i].WordButton? <==> i % 2 == 0)
      && Concat(Texts(pieces)) == s
  {
    var segs := Segments(s);
    SegmentsShape(s);
    forall i | 0 <= i < |segs|
      ensures Render(segs)[i].WordButton? <==> i % 2 == 0
    {
      PieceKind(segs, s, i);
    }
    TextsOfRender(segs);
  }

  /** A clicked word button holds no white space, so its cleaned word is the
      button text with the punctuation removed, and still holds no white
      space. */
  lemma ClickedWordCleaning(s: string, i: nat)
    requires i < |Render(Segments(s))| && Render(Segments(s))[i].WordButton?
    ensures var word := Render(Segments(s))[i].text;
            Clean(word) == StripPunct(word) && NoSpace(Clean(word))
  {
    var segs := Segments(s);
    assert Render(segs)[i].text == segs[i];
    assert !HasSpace(segs[i]);
    CleanWordWithoutSpace(segs[i]);
  }
}
