/** Word splitting: the words of slugs and the words of generated configuration keys, over all texts. */
module Words {
  import Text

  /** Python's character classes and its lower-casing of a word. */
  datatype Unicode = Unicode(
    isSpace: char -> bool,
    isAlpha: char -> bool,
    isDigit: char -> bool,
    isUpper: char -> bool,
    isLower: char -> bool,
    lower: string -> string)

  predicate IsUpper(c: char) {
    'A' <= c <= 'Z'
  }

  predicate IsLower(c: char) {
    'a' <= c <= 'z'
  }

  /** ASCII characters that Python counts as white space. */
  predicate IsSpace(c: char) {
    var n := c as int;
    n == 32 || 9 <= n <= 13 || 28 <= n <= 31
  }

  function ToLower(c: char): char {
    if IsUpper(c) then 'a' + (c - 'A') else c
  }

  function LowerWord(w: string): (r: string)
    ensures |r| == |w| && forall i :: 0 <= i < |w| ==> r[i] == ToLower(w[i])
  {
    seq(|w|, i requires 0 <= i < |w| => ToLower(w[i]))
  }

  predicate IsAscii(c: char) {
    c as int < 128
  }

  predicate Ascii(s: string) {
    forall i :: 0 <= i < |s| ==> IsAscii(s[i])
  }

  /** What is fixed of the classes: their ASCII part, and that lower-casing brings in no slash. */
  ghost predicate Standard(u: Unicode) {
    && (forall c :: IsAscii(c) ==>
          && u.isSpace(c) == IsSpace(c) && u.isAlpha(c) == (IsUpper(c) || IsLower(c)) && u.isDigit(c) == Text.IsDigit(c)
          && u.isUpper(c) == IsUpper(c) && u.isLower(c) == IsLower(c))
    && (forall w :: Ascii(w) ==> u.lower(w) == LowerWord(w))
    && (forall w :: '/' !in w ==> '/' !in u.lower(w))
  }

  /** What else is known of lower-casing: it brings in no underscore, it leaves no word empty, and it does not
      lengthen a text made of characters of a lower-cased text. */
  ghost predicate Lowers(u: Unicode) {
    && (forall w :: '_' !in w ==> '_' !in u.lower(w))
    && (forall w :: w != "" ==> u.lower(w) != "")
    && (forall w, p :: MadeOf(p, u.lower(w)) ==> |u.lower(p)| <= |p|)
  }

  predicate MadeOf(p: string, s: string) {
    forall i :: 0 <= i < |p| ==> p[i] in s
  }

  /** ASCII by itself is such a choice of classes. */
  function AsciiOnly(): Unicode {
    Unicode(IsSpace, c => IsUpper(c) || IsLower(c), Text.IsDigit, IsUpper, IsLower, LowerWord)
  }

  lemma AsciiOnlyIsStandard()
    ensures Standard(AsciiOnly()) && Lowers(AsciiOnly())
  {
    forall w: string | '/' !in w ensures '/' !in LowerWord(w) {
      assert forall i :: 0 <= i < |w| ==> ToLower(w[i]) != '/';
    }
    forall w: string | '_' !in w ensures '_' !in LowerWord(w) {
      assert forall i :: 0 <= i < |w| ==> ToLower(w[i]) != '_';
    }
  }

  function Flush(current: string): seq<string> {
    if current == "" then [] else [current]
  }

  // ---------------------------------------------------------------------------
  // The two splitters
  // ---------------------------------------------------------------------------

  predicate SlugSeparator(u: Unicode, c: char) {
    u.isSpace(c) || c == '_' || c == '-' || c == '/' || c == '.'
  }

  /** A letter or a digit of a slug's word. */
  predicate Kept(u: Unicode, c: char) {
    !SlugSeparator(u, c) && (u.isAlpha(c) || u.isDigit(c))
  }

  predicate KeySeparator(c: char) {
    c == ' ' || c == '\t' || c == '\n' || c == '_' || c == '-'
  }

  /** A capital starts a word after a character that is not a capital, or before a small letter. */
  predicate StartsWord(u: Unicode, current: string, s: string)
    requires s != ""
  {
    current != "" && u.isUpper(s[0]) && (!u.isUpper(current[|current| - 1]) || (|s| > 1 && u.isLower(s[1])))
  }

  /** The words of a slug still to come from `s`, with `current` under way. */
  function SlugWords(u: Unicode, s: string, current: string): seq<string> {
    if s == "" then Flush(current)
    else if SlugSeparator(u, s[0]) then Flush(current) + SlugWords(u, s[1..], "")
    else if !Kept(u, s[0]) then SlugWords(u, s[1..], current)
    else if StartsWord(u, current, s) then [current] + SlugWords(u, s[1..], [s[0]])
    else SlugWords(u, s[1..], current + [s[0]])
  }

  function KeyWords(u: Unicode, s: string, current: string): seq<string> {
    if s == "" then Flush(current)
    else if KeySeparator(s[0]) then Flush(current) + KeyWords(u, s[1..], "")
    else if StartsWord(u, current, s) then [current] + KeyWords(u, s[1..], [s[0]])
    else KeyWords(u, s[1..], current + [s[0]])
  }

  lemma Regroup(words: seq<string>, w: string, rest: seq<string>)
    ensures words + ([w] + rest) == words + [w] + rest && words + (Flush(w) + rest) == words + Flush(w) + rest
    ensures words + [] == words && [] + rest == rest
  {
  }

  method SplitForSlug(u: Unicode, value: string) returns (words: seq<string>)
    ensures words == SlugWords(u, value, "")
  {
    words := [];
    var current := "";
    for index := 0 to |value|
      invariant words + SlugWords(u, value[index..], current) == SlugWords(u, value, "")
    {
      var character := value[index];
      ghost var rest := value[index + 1..];
      assert value[index..][1..] == rest;
      Regroup(words, current, SlugWords(u, rest, ""));
      Regroup(words, current, SlugWords(u, rest, [character]));
      if u.isSpace(character) || character in "_-/." {
        if current != "" {
          words := words + [current];
          current := "";
        }
        continue;
      }
      if !u.isAlpha(character) && !u.isDigit(character) {
        continue;
      }
      if current != "" && u.isUpper(character) {
        var previous := current[|current| - 1];
        if !u.isUpper(previous) || (index + 1 < |value| && u.isLower(value[index + 1])) {
          words := words + [current];
          current := "";
        }
      }
      assert "" + [character] == [character];
      current := current + [character];
    }
    assert value[|value|..] == "";
    if current != "" {
      words := words + [current];
    }
  }

  method SplitForKey(u: Unicode, s: string) returns (words: seq<string>)
    ensures words == KeyWords(u, s, "")
  {
    words := [];
    var current := "";
    var i := 0;
    while i < |s|
      invariant i <= |s| && words + KeyWords(u, s[i..], current) == KeyWords(u, s, "")
    {
      var ch := s[i];
      ghost var rest := s[i + 1..];
      assert s[i..][1..] == rest;
      Regroup(words, current, KeyWords(u, rest, ""));
      Regroup(words, current, KeyWords(u, rest, [ch]));
      if ch in [' ', '\t', '\n', '_', '-'] {
        if current != "" {
          words := words + [current];
          current := "";
        }
        i := i + 1;
        continue;
      }
      if current != "" && u.isUpper(ch) {
        var prev := current[|current| - 1];
        if !u.isUpper(prev) {
          words := words + [current];
          current := "";
        } else if i + 1 < |s| && u.isLower(s[i + 1]) {
          words := words + [current];
          current := "";
        }
      }
      assert "" + [ch] == [ch];
      current := current + [ch];
      i := i + 1;
    }
    if current != "" {
      words := words + [current];
    }
  }

  function Concat(ws: seq<string>): string {
    if ws == [] then "" else ws[0] + Concat(ws[1..])
  }

  /** The characters that a slug keeps. */
  function Plain(u: Unicode, s: string): string {
    if s == "" then "" else (if Kept(u, s[0]) then [s[0]] else "") + Plain(u, s[1..])
  }

  function WithoutKeySeparators(s: string): string {
    if s == "" then "" else (if KeySeparator(s[0]) then "" else [s[0]]) + WithoutKeySeparators(s[1..])
  }

  lemma ConcatFlush(current: string, ws: seq<string>)
    ensures Concat(Flush(current) + ws) == current + Concat(ws)
    ensures Concat([current] + ws) == current + Concat(ws)
  {
    assert ([current] + ws)[1..] == ws;
    assert [] + ws == ws;
  }

  lemma SeparatorsAreNotKept(u: Unicode, c: char)
    ensures SlugSeparator(u, c) ==> !Kept(u, c)
  {
  }

  /** The words of a slug are its letters and digits, in order. */
  lemma {:induction false} SlugWordsConserve(u: Unicode, s: string, current: string)
    ensures Concat(SlugWords(u, s, current)) == current + Plain(u, s)
  {
    if s == "" {
      ConcatFlush(current, []);
      assert Flush(current) + [] == Flush(current);
    } else {
      var rest := s[1..];
      SeparatorsAreNotKept(u, s[0]);
      hide SlugSeparator, Kept, StartsWord, Flush;
      ConcatFlush(current, SlugWords(u, rest, ""));
      ConcatFlush(current, SlugWords(u, rest, [s[0]]));
      SlugWordsConserve(u, rest, "");
      SlugWordsConserve(u, rest, current);
      SlugWordsConserve(u, rest, [s[0]]);
      SlugWordsConserve(u, rest, current + [s[0]]);
      assert current + ([s[0]] + Plain(u, rest)) == current + [s[0]] + Plain(u, rest);
      assert current + ("" + Plain(u, rest)) == current + Plain(u, rest);
    }
  }

  /** The words of a key are the text without its separators. */
  lemma {:induction false} KeyWordsConserve(u: Unicode, s: string, current: string)
    ensures Concat(KeyWords(u, s, current)) == current + WithoutKeySeparators(s)
  {
    if s == "" {
      ConcatFlush(current, []);
      assert Flush(current) + [] == Flush(current);
    } else {
      var rest := s[1..];
      hide KeySeparator, StartsWord, Flush;
      if KeySeparator(s[0]) {
        ConcatFlush(current, KeyWords(u, rest, ""));
        KeyWordsConserve(u, rest, "");
        assert "" + WithoutKeySeparators(rest) == WithoutKeySeparators(rest);
      } else {
        assert current + ([s[0]] + WithoutKeySeparators(rest)) == current + [s[0]] + WithoutKeySeparators(rest);
        if StartsWord(u, current, s) {
          ConcatFlush(current, KeyWords(u, rest, [s[0]]));
          KeyWordsConserve(u, rest, [s[0]]);
        } else {
          KeyWordsConserve(u, rest, current + [s[0]]);
        }
      }
    }
  }

  /** Characters that both splitters treat alike. */
  predicate Shared(u: Unicode, c: char) {
    Kept(u, c) || KeySeparator(c)
  }

  lemma {:induction false} SharedTextsSplitAlike(u: Unicode, s: string, current: string)
    requires Standard(u) && forall i :: 0 <= i < |s| ==> Shared(u, s[i])
    ensures SlugWords(u, s, current) == KeyWords(u, s, current)
  {
    if s != "" {
      SharedTextsSplitAlike(u, s[1..], "");
      SharedTextsSplitAlike(u, s[1..], [s[0]]);
      SharedTextsSplitAlike(u, s[1..], current + [s[0]]);
    }
  }

  lemma {:induction false} KeptCharacters(s: string, i: nat)
    requires i < |s| && !KeySeparator(s[i])
    ensures s[i] in WithoutKeySeparators(s)
  {
    if i > 0 {
      KeptCharacters(s[1..], i - 1);
    }
  }

  lemma {:induction false} PlainIsKept(u: Unicode, s: string)
    ensures forall c :: c in Plain(u, s) ==> Kept(u, c) && c in s
  {
    if s != "" {
      PlainIsKept(u, s[1..]);
    }
  }

  /** On ASCII these are the letters, the digits and the key separators. */
  lemma SharedAscii(u: Unicode, c: char)
    requires Standard(u) && IsAscii(c)
    ensures Shared(u, c) <==> IsUpper(c) || IsLower(c) || Text.IsDigit(c) || KeySeparator(c)
  {
  }

  /** The two splitters give the same words exactly on the texts of letters, digits, spaces, tabs,
      newlines, underscores and hyphens, in any script. */
  lemma SplittersAgreeIff(u: Unicode, s: string)
    requires Standard(u)
    ensures SlugWords(u, s, "") == KeyWords(u, s, "") <==> forall i :: 0 <= i < |s| ==> Shared(u, s[i])
  {
    if forall i :: 0 <= i < |s| ==> Shared(u, s[i]) {
      SharedTextsSplitAlike(u, s, "");
    } else if SlugWords(u, s, "") == KeyWords(u, s, "") {
      SameWordsAreShared(u, s);
    }
  }

  lemma SameWordsAreShared(u: Unicode, s: string)
    requires SlugWords(u, s, "") == KeyWords(u, s, "")
    ensures forall i :: 0 <= i < |s| ==> Shared(u, s[i])
  {
    SlugWordsConserve(u, s, "");
    KeyWordsConserve(u, s, "");
    PlainIsKept(u, s);
    assert "" + Plain(u, s) == Plain(u, s) && "" + WithoutKeySeparators(s) == WithoutKeySeparators(s);
    hide SlugWords, KeyWords, Concat, Plain, WithoutKeySeparators, KeySeparator, Kept;
    forall i | 0 <= i < |s| ensures Shared(u, s[i]) {
      if !KeySeparator(s[i]) {
        KeptCharacters(s, i);
      }
    }
  }

  /** A word of a key that is under way before position `i` ends there. */
  predicate Cut(u: Unicode, s: string, i: nat)
    requires 0 < i < |s|
  {
    KeySeparator(s[i]) || (u.isUpper(s[i]) && (!u.isUpper(s[i - 1]) || (i + 1 < |s| && u.isLower(s[i + 1]))))
  }

  /** The first cut from position `i` on, or the end of the text. */
  function WordEnd(u: Unicode, s: string, i: nat): (j: nat)
    requires 0 < i <= |s|
    ensures i <= j <= |s|
    decreases |s| - i
  {
    if i == |s| || Cut(u, s, i) then i else WordEnd(u, s, i + 1)
  }

  lemma {:induction false} WordEndIsNextCut(u: Unicode, s: string, i: nat)
    requires 0 < i <= |s|
    ensures WordEnd(u, s, i) < |s| ==> Cut(u, s, WordEnd(u, s, i))
    ensures forall k :: i <= k < WordEnd(u, s, i) ==> !Cut(u, s, k)
    decreases |s| - i
  {
    if i < |s| && !Cut(u, s, i) {
      WordEndIsNextCut(u, s, i + 1);
    }
  }

  /** The words as slices of the text: each runs from a character that is no separator to the next cut. */
  function Slices(u: Unicode, s: string, i: nat): seq<string>
    requires i <= |s|
    decreases |s| - i
  {
    if i == |s| then []
    else if KeySeparator(s[i]) then Slices(u, s, i + 1)
    else [s[i..WordEnd(u, s, i + 1)]] + Slices(u, s, WordEnd(u, s, i + 1))
  }

  /** The words collected character by character are the slices between cuts. */
  lemma {:induction false} KeyWordsAreSlices(u: Unicode, s: string, i: nat)
    requires i <= |s|
    ensures KeyWords(u, s[i..], "") == Slices(u, s, i)
    decreases |s| - i, 1
  {
    if i < |s| {
      assert s[i..][1..] == s[i + 1..];
      if KeySeparator(s[i]) {
        KeyWordsAreSlices(u, s, i + 1);
      } else {
        assert "" + [s[i]] == s[i..i + 1];
        WordIsSlice(u, s, i, i + 1);
      }
    }
  }

  lemma CutMeans(u: Unicode, s: string, b: nat, i: nat)
    requires b < i < |s|
    ensures s[i..] != "" && s[i..][0] == s[i] && s[i..][1..] == s[i + 1..]
    ensures Cut(u, s, i) <==> KeySeparator(s[i]) || StartsWord(u, s[b..i], s[i..])
    ensures s[b..i] != "" && s[b..i] + [s[i]] == s[b..i + 1] && [s[i]] == s[i..i + 1]
  {
    assert s[b..i][|s[b..i]| - 1] == s[i - 1];
  }

  ghost predicate IsSlice(u: Unicode, s: string, b: nat, i: nat)
    requires b < i <= |s|
  {
    KeyWords(u, s[i..], s[b..i]) == [s[b..WordEnd(u, s, i)]] + Slices(u, s, WordEnd(u, s, i))
  }

  lemma SeparatorEndsSlice(u: Unicode, s: string, b: nat, i: nat)
    requires b < i < |s| && KeySeparator(s[i]) && KeyWords(u, s[i + 1..], "") == Slices(u, s, i + 1)
    ensures IsSlice(u, s, b, i)
  {
    CutMeans(u, s, b, i);
    hide StartsWord, KeySeparator, Cut;
    assert KeyWords(u, s[i..], s[b..i]) == [s[b..i]] + KeyWords(u, s[i + 1..], "");
    assert WordEnd(u, s, i) == i;
    hide KeyWords, WordEnd;
    assert Slices(u, s, i) == Slices(u, s, i + 1);
    hide Slices;
  }

  lemma StartEndsSlice(u: Unicode, s: string, b: nat, i: nat)
    requires b < i < |s| && !KeySeparator(s[i]) && StartsWord(u, s[b..i], s[i..]) && IsSlice(u, s, i, i + 1)
    ensures IsSlice(u, s, b, i)
  {
    CutMeans(u, s, b, i);
    hide StartsWord, KeySeparator, Cut;
    assert KeyWords(u, s[i..], s[b..i]) == [s[b..i]] + KeyWords(u, s[i + 1..], s[i..i + 1]);
    assert WordEnd(u, s, i) == i;
    assert Slices(u, s, i) == [s[i..WordEnd(u, s, i + 1)]] + Slices(u, s, WordEnd(u, s, i + 1));
    hide KeyWords, WordEnd, Slices;
  }

  lemma SliceGoesOn(u: Unicode, s: string, b: nat, i: nat)
    requires b < i < |s| && !KeySeparator(s[i]) && !StartsWord(u, s[b..i], s[i..]) && IsSlice(u, s, b, i + 1)
    ensures IsSlice(u, s, b, i)
  {
    CutMeans(u, s, b, i);
    hide StartsWord, KeySeparator, Cut, Slices;
  }

  /** A word under way since position `b` becomes the slice up to the next cut. */
  lemma {:induction false} WordIsSlice(u: Unicode, s: string, b: nat, i: nat)
    requires b < i <= |s|
    ensures IsSlice(u, s, b, i)
    decreases |s| - i, 0
  {
    if i < |s| {
      hide IsSlice, StartsWord, KeySeparator, KeyWords, Slices, WordEnd;
      if KeySeparator(s[i]) {
        KeyWordsAreSlices(u, s, i + 1);
        SeparatorEndsSlice(u, s, b, i);
      } else if StartsWord(u, s[b..i], s[i..]) {
        WordIsSlice(u, s, i, i + 1);
        StartEndsSlice(u, s, b, i);
      } else {
        WordIsSlice(u, s, b, i + 1);
        SliceGoesOn(u, s, b, i);
      }
    }
  }

  /** A word of the text from `b` to `e`: it starts at no separator and runs to the first cut after that. */
  ghost predicate IsWordAt(u: Unicode, s: string, w: string, b: nat, e: nat) {
    && b < e <= |s| && w == s[b..e]
    && !KeySeparator(s[b])
    && (e < |s| ==> Cut(u, s, e))
    && forall k :: b < k < e ==> !Cut(u, s, k)
  }

  lemma {:induction false} SlicesAreWords(u: Unicode, s: string, i: nat, w: string)
    requires i <= |s| && w in Slices(u, s, i)
    ensures exists b, e :: IsWordAt(u, s, w, b, e)
    decreases |s| - i
  {
    if KeySeparator(s[i]) {
      SlicesAreWords(u, s, i + 1, w);
    } else {
      var e := WordEnd(u, s, i + 1);
      WordEndIsNextCut(u, s, i + 1);
      if w == s[i..e] {
        assert IsWordAt(u, s, w, i, e);
      } else {
        SlicesAreWords(u, s, e, w);
      }
    }
  }

  /** Every word of a key is a piece of the text that starts at no separator and runs to the next cut. */
  lemma KeyWordsRunToCuts(u: Unicode, s: string, w: string)
    requires w in KeyWords(u, s, "")
    ensures exists b, e :: IsWordAt(u, s, w, b, e)
  {
    assert s[0..] == s;
    KeyWordsAreSlices(u, s, 0);
    SlicesAreWords(u, s, 0, w);
  }
}
