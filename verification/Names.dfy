/** Workflow identities: names become slugs, message IDs are percent-encoded. */
module Names {
  import Text
  import opened Words

  // ---------------------------------------------------------------------------
  // Slugs
  // ---------------------------------------------------------------------------

  function LowerWords(u: Unicode, ws: seq<string>): (r: seq<string>)
    ensures |r| == |ws| && forall i :: 0 <= i < |ws| ==> r[i] == u.lower(ws[i])
  {
    seq(|ws|, i requires 0 <= i < |ws| => u.lower(ws[i]))
  }

  function Join(ws: seq<string>): string {
    if ws == [] then "" else if |ws| == 1 then ws[0] else ws[0] + "_" + Join(ws[1..])
  }

  function IdentityName(u: Unicode, value: string): string {
    Join(LowerWords(u, SlugWords(u, value, "")))
  }

  /** A non-empty word of small ASCII letters and digits. */
  predicate SlugWord(w: string) {
    w != "" && forall i :: 0 <= i < |w| ==> IsLower(w[i]) || Text.IsDigit(w[i])
  }

  /** A slug's words are made of kept characters of the text. */
  lemma {:induction false} SlugWordsAreKept(u: Unicode, s: string, current: string)
    requires forall i :: 0 <= i < |current| ==> Kept(u, current[i])
    ensures forall w <- SlugWords(u, s, current) ::
              w != "" && forall i :: 0 <= i < |w| ==> Kept(u, w[i]) && (w[i] in s || w[i] in current)
  {
    hide Kept, SlugSeparator;
    if s != "" {
      assert s[0] in s && forall c :: c in s[1..] ==> c in s;
      SlugWordsAreKept(u, s[1..], "");
      SlugWordsAreKept(u, s[1..], current);
      if Kept(u, s[0]) {
        SlugWordsAreKept(u, s[1..], [s[0]]);
        SlugWordsAreKept(u, s[1..], current + [s[0]]);
      }
    }
  }

  /** The words of an ASCII name's slug are non-empty, of small letters and digits. */
  lemma SlugsHaveSlugWords(u: Unicode, value: string)
    requires Standard(u) && Ascii(value)
    ensures forall w <- LowerWords(u, SlugWords(u, value, "")) :: SlugWord(w)
  {
    SlugWordsAreKept(u, value, "");
    var ws := SlugWords(u, value, "");
    hide SlugWords;
    forall i | 0 <= i < |ws| ensures SlugWord(u.lower(ws[i])) {
      assert ws[i] in ws;
      assert Ascii(ws[i]) by {
        forall j | 0 <= j < |ws[i]| ensures IsAscii(ws[i][j]) {
          assert ws[i][j] in value;
        }
      }
    }
  }

  // ---------------------------------------------------------------------------
  // When a slug is a fixed point
  // ---------------------------------------------------------------------------

  /** Spaces, underscores, hyphens, slashes and dots separate words and belong to none. */
  lemma {:induction false} SeparatorSplits(u: Unicode, w: string, c: char, rest: string, current: string)
    requires Standard(u) && c in " _-/."
    ensures SlugWords(u, w + [c] + rest, current) == SlugWords(u, w, current) + SlugWords(u, rest, "")
  {
    var s := w + [c] + rest;
    if w == "" {
      assert s[0] == c && s[1..] == rest;
    } else {
      assert s[0] == w[0] && s[1..] == w[1..] + [c] + rest;
      SameStart(u, w, c, rest, current);
      SeparatorSplits(u, w[1..], c, rest, "");
      SeparatorSplits(u, w[1..], c, rest, current);
      SeparatorSplits(u, w[1..], c, rest, [w[0]]);
      SeparatorSplits(u, w[1..], c, rest, current + [w[0]]);
      hide SlugSeparator, Kept, StartsWord, Standard;
      Regroup(Flush(current), "", SlugWords(u, rest, ""));
    }
  }

  lemma SameStart(u: Unicode, w: string, c: char, rest: string, current: string)
    requires Standard(u) && w != "" && c in " _-/."
    ensures StartsWord(u, current, w + [c] + rest) == StartsWord(u, current, w)
  {
    assert |w| == 1 ==> (w + [c] + rest)[1] == c;
    assert |w| > 1 ==> (w + [c] + rest)[1] == w[1];
    assert (w + [c] + rest)[0] == w[0];
  }

  /** The words of each word, in order. */
  function Pieces(u: Unicode, ws: seq<string>): seq<string> {
    if ws == [] then [] else SlugWords(u, ws[0], "") + Pieces(u, ws[1..])
  }

  lemma {:induction false} WordsOfJoin(u: Unicode, ws: seq<string>)
    requires Standard(u)
    ensures SlugWords(u, Join(ws), "") == Pieces(u, ws)
  {
    if |ws| == 1 {
      assert Pieces(u, ws[1..]) == [];
    } else if ws != [] {
      SeparatorSplits(u, ws[0], '_', Join(ws[1..]), "");
      assert ws[0] + "_" + Join(ws[1..]) == ws[0] + ['_'] + Join(ws[1..]);
      WordsOfJoin(u, ws[1..]);
    }
  }

  /** All of `s` goes on with the word under way: kept characters, none of which starts a word. */
  predicate GoesOn(u: Unicode, current: string, s: string) {
    forall i :: 0 <= i < |s| ==> Kept(u, s[i]) && !StartsWord(u, current + s[..i], s[i..])
  }

  /** Letters and digits, already lower-case, none of which starts a new word. */
  predicate FixedWord(u: Unicode, w: string) {
    w != "" && GoesOn(u, "", w) && u.lower(w) == w
  }

  lemma GoesOnStep(u: Unicode, current: string, s: string)
    requires s != ""
    ensures GoesOn(u, current, s) <==>
            Kept(u, s[0]) && !StartsWord(u, current, s) && GoesOn(u, current + [s[0]], s[1..])
  {
    hide Kept, StartsWord;
    var next, rest := current + [s[0]], s[1..];
    assert current + s[..0] == current && s[0..] == s;
    assert forall i :: 0 <= i < |rest| ==> rest[i] == s[i + 1] && next + rest[..i] == current + s[..i + 1] && rest[i..] == s[i + 1..];
    if GoesOn(u, current, s) {
      forall i | 0 <= i < |rest| ensures Kept(u, rest[i]) && !StartsWord(u, next + rest[..i], rest[i..]) {
        assert Kept(u, s[i + 1]) && !StartsWord(u, current + s[..i + 1], s[i + 1..]);
      }
    } else if Kept(u, s[0]) && !StartsWord(u, current, s) {
      var i :| 0 <= i < |s| && !(Kept(u, s[i]) && !StartsWord(u, current + s[..i], s[i..]));
      assert i > 0;
      assert !(Kept(u, rest[i - 1]) && !StartsWord(u, next + rest[..i - 1], rest[i - 1..]));
    }
  }

  /** A text that is not kept whole is not its own word. */
  lemma LosesCharacter(u: Unicode, s: string, current: string)
    requires s != "" && !Kept(u, s[0])
    ensures SlugWords(u, s, current) != [current + s]
  {
    SlugWordsConserve(u, s, current);
    PlainIsShorter(u, s[1..]);
    assert Concat([current + s]) == current + s;
  }

  /** The text goes on with the word under way if and only if that gives one word. */
  lemma {:induction false} OneWordIff(u: Unicode, s: string, current: string)
    requires current + s != ""
    ensures SlugWords(u, s, current) == [current + s] <==> GoesOn(u, current, s)
  {
    if s == "" {
      assert current + s == current;
    } else {
      GoesOnStep(u, current, s);
      if !Kept(u, s[0]) {
        LosesCharacter(u, s, current);
      } else {
        OneWordIff(u, s[1..], current + [s[0]]);
        hide GoesOn, Kept, SlugSeparator;
        assert current + [s[0]] + s[1..] == current + s;
        if StartsWord(u, current, s) {
          assert SlugWords(u, s, current)[0] == current && |current| < |current + s|;
        }
      }
    }
  }

  /** Such a word is its own slug, and no other is. */
  lemma FixedWordIff(u: Unicode, w: string)
    ensures FixedWord(u, w) <==> SlugWords(u, w, "") == [w] && u.lower(w) == w
  {
    if w != "" {
      OneWordIff(u, w, "");
      assert "" + w == w;
    }
  }

  lemma {:induction false} PiecesOfFixed(u: Unicode, ws: seq<string>)
    requires forall w <- ws :: SlugWords(u, w, "") == [w]
    ensures Pieces(u, ws) == ws
  {
    hide SlugWords;
    if ws != [] {
      assert ws[0] in ws;
      PiecesOfFixed(u, ws[1..]);
    }
  }

  /** A slug of fixed words is a fixed point. */
  lemma FixedWordsMakeFixedSlugs(u: Unicode, value: string)
    requires Standard(u) && forall w <- LowerWords(u, SlugWords(u, value, "")) :: FixedWord(u, w)
    ensures IdentityName(u, IdentityName(u, value)) == IdentityName(u, value)
  {
    var ws := LowerWords(u, SlugWords(u, value, ""));
    WordsOfJoin(u, ws);
    hide FixedWord, Standard, SlugWords;
    forall w | w in ws ensures SlugWords(u, w, "") == [w] && u.lower(w) == w {
      FixedWordIff(u, w);
    }
    PiecesOfFixed(u, ws);
    assert LowerWords(u, ws) == ws by {
      assert forall i :: 0 <= i < |ws| ==> ws[i] in ws;
    }
  }

  predicate Joinable(w: string) {
    w != "" && '_' !in w
  }

  lemma {:induction false} JoinStartsWith(ws: seq<string>)
    requires ws != [] && forall w <- ws :: Joinable(w)
    ensures Join(ws) != "" && ('_' in Join(ws) <==> |ws| > 1)
  {
    assert Joinable(ws[0]);
    if |ws| > 1 {
      assert Join(ws)[|ws[0]|] == '_';
    }
  }

  /** Joined words can be told apart. */
  lemma {:induction false} JoinInjective(xs: seq<string>, ys: seq<string>)
    requires (forall w <- xs :: Joinable(w)) && (forall w <- ys :: Joinable(w))
    requires Join(xs) == Join(ys)
    ensures xs == ys
  {
    if xs != [] {
      JoinStartsWith(xs);
    }
    if ys != [] {
      JoinStartsWith(ys);
    }
    if |xs| > 1 {
      assert Joinable(xs[0]) && Joinable(ys[0]);
      assert xs[0] + ['_'] + Join(xs[1..]) == ys[0] + ['_'] + Join(ys[1..]);
      Text.SplitAtFirst(xs[0], ys[0], Join(xs[1..]), Join(ys[1..]), '_');
      JoinInjective(xs[1..], ys[1..]);
      assert xs == [xs[0]] + xs[1..] && ys == [ys[0]] + ys[1..];
    }
  }

  /** The length of all words together. */
  function Length(ws: seq<string>): nat {
    if ws == [] then 0 else |ws[0]| + Length(ws[1..])
  }

  lemma {:induction false} LengthOfConcat(ws: seq<string>)
    ensures |Concat(ws)| == Length(ws)
  {
    if ws != [] {
      LengthOfConcat(ws[1..]);
    }
  }

  lemma {:induction false} LengthsAdd(xs: seq<string>, ys: seq<string>)
    ensures Length(xs + ys) == Length(xs) + Length(ys)
  {
    if xs == [] {
      assert xs + ys == ys;
    } else {
      LengthsAdd(xs[1..], ys);
      assert (xs + ys)[0] == xs[0] && (xs + ys)[1..] == xs[1..] + ys;
    }
  }

  lemma {:induction false} PlainIsShorter(u: Unicode, s: string)
    ensures |Plain(u, s)| <= |s| && (|Plain(u, s)| == |s| ==> Plain(u, s) == s)
  {
    if s != "" {
      PlainIsShorter(u, s[1..]);
    }
  }

  /** The words of one text: no longer than the text; if as long, at least one; if one, the text itself. */
  lemma WordsOfOne(u: Unicode, w: string)
    requires w != ""
    ensures var ps := SlugWords(u, w, "");
            && Length(ps) <= |w|
            && (Length(ps) == |w| ==> |ps| >= 1)
            && (Length(ps) == |w| && |ps| == 1 ==> ps == [w])
  {
    var ps := SlugWords(u, w, "");
    SlugWordsConserve(u, w, "");
    LengthOfConcat(ps);
    PlainIsShorter(u, w);
    assert "" + Plain(u, w) == Plain(u, w);
    if |ps| == 1 {
      assert ps[1..] == [] && Concat(ps) == ps[0];
    }
  }

  /** If nothing is lost, and each word stays one word, each word is its own one word. */
  lemma {:induction false} PiecesBound(u: Unicode, ws: seq<string>)
    requires forall w <- ws :: w != ""
    ensures Length(Pieces(u, ws)) <= Length(ws)
    ensures Length(Pieces(u, ws)) == Length(ws) ==>
              |Pieces(u, ws)| >= |ws| && (|Pieces(u, ws)| == |ws| ==> forall w <- ws :: SlugWords(u, w, "") == [w])
  {
    hide SlugWords;
    if ws != [] {
      assert ws[0] in ws;
      assert forall w <- ws[1..] :: w in ws;
      WordsOfOne(u, ws[0]);
      PiecesBound(u, ws[1..]);
      LengthsAdd(SlugWords(u, ws[0], ""), Pieces(u, ws[1..]));
      assert forall w <- ws :: w == ws[0] || w in ws[1..];
    }
  }

  lemma {:induction false} LowerIsNoLonger(u: Unicode, ps: seq<string>)
    requires forall p <- ps :: |u.lower(p)| <= |p|
    ensures Length(LowerWords(u, ps)) <= Length(ps)
  {
    if ps != [] {
      assert ps[0] in ps;
      LowerIsNoLonger(u, ps[1..]);
      assert LowerWords(u, ps)[1..] == LowerWords(u, ps[1..]);
    }
  }

  /** Pieces are non-empty, without underscores and made of characters of one of the words. */
  lemma {:induction false} PiecesAreKept(u: Unicode, ws: seq<string>, p: string)
    requires p in Pieces(u, ws)
    ensures Joinable(p) && exists w <- ws :: MadeOf(p, w)
  {
    hide SlugWords;
    if p in SlugWords(u, ws[0], "") {
      SlugWordsAreKept(u, ws[0], "");
      assert MadeOf(p, ws[0]) && ws[0] in ws;
      assert !Kept(u, '_');
    } else {
      PiecesAreKept(u, ws[1..], p);
    }
  }

  /** Lower-cased slug words can be joined. */
  lemma LoweredAreJoinable(u: Unicode, ps: seq<string>)
    requires Lowers(u) && forall p <- ps :: Joinable(p)
    ensures forall w <- LowerWords(u, ps) :: Joinable(w)
  {
    forall i | 0 <= i < |ps| ensures Joinable(u.lower(ps[i])) {
      assert ps[i] in ps;
    }
  }

  /** A fixed slug consists of fixed words. */
  lemma FixedSlugsHaveFixedWords(u: Unicode, value: string)
    requires Standard(u) && Lowers(u) && IdentityName(u, IdentityName(u, value)) == IdentityName(u, value)
    ensures forall w <- LowerWords(u, SlugWords(u, value, "")) :: FixedWord(u, w)
  {
    var first := SlugWords(u, value, "");
    var ws := LowerWords(u, first);
    var ps := Pieces(u, ws);
    WordsOfJoin(u, ws);
    hide SlugWords, FixedWord;
    forall p | p in first ensures Joinable(p) {
      SlugWordsAreKept(u, value, "");
      assert !Kept(u, '_');
    }
    LoweredAreJoinable(u, first);
    forall p | p in ps ensures Joinable(p) && |u.lower(p)| <= |p| {
      PiecesAreKept(u, ws, p);
      var w :| w in ws && MadeOf(p, w);
    }
    LoweredAreJoinable(u, ps);
    JoinInjective(LowerWords(u, ps), ws);
    LowerIsNoLonger(u, ps);
    assert forall w <- ws :: w != "" by {
      assert forall w <- ws :: Joinable(w);
    }
    PiecesBound(u, ws);
    PiecesOfFixed(u, ws);
    forall w | w in ws ensures FixedWord(u, w) {
      var i :| 0 <= i < |ws| && ws[i] == w;
      FixedWordIff(u, w);
    }
  }

  /** For every text: naming its slug gives the slug if and only if each word of the slug is lower-case, made of
      letters and digits, and without a character that starts a new word. */
  lemma IdempotentIff(u: Unicode, value: string)
    requires Standard(u) && Lowers(u)
    ensures IdentityName(u, IdentityName(u, value)) == IdentityName(u, value)
            <==> forall w <- LowerWords(u, SlugWords(u, value, "")) :: FixedWord(u, w)
  {
    if IdentityName(u, IdentityName(u, value)) == IdentityName(u, value) {
      FixedSlugsHaveFixedWords(u, value);
    } else if forall w <- LowerWords(u, SlugWords(u, value, "")) :: FixedWord(u, w) {
      FixedWordsMakeFixedSlugs(u, value);
    }
  }

  /** Small ASCII letters and digits never start a word. */
  lemma SlugWordIsFixed(u: Unicode, w: string)
    requires Standard(u) && SlugWord(w)
    ensures FixedWord(u, w)
  {
    assert Ascii(w);
    assert LowerWord(w) == w;
  }

  /** Slugs of ASCII names are fixed points: naming such a slug gives the slug. */
  lemma IdentityNameIdempotent(u: Unicode, value: string)
    requires Standard(u) && Ascii(value)
    ensures IdentityName(u, IdentityName(u, value)) == IdentityName(u, value)
  {
    SlugsHaveSlugWords(u, value);
    forall w | w in LowerWords(u, SlugWords(u, value, "")) ensures FixedWord(u, w) {
      SlugWordIsFixed(u, w);
    }
    FixedWordsMakeFixedSlugs(u, value);
  }

  /** The capital I with a dot, U+0130, has no fixed slug: it lower-cases to a small i and a combining dot,
      U+0307, and that word by itself loses the dot. */
  lemma DottedCapitalIsNoFixedPoint(u: Unicode)
    requires Standard(u) && Lowers(u)
    requires !u.isSpace('\U{130}') && u.isAlpha('\U{130}') && u.lower(['\U{130}']) == ['i', '\U{307}']
    requires !u.isSpace('\U{307}') && !u.isAlpha('\U{307}') && !u.isDigit('\U{307}')
    ensures IdentityName(u, IdentityName(u, ['\U{130}'])) != IdentityName(u, ['\U{130}'])
  {
    var dotted, word := ['\U{130}'], ['i', '\U{307}'];
    assert SlugWords(u, dotted, "") == [dotted] by {
      assert dotted[1..] == "" && "" + dotted == dotted;
    }
    assert LowerWords(u, [dotted])[0] == word;
    assert !Kept(u, word[1]);
    assert !FixedWord(u, word) && word in LowerWords(u, SlugWords(u, dotted, ""));
    IdempotentIff(u, dotted);
  }

  /** Nor has a capital without a small form, as U+1D400, behind another capital: lower-cased, the other one
      is small, and a second pass starts a word between the two. */
  lemma LoneCapitalIsNoFixedPoint(u: Unicode, c: char)
    requires Standard(u) && Lowers(u)
    requires !IsAscii(c) && !u.isSpace(c) && u.isAlpha(c) && u.isUpper(c) && u.lower(['A', c]) == ['a', c]
    ensures IdentityName(u, IdentityName(u, ['A', c])) != IdentityName(u, ['A', c])
  {
    var name, word := ['A', c], ['a', c];
    assert SlugWords(u, name, "") == [name] by {
      assert name[1..] == [c] && [c][1..] == "" && "" + ['A'] == ['A'] && ['A'] + [c] == name;
      assert SlugWords(u, [c], ['A']) == SlugWords(u, "", name);
    }
    assert LowerWords(u, [name])[0] == word;
    assert StartsWord(u, "" + word[..1], word[1..]);
    assert !FixedWord(u, word) && word in LowerWords(u, SlugWords(u, name, ""));
    IdempotentIff(u, name);
  }

  lemma {:induction false} JoinSplits(ws: seq<string>)
    requires ws != [] && forall w <- ws :: Joinable(w)
    ensures Text.SplitOn('_', Join(ws), "") == ws
  {
    assert Joinable(ws[0]) && "" + ws[0] == ws[0];
    if |ws| == 1 {
      Text.SplitWhole('_', ws[0], "");
    } else {
      JoinSplits(ws[1..]);
      Text.SplitFirst('_', ws[0], Join(ws[1..]), "");
    }
  }

  /** A slug spells its words in small letters, with an underscore between each two. */
  lemma SlugSpellsWords(u: Unicode, value: string)
    requires Standard(u) && Lowers(u) && SlugWords(u, value, "") != []
    ensures Text.SplitOn('_', IdentityName(u, value), "") == LowerWords(u, SlugWords(u, value, ""))
  {
    var first := SlugWords(u, value, "");
    forall p | p in first ensures Joinable(p) {
      SlugWordsAreKept(u, value, "");
      assert !Kept(u, '_');
    }
    hide SlugWords;
    LoweredAreJoinable(u, first);
    JoinSplits(LowerWords(u, first));
  }

  lemma {:induction false} JoinHasNoSlash(ws: seq<string>)
    requires forall w <- ws :: '/' !in w
    ensures '/' !in Join(ws)
  {
    if |ws| > 1 {
      assert '/' !in ws[0];
      JoinHasNoSlash(ws[1..]);
    }
  }

  /** A slug of any text has no slash. */
  lemma SlugHasNoSlash(u: Unicode, value: string)
    requires Standard(u)
    ensures '/' !in IdentityName(u, value)
  {
    SlugWordsAreKept(u, value, "");
    var ws := SlugWords(u, value, "");
    hide SlugWords;
    forall i | 0 <= i < |ws| ensures '/' !in u.lower(ws[i]) {
      assert ws[i] in ws;
      assert !Kept(u, '/');
    }
    JoinHasNoSlash(LowerWords(u, ws));
  }

  // ---------------------------------------------------------------------------
  // Percent-encoding
  // ---------------------------------------------------------------------------

  type Byte = n: int | 0 <= n < 256

  /** The unreserved characters of section 2.3 of RFC 3986. */
  predicate Unreserved(b: Byte) {
    var c := b as char;
    IsUpper(c) || IsLower(c) || Text.IsDigit(c) || c == '-' || c == '.' || c == '_' || c == '~'
  }

  function Hex(n: nat): (c: char)
    requires n < 16
  {
    if n < 10 then '0' + n as char else 'A' + (n - 10) as char
  }

  function Encode(bs: seq<Byte>): string {
    if bs == [] then ""
    else (if Unreserved(bs[0]) then [bs[0] as char] else ['%', Hex(bs[0] / 16), Hex(bs[0] % 16)]) + Encode(bs[1..])
  }

  function Nibble(c: char): (n: int)
    ensures -1 <= n < 16
  {
    if Text.IsDigit(c) then (c - '0') as int else if 'A' <= c <= 'F' then (c - 'A') as int + 10 else -1
  }

  datatype Option<T> = None | Some(value: T)

  /** The decoder of section 2.1 of RFC 3986. */
  function Decode(s: string): Option<seq<Byte>> {
    if s == "" then Some([])
    else if s[0] == '%' then
      if |s| < 3 || Nibble(s[1]) < 0 || Nibble(s[2]) < 0 then None
      else
        var rest := Decode(s[3..]);
        if rest.None? then None else Some([Nibble(s[1]) * 16 + Nibble(s[2])] + rest.value)
    else if s[0] as int >= 256 || !Unreserved(s[0] as int) then None
    else
      var rest := Decode(s[1..]);
      if rest.None? then None else Some([s[0] as int] + rest.value)
  }

  /** Decoding gives back the bytes, and an encoded text has no slash. */
  lemma {:induction false} EncodeRoundTrip(bs: seq<Byte>)
    ensures Decode(Encode(bs)) == Some(bs) && '/' !in Encode(bs)
  {
    if bs != [] {
      var s, rest := Encode(bs), Encode(bs[1..]);
      EncodeRoundTrip(bs[1..]);
      if Unreserved(bs[0]) {
        assert s[0] == bs[0] as char && s[1..] == rest;
      } else {
        assert s[0] == '%' && s[1] == Hex(bs[0] / 16) && s[2] == Hex(bs[0] % 16) && s[3..] == rest;
      }
      assert [bs[0]] + bs[1..] == bs;
    }
  }

  /** ASCII letters, digits, '-', '.', '_' and '~' stand for themselves, and any other byte is spelled by its two
      hexadecimal digits. */
  lemma EncodeSpells(b: Byte, bs: seq<Byte>)
    ensures var n: int := b;
            Encode([b] + bs) ==
            (if 65 <= n <= 90 || 97 <= n <= 122 || 48 <= n <= 57 || n == 45 || n == 46 || n == 95 || n == 126 then [b as char]
             else ['%', "0123456789ABCDEF"[b / 16], "0123456789ABCDEF"[b % 16]]) + Encode(bs)
  {
    assert ([b] + bs)[0] == b && ([b] + bs)[1..] == bs;
    HexIs(b / 16);
    HexIs(b % 16);
    hide Hex;
  }

  lemma HexIs(n: nat)
    requires n < 16
    ensures Hex(n) == "0123456789ABCDEF"[n]
  {
  }

  /** UTF-8, section 3 of RFC 3629: a character as one to four bytes. */
  function Utf8(c: char): (bs: seq<Byte>)
    ensures bs != []
  {
    var n := c as int;
    if n < 0x80 then [n]
    else if n < 0x800 then [0xC0 + n / 64, 0x80 + n % 64]
    else if n < 0x10000 then [0xE0 + n / 4096, 0x80 + n / 64 % 64, 0x80 + n % 64]
    else [0xF0 + n / 262144, 0x80 + n / 4096 % 64, 0x80 + n / 64 % 64, 0x80 + n % 64]
  }

  function Utf8Text(s: string): seq<Byte> {
    if s == "" then [] else Utf8(s[0]) + Utf8Text(s[1..])
  }

  /** Characters of two, three and four bytes: U+00E9, U+20AC and U+1F600. */
  lemma KnownBytes()
    ensures Utf8('\U{E9}') == [0xC3, 0xA9] && Utf8('\U{20AC}') == [0xE2, 0x82, 0xAC]
    ensures Utf8('\U{1F600}') == [0xF0, 0x9F, 0x98, 0x80]
  {
  }

  /** The code point that a character's bytes stand for. */
  function CodePoint(bs: seq<Byte>): int
    requires bs != []
  {
    if bs[0] < 0x80 then bs[0]
    else if bs[0] < 0xE0 then if |bs| < 2 then -1 else (bs[0] as int - 0xC0) * 64 + (bs[1] as int - 0x80)
    else if bs[0] < 0xF0 then if |bs| < 3 then -1 else (bs[0] as int - 0xE0) * 4096 + (bs[1] as int - 0x80) * 64 + (bs[2] as int - 0x80)
    else if |bs| < 4 then -1
    else (bs[0] as int - 0xF0) * 262144 + (bs[1] as int - 0x80) * 4096 + (bs[2] as int - 0x80) * 64 + (bs[3] as int - 0x80)
  }

  lemma Utf8Read(c: char, rest: seq<Byte>)
    ensures CodePoint(Utf8(c) + rest) == c as int
  {
    var n := c as int;
    assert n == n / 64 * 64 + n % 64 && n / 64 / 64 == n / 4096 && n / 4096 / 64 == n / 262144;
    assert n / 64 == n / 4096 * 64 + n / 64 % 64 && n / 4096 == n / 262144 * 64 + n / 4096 % 64;
  }

  lemma {:induction false} Utf8Injective(s: string, t: string)
    requires Utf8Text(s) == Utf8Text(t)
    ensures s == t
  {
    if s != "" && t != "" {
      Utf8Read(s[0], Utf8Text(s[1..]));
      Utf8Read(t[0], Utf8Text(t[1..]));
      assert s[0] == t[0];
      var k := |Utf8(s[0])|;
      assert Utf8Text(s)[k..] == Utf8Text(s[1..]) && Utf8Text(t)[k..] == Utf8Text(t[1..]);
      Utf8Injective(s[1..], t[1..]);
      assert s == [s[0]] + s[1..] && t == [t[0]] + t[1..];
    }
  }

  /** A message ID as one component of an identity. */
  function OpaqueComponent(value: string): string {
    Encode(Utf8Text(value))
  }

  /** Percent-encoding is injective and leaves no slash. */
  lemma OpaqueComponentInjective(s: string, t: string)
    ensures OpaqueComponent(s) == OpaqueComponent(t) <==> s == t
    ensures '/' !in OpaqueComponent(s)
  {
    EncodeRoundTrip(Utf8Text(s));
    EncodeRoundTrip(Utf8Text(t));
    if Utf8Text(s) == Utf8Text(t) {
      Utf8Injective(s, t);
    }
  }

  // ---------------------------------------------------------------------------
  // Workflow IDs
  // ---------------------------------------------------------------------------

  function EndpointWorkflowId(u: Unicode, connector: string, endpoint: string, message: string): string {
    IdentityName(u, connector) + "/endpoint/" + IdentityName(u, endpoint) + "/" + OpaqueComponent(message)
  }

  function ScheduleWorkflowId(u: Unicode, connector: string, endpoint: string): string {
    IdentityName(u, connector) + "/schedule/" + IdentityName(u, endpoint)
  }

  lemma EndpointIdParts(u: Unicode, connector: string, endpoint: string, message: string)
    ensures EndpointWorkflowId(u, connector, endpoint, message) ==
            IdentityName(u, connector) + ['/'] + ("endpoint" + ['/'] + (IdentityName(u, endpoint) + ['/'] + OpaqueComponent(message)))
  {
    hide IdentityName, OpaqueComponent;
  }

  lemma ScheduleIdParts(u: Unicode, connector: string, endpoint: string)
    ensures ScheduleWorkflowId(u, connector, endpoint) ==
            IdentityName(u, connector) + ['/'] + ("schedule" + ['/'] + IdentityName(u, endpoint))
  {
    hide IdentityName;
  }

  /** The components of an endpoint's workflow ID, between its slashes. */
  lemma EndpointIdComponents(u: Unicode, connector: string, endpoint: string, message: string)
    requires Standard(u)
    ensures Text.SplitOn('/', EndpointWorkflowId(u, connector, endpoint, message), "") ==
            [IdentityName(u, connector), "endpoint", IdentityName(u, endpoint), OpaqueComponent(message)]
  {
    EndpointIdParts(u, connector, endpoint, message);
    SlugHasNoSlash(u, connector);
    SlugHasNoSlash(u, endpoint);
    OpaqueComponentInjective(message, message);
    hide IdentityName, OpaqueComponent, EndpointWorkflowId, Text.SplitOn, Standard;
    var c, e, m := IdentityName(u, connector), IdentityName(u, endpoint), OpaqueComponent(message);
    Text.SplitFirst('/', c, "endpoint" + ['/'] + (e + ['/'] + m), "");
    Text.SplitFirst('/', "endpoint", e + ['/'] + m, "");
    Text.SplitFirst('/', e, m, "");
    Text.SplitWhole('/', m, "");
    assert "" + c == c && "" + e == e && "" + m == m && "" + "endpoint" == "endpoint";
  }

  /** And of a schedule's. */
  lemma ScheduleIdComponents(u: Unicode, connector: string, endpoint: string)
    requires Standard(u)
    ensures Text.SplitOn('/', ScheduleWorkflowId(u, connector, endpoint), "") ==
            [IdentityName(u, connector), "schedule", IdentityName(u, endpoint)]
  {
    ScheduleIdParts(u, connector, endpoint);
    SlugHasNoSlash(u, connector);
    SlugHasNoSlash(u, endpoint);
    hide IdentityName, ScheduleWorkflowId, Text.SplitOn, Standard;
    var c, e := IdentityName(u, connector), IdentityName(u, endpoint);
    Text.SplitFirst('/', c, "schedule" + ['/'] + e, "");
    Text.SplitFirst('/', "schedule", e, "");
    Text.SplitWhole('/', e, "");
    assert "" + c == c && "" + e == e && "" + "schedule" == "schedule";
  }

  /** Two endpoint workflow IDs are equal exactly when the connector slugs, the endpoint slugs and the
      message IDs are. */
  lemma EndpointIdsAreInjective(u: Unicode, c1: string, e1: string, m1: string, c2: string, e2: string, m2: string)
    requires Standard(u)
    ensures EndpointWorkflowId(u, c1, e1, m1) == EndpointWorkflowId(u, c2, e2, m2)
            <==> IdentityName(u, c1) == IdentityName(u, c2) && IdentityName(u, e1) == IdentityName(u, e2) && m1 == m2
  {
    if EndpointWorkflowId(u, c1, e1, m1) == EndpointWorkflowId(u, c2, e2, m2) {
      EndpointIdParts(u, c1, e1, m1);
      EndpointIdParts(u, c2, e2, m2);
      SlugHasNoSlash(u, c1);
      SlugHasNoSlash(u, c2);
      SlugHasNoSlash(u, e1);
      SlugHasNoSlash(u, e2);
      hide IdentityName, OpaqueComponent, EndpointWorkflowId;
      var t1, t2 := IdentityName(u, e1) + ['/'] + OpaqueComponent(m1), IdentityName(u, e2) + ['/'] + OpaqueComponent(m2);
      Text.SplitAtFirst(IdentityName(u, c1), IdentityName(u, c2), "endpoint" + ['/'] + t1, "endpoint" + ['/'] + t2, '/');
      Text.SplitAtFirst("endpoint", "endpoint", t1, t2, '/');
      Text.SplitAtFirst(IdentityName(u, e1), IdentityName(u, e2), OpaqueComponent(m1), OpaqueComponent(m2), '/');
      OpaqueComponentInjective(m1, m2);
    }
  }

  /** No endpoint workflow ID is a schedule workflow ID. */
  lemma EndpointIdIsNoScheduleId(u: Unicode, c1: string, e1: string, m1: string, c2: string, e2: string)
    requires Standard(u)
    ensures EndpointWorkflowId(u, c1, e1, m1) != ScheduleWorkflowId(u, c2, e2)
  {
    if EndpointWorkflowId(u, c1, e1, m1) == ScheduleWorkflowId(u, c2, e2) {
      EndpointIdParts(u, c1, e1, m1);
      ScheduleIdParts(u, c2, e2);
      SlugHasNoSlash(u, c1);
      SlugHasNoSlash(u, c2);
      hide IdentityName, OpaqueComponent, EndpointWorkflowId, ScheduleWorkflowId;
      var t1 := IdentityName(u, e1) + ['/'] + OpaqueComponent(m1);
      Text.SplitAtFirst(IdentityName(u, c1), IdentityName(u, c2), "endpoint" + ['/'] + t1, "schedule" + ['/'] + IdentityName(u, e2), '/');
      Text.SplitAtFirst("endpoint", "schedule", t1, IdentityName(u, e2), '/');
      assert false;
    }
  }
}
