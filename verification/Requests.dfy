/** Request normalisation: runs of whitespace become one space and the ends are stripped. */
module Requests {

  /** The characters that count as whitespace in both the pattern and the strip. */
  predicate IsSpace(c: char) {
    || '\t' <= c <= '\r'
    || '\U{1C}' <= c <= ' '
    || c in {'\U{85}', '\U{A0}', '\U{1680}', '\U{2028}', '\U{2029}', '\U{202F}', '\U{205F}', '\U{3000}'}
    || '\U{2000}' <= c <= '\U{200A}'
  }

  function StripLeft(s: string): (r: string)
    ensures |r| <= |s|
    ensures r != [] ==> !IsSpace(r[0])
  {
    if s != [] && IsSpace(s[0]) then StripLeft(s[1..]) else s
  }

  function StripRight(s: string): string {
    if s != [] && IsSpace(s[|s| - 1]) then StripRight(s[..|s| - 1]) else s
  }

  /** Every maximal run of whitespace replaced by one space. */
  function Collapse(s: string): string
    decreases |s|
  {
    if s == [] then []
    else if IsSpace(s[0]) then [' '] + Collapse(StripLeft(s[1..]))
    else [s[0]] + Collapse(s[1..])
  }

  function Normalize(s: string): string {
    StripRight(StripLeft(Collapse(s)))
  }

  // ----- The reference reading: a text is its words -----

  function FirstWord(s: string): (w: string)
    ensures |w| <= |s| && w == s[..|w|]
    ensures forall c :: c in w ==> !IsSpace(c)
    ensures |w| < |s| ==> IsSpace(s[|w|])
  {
    if s == [] || IsSpace(s[0]) then [] else [s[0]] + FirstWord(s[1..])
  }

  function Words(s: string): seq<string>
    decreases |s|
  {
    var t := StripLeft(s);
    if t == [] then [] else [FirstWord(t)] + Words(t[|FirstWord(t)|..])
  }

  function Spaced(words: seq<string>): string {
    if words == [] then []
    else if |words| == 1 then words[0]
    else words[0] + [' '] + Spaced(words[1..])
  }

  lemma {:induction false} CollapseAfterWord(s: string)
    ensures Collapse(s) == FirstWord(s) + Collapse(s[|FirstWord(s)|..])
    decreases |s|
  {
    if s != [] && !IsSpace(s[0]) {
      CollapseAfterWord(s[1..]);
      assert s[|FirstWord(s)|..] == s[1..][|FirstWord(s[1..])|..];
    } else {
      assert s[0..] == s;
    }
  }

  lemma {:induction false} StripRightKeeps(prefix: string, s: string)
    requires s != [] && !IsSpace(s[0])
    ensures StripRight(prefix + s) == prefix + StripRight(s)
    decreases |s|
  {
    if IsSpace(s[|s| - 1]) {
      assert (prefix + s)[..|prefix + s| - 1] == prefix + s[..|s| - 1];
      StripRightKeeps(prefix, s[..|s| - 1]);
    }
  }

  lemma StripRightOfWord(w: string)
    requires forall c :: c in w ==> !IsSpace(c)
    ensures StripRight(w) == w
    ensures w != [] ==> StripRight(w + [' ']) == w
  {
    assert (w + [' '])[..|w|] == w;
    assert w != [] ==> w[|w| - 1] in w;
  }

  /** From a text that starts with a word, collapsing and stripping yields its words joined by single spaces. */
  lemma {:induction false} NormalizeFromWord(t: string)
    requires t != [] && !IsSpace(t[0])
    ensures Collapse(t) != [] && Collapse(t)[0] == t[0]
    ensures StripRight(Collapse(t)) == Spaced(Words(t))
    decreases |t|
  {
    var w := FirstWord(t);
    var rest := t[|w|..];
    CollapseAfterWord(t);
    assert w != [] && w[0] == t[0];
    assert Words(t) == [w] + Words(rest);
    if rest == [] {
      assert Collapse(t) == w;
      StripRightOfWord(w);
    } else {
      var next := StripLeft(rest);
      assert next == StripLeft(rest[1..]);
      assert Words(rest) == Words(next) by {
        assert StripLeft(next) == next;
      }
      assert Collapse(t) == (w + [' ']) + Collapse(next);
      if next == [] {
        assert Collapse(t) == w + [' '];
        StripRightOfWord(w);
      } else {
        NormalizeFromWord(next);
        StripRightKeeps(w + [' '], Collapse(next));
        assert Words(next) != [];
        assert ([w] + Words(next))[1..] == Words(next);
      }
    }
  }

  lemma StripLeftOfCollapse(s: string)
    ensures StripLeft(Collapse(s)) == Collapse(StripLeft(s))
    ensures Words(s) == Words(StripLeft(s))
  {
    var t := StripLeft(s);
    assert StripLeft(t) == t;
    if t != [] {
      NormalizeFromWord(t);
      assert StripLeft(Collapse(t)) == Collapse(t);
    }
    if s != [] && IsSpace(s[0]) {
      assert StripLeft(s[1..]) == t;
      assert ([' '] + Collapse(t))[1..] == Collapse(t);
    }
  }

  /** Normalising is joining the words with single spaces. */
  lemma NormalizeJoinsWords(s: string)
    ensures Normalize(s) == Spaced(Words(s))
  {
    var t := StripLeft(s);
    StripLeftOfCollapse(s);
    if t != [] {
      NormalizeFromWord(t);
    }
  }

  ghost predicate IsWord(w: string) {
    w != [] && forall c :: c in w ==> !IsSpace(c)
  }

  ghost predicate AreWords(words: seq<string>) {
    forall w :: w in words ==> IsWord(w)
  }

  lemma {:induction false} WordsAreWords(s: string)
    ensures AreWords(Words(s))
    decreases |s|
  {
    var t := StripLeft(s);
    if t != [] {
      WordsAreWords(t[|FirstWord(t)|..]);
    }
  }

  lemma {:induction false} FirstWordIs(w: string, s: string)
    requires forall c :: c in w ==> !IsSpace(c)
    requires s == [] || IsSpace(s[0])
    ensures FirstWord(w + s) == w
  {
    if w == [] {
      assert w + s == s;
    } else {
      FirstWordIs(w[1..], s);
      assert (w + s)[1..] == w[1..] + s;
    }
  }

  lemma WordThenRest(w: string, rest: string)
    requires IsWord(w)
    requires rest == [] || IsSpace(rest[0])
    ensures Words(w + rest) == [w] + Words(rest)
  {
    FirstWordIs(w, rest);
    assert w[0] in w;
    assert StripLeft(w + rest) == w + rest;
    assert (w + rest)[|w|..] == rest;
  }

  lemma SpaceIsSpace()
    ensures IsSpace(' ')
  {
  }

  lemma LeadingSpace(s: string)
    ensures Words([' '] + s) == Words(s)
  {
    assert ([' '] + s)[1..] == s;
    StripLeftOfCollapse([' '] + s);
    StripLeftOfCollapse(s);
  }

  /** Reading back what was joined gives the same words. */
  lemma {:induction false} SpacedWords(words: seq<string>)
    requires AreWords(words)
    ensures Words(Spaced(words)) == words
  {
    hide Words, Spaced;
    if words == [] {
      NoWords();
    } else {
      SpacedWords(words[1..]);
      OneMoreWord(words);
    }
  }

  lemma NoWords()
    ensures Words(Spaced([])) == []
  {
  }

  lemma OneMoreWord(words: seq<string>)
    requires AreWords(words) && words != [] && Words(Spaced(words[1..])) == words[1..]
    ensures Words(Spaced(words)) == words
  {
    hide Words, IsSpace;
    var w, tail := words[0], Spaced(words[1..]);
    assert words == [w] + words[1..] && IsWord(w);
    SpaceIsSpace();
    if |words| == 1 {
      WordThenRest(w, []);
      assert w + [] == w && words[1..] == [];
    } else {
      LeadingSpace(tail);
      WordThenRest(w, [' '] + tail);
      assert Spaced(words) == w + ([' '] + tail);
    }
  }

  /** Two requests normalise to the same text exactly when they have the same words. */
  lemma SameNormalFormMeansSameWords(a: string, b: string)
    ensures Normalize(a) == Normalize(b) <==> Words(a) == Words(b)
  {
    NormalizeJoinsWords(a);
    NormalizeJoinsWords(b);
    WordsAreWords(a);
    WordsAreWords(b);
    SpacedWords(Words(a));
    SpacedWords(Words(b));
  }

  lemma NormalizeIsIdempotent(s: string)
    ensures Normalize(Normalize(s)) == Normalize(s)
  {
    NormalizeJoinsWords(s);
    WordsAreWords(s);
    SpacedWords(Words(s));
    SameNormalFormMeansSameWords(Normalize(s), s);
  }

  /** A lone character is no word exactly when it is one of these code points. */
  lemma SpacesByCodePoint(c: char)
    ensures Words([c]) == [] <==>
              || 9 <= c as int <= 13 || 28 <= c as int <= 32
              || c as int in {133, 160, 5760, 8232, 8233, 8239, 8287, 12288} || 8192 <= c as int <= 8202
  {
    assert [c][1..] == [];
    assert StripLeft([c]) == if IsSpace(c) then [] else [c];
  }

  /** Any of them between two words becomes one space. */
  lemma AnySpaceSeparates(a: string, c: char, b: string)
    requires IsWord(a) && IsWord(b) && Words([c]) == []
    ensures Normalize(a + [c] + b) == a + [' '] + b
  {
    assert StripLeft([c]) == (if IsSpace(c) then [] else [c]);
    WordThenRest(b, []);
    assert b + [] == b;
    var rest := [c] + b;
    assert rest[1..] == b && StripLeft(rest) == StripLeft(b);
    assert Words(rest) == Words(b) == [b];
    WordThenRest(a, rest);
    assert a + rest == a + [c] + b;
    NormalizeJoinsWords(a + [c] + b);
    assert [a] + [b] == [a, b] && [a, b][1..] == [b];
  }
}
