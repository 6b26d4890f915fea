/**
 * Splitting a service name into label lines (splitTextIntoLines). The width of
 * a line is estimated by its number of characters: the allowed count is the
 * box width divided by 0.65 times the font size. Words are packed greedily,
 * separated by one space, and a word longer than a line on its own is cut
 * into pieces of exactly that many characters. The same layout is defined
 * as a function (Wrap of the Tokens of the words), the methods are proved to
 * compute it, and it is proved to be a greedy layout.
 */
module WordWrap {

  /** Characters matched by the JavaScript regular-expression class \s. */
  predicate IsWhitespace(c: char) {
    || c == ' ' || c == '\t' || c == '\n' || c == '\r' || c == '\U{000B}' || c == '\U{000C}'
    || c == '\U{00A0}' || c == '\U{1680}' || ('\U{2000}' <= c <= '\U{200A}')
    || c == '\U{2028}' || c == '\U{2029}' || c == '\U{202F}' || c == '\U{205F}'
    || c == '\U{3000}' || c == '\U{FEFF}'
  }

  ghost predicate NoWhitespace(s: string) {
    forall k :: 0 <= k < |s| ==> !IsWhitespace(s[k])
  }

  /** `s` with every whitespace character removed. */
  function Visible(s: string): string {
    if s == [] then [] else (if IsWhitespace(s[0]) then [] else [s[0]]) + Visible(s[1..])
  }

  /** `s` with every ' ' removed. */
  function WithoutSpaces(s: string): string {
    if s == [] then []
    else if s[0] == ' ' then WithoutSpaces(s[1..])
    else [s[0]] + WithoutSpaces(s[1..])
  }

  /** The strings of `ss` one after another. */
  function Concat(ss: seq<string>): string {
    if ss == [] then [] else ss[0] + Concat(ss[1..])
  }

  /** The maximal run of whitespace at the front of `s` removed. */
  function DropWhitespace(s: string): (r: string)
    ensures |r| <= |s|
    ensures s != [] && IsWhitespace(s[0]) ==> |r| < |s|
    ensures r == [] || !IsWhitespace(r[0])
    ensures Visible(r) == Visible(s)
  {
    if s != [] && IsWhitespace(s[0]) then DropWhitespace(s[1..]) else s
  }

  /**
   * text.split(/\s+/): the pieces between maximal whitespace runs. A leading
   * or trailing run yields an empty first or last piece; "" yields [""].
   */
  function Words(s: string): (r: seq<string>)
    ensures |r| >= 1
    ensures forall k :: 0 <= k < |r| ==> NoWhitespace(r[k])
    ensures Concat(r) == Visible(s)
    // the cuts are exactly the whitespace runs
    ensures JoinWords(r) == Squeeze(s)
    decreases |s|
  {
    if s == [] then [""]
    else if IsWhitespace(s[0]) then
      var w := Words(DropWhitespace(s));
      assert ([""] + w)[1..] == w;
      [""] + w
    else
      var w := Words(s[1..]);
      PrependChar(s[0], w);
      [[s[0]] + w[0]] + w[1..]
  }

  /** A character glued to the front of the first word. */
  lemma PrependChar(c: char, w: seq<string>)
    requires |w| >= 1
    ensures var r := [[c] + w[0]] + w[1..];
            && |r| == |w| && r[0] == [c] + w[0] && r[1..] == w[1..]
            && Concat(r) == [c] + Concat(w) && JoinWords(r) == [c] + JoinWords(w)
  {
    var r := [[c] + w[0]] + w[1..];
    assert r[1..] == w[1..];
  }

  /** `s` with every maximal run of whitespace replaced by a single space. */
  function Squeeze(s: string): string
    decreases |s|
  {
    if s == [] then []
    else if IsWhitespace(s[0]) then " " + Squeeze(DropWhitespace(s))
    else [s[0]] + Squeeze(s[1..])
  }

  /** Words joined by single spaces. */
  function JoinWords(ws: seq<string>): string
    requires |ws| >= 1
    decreases |ws|
  {
    if |ws| == 1 then ws[0] else ws[0] + " " + JoinWords(ws[1..])
  }

  /** JoinWords starts with the first word, followed by a space when more words come. */
  lemma {:induction false} JoinWordsHead(ws: seq<string>)
    requires |ws| >= 1
    ensures |JoinWords(ws)| >= |ws[0]| && JoinWords(ws)[..|ws[0]|] == ws[0]
    ensures |ws| > 1 ==>
              (|JoinWords(ws)| > |ws[0]| && JoinWords(ws)[|ws[0]|] == ' '
               && JoinWords(ws)[|ws[0]| + 1..] == JoinWords(ws[1..]))
    ensures |ws| == 1 ==> |JoinWords(ws)| == |ws[0]|
  {
  }

  /**
   * Joining words without whitespace loses nothing: the words can be read off
   * the joined text again.
   */
  lemma {:induction false} JoinWordsInjective(a: seq<string>, b: seq<string>)
    requires |a| >= 1 && |b| >= 1
    requires forall k :: 0 <= k < |a| ==> NoWhitespace(a[k])
    requires forall k :: 0 <= k < |b| ==> NoWhitespace(b[k])
    requires JoinWords(a) == JoinWords(b)
    ensures a == b
    decreases |a|
  {
    var j := JoinWords(a);
    JoinWordsHead(a);
    JoinWordsHead(b);
    if |a[0]| < |b[0]| {
      assert false;
    } else if |b[0]| < |a[0]| {
      assert false;
    }
    assert a[0] == b[0];
    if |a| > 1 && |b| > 1 {
      JoinWordsInjective(a[1..], b[1..]);
      assert a == [a[0]] + a[1..] && b == [b[0]] + b[1..];
    }
  }

  /** Runs of whitespace are cut, a leading one giving an empty first word. */
  lemma WordsExample()
    ensures Words(" a  b") == ["", "a", "b"]
  {
    SqueezeExample();
    var r := ["", "a", "b"];
    assert r[1..] == ["a", "b"] && r[1..][1..] == ["b"];
    assert JoinWords(r) == " a b";
    WordsDetermined(" a  b", r);
  }

  lemma SqueezeExample()
    ensures Squeeze(" a  b") == " a b"
  {
    assert "b"[1..] == [] && Squeeze("b") == "b";
    assert " b"[1..] == "b" && "  b"[1..] == " b" && DropWhitespace("  b") == "b";
    assert Squeeze("  b") == " b";
    assert "a  b"[1..] == "  b" && Squeeze("a  b") == "a b";
    assert " a  b"[1..] == "a  b" && DropWhitespace(" a  b") == "a  b";
  }

  /** Any list of whitespace-free words that joins to the squeezed text is what split(/\s+/) returns. */
  lemma WordsDetermined(s: string, r: seq<string>)
    requires |r| >= 1 && forall k :: 0 <= k < |r| ==> NoWhitespace(r[k])
    requires JoinWords(r) == Squeeze(s)
    ensures r == Words(s)
  {
    JoinWordsInjective(r, Words(s));
  }

  /** A text without whitespace is a single word. */
  lemma {:induction false} WordsOfWord(s: string)
    requires NoWhitespace(s)
    ensures Words(s) == [s]
  {
    if s != [] {
      WordsOfWord(s[1..]);
      assert [s[0]] + s[1..] == s;
    }
  }

  // ---------------------------------------------------------------------
  // The line a run of words makes when nothing overflows
  // ---------------------------------------------------------------------

  /** currentLine after one more word: the word itself on an empty line, else a space and the word. */
  function Extend(line: string, word: string): (r: string)
    ensures |r| >= |line|
  {
    if |line| == 0 then word else line + " " + word
  }

  /** Every word joined onto one line in turn. */
  function Glue(words: seq<string>): string
    decreases |words|
  {
    if words == [] then "" else Extend(Glue(words[..|words| - 1]), words[|words| - 1])
  }

  lemma {:induction false} GlueGrows(words: seq<string>, i: nat)
    requires i <= |words|
    ensures |Glue(words[..i])| <= |Glue(words)|
    decreases |words| - i
  {
    if i < |words| {
      GlueGrows(words, i + 1);
      assert words[..i + 1][..i] == words[..i];
      assert |Glue(words[..i + 1])| >= |Glue(words[..i])|;
    } else {
      assert words[..i] == words;
    }
  }

  /** Joining words with spaces keeps their visible characters in order. */
  lemma {:induction false} GlueVisible(words: seq<string>)
    requires forall k :: 0 <= k < |words| ==> NoWhitespace(words[k])
    ensures WithoutSpaces(Glue(words)) == Concat(words)
    decreases |words|
  {
    if words != [] {
      var init, last := words[..|words| - 1], words[|words| - 1];
      GlueVisible(init);
      AppendWord("", Glue(init), last);
      assert "" + Glue(init) == Glue(init) && "" + Glue(words) == Glue(words);
      assert words == init + [last];
      ConcatSnoc(init, last);
    }
  }

  // ---------------------------------------------------------------------
  // Facts about removing spaces and concatenating
  // ---------------------------------------------------------------------

  lemma {:induction false} WithoutSpacesAppend(a: string, b: string)
    ensures WithoutSpaces(a + b) == WithoutSpaces(a) + WithoutSpaces(b)
  {
    if a == [] {
      assert a + b == b;
    } else {
      var ab := a + b;
      assert ab[0] == a[0] && ab[1..] == a[1..] + b;
      WithoutSpacesAppend(a[1..], b);
      if a[0] != ' ' {
        calc {
          WithoutSpaces(ab);
          [a[0]] + WithoutSpaces(a[1..] + b);
          [a[0]] + (WithoutSpaces(a[1..]) + WithoutSpaces(b));
          ([a[0]] + WithoutSpaces(a[1..])) + WithoutSpaces(b);
        }
      }
    }
  }

  lemma {:induction false} WithoutSpacesOfWord(w: string)
    requires NoWhitespace(w)
    ensures WithoutSpaces(w) == w
  {
    if w != [] {
      WithoutSpacesOfWord(w[1..]);
      assert w == [w[0]] + w[1..];
    }
  }

  lemma {:induction false} WithoutSpacesShorter(s: string)
    ensures |WithoutSpaces(s)| <= |s|
  {
    if s != [] {
      WithoutSpacesShorter(s[1..]);
    }
  }

  lemma {:induction false} ConcatSnoc(ss: seq<string>, x: string)
    ensures Concat(ss + [x]) == Concat(ss) + x
  {
    if ss != [] {
      ConcatSnoc(ss[1..], x);
      assert (ss + [x])[1..] == ss[1..] + [x];
    }
  }

  lemma ConcatOne(s: string)
    ensures Concat([s]) == s
  {
    assert [s][1..] == [];
  }

  lemma {:induction false} ConcatAppend(a: seq<string>, b: seq<string>)
    ensures Concat(a + b) == Concat(a) + Concat(b)
  {
    if a == [] {
      assert a + b == b;
    } else {
      var ab := a + b;
      assert ab[0] == a[0] && ab[1..] == a[1..] + b;
      ConcatAppend(a[1..], b);
      assert Concat(ab) == a[0] + (Concat(a[1..]) + Concat(b));
    }
  }

  // ---------------------------------------------------------------------
  // The layout as greedy packing of tokens
  // ---------------------------------------------------------------------

  /**
   * A word cut into lines of `maxChars` characters: the word itself when it
   * fits, otherwise full pieces followed by a last, possibly shorter, one.
   */
  function Pieces(word: string, maxChars: int): (ps: seq<string>)
    requires maxChars > 0
    ensures |ps| >= 1
    decreases |word|
  {
    if |word| <= maxChars then [word]
    else [word[..maxChars]] + Pieces(word[maxChars..], maxChars)
  }

  /**
   * Every piece but the last is a full line, the last fits and is empty only
   * for an empty word, and a word is cut exactly when it is longer than a line.
   */
  lemma {:induction false} PiecesBounds(word: string, maxChars: int)
    requires maxChars > 0
    ensures var ps := Pieces(word, maxChars);
            && (forall k :: 0 <= k < |ps| - 1 ==> |ps[k]| == maxChars)
            && |ps[|ps| - 1]| <= maxChars && (word != "" ==> ps[|ps| - 1] != "")
            && (|word| <= maxChars <==> ps == [word])
    decreases |word|
  {
    if |word| > maxChars {
      PiecesBounds(word[maxChars..], maxChars);
      LongWordPieces(word, maxChars);
    }
  }

  /** The pieces of a word spell the word. */
  lemma {:induction false} PiecesKeepText(word: string, maxChars: int)
    requires maxChars > 0
    ensures Concat(Pieces(word, maxChars)) == word
    decreases |word|
  {
    if |word| <= maxChars {
      ConcatOne(word);
    } else {
      var piece, rest := word[..maxChars], word[maxChars..];
      var ps, rs := Pieces(word, maxChars), Pieces(rest, maxChars);
      LongWordPieces(word, maxChars);
      PiecesKeepText(rest, maxChars);
      calc {
        Concat(ps);
        ps[0] + Concat(ps[1..]);
        piece + Concat(rs);
        piece + rest;
        { assert word == piece + rest; }
        word;
      }
    }
  }

  /** The words in order, each one longer than a line replaced by its pieces. */
  function Tokens(words: seq<string>, maxChars: int): (ts: seq<string>)
    requires maxChars > 0
    ensures forall k :: 0 <= k < |ts| ==> |ts[k]| <= maxChars
    decreases |words|
  {
    if words == [] then []
    else
      PiecesBounds(words[|words| - 1], maxChars);
      Tokens(words[..|words| - 1], maxChars) + Pieces(words[|words| - 1], maxChars)
  }

  /** Cutting words into pieces keeps every character in order. */
  lemma {:induction false} TokensKeepText(words: seq<string>, maxChars: int)
    requires maxChars > 0
    ensures Concat(Tokens(words, maxChars)) == Concat(words)
    decreases |words|
  {
    if words != [] {
      var init, last := words[..|words| - 1], words[|words| - 1];
      TokensKeepText(init, maxChars);
      ConcatAppend(Tokens(init, maxChars), Pieces(last, maxChars));
      PiecesKeepText(last, maxChars);
      assert words == init + [last];
      ConcatSnoc(init, last);
    }
  }

  /** Words that each fit on a line are not cut. */
  lemma {:induction false} TokensOfShortWords(words: seq<string>, maxChars: int)
    requires maxChars > 0 && forall k :: 0 <= k < |words| ==> |words[k]| <= maxChars
    ensures Tokens(words, maxChars) == words
    decreases |words|
  {
    if words != [] {
      var init := words[..|words| - 1];
      TokensOfShortWords(init, maxChars);
      assert words == init + [words[|words| - 1]];
    }
  }

  lemma TokensStep(words: seq<string>, i: nat, maxChars: int)
    requires i < |words| && maxChars > 0
    ensures Tokens(words[..i + 1], maxChars) == Tokens(words[..i], maxChars) + Pieces(words[i], maxChars)
  {
    assert words[..i + 1][..i] == words[..i];
  }

  /** The lines finished so far and the line being filled. */
  datatype Packing = Packing(lines: seq<string>, current: string)

  /**
   * One token placed greedily: it joins the current line when that line is
   * empty or the token fits after a space, and otherwise starts a new line.
   */
  function Push(p: Packing, token: string, maxChars: int): Packing {
    if p.current == "" || |Extend(p.current, token)| <= maxChars then Packing(p.lines, Extend(p.current, token))
    else Packing(p.lines + [p.current], token)
  }

  /** The tokens placed one after another. */
  function Fold(p: Packing, tokens: seq<string>, maxChars: int): Packing
    decreases |tokens|
  {
    if tokens == [] then p else Fold(Push(p, tokens[0], maxChars), tokens[1..], maxChars)
  }

  /** The finished lines, with the current one unless it is empty. */
  function Finish(p: Packing): seq<string> {
    if |p.current| > 0 then p.lines + [p.current] else p.lines
  }

  /** Tokens laid out greedily on lines, starting from nothing. */
  function Wrap(tokens: seq<string>, maxChars: int): seq<string> {
    Finish(Fold(Packing([], ""), tokens, maxChars))
  }

  lemma {:induction false} FoldAppend(p: Packing, a: seq<string>, b: seq<string>, maxChars: int)
    ensures Fold(p, a + b, maxChars) == Fold(Fold(p, a, maxChars), b, maxChars)
    decreases |a|
  {
    if a == [] {
      assert a + b == b;
    } else {
      assert (a + b)[0] == a[0] && (a + b)[1..] == a[1..] + b;
      FoldAppend(Push(p, a[0], maxChars), a[1..], b, maxChars);
    }
  }

  /**
   * After a full piece, the pieces of the rest of the word each go on a line
   * of their own, all but the last finished.
   */
  lemma {:induction false} ChunksFold(done: seq<string>, piece: string, rest: string, maxChars: int)
    requires 0 < maxChars == |piece|
    ensures var rs := Pieces(rest, maxChars);
            Fold(Packing(done, piece), rs, maxChars) == Packing(done + ([piece] + rs[..|rs| - 1]), rs[|rs| - 1])
    decreases |rest|
  {
    if |rest| <= maxChars {
      LastChunkFold(done, piece, rest, maxChars);
    } else {
      var next, rs, rs' := rest[..maxChars], Pieces(rest, maxChars), Pieces(rest[maxChars..], maxChars);
      NextChunkFold(done, piece, rest, maxChars);
      ChunksFold(done + [piece], next, rest[maxChars..], maxChars);
      LongWordPieces(rest, maxChars);
      AppendAssoc(done, [piece], [next] + rs'[..|rs'| - 1]);
    }
  }

  lemma LastChunkFold(done: seq<string>, piece: string, rest: string, maxChars: int)
    requires 0 < maxChars == |piece| && |rest| <= maxChars
    ensures var rs := Pieces(rest, maxChars);
            Fold(Packing(done, piece), rs, maxChars) == Packing(done + ([piece] + rs[..|rs| - 1]), rs[|rs| - 1])
  {
    var rs := Pieces(rest, maxChars);
    assert rs == [rest] && rs[1..] == [] && rs[..0] == [];
    FullLinePush(Packing(done, piece), rest, maxChars);
    assert [piece] + [] == [piece];
  }

  lemma NextChunkFold(done: seq<string>, piece: string, rest: string, maxChars: int)
    requires 0 < maxChars == |piece| && maxChars < |rest|
    ensures Fold(Packing(done, piece), Pieces(rest, maxChars), maxChars)
            == Fold(Packing(done + [piece], rest[..maxChars]), Pieces(rest[maxChars..], maxChars), maxChars)
  {
    LongWordPieces(rest, maxChars);
    FullLinePush(Packing(done, piece), rest[..maxChars], maxChars);
  }

  lemma AppendAssoc(a: seq<string>, b: seq<string>, c: seq<string>)
    ensures (a + b) + c == a + (b + c)
  {
  }

  /** Nothing more fits on a full line. */
  lemma FullLinePush(p: Packing, token: string, maxChars: int)
    requires 0 < maxChars == |p.current|
    ensures Push(p, token, maxChars) == Packing(p.lines + [p.current], token)
  {
  }

  /**
   * Placing the pieces of a word: a word that fits joins the current line;
   * otherwise the current line, unless empty, is finished, every piece but
   * the last becomes a line and the last piece is the new current line.
   */
  lemma PiecesFold(p: Packing, word: string, maxChars: int)
    requires 0 < maxChars && |p.current| <= maxChars
    ensures var ps := Pieces(word, maxChars);
            |Extend(p.current, word)| <= maxChars ==> Fold(p, ps, maxChars) == Packing(p.lines, Extend(p.current, word))
    ensures var ps := Pieces(word, maxChars);
            maxChars < |Extend(p.current, word)| ==>
              Fold(p, ps, maxChars)
              == Packing(p.lines + (if p.current == "" then [] else [p.current]) + ps[..|ps| - 1], ps[|ps| - 1])
  {
    if |word| <= maxChars {
      ShortWordFold(p, word, maxChars);
    } else {
      LongWordFold(p, word, maxChars);
    }
  }

  lemma ShortWordFold(p: Packing, word: string, maxChars: int)
    requires 0 < maxChars && |word| <= maxChars
    ensures Fold(p, [word], maxChars) == Push(p, word, maxChars)
  {
    assert [word][1..] == [];
  }

  lemma LongWordFold(p: Packing, word: string, maxChars: int)
    requires 0 < maxChars < |word| && |p.current| <= maxChars
    ensures var ps := Pieces(word, maxChars);
            Fold(p, ps, maxChars)
            == Packing(p.lines + (if p.current == "" then [] else [p.current]) + ps[..|ps| - 1], ps[|ps| - 1])
  {
    var piece, rest := word[..maxChars], word[maxChars..];
    var ps, rs := Pieces(word, maxChars), Pieces(rest, maxChars);
    LongWordPieces(word, maxChars);
    var done := p.lines + (if p.current == "" then [] else [p.current]);
    FirstPiece(p, piece, maxChars);
    assert Fold(p, ps, maxChars) == Fold(Packing(done, piece), rs, maxChars);
    ChunksFold(done, piece, rest, maxChars);
  }

  /** A word longer than a line: its first full piece, then the pieces of the rest. */
  lemma LongWordPieces(word: string, maxChars: int)
    requires 0 < maxChars < |word|
    ensures var ps, rs := Pieces(word, maxChars), Pieces(word[maxChars..], maxChars);
            && ps != [] && ps[0] == word[..maxChars] && ps[1..] == rs
            && ps[..|ps| - 1] == [word[..maxChars]] + rs[..|rs| - 1] && ps[|ps| - 1] == rs[|rs| - 1]
  {
    var ps, rs := Pieces(word, maxChars), Pieces(word[maxChars..], maxChars);
    assert ps == [word[..maxChars]] + rs;
  }

  /** A full piece after the current line: it starts a new line unless the current one is empty. */
  lemma FirstPiece(p: Packing, piece: string, maxChars: int)
    requires 0 < maxChars == |piece| && |p.current| <= maxChars
    ensures Push(p, piece, maxChars) == Packing(p.lines + (if p.current == "" then [] else [p.current]), piece)
  {
    if p.current == "" {
      assert p.lines + [] == p.lines;
    }
  }

  /**
   * Line k of a layout holds the tokens from cuts[k] up to cuts[k + 1],
   * joined by single spaces, and the token after it would not have fitted.
   */
  ghost predicate IsRun(tokens: seq<string>, lines: seq<string>, cuts: seq<nat>, maxChars: int, k: nat)
    requires k < |lines| && |cuts| == |lines| + 1
  {
    && cuts[k] < cuts[k + 1] <= |tokens|
    && lines[k] == Glue(tokens[cuts[k]..cuts[k + 1]])
    && (cuts[k + 1] < |tokens| ==> maxChars < |lines[k]| + 1 + |tokens[cuts[k + 1]]|)
  }

  /** A run that was closed by one of the first `i` tokens. */
  ghost predicate ClosedRun(tokens: seq<string>, lines: seq<string>, cuts: seq<nat>, maxChars: int, i: nat, k: nat)
    requires k < |lines| && |cuts| == |lines| + 1
  {
    IsRun(tokens, lines, cuts, maxChars, k) && cuts[k + 1] < i
  }

  /**
   * `lines` is a greedy layout of `tokens`: line k holds the tokens from
   * cuts[k] up to cuts[k + 1] joined by single spaces, the token after a line
   * would not have fitted on it, and the tokens after the last line are
   * empty.
   */
  ghost predicate GreedyLayout(tokens: seq<string>, lines: seq<string>, cuts: seq<nat>, maxChars: int) {
    && |cuts| == |lines| + 1 && cuts[0] == 0 && cuts[|lines|] <= |tokens|
    && (forall k :: 0 <= k < |lines| ==> IsRun(tokens, lines, cuts, maxChars, k))
    && Glue(tokens[cuts[|lines|]..]) == ""
  }

  /**
   * `p` is the packing of the first `i` tokens, line k of it starting at token
   * cuts[k]: finished lines are runs closed by a later token, and the current
   * line joins the tokens from the last cut on.
   */
  ghost predicate PackedRuns(tokens: seq<string>, p: Packing, cuts: seq<nat>, maxChars: int, i: nat)
    requires i <= |tokens|
  {
    && |cuts| == |p.lines| + 1 && cuts[0] == 0 && cuts[|p.lines|] <= i
    && (forall k :: 0 <= k < |p.lines| ==> ClosedRun(tokens, p.lines, cuts, maxChars, i, k))
    && p.current == Glue(tokens[cuts[|p.lines|]..i])
  }

  /** The packing of the first `i` tokens, with the token each finished line starts at. */
  lemma {:induction false} FoldRuns(tokens: seq<string>, maxChars: int, i: nat) returns (cuts: seq<nat>)
    requires i <= |tokens|
    ensures PackedRuns(tokens, Fold(Packing([], ""), tokens[..i], maxChars), cuts, maxChars, i)
  {
    if i == 0 {
      cuts := [0];
      assert tokens[..0] == [];
      assert tokens[0..0] == [];
    } else {
      var before := FoldRuns(tokens, maxChars, i - 1);
      var p := Fold(Packing([], ""), tokens[..i - 1], maxChars);
      assert tokens[..i] == tokens[..i - 1] + [tokens[i - 1]];
      FoldAppend(Packing([], ""), tokens[..i - 1], [tokens[i - 1]], maxChars);
      assert Fold(p, [tokens[i - 1]], maxChars) == Push(p, tokens[i - 1], maxChars);
      cuts := RunsStep(tokens, maxChars, i, p, before);
    }
  }

  /** Placing token i - 1 keeps the runs, closing the current one when the token does not fit. */
  lemma RunsStep(tokens: seq<string>, maxChars: int, i: nat, p: Packing, before: seq<nat>) returns (cuts: seq<nat>)
    requires 0 < i <= |tokens| && PackedRuns(tokens, p, before, maxChars, i - 1)
    ensures PackedRuns(tokens, Push(p, tokens[i - 1], maxChars), cuts, maxChars, i)
  {
    var t := tokens[i - 1];
    var last := before[|p.lines|];
    var run := tokens[last..i];
    assert run[..|run| - 1] == tokens[last..i - 1] && run[|run| - 1] == t;
    assert Glue(run) == Extend(Glue(tokens[last..i - 1]), t);
    var q := Push(p, t, maxChars);
    if p.current == "" || |Extend(p.current, t)| <= maxChars {
      cuts := before;
      assert q.lines == p.lines;
      forall k | 0 <= k < |q.lines|
        ensures ClosedRun(tokens, q.lines, cuts, maxChars, i, k)
      {
        assert ClosedRun(tokens, p.lines, before, maxChars, i - 1, k);
      }
    } else {
      assert last < i - 1;
      var single := tokens[i - 1..i];
      assert single == [t] && single[..0] == [];
      assert Glue(single) == t;
      cuts := before + [i - 1];
      assert q.lines == p.lines + [p.current];
      forall k | 0 <= k < |q.lines|
        ensures ClosedRun(tokens, q.lines, cuts, maxChars, i, k)
      {
        if k < |p.lines| {
          assert ClosedRun(tokens, p.lines, before, maxChars, i - 1, k);
          assert q.lines[k] == p.lines[k] && cuts[k] == before[k] && cuts[k + 1] == before[k + 1];
        } else {
          assert q.lines[k] == p.current && cuts[k] == last && cuts[k + 1] == i - 1;
        }
      }
    }
  }

  /** Every word is on the line that joins them all. */
  lemma {:induction false} WordsWithinGlue(words: seq<string>, k: nat)
    requires k < |words|
    ensures |words[k]| <= |Glue(words)|
    decreases |words|
  {
    var init := words[..|words| - 1];
    GlueGrows(words, |words| - 1);
    if k < |words| - 1 {
      WordsWithinGlue(init, k);
    }
  }

  /** While everything so far fits on one line, no line is finished. */
  lemma {:induction false} FoldFits(ts: seq<string>, maxChars: int, i: nat)
    requires i <= |ts| && |Glue(ts)| <= maxChars
    ensures Fold(Packing([], ""), ts[..i], maxChars) == Packing([], Glue(ts[..i]))
  {
    if i == 0 {
      assert ts[..0] == [];
    } else {
      FoldFits(ts, maxChars, i - 1);
      assert ts[..i] == ts[..i - 1] + [ts[i - 1]];
      assert ts[..i][..i - 1] == ts[..i - 1];
      FoldAppend(Packing([], ""), ts[..i - 1], [ts[i - 1]], maxChars);
      assert Fold(Packing([], Glue(ts[..i - 1])), [ts[i - 1]], maxChars)
          == Push(Packing([], Glue(ts[..i - 1])), ts[i - 1], maxChars);
      GlueGrows(ts, i);
    }
  }

  /** Words that fit on one line together make exactly that line (none if it is empty). */
  lemma WrapFits(words: seq<string>, maxChars: int)
    requires 0 < maxChars && |Glue(words)| <= maxChars
    ensures Wrap(Tokens(words, maxChars), maxChars) == if Glue(words) == "" then [] else [Glue(words)]
  {
    forall k | 0 <= k < |words|
      ensures |words[k]| <= maxChars
    {
      WordsWithinGlue(words, k);
    }
    TokensOfShortWords(words, maxChars);
    FoldFits(words, maxChars, |words|);
    assert words[..|words|] == words;
  }

  /** "aa bb cc" on lines of five characters: "cc" does not fit after "aa bb". */
  lemma WrapExample()
    ensures Wrap(["aa", "bb", "cc"], 5) == ["aa bb", "cc"]
  {
    var ts := ["aa", "bb", "cc"];
    assert ts[1..] == ["bb", "cc"] && ts[1..][1..] == ["cc"] && ts[1..][1..][1..] == [];
    var p1 := Push(Packing([], ""), "aa", 5);
    assert p1 == Packing([], "aa");
    var p2 := Push(p1, "bb", 5);
    assert p2 == Packing([], "aa bb");
    var p3 := Push(p2, "cc", 5);
    assert |Extend("aa bb", "cc")| == 8;
    assert p3 == Packing(["aa bb"], "cc");
    assert Fold(Packing([], ""), ts, 5) == p3;
  }

  /** Wrap lays tokens out greedily. */
  lemma WrapIsGreedy(tokens: seq<string>, maxChars: int)
    ensures exists cuts :: GreedyLayout(tokens, Wrap(tokens, maxChars), cuts, maxChars)
  {
    var cuts := FoldRuns(tokens, maxChars, |tokens|);
    assert tokens[..|tokens|] == tokens;
    var p := Fold(Packing([], ""), tokens, maxChars);
    var last := cuts[|p.lines|];
    if |p.current| > 0 {
      var cuts' := cuts + [|tokens|];
      var lines := Wrap(tokens, maxChars);
      assert lines == p.lines + [p.current];
      assert tokens[|tokens|..] == [];
      forall k | 0 <= k < |lines|
        ensures IsRun(tokens, lines, cuts', maxChars, k)
      {
        if k < |p.lines| {
          assert lines[k] == p.lines[k];
          assert ClosedRun(tokens, p.lines, cuts, maxChars, |tokens|, k);
        }
      }
      assert GreedyLayout(tokens, lines, cuts', maxChars);
    } else {
      assert tokens[last..] == tokens[last..|tokens|];
      var lines := Wrap(tokens, maxChars);
      assert lines == p.lines;
      forall k | 0 <= k < |lines|
        ensures IsRun(tokens, lines, cuts, maxChars, k)
      {
        assert ClosedRun(tokens, p.lines, cuts, maxChars, |tokens|, k);
      }
      assert GreedyLayout(tokens, lines, cuts, maxChars);
    }
  }

  // ---------------------------------------------------------------------
  // splitTextIntoLines
  // ---------------------------------------------------------------------

  /** Every line is non-empty and at most `maxChars` characters long. */
  ghost predicate LinesFit(lines: seq<string>, maxChars: int) {
    forall k :: 0 <= k < |lines| ==> 0 < |lines[k]| <= maxChars
  }

  /**
   * Math.floor(maxWidthPx / (fontSize * 0.65)): the most characters of the
   * estimated average width that fit in `maxWidthPx`.
   */
  function MaxCharsPerLine(maxWidthPx: real, fontSize: real): (n: int)
    requires fontSize > 0.0
    ensures n as real * (fontSize * 0.65) <= maxWidthPx < (n + 1) as real * (fontSize * 0.65)
  {
    var charWidth := fontSize * 0.65;
    var n := (maxWidthPx / charWidth).Floor;
    FloorScaled(maxWidthPx, charWidth, n);
    n
  }

  lemma FloorScaled(x: real, c: real, n: int)
    requires c > 0.0 && n == (x / c).Floor
    ensures n as real * c <= x < (n + 1) as real * c
  {
    var q := x / c;
    assert q * c == x;
    assert n as real <= q < (n + 1) as real;
    assert n as real * c <= q * c;
    assert q * c < (n + 1) as real * c;
  }

  method SplitTextIntoLines(text: string, maxWidthPx: real, fontSize: real) returns (lines: seq<string>)
    requires fontSize > 0.0
    ensures var maxChars := MaxCharsPerLine(maxWidthPx, fontSize);
            maxChars <= 0 ==> lines == [text]
    ensures var maxChars := MaxCharsPerLine(maxWidthPx, fontSize);
            maxChars > 0 ==> LinesFit(lines, maxChars)
    // no visible character is lost, duplicated or moved
    ensures var maxChars := MaxCharsPerLine(maxWidthPx, fontSize);
            maxChars > 0 ==> WithoutSpaces(Concat(lines)) == Visible(text)
    // a name that fits on one line stays on one line
    ensures var maxChars := MaxCharsPerLine(maxWidthPx, fontSize);
            0 < maxChars && |Glue(Words(text))| <= maxChars ==>
              lines == if Glue(Words(text)) == "" then [] else [Glue(Words(text))]
    // a name with more visible characters than a line holds is broken
    ensures var maxChars := MaxCharsPerLine(maxWidthPx, fontSize);
            0 < maxChars < |Visible(text)| ==> |lines| >= 2
    // where the lines break: the greedy packing of the words, a word longer
    // than a line cut into pieces of exactly maxChars characters
    ensures var maxChars := MaxCharsPerLine(maxWidthPx, fontSize);
            maxChars > 0 ==> lines == Wrap(Tokens(Words(text), maxChars), maxChars)
    ensures var maxChars := MaxCharsPerLine(maxWidthPx, fontSize);
            maxChars > 0 ==> exists cuts :: GreedyLayout(Tokens(Words(text), maxChars), lines, cuts, maxChars)
  {
    var maxChars := MaxCharsPerLine(maxWidthPx, fontSize);
    if maxChars <= 0 {
      return [text];
    }
    var words := Words(text);
    lines := PackWords(words, maxChars);
    WrapIsGreedy(Tokens(words, maxChars), maxChars);
    if |Glue(words)| <= maxChars {
      WrapFits(words, maxChars);
    }
    FewLinesAreShort(lines, maxChars);
  }

  /**
   * The forEach over the words and the final push of splitTextIntoLines:
   * every word is placed in turn, and the last current line is added unless
   * it is empty.
   */
  method PackWords(words: seq<string>, maxChars: int) returns (lines: seq<string>)
    requires 0 < maxChars && forall k :: 0 <= k < |words| ==> NoWhitespace(words[k])
    ensures LinesFit(lines, maxChars)
    ensures WithoutSpaces(Concat(lines)) == Concat(words)
    ensures lines == Wrap(Tokens(words, maxChars), maxChars)
  {
    lines := [];
    var currentLine := "";
    for i := 0 to |words|
      invariant LinesFit(lines, maxChars)
      invariant |currentLine| <= maxChars
      invariant WithoutSpaces(Concat(lines) + currentLine) == Concat(words[..i])
      invariant Packing(lines, currentLine) == Fold(Packing([], ""), Tokens(words[..i], maxChars), maxChars)
    {
      NextWord(words, i);
      NextTokens(words, i, maxChars, Packing(lines, currentLine));
      lines, currentLine := PlaceWord(lines, currentLine, words[i], maxChars);
    }
    assert words[..|words|] == words;
    if |currentLine| > 0 {
      ConcatSnoc(lines, currentLine);
      lines := lines + [currentLine];
    } else {
      assert Concat(lines) + currentLine == Concat(lines);
    }
  }

  /** The packing after one more word is the packing of that word's pieces. */
  lemma NextTokens(words: seq<string>, i: nat, maxChars: int, p: Packing)
    requires i < |words| && 0 < maxChars
    requires p == Fold(Packing([], ""), Tokens(words[..i], maxChars), maxChars)
    ensures Fold(Packing([], ""), Tokens(words[..i + 1], maxChars), maxChars) == Fold(p, Pieces(words[i], maxChars), maxChars)
  {
    TokensStep(words, i, maxChars);
    FoldAppend(Packing([], ""), Tokens(words[..i], maxChars), Pieces(words[i], maxChars), maxChars);
  }

  /**
   * The forEach callback of splitTextIntoLines: `word` goes onto the current
   * line when the line is empty or the word fits after a space; otherwise the
   * current line is finished and the word starts the next. A current line
   * that is then too long and has no space is a single long word, and is cut
   * into full lines until the rest fits.
   */
  method PlaceWord(lines: seq<string>, currentLine: string, word: string, maxChars: int)
      returns (lines': seq<string>, currentLine': string)
    requires NoWhitespace(word) && 0 < maxChars
    requires LinesFit(lines, maxChars) && |currentLine| <= maxChars
    ensures LinesFit(lines', maxChars) && |currentLine'| <= maxChars
    ensures WithoutSpaces(Concat(lines') + currentLine') == WithoutSpaces(Concat(lines) + currentLine) + word
    ensures |Extend(currentLine, word)| <= maxChars ==> lines' == lines && currentLine' == Extend(currentLine, word)
    // a word that does not fit: the current line, unless empty, is finished,
    // and every piece of the word but the last becomes a line of its own
    ensures var ps := Pieces(word, maxChars);
            maxChars < |Extend(currentLine, word)| ==>
              && lines' == lines + (if currentLine == "" then [] else [currentLine]) + ps[..|ps| - 1]
              && currentLine' == ps[|ps| - 1]
    // the same, as the greedy packing of the word's pieces
    ensures Packing(lines', currentLine') == Fold(Packing(lines, currentLine), Pieces(word, maxChars), maxChars)
    ensures |lines'| >= |lines|
  {
    ghost var base := lines + (if currentLine == "" then [] else [currentLine]);
    assert ' ' !in word;
    lines' := lines;
    if |currentLine| == 0 {
      AppendWord(Concat(lines), currentLine, word);
      currentLine' := word;
    } else {
      var testLine := currentLine + " " + word;
      if |testLine| <= maxChars {
        AppendWord(Concat(lines), currentLine, word);
        currentLine' := testLine;
      } else {
        PushLine(lines, currentLine, word);
        lines' := lines + [currentLine];
        currentLine' := word;
      }
    }
    assert maxChars < |currentLine'| ==> currentLine' == word && lines' == base;
    lines', currentLine' := CutLongWord(lines', currentLine', maxChars);
    PlacedIsFold(lines, currentLine, word, maxChars, lines', currentLine');
  }

  /**
   * The second half of the callback: a current line longer than `maxChars`
   * with no space in it is one long word, and is cut into full lines until
   * the rest fits; any other current line is left alone.
   */
  method CutLongWord(lines: seq<string>, currentLine: string, maxChars: int)
      returns (lines': seq<string>, currentLine': string)
    requires 0 < maxChars && LinesFit(lines, maxChars)
    ensures LinesFit(lines', maxChars)
    ensures WithoutSpaces(Concat(lines') + currentLine') == WithoutSpaces(Concat(lines) + currentLine)
    ensures var ps := Pieces(currentLine, maxChars);
            maxChars < |currentLine| && ' ' !in currentLine ==>
              lines' == lines + ps[..|ps| - 1] && currentLine' == ps[|ps| - 1] && |currentLine'| <= maxChars
    ensures !(maxChars < |currentLine| && ' ' !in currentLine) ==> lines' == lines && currentLine' == currentLine
  {
    lines', currentLine' := lines, currentLine;
    if |currentLine'| > maxChars && ' ' !in currentLine' {
      assert StillToCut(lines', currentLine', lines, currentLine, maxChars);
      PushPiece(lines', currentLine', maxChars);
      CutStep(lines', currentLine', lines, currentLine, maxChars);
      lines' := lines' + [currentLine'[..maxChars]];
      currentLine' := currentLine'[maxChars..];
      while |currentLine'| > maxChars
        invariant LinesFit(lines', maxChars)
        invariant Concat(lines') + currentLine' == Concat(lines) + currentLine
        invariant StillToCut(lines', currentLine', lines, currentLine, maxChars)
        decreases |currentLine'|
      {
        PushPiece(lines', currentLine', maxChars);
        CutStep(lines', currentLine', lines, currentLine, maxChars);
        lines' := lines' + [currentLine'[..maxChars]];
        currentLine' := currentLine'[maxChars..];
      }
      assert Pieces(currentLine', maxChars) == [currentLine'];
    }
  }

  /** The two cases of placing a word, read as the packing of its pieces. */
  lemma PlacedIsFold(lines: seq<string>, currentLine: string, word: string, maxChars: int,
                     lines': seq<string>, currentLine': string)
    requires 0 < maxChars && |currentLine| <= maxChars
    requires |Extend(currentLine, word)| <= maxChars ==> lines' == lines && currentLine' == Extend(currentLine, word)
    requires var ps := Pieces(word, maxChars);
             maxChars < |Extend(currentLine, word)| ==>
               && lines' == lines + (if currentLine == "" then [] else [currentLine]) + ps[..|ps| - 1]
               && currentLine' == ps[|ps| - 1]
    ensures Packing(lines', currentLine') == Fold(Packing(lines, currentLine), Pieces(word, maxChars), maxChars)
  {
    PiecesFold(Packing(lines, currentLine), word, maxChars);
  }

  /** `rest`, still to be cut, completes the pieces of `word` after the lines `done`. */
  ghost predicate StillToCut(done: seq<string>, rest: string, base: seq<string>, word: string, maxChars: int)
    requires maxChars > 0
  {
    var rs, ps := Pieces(rest, maxChars), Pieces(word, maxChars);
    done + rs[..|rs| - 1] == base + ps[..|ps| - 1] && rs[|rs| - 1] == ps[|ps| - 1]
  }

  /** Cutting one full piece off the rest keeps it completing the word's pieces. */
  lemma CutStep(done: seq<string>, rest: string, base: seq<string>, word: string, maxChars: int)
    requires 0 < maxChars < |rest| && StillToCut(done, rest, base, word, maxChars)
    ensures StillToCut(done + [rest[..maxChars]], rest[maxChars..], base, word, maxChars)
  {
    LongWordPieces(rest, maxChars);
    var rs, rs' := Pieces(rest, maxChars), Pieces(rest[maxChars..], maxChars);
    assert done + rs[..|rs| - 1] == (done + [rest[..maxChars]]) + rs'[..|rs'| - 1];
  }

  /** What the loop has seen grows by the next word. */
  lemma NextWord(words: seq<string>, i: nat)
    requires i < |words|
    ensures Concat(words[..i + 1]) == Concat(words[..i]) + words[i]
    ensures Glue(words[..i + 1]) == Extend(Glue(words[..i]), words[i])
  {
    assert words[..i + 1] == words[..i] + [words[i]];
    assert words[..i + 1][..i] == words[..i];
    ConcatSnoc(words[..i], words[i]);
  }

  /** Putting a word on the current line, after a space unless the line is empty. */
  lemma AppendWord(before: string, current: string, word: string)
    requires NoWhitespace(word)
    ensures WithoutSpaces(before + Extend(current, word)) == WithoutSpaces(before + current) + word
  {
    WithoutSpacesOfWord(word);
    if |current| == 0 {
      assert before + current == before;
      WithoutSpacesAppend(before, word);
    } else {
      SpaceThenWord(before + current, word);
      assert before + (current + " " + word) == (before + current) + " " + word;
    }
  }

  lemma SpaceThenWord(line: string, word: string)
    requires WithoutSpaces(word) == word
    ensures WithoutSpaces(line + " " + word) == WithoutSpaces(line) + word
  {
    WithoutSpacesAppend(line + " ", word);
    WithoutSpacesAppend(line, " ");
    assert WithoutSpaces(" ") == WithoutSpaces(""[..]);
  }

  /** Ending the current line and starting the next with a word. */
  lemma PushLine(lines: seq<string>, current: string, word: string)
    requires NoWhitespace(word)
    ensures WithoutSpaces(Concat(lines + [current]) + word) == WithoutSpaces(Concat(lines) + current) + word
  {
    ConcatSnoc(lines, current);
    WithoutSpacesOfWord(word);
    WithoutSpacesAppend(Concat(lines) + current, word);
  }

  /** Cutting the first `maxChars` characters off the current line into a line of their own. */
  lemma PushPiece(lines: seq<string>, current: string, maxChars: int)
    requires 0 < maxChars < |current|
    ensures Concat(lines + [current[..maxChars]]) + current[maxChars..] == Concat(lines) + current
  {
    ConcatSnoc(lines, current[..maxChars]);
    assert current[..maxChars] + current[maxChars..] == current;
  }

  /** At most one line of at most `maxChars` characters holds at most `maxChars` visible ones. */
  lemma FewLinesAreShort(lines: seq<string>, maxChars: int)
    requires maxChars >= 0 && LinesFit(lines, maxChars)
    ensures |lines| <= 1 ==> |WithoutSpaces(Concat(lines))| <= maxChars
  {
    if |lines| > 1 {
    } else if lines == [] {
      assert Concat(lines) == [];
    } else {
      assert Concat(lines) == lines[0] + Concat([]);
      assert Concat(lines) == lines[0];
      WithoutSpacesShorter(lines[0]);
    }
  }
}
