/**
 * `CourseUtils.parseCourseNumberList` (src/utils/course.ts): the trimmed
 * text is split on runs of separators (white space, `|`, `,`, a lower-case
 * ASCII letter or `-`) and the empty pieces are dropped.
 */
module CourseParse {
  import Text

  /** A character of the class `[\s|,|a-z|\-]`. */
  predicate IsSeparator(c: char) {
    Text.IsWhitespace(c) || c == '|' || c == ',' || ('a' <= c <= 'z') || c == '-'
  }

  predicate NoSeparator(s: string) {
    forall i | 0 <= i < |s| :: !IsSeparator(s[i])
  }

  /**
   * The pieces between single separators.  Splitting on runs instead
   * differs only in empty pieces, which the filter below removes.
   */
  function Pieces(s: string): (r: seq<string>)
    ensures |r| >= 1
    ensures forall p | p in r :: NoSeparator(p)
  {
    if s == [] then [[]]
    else
      var rest := Pieces(s[1..]);
      if IsSeparator(s[0]) then [[]] + rest
      else
        assert NoSeparator(rest[0]) by { assert rest[0] in rest; }
        assert forall p | p in rest[1..] :: p in rest;
        [[s[0]] + rest[0]] + rest[1..]
  }

  /** `numbers.filter(number => number)`. */
  function NonEmpty(ps: seq<string>): (r: seq<string>)
    ensures forall t | t in r :: t != [] && t in ps
  {
    if ps == [] then [] else (if ps[0] == [] then [] else [ps[0]]) + NonEmpty(ps[1..])
  }

  /** The tokens of `s` without the trim. */
  function Tokens(s: string): seq<string> {
    NonEmpty(Pieces(s))
  }

  /** Every token is non-empty and holds no separator. */
  function ParseCourseNumberList(list: string): (r: seq<string>)
    ensures forall t | t in r :: t != [] && NoSeparator(t)
  {
    Tokens(Text.Trim(list))
  }

  lemma {:induction false} NonEmptyAppend(a: seq<string>, b: seq<string>)
    ensures NonEmpty(a + b) == NonEmpty(a) + NonEmpty(b)
  {
    if a == [] {
      assert a + b == b;
    } else {
      assert (a + b)[1..] == a[1..] + b;
      NonEmptyAppend(a[1..], b);
    }
  }

  /** A separator splits the pieces in two. */
  lemma {:induction false} PiecesSplitAt(a: string, c: char, b: string)
    requires IsSeparator(c)
    ensures Pieces(a + [c] + b) == Pieces(a) + Pieces(b)
  {
    if a == [] {
      assert a + [c] + b == [c] + b;
      assert ([c] + b)[1..] == b;
    } else {
      assert (a + [c] + b)[1..] == a[1..] + [c] + b;
      PiecesSplitAt(a[1..], c, b);
    }
  }

  lemma {:induction false} PiecesOfRun(w: string)
    requires NoSeparator(w)
    ensures Pieces(w) == [w]
  {
    if w != [] {
      PiecesOfRun(w[1..]);
      assert w == [w[0]] + w[1..];
    }
  }

  /** Tokens on either side of a separator are found independently, in order. */
  lemma TokensSplitAt(a: string, c: char, b: string)
    requires IsSeparator(c)
    ensures Tokens(a + [c] + b) == Tokens(a) + Tokens(b)
  {
    PiecesSplitAt(a, c, b);
    NonEmptyAppend(Pieces(a), Pieces(b));
  }

  /** A non-empty run without separators is one token. */
  lemma TokensOfRun(w: string)
    requires w != [] && NoSeparator(w)
    ensures Tokens(w) == [w]
  {
    PiecesOfRun(w);
    assert NonEmpty([w]) == [w] by {
      assert [w][1..] == [];
    }
  }

  /** Text made only of separators has no tokens. */
  lemma {:induction false} TokensOfSeparators(s: string)
    requires forall i | 0 <= i < |s| :: IsSeparator(s[i])
    ensures Tokens(s) == []
  {
    if s != [] {
      var init := s[..|s| - 1];
      assert s == init + [s[|s| - 1]] + [];
      TokensSplitAt(init, s[|s| - 1], []);
      TokensOfSeparators(init);
    }
  }

  /** Trimming never changes the tokens, since white space separates anyway. */
  lemma TrimKeepsTokens(list: string)
    ensures ParseCourseNumberList(list) == Tokens(list)
  {
    TrimStartKeepsTokens(list);
    TrimEndKeepsTokens(Text.TrimStart(list));
  }

  lemma TrimStartKeepsTokens(s: string)
    ensures Tokens(Text.TrimStart(s)) == Tokens(s)
  {
    var t := Text.TrimStart(s);
    var w := s[..|s| - |t|];
    assert s == w + t;
    SeparatorsPrefix(w, t);
  }

  lemma TrimEndKeepsTokens(s: string)
    ensures Tokens(Text.TrimEnd(s)) == Tokens(s)
  {
    var m := Text.TrimEnd(s);
    var w := s[|m|..];
    assert s == m + w;
    SeparatorsSuffix(m, w);
  }

  lemma WhitespaceSeparates(w: string)
    requires Text.AllWhitespace(w)
    ensures forall i | 0 <= i < |w| :: IsSeparator(w[i])
  {
  }

  lemma SeparatorsPrefix(w: string, s: string)
    requires Text.AllWhitespace(w)
    ensures Tokens(w + s) == Tokens(s)
  {
    if w == [] {
      assert w + s == s;
    } else {
      var init := w[..|w| - 1];
      assert w + s == init + [w[|w| - 1]] + s;
      TokensSplitAt(init, w[|w| - 1], s);
      WhitespaceSeparates(w);
      TokensOfSeparators(init);
    }
  }

  lemma SeparatorsSuffix(s: string, w: string)
    requires Text.AllWhitespace(w)
    ensures Tokens(s + w) == Tokens(s)
  {
    if w == [] {
      assert s + w == s;
    } else {
      assert s + w == s + [w[0]] + w[1..];
      TokensSplitAt(s, w[0], w[1..]);
      WhitespaceSeparates(w);
      TokensOfSeparators(w[1..]);
      assert Tokens(s) + [] == Tokens(s);
    }
  }

  /** Input made only of separators parses to nothing. */
  lemma ParseOfSeparators(list: string)
    requires forall i | 0 <= i < |list| :: IsSeparator(list[i])
    ensures ParseCourseNumberList(list) == []
  {
    TrimKeepsTokens(list);
    TokensOfSeparators(list);
  }
}
