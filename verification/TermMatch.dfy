/**
 Matching terms in a query by padded substring: normalization yields non-empty tokens without spaces,
 joined by single spaces.
 */
module TermMatch {

  type Token = t: string | t != "" && ' ' !in t witness "a"

  function Join(tokens: seq<Token>): string {
    if tokens == [] then ""
    else if |tokens| == 1 then tokens[0]
    else tokens[0] + " " + Join(tokens[1..])
  }

  function Padded(s: string): string {
    " " + s + " "
  }

  predicate StartsWith(s: string, p: string) {
    |p| <= |s| && s[..|p|] == p
  }

  /** p occurs in s. */
  predicate Occurs(p: string, s: string) {
    StartsWith(s, p) || (s != "" && Occurs(p, s[1..]))
  }

  /** The test the services make. */
  predicate Matches(term: seq<Token>, query: seq<Token>) {
    Occurs(Padded(Join(term)), Padded(Join(query)))
  }

  predicate Sublist(term: seq<Token>, query: seq<Token>) {
    exists i :: 0 <= i <= |query| && Leads(term, query[i..])
  }

  predicate Leads(term: seq<Token>, tokens: seq<Token>) {
    |term| <= |tokens| && tokens[..|term|] == term
  }

  /** Every token followed by a space. */
  function Spaced(tokens: seq<Token>): string {
    if tokens == [] then "" else tokens[0] + " " + Spaced(tokens[1..])
  }

  lemma {:induction false} PaddedIsSpaced(tokens: seq<Token>)
    requires tokens != []
    ensures Padded(Join(tokens)) == " " + Spaced(tokens)
  {
    if |tokens| > 1 {
      PaddedIsSpaced(tokens[1..]);
      assert Padded(Join(tokens[1..]))[1..] == Join(tokens[1..]) + " ";
      assert (" " + Spaced(tokens[1..]))[1..] == Spaced(tokens[1..]);
    }
  }

  lemma {:induction false} OccursAt(p: string, s: string)
    ensures Occurs(p, s) <==> exists i :: 0 <= i <= |s| && StartsWith(s[i..], p)
  {
    assert s[0..] == s;
    if s != "" {
      OccursAt(p, s[1..]);
      if Occurs(p, s[1..]) {
        var i :| 0 <= i <= |s[1..]| && StartsWith(s[1..][i..], p);
        assert s[1..][i..] == s[i + 1..];
      }
      if i :| 0 < i <= |s| && StartsWith(s[i..], p) {
        assert s[1..][i - 1..] == s[i..];
      }
    }
  }

  /** A space ends exactly one token: what follows a space of the padded text is a rest of the tokens. */
  lemma {:induction false} SpaceIsBoundary(tokens: seq<Token>, p: nat) returns (i: nat)
    requires p < |" " + Spaced(tokens)| && (" " + Spaced(tokens))[p] == ' '
    ensures i <= |tokens| && (" " + Spaced(tokens))[p + 1..] == Spaced(tokens[i..])
  {
    var s := " " + Spaced(tokens);
    if p == 0 {
      i := 0;
    } else {
      var first := tokens[0];
      assert s == " " + first + (" " + Spaced(tokens[1..]));
      assert forall k :: 0 <= k < |first| ==> s[k + 1] == first[k];
      if p <= |first| {
        assert false;
      }
      i := SpaceIsBoundary(tokens[1..], p - |first| - 1);
      i := i + 1;
      assert tokens[1..][i - 1..] == tokens[i..];
    }
  }

  /** Both texts break at the same spaces. */
  lemma {:induction false} SpacedPrefix(term: seq<Token>, tokens: seq<Token>)
    ensures StartsWith(Spaced(tokens), Spaced(term)) <==> Leads(term, tokens)
  {
    if term == [] {
    } else if tokens == [] {
    } else {
      SpacedPrefix(term[1..], tokens[1..]);
      var a, b := term[0], tokens[0];
      if StartsWith(Spaced(tokens), Spaced(term)) {
        SameFirstToken(a, Spaced(term[1..]), b, Spaced(tokens[1..]));
        assert term == [a] + term[1..];
      }
      if Leads(term, tokens) {
        assert a == b && Leads(term[1..], tokens[1..]);
      }
    }
  }

  lemma SameFirstToken(a: Token, s: string, b: Token, t: string)
    requires StartsWith(b + " " + t, a + " " + s)
    ensures a == b && StartsWith(t, s)
  {
    var x, y := a + " " + s, b + " " + t;
    assert forall k :: 0 <= k < |x| ==> x[k] == y[k];
    assert x[|a|] == ' ' && y[|b|] == ' ';
    assert forall k :: 0 <= k < |a| ==> x[k] == a[k];
    assert forall k :: 0 <= k < |b| ==> y[k] == b[k];
    if |a| < |b| {
      assert false;
    } else if |b| < |a| {
      assert false;
    } else {
      assert x[..|a|] == a && y[..|a|] == b;
      assert x[|a| + 1..] == s && y[|a| + 1..] == t;
    }
  }

  lemma {:induction false} SpacedSplit(a: seq<Token>, b: seq<Token>)
    ensures Spaced(a + b) == Spaced(a) + Spaced(b)
  {
    if a == [] {
      assert a + b == b;
    } else {
      SpacedSplit(a[1..], b);
      assert a + b == [a[0]] + (a[1..] + b);
      SpacedFirst(a[0], a[1..] + b);
      Associative(a[0] + " ", Spaced(a[1..]), Spaced(b));
    }
  }

  lemma Associative(a: string, b: string, c: string)
    ensures (a + b) + c == a + (b + c)
  {
  }

  lemma {:induction false} SpacedEnds(a: seq<Token>)
    requires a != []
    ensures Spaced(a) != "" && Spaced(a)[|Spaced(a)| - 1] == ' '
  {
    if |a| > 1 {
      SpacedEnds(a[1..]);
    }
  }

  lemma SpacedFirst(t: Token, rest: seq<Token>)
    ensures Spaced([t] + rest) == t + " " + Spaced(rest)
  {
  }

  /** Padded substring matching is token matching: a term matches a query exactly when its tokens stand
      next to each other, in order, among the query's. */
  lemma MatchingIsTokenMatching(term: seq<Token>, query: seq<Token>)
    requires term != [] && query != []
    ensures Matches(term, query) <==> Sublist(term, query)
  {
    PaddedIsSpaced(term);
    PaddedIsSpaced(query);
    var p, s := " " + Spaced(term), " " + Spaced(query);
    OccursAt(p, s);
    if Occurs(p, s) {
      var at :| 0 <= at <= |s| && StartsWith(s[at..], p);
      assert s[at..][0] == p[0] == ' ';
      var i := SpaceIsBoundary(query, at);
      assert StartsWith(s[at + 1..], Spaced(term)) by {
        assert s[at..][1..] == s[at + 1..] && p[1..] == Spaced(term);
        assert s[at..][..|p|][1..] == s[at + 1..][..|p| - 1];
      }
      SpacedPrefix(term, query[i..]);
    }
    if i :| 0 <= i <= |query| && Leads(term, query[i..]) {
      SublistOccurs(term, query, i);
    }
  }

  lemma SublistOccurs(term: seq<Token>, query: seq<Token>, i: nat)
    requires i <= |query| && Leads(term, query[i..])
    ensures exists at :: 0 <= at <= |" " + Spaced(query)| && StartsWith((" " + Spaced(query))[at..], " " + Spaced(term))
  {
    var s := " " + Spaced(query);
    assert query[..i] + query[i..] == query;
    SpacedSplit(query[..i], query[i..]);
    if i > 0 {
      SpacedEnds(query[..i]);
    }
    SpacedPrefix(term, query[i..]);
    var at := |Spaced(query[..i])|;
    AfterLastSpace(Spaced(query[..i]), Spaced(query[i..]));
    OneLonger(Spaced(query[i..]), Spaced(term));
    assert StartsWith(s[at..], " " + Spaced(term));
  }

  lemma AfterLastSpace(a: string, b: string)
    requires a != "" ==> a[|a| - 1] == ' '
    ensures (" " + (a + b))[|a|..] == " " + b
  {
  }

  lemma OneLonger(s: string, p: string)
    requires StartsWith(s, p)
    ensures StartsWith(" " + s, " " + p)
  {
  }

  lemma NoSpaceFirst(tokens: seq<Token>)
    ensures Spaced(tokens) == "" || Spaced(tokens)[0] != ' '
  {
  }

  /** A term that normalizes to nothing matches only a query that does too; such a query matches no
      other term. */
  lemma EmptyTermOrQuery(tokens: seq<Token>)
    ensures Matches([], tokens) <==> tokens == []
    ensures Matches(tokens, []) <==> tokens == []
  {
    assert Padded(Join([])) == "  ";
    if tokens != [] {
      PaddedIsSpaced(tokens);
      var s := " " + Spaced(tokens);
      OccursAt("  ", s);
      if at :| 0 <= at <= |s| && StartsWith(s[at..], "  ") {
        assert "  "[0] == ' ' && "  "[1] == ' ';
        assert s[at] == s[at..][0] == s[at..][..2][0] && s[at + 1] == s[at..][1] == s[at..][..2][1];
        assert s[at + 1..][0] == s[at + 1];
        var i := SpaceIsBoundary(tokens, at);
        NoSpaceFirst(tokens[i..]);
        assert false;
      }
      assert |Padded(Join(tokens))| > 2;
      OccursAt(Padded(Join(tokens)), "  ");
    } else {
      assert "  "[..2] == "  ";
    }
  }

  /** Normalized texts are equal exactly when their tokens are. */
  lemma JoinIsInjective(a: seq<Token>, b: seq<Token>)
    ensures Join(a) == Join(b) <==> a == b
  {
    if a != [] && b != [] && Join(a) == Join(b) {
      PaddedIsSpaced(a);
      PaddedIsSpaced(b);
      assert (" " + Spaced(a))[1..] == Spaced(a) && (" " + Spaced(b))[1..] == Spaced(b);
      SpacedPrefix(a, b);
      SpacedPrefix(b, a);
    }
  }
}
