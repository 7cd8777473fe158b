/** Printing a parsed query and parsing the text again.

    `labctl` sends the printed form of a query to `labd`, and the report printer joins
    printed queries into new ones, so the two directions must agree.
*/
module QueryRoundTrip {
  import opened GoStrings
  import opened Results
  import opened QuerySyntax
  import opened QueryParser

  /** Every label survives tokenizing: no blank and no parenthesis inside. */
  ghost predicate CleanLabels(t: Query) {
    match t
    case Label(p) => Clean(p)
    case Not(q) => CleanLabels(q)
    case And(qs) => forall q | q in qs :: CleanLabels(q)
    case Or(qs) => forall q | q in qs :: CleanLabels(q)
  }

  /** The text is one parenthesis, which `Parse` takes for a label. */
  predicate LoneParenthesis(q: string) {
    Lex(q, "") == ["("] || Lex(q, "") == [")"]
  }

  /** Nothing that could extend a token follows. */
  predicate Ends(rest: string) {
    rest == "" || rest[0] == ' ' || rest[0] == ')'
  }

  lemma QuoteIsWord(p: string)
    requires Clean(p)
    ensures Clean(Quote(p)) && Word(Quote(p)) == [Quote(p)]
  {
    TrimBare(Quote(p), IsSpace);
  }

  /** A word followed by a delimiter or the end is one token. */
  lemma LexWord(w: string, rest: string)
    requires Clean(w) && w != "" && Bare(w, IsSpace) && Ends(rest)
    ensures Lex(w + rest, "") == [w] + Lex(rest, "")
  {
    LexRun(w, rest, "");
    TrimBare(w, IsSpace);
    assert "" + w == w;
  }

  /** `(f ` opens two tokens. */
  lemma LexOpen(f: string, rest: string)
    requires f in {"not", "and", "or"}
    ensures Lex("(" + f + " " + rest, "") == ["(", f] + Lex(rest, "")
  {
    var s := "(" + f + " " + rest;
    assert s[1..] == f + (" " + rest);
    LexWord(f, " " + rest);
    assert (" " + rest)[1..] == rest;
    assert [s[0]] == "(";
  }

  lemma LexClose(rest: string)
    ensures Lex(")" + rest, "") == [")"] + Lex(rest, "")
  {
    assert (")" + rest)[1..] == rest;
  }

  lemma LexCall(f: string, body: string, toks: seq<string>, rest: string)
    requires f in {"not", "and", "or"}
    requires Lex(body + (")" + rest), "") == toks + Lex(")" + rest, "")
    ensures Lex(Call(f, body) + rest, "") == ["(", f] + toks + [")"] + Lex(rest, "")
  {
    LexOpen(f, body + (")" + rest));
    LexClose(rest);
    assert Call(f, body) + rest == "(" + f + " " + (body + (")" + rest));
  }

  lemma {:induction false} LexPrint(t: Query, rest: string)
    requires CleanLabels(t) && Ends(rest)
    ensures Lex(Print(t) + rest, "") == Tokens(t) + Lex(rest, "")
    decreases t, 0
  {
    match t
    case Label(p) =>
      QuoteIsWord(p);
      LexWord(Quote(p), rest);
    case Not(q) =>
      LexPrint(q, ")" + rest);
      LexCall("not", Print(q), Tokens(q), rest);
    case And(qs) =>
      LexPrintAll(qs, ")" + rest);
      LexCall("and", Join(PrintAll(qs), " "), TokensAll(qs), rest);
    case Or(qs) =>
      LexPrintAll(qs, ")" + rest);
      LexCall("or", Join(PrintAll(qs), " "), TokensAll(qs), rest);
  }

  lemma JoinTwo(qs: seq<Query>, rest: string)
    requires |qs| > 1
    ensures Join(PrintAll(qs), " ") + rest == Print(qs[0]) + (" " + (Join(PrintAll(qs[1..]), " ") + rest))
  {
    var parts := PrintAll(qs);
    assert parts[1..] == PrintAll(qs[1..]) && parts[0] == Print(qs[0]);
    Regroup(parts[0], " ", Join(parts[1..], " "), rest);
  }

  lemma Regroup(a: string, b: string, c: string, d: string)
    ensures a + b + c + d == a + (b + (c + d))
  {
  }

  lemma LexBlank(rest: string)
    ensures Lex(" " + rest, "") == Lex(rest, "")
  {
    assert (" " + rest)[1..] == rest;
    assert Word("") == [];
  }

  lemma {:induction false} LexPrintAll(qs: seq<Query>, rest: string)
    requires (forall q :: q in qs ==> CleanLabels(q)) && Ends(rest)
    ensures Lex(Join(PrintAll(qs), " ") + rest, "") == TokensAll(qs) + Lex(rest, "")
    decreases qs, 1
  {
    if qs == [] {
      assert Join(PrintAll(qs), " ") + rest == rest;
    } else if |qs| == 1 {
      LexPrint(qs[0], rest);
      assert Join(PrintAll(qs), " ") == Print(qs[0]);
      assert TokensAll(qs) == Tokens(qs[0]) + TokensAll([]);
    } else {
      var more := Join(PrintAll(qs[1..]), " ") + rest;
      JoinTwo(qs, rest);
      LexPrint(qs[0], " " + more);
      LexBlank(more);
      LexPrintAll(qs[1..], rest);
    }
  }

  /** Printing a tree gives back its canonical tokens. */
  lemma PrintTokens(t: Query)
    requires CleanLabels(t)
    ensures Lex(Print(t), "") == Tokens(t)
  {
    LexPrint(t, "");
    assert Print(t) + "" == Print(t);
  }

  lemma {:induction false} TokensAreClean(t: Query)
    requires forall x :: x in Tokens(t) ==> IsToken(x)
    ensures CleanLabels(t)
    decreases t, 0
  {
    match t
    case Label(p) =>
      assert Quote(p) in Tokens(t) && Quote(p)[0] == '\'';
      assert forall c :: c in p ==> c in Quote(p);
    case Not(q) => TokensAreClean(q);
    case And(qs) => TokensAllAreClean(qs);
    case Or(qs) => TokensAllAreClean(qs);
  }

  lemma {:induction false} TokensAllAreClean(qs: seq<Query>)
    requires forall x :: x in TokensAll(qs) ==> IsToken(x)
    ensures forall q :: q in qs ==> CleanLabels(q)
    decreases qs, 1
  {
    if qs != [] {
      TokensAreClean(qs[0]);
      TokensAllAreClean(qs[1..]);
    }
  }

  /** A tree that a text can stand for and that its printed form gives back. */
  ghost predicate Printable(t: Query, g: Globs) {
    WellFormed(t, g) && CleanLabels(t) && (t.Label? ==> Bare(t.pattern, IsQuote))
  }

  lemma TrimQuoted(p: string)
    requires p != "" && Bare(p, IsQuote)
    ensures TrimQuotes(Quote(p)) == p
  {
    var q := Quote(p);
    assert q[1..] == p + "'" && (p + "'")[0] == p[0];
    assert TrimLeft(q, IsQuote) == TrimLeft(p + "'", IsQuote) == p + "'";
    assert (p + "'")[..|p|] == p;
    assert TrimRight(p + "'", IsQuote) == TrimRight(p, IsQuote) == p;
  }

  lemma PrintMeans(t: Query, g: Globs)
    requires Printable(t, g)
    ensures Meaning(Print(t), g) == Some(t)
  {
    PrintTokens(t);
    if t.Label? {
      TrimQuoted(t.pattern);
    } else {
      MeaningOfTokens(Print(t), t, g);
    }
  }

  lemma MeaningIsPrintable(q: string, g: Globs)
    requires Meaning(q, g).Some?
    ensures WellFormed(Meaning(q, g).value, g)
    ensures Printable(Meaning(q, g).value, g) <==> !LoneParenthesis(q)
    ensures LoneParenthesis(q) ==> Meaning(q, g).value in {Label("("), Label(")")}
  {
    var ts := Lex(q, "");
    var t := Meaning(q, g).value;
    LexGivesTokens(q, "");
    if |ts| == 0 {
    } else if |ts| == 1 {
      TrimBare(ts[0], IsQuote);
      assert ts[0] in ts && t.pattern == TrimQuotes(ts[0]);
      if !LoneParenthesis(q) {
        assert ts == [ts[0]];
      } else {
        assert t.pattern[0] in t.pattern;
      }
    } else {
      TokensAreClean(t);
    }
  }

  // ----- texts that parse to nothing -----

  lemma {:induction false} QuoteNeverAlone(t: Query, g: Globs)
    requires WellFormed(t, g)
    ensures "'" !in Tokens(t)
    decreases t, 0
  {
    assert forall p :: p != "" ==> |Quote(p)| >= 3;
    match t
    case Label(p) =>
    case Not(q) => QuoteNeverAlone(q, g);
    case And(qs) => QuoteNeverAloneAll(qs, g);
    case Or(qs) => QuoteNeverAloneAll(qs, g);
  }

  lemma {:induction false} QuoteNeverAloneAll(qs: seq<Query>, g: Globs)
    requires WellFormedAll(qs, g)
    ensures "'" !in TokensAll(qs)
    decreases qs, 1
  {
    if qs != [] {
      QuoteNeverAlone(qs[0], g);
      QuoteNeverAloneAll(qs[1..], g);
    }
  }

  /** A text with a stray quote among several tokens is refused. */
  lemma StrayQuote(q: string, g: Globs)
    requires "'" in Lex(q, "") && |Lex(q, "")| > 1
    ensures Meaning(q, g) == None
  {
    forall t | WellFormed(t, g) ensures Tokens(t) != Lex(q, "") {
      QuoteNeverAlone(t, g);
    }
  }

  /** The printed form of a parenthesis label, wherever it stands, leaves a stray quote. */
  lemma LexParenthesisLabel(c: char, rest: string)
    requires c == '(' || c == ')'
    ensures ["'", [c]] <= Lex(Quote([c]) + rest, "")
  {
    var s := Quote([c]) + rest;
    assert s[1..] == [c] + ("'" + rest) && s[1..][1..] == "'" + rest;
    assert "" + [s[0]] == "'";
    TrimBare("'", IsSpace);
    assert Lex(s, "") == Lex(s[1..], "'") == ["'"] + [[c]] + Lex("'" + rest, "");
  }

  lemma ParenthesisLabelRefused(c: char, g: Globs)
    requires c == '(' || c == ')'
    ensures Meaning(Print(Label([c])), g) == None
  {
    LexParenthesisLabel(c, "");
    assert Quote([c]) + "" == Quote([c]);
    var ts := Lex(Print(Label([c])), "");
    assert ts[0] == "'";
    StrayQuote(Print(Label([c])), g);
  }

  /** A lone parenthesis stands for itself as a label, if the pattern compiles. */
  lemma ParenthesisParses(c: char, g: Globs)
    requires c == '(' || c == ')'
    ensures LoneParenthesis([c]) && Meaning([c], g) == if g.compiles([c]) then Some(Label([c])) else None
  {
    assert [c][1..] == [];
    assert Lex([c], "") == [[c]];
    assert TrimQuotes([c]) == [c] by {
      assert Bare([c], IsQuote);
      TrimBare([c], IsQuote);
    }
  }

  /** `(and)` and `(or)` parse, to operators without arguments. */
  lemma NoArguments(f: string, g: Globs)
    requires f == "and" || f == "or"
    ensures Meaning("(" + f + ")", g) == Some(if f == "and" then And([]) else Or([]))
  {
    var t := if f == "and" then And([]) else Or([]);
    var q := "(" + f + ")";
    assert q[1..] == f + ")" && [q[0]] == "(";
    LexWord(f, ")");
    LexClose("");
    assert Lex(q, "") == ["(", f, ")"];
    MeaningOfTokens(q, t, g);
  }

  /** One quoted word inside `not`. */
  lemma LexNot(rest: string)
    ensures Lex(Call("not", "'a'") + rest, "") == NOT_A + Lex(rest, "")
  {
    LexWord("'a'", ")" + rest);
    LexCall("not", "'a'", ["'a'"], rest);
  }

  /** Two quoted words inside `or`. */
  lemma LexOr(rest: string)
    ensures Lex(Call("or", "'a' 'b'") + rest, "") == A_OR_B + Lex(rest, "")
  {
    LexTwo("'a'", "'b'", ")" + rest);
    assert "'a'" + (" " + "'b'") == "'a' 'b'";
    LexCall("or", "'a' 'b'", ["'a'", "'b'"], rest);
  }

  lemma LexTwo(a: string, b: string, rest: string)
    requires Clean(a) && a != "" && Bare(a, IsSpace) && Clean(b) && b != "" && Bare(b, IsSpace) && Ends(rest)
    ensures Lex(a + (" " + b) + rest, "") == [a, b] + Lex(rest, "")
  {
    assert a + (" " + b) + rest == a + (" " + (b + rest));
    LexWord(a, " " + (b + rest));
    LexBlank(b + rest);
    LexWord(b, rest);
  }

  lemma Quoted()
    ensures Tokens(Label("a")) == ["'a'"] && Tokens(Label("b")) == ["'b'"]
  {
    assert Quote("a") == "'a'" && Quote("b") == "'b'";
  }

  /** `not` of one quoted pattern. */
  lemma NotMeans(g: Globs)
    requires g.compiles("a")
    ensures Meaning("(not 'a')", g) == Some(Not(Label("a")))
  {
    LexNot("");
    Quoted();
    assert Call("not", "'a'") + "" == "(not 'a')";
    MeaningOfTokens("(not 'a')", Not(Label("a")), g);
  }

  /** A text with all three words, two within the other. */
  lemma NestedMeans(g: Globs)
    requires g.compiles("a") && g.compiles("b")
    ensures Meaning("(and (not 'a') (or 'a' 'b'))", g) == Some(And([Not(Label("a")), Or([Label("a"), Label("b")])]))
  {
    var no, some := Call("not", "'a'"), Call("or", "'a' 'b'");
    LexNot(" " + (some + ")"));
    LexOr(")");
    LexPair(no, some, NOT_A, A_OR_B);
    NestedText(no + (" " + some));
    NestedTokens("(and (not 'a') (or 'a' 'b'))", g);
  }

  const NOT_A := ["(", "not", "'a'", ")"]
  const A_OR_B := ["(", "or", "'a'", "'b'", ")"]

  /** `and` of two arguments. */
  lemma LexPair(a: string, b: string, one: seq<string>, two: seq<string>)
    requires Lex(a + (" " + (b + ")")), "") == one + Lex(" " + (b + ")"), "") && Lex(b + ")", "") == two + Lex(")", "")
    ensures Lex(Call("and", a + (" " + b)), "") == ["(", "and"] + (one + two) + [")"]
  {
    var body := a + (" " + b);
    assert body + ")" == a + (" " + (b + ")"));
    LexBlank(b + ")");
    assert ")" + "" == ")" && Call("and", body) + "" == Call("and", body);
    LexCall("and", body, one + two, "");
  }

  lemma NestedText(body: string)
    requires body == Call("not", "'a'") + (" " + Call("or", "'a' 'b'"))
    ensures Call("and", body) == "(and (not 'a') (or 'a' 'b'))"
  {
    assert Call("not", "'a'") == "(not 'a')" && Call("or", "'a' 'b'") == "(or 'a' 'b')";
    assert body == "(not 'a') (or 'a' 'b')";
  }

  lemma NestedTokens(q: string, g: Globs)
    requires g.compiles("a") && g.compiles("b")
    requires Lex(q, "") == ["(", "and"] + (NOT_A + A_OR_B) + [")"]
    ensures Meaning(q, g) == Some(And([Not(Label("a")), Or([Label("a"), Label("b")])]))
  {
    var no, some := Not(Label("a")), Or([Label("a"), Label("b")]);
    Quoted();
    assert TokensAll([Label("a"), Label("b")]) == ["'a'", "'b'"] by {
      assert [Label("a"), Label("b")][1..] == [Label("b")];
      assert TokensAll([Label("b")]) == Tokens(Label("b")) + TokensAll([]);
    }
    assert TokensAll([no, some]) == Tokens(no) + Tokens(some) by {
      assert [no, some][1..] == [some] && TokensAll([some]) == Tokens(some) + TokensAll([]);
    }
    MeaningOfTokens(q, And([no, some]), g);
  }

  /** For every text that parses: the printed form parses to the same tree, unless the
      text was a lone parenthesis, whose printed form is refused. */
  lemma RoundTrip(q: string, g: Globs)
    requires Meaning(q, g).Some?
    ensures Meaning(Print(Meaning(q, g).value), g) ==
      if LoneParenthesis(q) then None else Meaning(q, g)
  {
    MeaningIsPrintable(q, g);
    if LoneParenthesis(q) {
      ParenthesisLabelRefused('(', g);
      ParenthesisLabelRefused(')', g);
    } else {
      PrintMeans(Meaning(q, g).value, g);
    }
  }

  /** The client parses and prints a query; the server parses the text it receives. */
  method SendQuery(g: Globs, q: string) returns (sent: Result<Query, string>, received: Result<Query, string>)
    ensures sent.Success? <==> Meaning(q, g).Some?
    ensures sent.Success? && !LoneParenthesis(q) ==> received == sent
    ensures sent.Success? && LoneParenthesis(q) ==> received.Failure?
    ensures sent.Failure? ==> received.Failure?
  {
    sent := Parse(g, q);
    if sent.Failure? {
      return sent, sent;
    }
    RoundTrip(q, g);
    var text := String(sent.value);
    received := Parse(g, text);
  }
}
