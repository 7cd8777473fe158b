/** `tokenize`, `buildQuery`, `buildExpression` and `Parse`, from characters to trees. */
module QueryParser {
  import opened GoStrings
  import opened Results
  import opened QuerySyntax

  // ----- tokens of a text -----

  predicate IsDelimiter(c: char) {
    c == ' ' || c == '(' || c == ')'
  }

  /** No blank and no parenthesis inside. */
  predicate Clean(s: string) {
    forall c :: c in s ==> !IsDelimiter(c)
  }

  /** What a run of characters between delimiters contributes: at most one token. */
  function Word(run: string): (r: seq<string>) {
    var w := TrimSpace(run);
    if w == "" then [] else [w]
  }

  /** The tokens of `run + text`, read left to right: parentheses stand alone, blanks
      separate, and the runs in between are trimmed. */
  function Lex(text: string, run: string): (r: seq<string>) {
    if text == "" then Word(run)
    else if text[0] == ' ' then Word(run) + Lex(text[1..], "")
    else if IsDelimiter(text[0]) then Word(run) + [[text[0]]] + Lex(text[1..], "")
    else Lex(text[1..], run + [text[0]])
  }

  /** What a token can look like. */
  predicate IsToken(t: string) {
    t == "(" || t == ")" || (t != "" && Clean(t) && Bare(t, IsSpace))
  }

  lemma {:induction false} LexGivesTokens(text: string, run: string)
    requires Clean(run)
    ensures forall t :: t in Lex(text, run) ==> IsToken(t)
  {
    TrimBare(run, IsSpace);
    if text == "" {
    } else if text[0] == ' ' || IsDelimiter(text[0]) {
      LexGivesTokens(text[1..], "");
    } else {
      LexGivesTokens(text[1..], run + [text[0]]);
    }
  }

  lemma {:induction false} LexRun(w: string, rest: string, run: string)
    requires Clean(w)
    ensures Lex(w + rest, run) == Lex(rest, run + w)
  {
    if w == "" {
      assert w + rest == rest && run + w == run;
    } else {
      assert w[0] in w;
      assert (w + rest)[1..] == w[1..] + rest;
      assert run + w == (run + [w[0]]) + w[1..];
      LexRun(w[1..], rest, run + [w[0]]);
    }
  }

  /** The non-empty trimmed entries of `raw`, in order. */
  function Stripped(raw: seq<string>): (r: seq<string>) {
    if raw == [] then [] else Stripped(raw[..|raw| - 1]) + Word(raw[|raw| - 1])
  }

  lemma {:induction false} StrippedConcat(a: seq<string>, b: seq<string>)
    ensures Stripped(a + b) == Stripped(a) + Stripped(b)
  {
    if b == [] {
      assert a + b == a;
    } else {
      assert (a + b)[..|a + b| - 1] == a + b[..|b| - 1];
      StrippedConcat(a, b[..|b| - 1]);
    }
  }

  /** Both parentheses padded with blanks. */
  function Padded(q: string): (r: string) {
    ReplaceAll(ReplaceAll(q, '(', " ( "), ')', " ) ")
  }

  lemma PaddedHead(q: string)
    requires q != ""
    ensures Padded(q) == (if q[0] == '(' then " ( " else if q[0] == ')' then " ) " else [q[0]]) + Padded(q[1..])
  {
    var head := if q[0] == '(' then " ( " else [q[0]];
    ReplaceAllConcat(head, ReplaceAll(q[1..], '(', " ( "), ')', " ) ");
    assert " ( "[1..] == "( " && "( "[1..] == " " && " "[1..] == "";
    assert [q[0]][1..] == "";
  }

  lemma SplitAtParen(c: char, rest: string, run: string)
    requires c != ' '
    ensures SplitFrom([' ', c, ' '] + rest, ' ', run) == [run] + ([[c]] + SplitFrom(rest, ' ', ""))
  {
    var s0, s1, s2 := [' ', c, ' '] + rest, [c, ' '] + rest, [' '] + rest;
    assert s0[1..] == s1 && s1[1..] == s2 && s2[1..] == rest;
    assert "" + [c] == [c];
    assert SplitFrom(s0, ' ', run) == [run] + SplitFrom(s1, ' ', "");
    assert SplitFrom(s1, ' ', "") == SplitFrom(s2, ' ', [c]);
  }

  lemma StrippedHead(run: string, tail: seq<string>)
    ensures Stripped([run] + tail) == Word(run) + Stripped(tail)
  {
    StrippedConcat([run], tail);
    assert [run][..0] == [];
  }

  lemma ParenIsLexed(c: char, rest: string, run: string)
    requires c == '(' || c == ')'
    ensures Stripped(SplitFrom([' ', c, ' '] + rest, ' ', run)) ==
      Word(run) + [[c]] + Stripped(SplitFrom(rest, ' ', ""))
  {
    var tail := SplitFrom(rest, ' ', "");
    SplitAtParen(c, rest, run);
    StrippedHead(run, [[c]] + tail);
    StrippedHead([c], tail);
    ParenIsWord(c);
  }

  lemma ParenIsWord(c: char)
    requires c == '(' || c == ')'
    ensures Word([c]) == [[c]]
  {
    TrimBare([c], IsSpace);
  }

  /** Padding, splitting at blanks and stripping reads the same tokens as the scanner. */
  lemma {:induction false} SplitIsLex(q: string, run: string)
    ensures Stripped(SplitFrom(Padded(q), ' ', run)) == Lex(q, run)
  {
    if q == "" {
      StrippedHead(run, []);
      assert [run] + [] == [run];
    } else {
      PaddedHead(q);
      var rest := Padded(q[1..]);
      if q[0] == ' ' {
        assert Padded(q)[1..] == rest;
        SplitIsLex(q[1..], "");
        StrippedHead(run, SplitFrom(rest, ' ', ""));
      } else if IsDelimiter(q[0]) {
        ParenIsLexed(q[0], rest, run);
        assert Padded(q) == [' ', q[0], ' '] + rest;
        SplitIsLex(q[1..], "");
      } else {
        assert Padded(q)[1..] == rest;
        SplitIsLex(q[1..], run + [q[0]]);
      }
    }
  }

  method Tokenize(q: string) returns (tokens: seq<string>)
    ensures tokens == Lex(q, "")
    ensures forall t :: t in tokens ==> IsToken(t)
  {
    var padded := ReplaceAll(q, '(', " ( ");
    padded := ReplaceAll(padded, ')', " ) ");
    tokens := [];
    var rawTokens := Split(padded, ' ');
    for i := 0 to |rawTokens|
      invariant tokens == Stripped(rawTokens[..i])
    {
      assert rawTokens[..i + 1][..i] == rawTokens[..i];
      var stripped := TrimSpace(rawTokens[i]);
      if stripped == "" {
        continue;
      }
      tokens := tokens + [stripped];
    }
    assert rawTokens[..|rawTokens|] == rawTokens;
    SplitIsLex(q, "");
    LexGivesTokens(q, "");
  }

  // ----- trees of a token list -----

  method NewLabelQuery(g: Globs, quoted: string) returns (r: Result<Query, string>)
    ensures r.Success? <==> exists p :: quoted == Quote(p) && WellFormed(Label(p), g)
    ensures r.Success? ==> r.value.Label? && WellFormed(r.value, g) && Tokens(r.value) == [quoted]
  {
    if |quoted| < 3 {
      assert forall p :: p != "" ==> |Quote(p)| >= 3;
      return Failure("label must be at least 2 length");
    }
    if quoted[0] != '\'' || quoted[|quoted| - 1] != '\'' {
      return Failure("label must be in quotations");
    }
    var pattern := quoted[1..|quoted| - 1];
    assert quoted == Quote(pattern);
    assert forall p :: quoted == Quote(p) ==> p == quoted[1..|quoted| - 1];
    if !g.compiles(pattern) {
      return Failure("pattern does not compile");
    }
    return Success(Label(pattern));
  }

  ghost predicate WellFormedAll(qs: seq<Query>, g: Globs) {
    forall q :: q in qs ==> WellFormed(q, g)
  }

  /** The token list is the canonical token sequence of a well-formed tree. */
  ghost predicate Canonical(tokens: seq<string>, g: Globs) {
    exists t :: WellFormed(t, g) && Tokens(t) == tokens
  }

  /** Succeeds exactly on canonical token lists, with the one tree they come from. */
  method BuildQuery(g: Globs, tokens: seq<string>) returns (r: Result<Query, string>)
    requires |tokens| > 0
    ensures r.Success? <==> Canonical(tokens, g)
    ensures r.Success? ==> WellFormed(r.value, g) && Tokens(r.value) == tokens
    decreases |tokens|, 0
  {
    if tokens[0] != "(" {
      if |tokens| > 1 {
        forall t | Tokens(t) == tokens ensures false {
          TokensIsUnit(t);
        }
        return Failure("unexpected trailing tokens");
      }
      r := NewLabelQuery(g, tokens[0]);
      assert forall t :: Tokens(t) == tokens ==> t.Label? && Tokens(t)[0] == Quote(t.pattern);
      assert tokens == [tokens[0]];
      return;
    }
    forall t | Tokens(t) == tokens ensures CompoundOf(t, tokens) {
      CompoundShape(t, tokens);
    }
    if |tokens[1..]| < 2 {
      return Failure("query must have function and expression");
    } else if tokens[|tokens| - 1] != ")" {
      return Failure("query must end in a closing parenthesis");
    }
    var body := tokens[2..|tokens| - 1];
    assert tokens == ["(", tokens[1]] + body + [")"];
    forall t | WellFormed(t, g) && Tokens(t) == tokens
      ensures CompoundOf(t, tokens) && WellFormedAll(Arguments(t), g) && TokensAll(Arguments(t)) == body
    {
    }
    var built := BuildExpression(g, body);
    if built.Failure? {
      return Failure(built.error);
    }
    var queries := built.value;
    forall t | Tokens(t) == tokens ensures Arguments(t) == queries {
      TokensAllInjective(Arguments(t), queries);
    }
    match tokens[1] {
      case "not" =>
        if |queries| != 1 {
          return Failure("not query must have exactly 1 argument");
        }
        assert TokensAll(queries) == Tokens(queries[0]) + [];
        assert WellFormed(Not(queries[0]), g) && Tokens(Not(queries[0])) == tokens;
        return Success(Not(queries[0]));
      case "and" =>
        assert WellFormed(And(queries), g) && Tokens(And(queries)) == tokens;
        return Success(And(queries));
      case "or" =>
        assert WellFormed(Or(queries), g) && Tokens(Or(queries)) == tokens;
        return Success(Or(queries));
      case _ =>
        return Failure("unrecognized function");
    }
  }

  /** The argument list of a compound query. */
  ghost function Arguments(t: Query): seq<Query>
    requires !t.Label?
  {
    match t
    case Not(q) => [q]
    case And(qs) => qs
    case Or(qs) => qs
  }

  ghost predicate CompoundOf(t: Query, tokens: seq<string>) {
    && !t.Label?
    && |tokens| >= 3
    && tokens[|tokens| - 1] == ")"
    && tokens[1] == (if t.Not? then "not" else if t.And? then "and" else "or")
    && tokens[2..|tokens| - 1] == TokensAll(Arguments(t))
  }

  lemma CompoundShape(t: Query, tokens: seq<string>)
    requires Tokens(t) == tokens && tokens != [] && tokens[0] == "("
    ensures CompoundOf(t, tokens)
  {
    assert forall p :: Quote(p)[0] == '\'';
    assert !t.Label?;
    assert t.Not? ==> TokensAll([t.query]) == Tokens(t.query);
    assert TokensAll(Arguments(t)) == tokens[2..|tokens| - 1];
  }

  /** The scan from the parenthesis at `i` has reached `j` without closing it before. */
  ghost predicate Scanned(tokens: seq<string>, i: int, j: int, parens: int) {
    && 0 <= i < j <= |tokens|
    && parens == Depth(tokens[i..j])
    && parens >= 0
    && forall k :: i < k < j ==> Depth(tokens[i..k]) > 0
  }

  lemma ScanStep(tokens: seq<string>, i: int, j: int, parens: int)
    requires Scanned(tokens, i, j, parens) && parens > 0 && j < |tokens|
    ensures Scanned(tokens, i, j + 1, parens + Weight(tokens[j]))
  {
    assert tokens[i..j + 1][..j - i] == tokens[i..j];
  }

  lemma ScanUnit(tokens: seq<string>, i: int, j: int)
    requires 0 <= i < j <= |tokens|
    requires if tokens[i] == "(" then Scanned(tokens, i, j, 0) else j == i + 1
    ensures IsUnit(tokens[i..j])
  {
    assert forall k :: 0 < k < j - i ==> tokens[i..j][..k] == tokens[i..i + k];
  }

  /** Splits `tokens` into units and builds each. */
  method BuildExpression(g: Globs, tokens: seq<string>) returns (r: Result<seq<Query>, string>)
    ensures r.Success? <==> exists qs :: WellFormedAll(qs, g) && TokensAll(qs) == tokens
    ensures r.Success? ==> WellFormedAll(r.value, g) && TokensAll(r.value) == tokens
    decreases |tokens|, 1
  {
    var queries: seq<Query> := [];
    var i := 0;
    while i < |tokens|
      invariant 0 <= i <= |tokens|
      invariant WellFormedAll(queries, g) && TokensAll(queries) == tokens[..i]
    {
      var j := i + 1;
      if tokens[i] == "(" {
        var parens := 1;
        assert tokens[i..i + 1] == ["("] && ["("][..0] == [];
        while j < |tokens| && parens > 0
          invariant Scanned(tokens, i, j, parens)
        {
          ScanStep(tokens, i, j, parens);
          match tokens[j] {
            case "(" => parens := parens + 1;
            case ")" => parens := parens - 1;
            case _ =>
          }
          j := j + 1;
        }
        if parens != 0 {
          NoUnit(g, queries, tokens, i);
          return Failure("no matching parenthesis");
        }
      }
      ScanUnit(tokens, i, j);
      var qry := BuildQuery(g, tokens[i..j]);
      if qry.Failure? {
        NextUnit(g, queries, tokens, i, j);
        return Failure(qry.error);
      }
      Extend(queries, qry.value, tokens, i, j);
      queries := queries + [qry.value];
      i := j;
    }
    assert tokens[..i] == tokens;
    return Success(queries);
  }

  lemma Extend(queries: seq<Query>, q: Query, tokens: seq<string>, i: nat, j: nat)
    requires i <= j <= |tokens| && TokensAll(queries) == tokens[..i] && Tokens(q) == tokens[i..j]
    ensures TokensAll(queries + [q]) == tokens[..j]
  {
    TokensAllConcat(queries, [q]);
    assert TokensAll([q]) == Tokens(q) + [];
  }

  /** Any reading of the whole list starts with the queries already built and continues
      with the unit found next. */
  lemma NextUnit(g: Globs, queries: seq<Query>, tokens: seq<string>, i: nat, j: nat)
    requires i < j <= |tokens| && TokensAll(queries) == tokens[..i]
    requires IsUnit(tokens[i..j]) && !Canonical(tokens[i..j], g)
    ensures !exists qs :: WellFormedAll(qs, g) && TokensAll(qs) == tokens
  {
    forall qs | WellFormedAll(qs, g) && TokensAll(qs) == tokens ensures false {
      var q, rest := Continue(queries, qs, tokens, i);
      TokensIsUnit(q);
      assert tokens[i..] == tokens[i..j] + tokens[j..];
      UnitPrefixUnique(Tokens(q), rest, tokens[i..j], tokens[j..]);
    }
  }

  lemma NoUnit(g: Globs, queries: seq<Query>, tokens: seq<string>, i: nat)
    requires i < |tokens| && TokensAll(queries) == tokens[..i] && tokens[i] == "("
    requires forall k :: i < k <= |tokens| ==> Depth(tokens[i..k]) > 0
    ensures !exists qs :: WellFormedAll(qs, g) && TokensAll(qs) == tokens
  {
    forall qs | WellFormedAll(qs, g) && TokensAll(qs) == tokens ensures false {
      var q, rest := Continue(queries, qs, tokens, i);
      UnitCloses(q, rest, tokens, i);
    }
  }

  lemma UnitCloses(q: Query, rest: seq<string>, tokens: seq<string>, i: nat)
    requires i < |tokens| && tokens[i..] == Tokens(q) + rest && tokens[i] == "("
    ensures exists k :: i < k <= |tokens| && Depth(tokens[i..k]) == 0
  {
    TokensIsUnit(q);
    var k := i + |Tokens(q)|;
    assert tokens[i..k] == tokens[i..][..|Tokens(q)|] == Tokens(q);
    assert Tokens(q)[0] == tokens[i];
  }

  lemma {:induction false} Continue(queries: seq<Query>, qs: seq<Query>, tokens: seq<string>, i: nat)
      returns (q: Query, rest: seq<string>)
    requires i < |tokens| && TokensAll(queries) == tokens[..i] && TokensAll(qs) == tokens
    ensures q in qs && tokens[i..] == Tokens(q) + rest
  {
    q, rest := qs[0], TokensAll(qs[1..]);
    TokensIsUnit(q);
    if queries == [] {
      assert tokens[i..] == tokens;
    } else {
      TokensIsUnit(queries[0]);
      var done := TokensAll(queries[1..]);
      assert tokens == Tokens(queries[0]) + (done + tokens[i..]) by {
        assert tokens == tokens[..i] + tokens[i..];
      }
      UnitPrefixUnique(Tokens(q), rest, Tokens(queries[0]), done + tokens[i..]);
      assert rest[..|done|] == done && rest[|done|..] == tokens[i..];
      q, rest := Continue(queries[1..], qs[1..], rest, |done|);
    }
  }

  // ----- Parse -----

  ghost function LabelMeaning(p: string, g: Globs): Option<Query> {
    if WellFormed(Label(p), g) then Some(Label(p)) else None
  }

  /** The tree a text stands for, if any: nothing means `*`, a single token is a label
      with or without quotes, and a longer list must be the canonical tokens of a tree. */
  ghost function Meaning(q: string, g: Globs): Option<Query> {
    var ts := Lex(q, "");
    if |ts| == 0 then LabelMeaning("*", g)
    else if |ts| == 1 then LabelMeaning(TrimQuotes(ts[0]), g)
    else if Canonical(ts, g) then
      var t :| WellFormed(t, g) && Tokens(t) == ts;
      Some(t)
    else None
  }

  lemma MeaningOfTokens(q: string, t: Query, g: Globs)
    requires Lex(q, "") == Tokens(t) && |Tokens(t)| > 1 && WellFormed(t, g)
    ensures Meaning(q, g) == Some(t)
  {
    assert Canonical(Tokens(t), g);
    TokensInjective(t, Meaning(q, g).value);
  }

  lemma QuoteInjective(p: string, q: string)
    ensures Quote(p) == Quote(q) ==> p == q
  {
    assert Quote(p)[1..|p| + 1] == p && Quote(q)[1..|q| + 1] == q;
    assert |Quote(p)| == |p| + 2 && |Quote(q)| == |q| + 2;
  }

  method Parse(g: Globs, q: string) returns (r: Result<Query, string>)
    ensures r == match Meaning(q, g) case Some(t) => Success(t) case None => Failure("invalid argument")
  {
    var tokens := Tokenize(q);
    if |tokens| == 0 {
      tokens := ["*"];
      TrimBare("*", IsQuote);
    }
    var qry;
    if |tokens| == 1 {
      var pattern := TrimQuotes(tokens[0]);
      qry := NewLabelQuery(g, "'" + pattern + "'");
      assert Quote(pattern) == "'" + pattern + "'";
      forall p ensures Quote(p) == Quote(pattern) ==> p == pattern {
        QuoteInjective(p, pattern);
      }
    } else {
      qry := BuildQuery(g, tokens);
      if qry.Success? {
        MeaningOfTokens(q, qry.value, g);
      }
    }
    if qry.Failure? {
      return Failure("invalid argument");
    }
    return qry;
  }
}
