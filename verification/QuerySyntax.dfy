/** Query trees, their canonical token sequences and their printed form. */
module QuerySyntax {
  import opened GoStrings

  /** The four query kinds.  A compiled glob is determined by its pattern, so a label
      query carries the pattern only. */
  datatype Query =
    | Label(pattern: string)
    | Not(query: Query)
    | And(queries: seq<Query>)
    | Or(queries: seq<Query>)

  /** The glob library: which patterns compile, and which strings a pattern matches. */
  datatype Globs = Globs(compiles: string -> bool, matches: (string, string) -> bool) {
    /** What the code relies on: `*` compiles and matches every string. */
    ghost predicate StarMatchesAll() {
      compiles("*") && forall s :: matches("*", s)
    }
  }

  /** Every label is non-empty and compiles. */
  ghost predicate WellFormed(t: Query, g: Globs) {
    match t
    case Label(p) => p != "" && g.compiles(p)
    case Not(q) => WellFormed(q, g)
    case And(qs) => forall q | q in qs :: WellFormed(q, g)
    case Or(qs) => forall q | q in qs :: WellFormed(q, g)
  }

  function Quote(p: string): string {
    "'" + p + "'"
  }

  // ----- canonical tokens -----

  function Tokens(t: Query): (r: seq<string>)
    decreases t, 0
  {
    match t
    case Label(p) => [Quote(p)]
    case Not(q) => ["(", "not"] + Tokens(q) + [")"]
    case And(qs) => ["(", "and"] + TokensAll(qs) + [")"]
    case Or(qs) => ["(", "or"] + TokensAll(qs) + [")"]
  }

  function TokensAll(qs: seq<Query>): (r: seq<string>)
    decreases qs, 1
  {
    if qs == [] then [] else Tokens(qs[0]) + TokensAll(qs[1..])
  }

  lemma {:induction false} TokensAllConcat(a: seq<Query>, b: seq<Query>)
    ensures TokensAll(a + b) == TokensAll(a) + TokensAll(b)
  {
    if a == [] {
      assert a + b == b;
    } else {
      assert (a + b)[1..] == a[1..] + b;
      TokensAllConcat(a[1..], b);
    }
  }

  // ----- parenthesis depth -----

  function Weight(token: string): int {
    if token == "(" then 1 else if token == ")" then -1 else 0
  }

  /** Opening minus closing parentheses. */
  function Depth(ts: seq<string>): int {
    if ts == [] then 0 else Depth(ts[..|ts| - 1]) + Weight(ts[|ts| - 1])
  }

  lemma {:induction false} DepthConcat(a: seq<string>, b: seq<string>)
    ensures Depth(a + b) == Depth(a) + Depth(b)
  {
    if b == [] {
      assert a + b == a;
    } else {
      assert (a + b)[..|a + b| - 1] == a + b[..|b| - 1];
      DepthConcat(a, b[..|b| - 1]);
    }
  }

  /** A token list that reads as one element: a single token that opens nothing, or a
      parenthesised list whose first parenthesis is closed by its last token. */
  ghost predicate IsUnit(ts: seq<string>) {
    && |ts| > 0
    && if ts[0] == "(" then
         Depth(ts) == 0 && forall k :: 0 < k < |ts| ==> Depth(ts[..k]) > 0
       else
         |ts| == 1
  }

  /** No prefix closes more than it opened, and all is closed at the end. */
  ghost predicate Balanced(ts: seq<string>) {
    Depth(ts) == 0 && forall k :: 0 <= k <= |ts| ==> Depth(ts[..k]) >= 0
  }

  lemma BalancedConcat(a: seq<string>, b: seq<string>)
    requires Balanced(a) && Balanced(b)
    ensures Balanced(a + b)
  {
    DepthConcat(a, b);
    forall k | 0 <= k <= |a + b| ensures Depth((a + b)[..k]) >= 0 {
      if k <= |a| {
        assert (a + b)[..k] == a[..k];
      } else {
        assert (a + b)[..k] == a + b[..k - |a|];
        DepthConcat(a, b[..k - |a|]);
      }
    }
  }

  lemma UnitIsBalanced(ts: seq<string>)
    requires IsUnit(ts) && ts[0] != ")"
    ensures Balanced(ts)
  {
    assert ts[..|ts|] == ts;
    if ts[0] != "(" {
      assert ts[..0] == [];
    }
  }

  lemma Parenthesised(f: string, body: seq<string>)
    requires Balanced(body) && f != "(" && f != ")"
    ensures IsUnit(["(", f] + body + [")"])
  {
    var ts := ["(", f] + body + [")"];
    assert ["(", f][..1] == ["("] && ["("][..0] == [];
    assert Depth(["("]) == 1 && Depth(["(", f]) == 1;
    assert ts[..|ts| - 1] == ["(", f] + body;
    DepthConcat(["(", f], body);
    forall k | 0 < k < |ts| ensures Depth(ts[..k]) > 0 {
      if k == 1 {
        assert ts[..k] == ["("];
      } else {
        assert ts[..k] == ["(", f] + body[..k - 2];
        DepthConcat(["(", f], body[..k - 2]);
      }
    }
  }

  lemma {:induction false} TokensIsUnit(t: Query)
    ensures IsUnit(Tokens(t)) && Balanced(Tokens(t))
    decreases t, 0
  {
    match t
    case Label(p) =>
      assert Tokens(t)[0][0] == '\'';
      UnitIsBalanced(Tokens(t));
    case Not(q) =>
      TokensIsUnit(q);
      Parenthesised("not", Tokens(q));
      UnitIsBalanced(Tokens(t));
    case And(qs) =>
      TokensAllBalanced(qs);
      Parenthesised("and", TokensAll(qs));
      UnitIsBalanced(Tokens(t));
    case Or(qs) =>
      TokensAllBalanced(qs);
      Parenthesised("or", TokensAll(qs));
      UnitIsBalanced(Tokens(t));
  }

  lemma {:induction false} TokensAllBalanced(qs: seq<Query>)
    ensures Balanced(TokensAll(qs))
    decreases qs, 1
  {
    if qs != [] {
      TokensIsUnit(qs[0]);
      TokensAllBalanced(qs[1..]);
      BalancedConcat(Tokens(qs[0]), TokensAll(qs[1..]));
    }
  }

  lemma UnitInUnit(a: seq<string>, b: seq<string>)
    requires IsUnit(a) && IsUnit(b)
    ensures a <= b ==> a == b
  {
    if a <= b {
      assert a == b[..|a|] && a[0] == b[0];
    }
  }

  /** A token list has at most one prefix that is a unit. */
  lemma UnitPrefixUnique(a: seq<string>, x: seq<string>, b: seq<string>, y: seq<string>)
    requires IsUnit(a) && IsUnit(b) && a + x == b + y
    ensures a == b && x == y
  {
    var s := a + x;
    assert s[..|a|] == a && s[..|b|] == b;
    assert a <= b || b <= a;
    UnitInUnit(a, b);
    UnitInUnit(b, a);
    assert s[|a|..] == x && s[|b|..] == y;
  }

  /** Distinct trees have distinct token sequences. */
  lemma {:induction false} TokensInjective(t: Query, u: Query)
    requires Tokens(t) == Tokens(u)
    ensures t == u
    decreases t, 0
  {
    var ts := Tokens(t);
    if t.Label? || u.Label? {
      assert ts[0] == Tokens(t)[0] && ts[0] == Tokens(u)[0];
      assert Quote("")[0] == '\'';
      assert t.Label? && u.Label?;
      assert t.pattern == Quote(t.pattern)[1..|t.pattern| + 1];
      assert u.pattern == Quote(u.pattern)[1..|u.pattern| + 1];
    } else {
      assert ts[1] == Tokens(t)[1] && ts[1] == Tokens(u)[1];
      assert "not"[0] == 'n' && "and"[0] == 'a' && "or"[0] == 'o';
      match t {
        case Not(q) =>
          assert Tokens(q) == ts[2..|ts| - 1] && Tokens(u.query) == ts[2..|ts| - 1];
          TokensInjective(q, u.query);
        case And(qs) =>
          assert TokensAll(qs) == ts[2..|ts| - 1] && TokensAll(u.queries) == ts[2..|ts| - 1];
          TokensAllInjective(qs, u.queries);
        case Or(qs) =>
          assert TokensAll(qs) == ts[2..|ts| - 1] && TokensAll(u.queries) == ts[2..|ts| - 1];
          TokensAllInjective(qs, u.queries);
      }
    }
  }

  lemma {:induction false} TokensAllInjective(qs: seq<Query>, us: seq<Query>)
    requires TokensAll(qs) == TokensAll(us)
    ensures qs == us
    decreases qs, 1
  {
    if qs != [] { TokensIsUnit(qs[0]); }
    if us != [] { TokensIsUnit(us[0]); }
    if qs != [] && us != [] {
      UnitPrefixUnique(Tokens(qs[0]), TokensAll(qs[1..]), Tokens(us[0]), TokensAll(us[1..]));
      TokensInjective(qs[0], us[0]);
      TokensAllInjective(qs[1..], us[1..]);
      assert qs == [qs[0]] + qs[1..] && us == [us[0]] + us[1..];
    }
  }

  // ----- printing -----

  /** `fmt.Sprintf("(f %s)", body)`. */
  function Call(f: string, body: string): string {
    "(" + f + " " + body + ")"
  }

  /** The text `String` produces. */
  function Print(t: Query): (r: string)
    decreases t, 0
  {
    match t
    case Label(p) => Quote(p)
    case Not(q) => Call("not", Print(q))
    case And(qs) => Call("and", Join(PrintAll(qs), " "))
    case Or(qs) => Call("or", Join(PrintAll(qs), " "))
  }

  function PrintAll(qs: seq<Query>): (r: seq<string>)
    ensures |r| == |qs|
    decreases qs, 1
  {
    if qs == [] then [] else [Print(qs[0])] + PrintAll(qs[1..])
  }

  lemma {:induction false} PrintAllAt(qs: seq<Query>, i: nat)
    requires i < |qs|
    ensures PrintAll(qs)[i] == Print(qs[i])
    ensures PrintAll(qs[..i + 1]) == PrintAll(qs[..i]) + [Print(qs[i])]
  {
    if i > 0 {
      PrintAllAt(qs[1..], i - 1);
      assert qs[1..][..i] == qs[..i + 1][1..] && qs[1..][..i - 1] == qs[..i][1..];
    } else {
      assert qs[..1] == [qs[0]] && qs[..0] == [] && qs[..1][1..] == [];
    }
  }

  /** `String` on the four query kinds. */
  method String(t: Query) returns (s: string)
    ensures s == Print(t)
    decreases t
  {
    match t
    case Label(p) =>
      s := "'" + p + "'";
    case Not(q) =>
      var inner := String(q);
      s := Call("not", inner);
    case And(qs) =>
      var r: seq<string> := [];
      for i := 0 to |qs|
        invariant r == PrintAll(qs[..i])
      {
        var part := String(qs[i]);
        r := r + [part];
        PrintAllAt(qs, i);
      }
      assert qs[..|qs|] == qs;
      s := Call("and", Join(r, " "));
    case Or(qs) =>
      var r: seq<string> := [];
      for i := 0 to |qs|
        invariant r == PrintAll(qs[..i])
      {
        var part := String(qs[i]);
        r := r + [part];
        PrintAllAt(qs, i);
      }
      assert qs[..|qs|] == qs;
      s := Call("or", Join(r, " "));
  }
}
