/** The string operations of Go's standard library that the model relies on.

    A Go string is modelled as a sequence of Unicode scalar values.  Comparing two
    valid UTF-8 strings byte by byte and comparing them code point by code point
    give the same answer, so `Less` is Go's `<` on strings.
*/
module GoStrings {

  /** Go's `<` on strings: lexicographic order. */
  predicate Less(a: string, b: string) {
    b != [] && (a == [] || a[0] < b[0] || (a[0] == b[0] && Less(a[1..], b[1..])))
  }

  /** The strings first differ at k, where the lesser one ends or has the lesser character. */
  predicate DifferAt(a: string, b: string, k: nat) {
    && k <= |a| && k < |b| && a[..k] == b[..k]
    && (k == |a| || a[k] < b[k])
  }

  lemma {:induction false} LessAtFirst(a: string, b: string)
    ensures Less(a, b) <==> exists k: nat :: DifferAt(a, b, k)
  {
    forall k: nat | DifferAt(a, b, k) && k > 0 ensures a[0] == b[0] {
      assert a[..k][0] == b[..k][0];
    }
    if a != [] && b != [] && a[0] == b[0] {
      LessAtFirst(a[1..], b[1..]);
      if k: nat :| DifferAt(a[1..], b[1..], k) {
        assert a[..k + 1] == [a[0]] + a[1..][..k] && b[..k + 1] == [b[0]] + b[1..][..k];
        assert DifferAt(a, b, k + 1);
      }
      if k: nat :| DifferAt(a, b, k) {
        assert a[1..][..k - 1] == a[..k][1..] && b[1..][..k - 1] == b[..k][1..];
        assert DifferAt(a[1..], b[1..], k - 1);
      }
    } else if Less(a, b) {
      assert DifferAt(a, b, 0);
    }
  }

  predicate Leq(a: string, b: string) {
    a == b || Less(a, b)
  }

  lemma {:induction false} LessIrreflexive(a: string)
    ensures !Less(a, a)
  {
    if a != [] {
      LessIrreflexive(a[1..]);
    }
  }

  lemma {:induction false} LessTransitive(a: string, b: string, c: string)
    requires Less(a, b) && Less(b, c)
    ensures Less(a, c)
  {
    if a != [] && a[0] == b[0] && b[0] == c[0] {
      LessTransitive(a[1..], b[1..], c[1..]);
    }
  }

  lemma {:induction false} LessTotal(a: string, b: string)
    ensures Less(a, b) || a == b || Less(b, a)
  {
    if a != [] && b != [] && a[0] == b[0] {
      LessTotal(a[1..], b[1..]);
      assert a == [a[0]] + a[1..] && b == [b[0]] + b[1..];
    }
  }

  lemma LessAsymmetric(a: string, b: string)
    requires Less(a, b)
    ensures a != b && !Less(b, a)
  {
    LessIrreflexive(a);
    if Less(b, a) {
      LessTransitive(a, b, a);
    }
  }

  // ----- sorting -----

  ghost predicate Sorted(s: seq<string>) {
    forall i, j :: 0 <= i < j < |s| ==> Leq(s[i], s[j])
  }

  ghost predicate StrictlySorted(s: seq<string>) {
    forall i, j :: 0 <= i < j < |s| ==> Less(s[i], s[j])
  }

  ghost predicate NoDuplicates<T>(s: seq<T>) {
    forall i, j :: 0 <= i < j < |s| ==> s[i] != s[j]
  }

  lemma InLast<T>(s: seq<T>, x: T)
    requires s != []
    ensures x in s <==> x in s[..|s| - 1] || x == s[|s| - 1]
  {
    assert s == s[..|s| - 1] + [s[|s| - 1]];
  }

  /** One element more of a sequence. */
  lemma PrefixGrows<T>(s: seq<T>, i: nat)
    requires i < |s|
    ensures s[..i + 1] == s[..i] + [s[i]] && |s[..i + 1]| == i + 1
    ensures s[..i + 1][..|s[..i + 1]| - 1] == s[..i] && s[..i + 1][|s[..i + 1]| - 1] == s[i]
  {
  }

  function Insert(x: string, s: seq<string>): (r: seq<string>) {
    if s == [] || Less(x, s[0]) then [x] + s else [s[0]] + Insert(x, s[1..])
  }

  /** `sort.Strings`. */
  function Sort(s: seq<string>): (r: seq<string>) {
    if s == [] then [] else Insert(s[0], Sort(s[1..]))
  }

  lemma {:induction false} InsertKeepsAll(x: string, s: seq<string>)
    ensures multiset(Insert(x, s)) == multiset(s) + multiset{x}
  {
    if s == [] || Less(x, s[0]) {
    } else {
      InsertKeepsAll(x, s[1..]);
      assert s == [s[0]] + s[1..];
    }
  }

  lemma {:induction false} InsertSorted(x: string, s: seq<string>)
    requires Sorted(s)
    ensures Sorted(Insert(x, s))
  {
    if s == [] {
    } else if Less(x, s[0]) {
      var r := [x] + s;
      forall i, j | 0 <= i < j < |r| ensures Leq(r[i], r[j]) {
        if i == 0 && j > 1 {
          if s[0] != s[j - 1] {
            LessTransitive(x, s[0], s[j - 1]);
          }
        }
      }
    } else {
      LessTotal(x, s[0]);
      InsertSorted(x, s[1..]);
      InsertKeepsAll(x, s[1..]);
      var t := Insert(x, s[1..]);
      forall j | 0 <= j < |t| ensures Leq(s[0], t[j]) {
        assert t[j] in multiset(t);
        if t[j] != x {
          assert t[j] in multiset(s[1..]);
          assert t[j] in s[1..];
        }
      }
    }
  }

  lemma {:induction false} SortCorrect(s: seq<string>)
    ensures Sorted(Sort(s)) && multiset(Sort(s)) == multiset(s) && |Sort(s)| == |s|
  {
    if s != [] {
      SortCorrect(s[1..]);
      InsertSorted(s[0], Sort(s[1..]));
      InsertKeepsAll(s[0], Sort(s[1..]));
      assert s == [s[0]] + s[1..];
    }
    assert |multiset(Sort(s))| == |multiset(s)|;
  }

  lemma LeqAntisymmetric(a: string, b: string)
    requires Leq(a, b) && Leq(b, a)
    ensures a == b
  {
    if a != b {
      LessAsymmetric(a, b);
    }
  }

  lemma HeadIsLeast(a: seq<string>, x: string)
    requires Sorted(a) && x in a
    ensures Leq(a[0], x)
  {
    var i :| 0 <= i < |a| && a[i] == x;
    assert i == 0 || Leq(a[0], a[i]);
  }

  lemma TailMultiset(a: seq<string>)
    requires a != []
    ensures multiset(a[1..]) == multiset(a) - multiset{a[0]}
  {
    assert a == [a[0]] + a[1..];
  }

  /** A sorted sequence is determined by its elements: whatever order a map iteration
      delivers them in, sorting gives the same result. */
  lemma {:induction false} SortedUnique(a: seq<string>, b: seq<string>)
    requires Sorted(a) && Sorted(b) && multiset(a) == multiset(b)
    ensures a == b
  {
    assert |a| == |multiset(a)| == |multiset(b)| == |b|;
    if a != [] {
      assert a[0] in multiset(b) && b[0] in multiset(a);
      HeadIsLeast(b, a[0]);
      HeadIsLeast(a, b[0]);
      LeqAntisymmetric(a[0], b[0]);
      TailMultiset(a);
      TailMultiset(b);
      assert a == [a[0]] + a[1..] && b == [b[0]] + b[1..];
      SortedUnique(a[1..], b[1..]);
    }
  }

  lemma SortPermutation(a: seq<string>, b: seq<string>)
    requires multiset(a) == multiset(b)
    ensures Sort(a) == Sort(b)
  {
    SortCorrect(a);
    SortCorrect(b);
    SortedUnique(Sort(a), Sort(b));
  }

  lemma {:induction false} DistinctCounts(s: seq<string>)
    ensures NoDuplicates(s) <==> forall x :: multiset(s)[x] <= 1
  {
    if s != [] {
      var t := s[1..];
      DistinctCounts(t);
      assert s == [s[0]] + t;
      assert forall x :: multiset(s)[x] == multiset(t)[x] + if x == s[0] then 1 else 0;
      if NoDuplicates(s) {
        assert forall i :: 0 <= i < |t| ==> t[i] == s[i + 1];
        assert s[0] !in t;
        assert multiset(t)[s[0]] == 0;
      } else if NoDuplicates(t) {
        var i, j :| 0 <= i < j < |s| && s[i] == s[j];
        assert s[j] == t[j - 1];
        assert forall k :: 0 < k < |s| ==> s[k] == t[k - 1];
        assert s[0] in multiset(t);
        assert multiset(s)[s[0]] > 1;
      } else {
        var x :| multiset(t)[x] > 1;
        assert multiset(s)[x] > 1;
      }
    }
  }

  lemma NoDuplicatesFromMultiset(a: seq<string>, b: seq<string>)
    requires NoDuplicates(a) && multiset(a) == multiset(b)
    ensures NoDuplicates(b)
  {
    DistinctCounts(a);
    DistinctCounts(b);
  }

  /** The elements of a set in increasing order. */
  ghost function SortedSet(s: set<string>): (r: seq<string>)
    ensures StrictlySorted(r) && (forall x :: x in r <==> x in s) && |r| == |s|
  {
    var e := Enumerate(s);
    EnumerateNoDuplicates(s);
    SortOfDistinct(e);
    Sort(e)
  }

  ghost function Enumerate(s: set<string>): (r: seq<string>)
    ensures (forall x :: x in r <==> x in s) && |r| == |s|
  {
    if s == {} then [] else
      var x :| x in s;
      [x] + Enumerate(s - {x})
  }

  lemma {:induction false} EnumerateNoDuplicates(s: set<string>)
    ensures NoDuplicates(Enumerate(s))
  {
    if s != {} {
      var r := Enumerate(s);
      var x := r[0];
      assert r[1..] == Enumerate(s - {x});
      EnumerateNoDuplicates(s - {x});
      forall i, j | 0 <= i < j < |r| ensures r[i] != r[j] {
        if i == 0 {
          assert r[j] == r[1..][j - 1] && r[1..][j - 1] in r[1..];
        } else {
          assert r[i] == r[1..][i - 1] && r[j] == r[1..][j - 1];
        }
      }
    }
  }

  lemma SortOfDistinct(s: seq<string>)
    requires NoDuplicates(s)
    ensures StrictlySorted(Sort(s)) && (forall x :: x in Sort(s) <==> x in s) && |Sort(s)| == |s|
  {
    SortCorrect(s);
    NoDuplicatesFromMultiset(s, Sort(s));
    forall x ensures x in Sort(s) <==> x in s {
      assert x in Sort(s) <==> x in multiset(Sort(s));
      assert x in s <==> x in multiset(s);
    }
  }

  lemma StrictlySortedDistinct(s: seq<string>)
    requires StrictlySorted(s)
    ensures NoDuplicates(s)
  {
    forall i, j | 0 <= i < j < |s| ensures s[i] != s[j] {
      LessIrreflexive(s[i]);
    }
  }

  lemma {:induction false} StrictlySortedUnique(a: seq<string>, b: seq<string>)
    requires StrictlySorted(a) && StrictlySorted(b)
    requires forall x :: x in a <==> x in b
    ensures a == b
  {
    if a == [] || b == [] {
      HeadIsMember(a);
      HeadIsMember(b);
    } else {
      assert a[0] in b && b[0] in a;
      if a[0] != b[0] {
        var i :| 0 <= i < |b| && b[i] == a[0];
        var j :| 0 <= j < |a| && a[j] == b[0];
        assert Less(b[0], a[0]) && Less(a[0], b[0]);
        LessAsymmetric(a[0], b[0]);
      }
      forall x ensures x in a[1..] <==> x in b[1..] {
        LessIrreflexive(a[0]);
        TailMembers(a, x);
        TailMembers(b, x);
      }
      StrictlySortedUnique(a[1..], b[1..]);
      assert a == [a[0]] + a[1..] && b == [b[0]] + b[1..];
    }
  }

  lemma HeadIsMember(a: seq<string>)
    ensures a != [] ==> a[0] in a
  {
  }

  lemma TailMembers(a: seq<string>, x: string)
    requires StrictlySorted(a) && a != []
    ensures x in a[1..] <==> x in a && x != a[0]
  {
    LessIrreflexive(a[0]);
    if x in a && x != a[0] {
      var i :| 0 <= i < |a| && a[i] == x;
      assert a[1..][i - 1] == x;
    }
    if x in a[1..] {
      var i :| 0 <= i < |a[1..]| && a[1..][i] == x;
      assert Less(a[0], a[i + 1]);
    }
  }

  // ----- trimming, splitting, joining -----

  /** `unicode.IsSpace`: the code points with the White_Space property. */
  predicate IsSpace(c: char) {
    || c == ' ' || '\t' <= c <= '\r'
    || c == '\U{0085}' || c == '\U{00A0}' || c == '\U{1680}'
    || '\U{2000}' <= c <= '\U{200A}'
    || c == '\U{2028}' || c == '\U{2029}' || c == '\U{202F}' || c == '\U{205F}' || c == '\U{3000}'
  }

  function TrimLeft(s: string, cut: char -> bool): (r: string) {
    if s != [] && cut(s[0]) then TrimLeft(s[1..], cut) else s
  }

  function TrimRight(s: string, cut: char -> bool): (r: string) {
    if s != [] && cut(s[|s| - 1]) then TrimRight(s[..|s| - 1], cut) else s
  }

  function TrimBy(s: string, cut: char -> bool): string {
    TrimRight(TrimLeft(s, cut), cut)
  }

  /** `strings.TrimSpace`. */
  function TrimSpace(s: string): string {
    TrimBy(s, IsSpace)
  }

  predicate IsQuote(c: char) {
    c == '\''
  }

  /** `strings.Trim(s, "'")`. */
  function TrimQuotes(s: string): string {
    TrimBy(s, IsQuote)
  }

  /** Neither end of `s` would be cut. */
  predicate Bare(s: string, cut: char -> bool) {
    s != [] ==> !cut(s[0]) && !cut(s[|s| - 1])
  }

  /** A trimmed string is a slice of the original with bare ends. */
  lemma {:induction false} TrimLeftSlice(s: string, cut: char -> bool)
    ensures var r := TrimLeft(s, cut);
      |r| <= |s| && r == s[|s| - |r|..] && (r != [] ==> !cut(r[0]))
  {
    if s != [] && cut(s[0]) {
      TrimLeftSlice(s[1..], cut);
    }
  }

  lemma {:induction false} TrimRightSlice(s: string, cut: char -> bool)
    ensures var r := TrimRight(s, cut);
      |r| <= |s| && r == s[..|r|] && (r != [] ==> !cut(r[|r| - 1]))
  {
    if s != [] && cut(s[|s| - 1]) {
      TrimRightSlice(s[..|s| - 1], cut);
    }
  }

  lemma TrimBare(s: string, cut: char -> bool)
    ensures Bare(TrimBy(s, cut), cut)
    ensures forall c :: c in TrimBy(s, cut) ==> c in s
    ensures Bare(s, cut) ==> TrimBy(s, cut) == s
  {
    TrimLeftSlice(s, cut);
    TrimRightSlice(TrimLeft(s, cut), cut);
    assert |TrimBy(s, cut)| > 0 ==> TrimBy(s, cut)[0] == TrimLeft(s, cut)[0];
  }

  /** `strings.ReplaceAll(s, [c], repl)`. */
  function ReplaceAll(s: string, c: char, repl: string): (r: string) {
    if s == [] then []
    else (if s[0] == c then repl else [s[0]]) + ReplaceAll(s[1..], c, repl)
  }

  lemma {:induction false} ReplaceAllConcat(a: string, b: string, c: char, repl: string)
    ensures ReplaceAll(a + b, c, repl) == ReplaceAll(a, c, repl) + ReplaceAll(b, c, repl)
  {
    if a == [] {
      assert a + b == b;
    } else {
      assert (a + b)[1..] == a[1..] + b;
      ReplaceAllConcat(a[1..], b, c, repl);
    }
  }

  /** `strings.Split(cur + s, [sep])` when `cur` does not contain `sep`. */
  function SplitFrom(s: string, sep: char, cur: string): (r: seq<string>)
    ensures |r| >= 1
  {
    if s == [] then [cur]
    else if s[0] == sep then [cur] + SplitFrom(s[1..], sep, [])
    else SplitFrom(s[1..], sep, cur + [s[0]])
  }

  /** `strings.Split(s, [sep])`. */
  function Split(s: string, sep: char): (r: seq<string>) {
    SplitFrom(s, sep, [])
  }

  /** `strings.Join`. */
  function Join(parts: seq<string>, sep: string): (r: string) {
    if parts == [] then []
    else if |parts| == 1 then parts[0]
    else parts[0] + sep + Join(parts[1..], sep)
  }

  predicate NoComma(s: string) {
    ',' !in s
  }

  lemma {:induction false} SplitNext(s: string, rest: string, run: string)
    requires NoComma(s)
    ensures SplitFrom(s + "," + rest, ',', run) == [run + s] + Split(rest, ',')
    ensures SplitFrom(s, ',', run) == [run + s]
  {
    if s == "" {
      assert (s + "," + rest)[1..] == rest && run + s == run;
    } else {
      assert (s + "," + rest)[1..] == s[1..] + "," + rest;
      assert run + s == (run + [s[0]]) + s[1..];
      SplitNext(s[1..], rest, run + [s[0]]);
    }
  }

  /** A list of which no element has a comma comes back when the joined text is split. */
  lemma {:induction false} SplitJoin(l: seq<string>)
    requires l != [] && forall s :: s in l ==> NoComma(s)
    ensures Split(Join(l, ","), ',') == l
  {
    if |l| == 1 {
      SplitNext(l[0], "", "");
      assert "" + l[0] == l[0];
    } else {
      SplitNext(l[0], Join(l[1..], ","), "");
      SplitJoin(l[1..]);
      assert "" + l[0] == l[0];
    }
  }
}
