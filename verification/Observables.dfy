/** Observables as the orchestrator signs them (src/domain/p2p.rs, `format_observables_wire_json`). */
module Observables {
  import opened Decimals
  import opened Sorting

  /** The two parts of a coefficient, already printed (`format_go_float`). */
  datatype Coeff = Coeff(re: string, im: string)

  datatype Term = Term(pauli: string, coeff: Coeff)

  datatype Observable = Observable(id: string, terms: seq<Term>)

  function LabelOf(t: Term): string { t.pauli }

  function IdOf(o: Observable): string { o.id }

  const ENVELOPE: string := "{\"observables\":"
  const ID_HEAD: string := "{\"id\":\""
  const TERMS_MARK: string := ",\"terms\":["
  const TERM_HEAD: string := "{\"coeff\":{\"imag\":"
  const REAL_MARK: string := "\"real\":"
  const LABEL_MARK: string := ",\"label\":\""

  function TermText(t: Term): string {
    TERM_HEAD + (t.coeff.im + ("," + (REAL_MARK + (t.coeff.re + ("}" + (LABEL_MARK + (t.pauli + ("\"" + "}"))))))))
  }

  /** `[String]::join(",")` */
  function Join(parts: seq<string>): string {
    if parts == [] then "" else if |parts| == 1 then parts[0] else parts[0] + "," + Join(parts[1..])
  }

  function ObservableText(o: Observable): string {
    ID_HEAD + (o.id + ("\"" + (TERMS_MARK + (Join(Texts(Sort(o.terms, LabelOf), TermText)) + ("]" + "}")))))
  }

  /** Observables by id, and within each the terms by label. */
  function ObservablesText(observables: seq<Observable>): string {
    "[" + Join(Texts(Sort(observables, IdOf), ObservableText)) + "]"
  }

  method FormatObservableSpec(observables: seq<Observable>) returns (json: string)
    ensures json == "{\"observables\":" + (ObservablesText(observables) + "}")
  {
    var sorted := Sort(observables, IdOf);
    var parts: seq<string> := [];
    for i := 0 to |sorted|
      invariant parts == Texts(sorted[..i], ObservableText)
    {
      var terms := Sort(sorted[i].terms, LabelOf);
      var termParts := Texts(terms, TermText);
      TextsAppend(sorted[..i], sorted[i], ObservableText);
      assert sorted[..i + 1] == sorted[..i] + [sorted[i]];
      parts := parts + [ID_HEAD + (sorted[i].id + ("\"" + (TERMS_MARK + (Join(termParts) + ("]" + "}")))))];
    }
    assert sorted[..|sorted|] == sorted;
    json := ENVELOPE + (("[" + Join(parts) + "]") + "}");
  }

  /** The envelope is printed and then stripped off again. */
  method FormatObservablesWireJson(observables: seq<Observable>) returns (json: string)
    ensures json == ObservablesText(observables)
  {
    if observables == [] {
      return "[]";
    }
    var inner := FormatObservableSpec(observables);
    DropHead(ENVELOPE, ObservablesText(observables) + "}");
    DropHead(ObservablesText(observables), "}");
    json := inner[|ENVELOPE|..];
    json := json[..|json| - 1];
  }

  // ---------------------------------------------------------------------
  // The order of the list and of the terms does not matter
  // ---------------------------------------------------------------------

  /** The same terms of the same observable, in any order. */
  ghost predicate SameObservable(a: Observable, b: Observable) {
    a.id == b.id && multiset(a.terms) == multiset(b.terms)
  }

  lemma SameObservableSameText(a: Observable, b: Observable)
    requires SameObservable(a, b) && KeyDecides(a.terms, LabelOf)
    ensures ObservableText(a) == ObservableText(b)
  {
    hide Sort;
    SortForgetsOrder(a.terms, LabelOf);
    assert Sort(a.terms, LabelOf) == Sort(b.terms, LabelOf);
  }

  ghost predicate Pairwise(a: seq<Observable>, b: seq<Observable>) {
    && |a| == |b|
    && forall i :: 0 <= i < |a| ==> a[i].id == b[i].id && ObservableText(a[i]) == ObservableText(b[i])
  }

  lemma {:induction false} InsertPairwise(x: Observable, y: Observable, a: seq<Observable>, b: seq<Observable>)
    requires Pairwise([x], [y]) && Pairwise(a, b)
    ensures Pairwise(Insert(x, a, IdOf), Insert(y, b, IdOf))
    decreases |a|
  {
    hide AtMost, ObservableText;
    assert [x][0].id == [y][0].id;
    if a != [] && !AtMost(x.id, a[0].id) {
      InsertPairwise(x, y, a[1..], b[1..]);
    }
  }

  lemma {:induction false} SortPairwise(a: seq<Observable>, b: seq<Observable>)
    requires Pairwise(a, b)
    ensures Pairwise(Sort(a, IdOf), Sort(b, IdOf))
    decreases |a|
  {
    hide Insert, ObservableText;
    if a != [] {
      SortPairwise(a[1..], b[1..]);
      assert Pairwise([a[0]], [b[0]]);
      InsertPairwise(a[0], b[0], Sort(a[1..], IdOf), Sort(b[1..], IdOf));
    }
  }

  lemma {:induction false} TextsPairwise(a: seq<Observable>, b: seq<Observable>)
    requires Pairwise(a, b)
    ensures Texts(a, ObservableText) == Texts(b, ObservableText)
    decreases |a|
  {
    hide ObservableText;
    if a != [] {
      TextsPairwise(a[1..], b[1..]);
    }
  }

  /**
   Shuffle the observables, and the terms of each: the signed text is the same,
   as long as equal ids mean equal observables and equal labels equal terms.
   */
  lemma ObservablesTextForgetsOrder(a: seq<Observable>, shuffledTerms: seq<Observable>, b: seq<Observable>)
    requires |a| == |shuffledTerms|
    requires forall i :: 0 <= i < |a| ==> SameObservable(a[i], shuffledTerms[i]) && KeyDecides(a[i].terms, LabelOf)
    requires multiset(shuffledTerms) == multiset(b) && KeyDecides(shuffledTerms, IdOf)
    ensures ObservablesText(a) == ObservablesText(b)
  {
    hide Sort, ObservableText, Texts, Join;
    forall i | 0 <= i < |a| ensures ObservableText(a[i]) == ObservableText(shuffledTerms[i]) {
      SameObservableSameText(a[i], shuffledTerms[i]);
    }
    SortPairwise(a, shuffledTerms);
    TextsPairwise(Sort(a, IdOf), Sort(shuffledTerms, IdOf));
    SortForgetsOrder(shuffledTerms, IdOf);
    assert Sort(shuffledTerms, IdOf) == Sort(b, IdOf);
  }

  // ---------------------------------------------------------------------
  // Exactly when the order does not matter
  // ---------------------------------------------------------------------

  predicate Lacks(s: string, c: char) {
    forall i :: 0 <= i < |s| ==> s[i] != c
  }

  /** Nothing in the term breaks out of its place in the text. */
  predicate CleanTerm(t: Term) {
    Lacks(t.pauli, '\"') && Lacks(t.coeff.im, ',') && Lacks(t.coeff.re, '}')
  }

  predicate Clean(o: Observable) {
    Lacks(o.id, '\"') && forall t :: t in o.terms ==> CleanTerm(t)
  }

  lemma SameAfter(a: string, x: string, y: string)
    requires a + x == a + y
    ensures x == y
  {
    DropHead(a, x);
    DropHead(a, y);
  }

  lemma FirstAt(a: string, c: char, x: string)
    requires Lacks(a, c)
    ensures |a + ([c] + x)| > |a| && (a + ([c] + x))[|a|] == c
    ensures forall i :: 0 <= i < |a| ==> (a + ([c] + x))[i] != c
  {
  }

  lemma SplitAt(a: string, b: string, c: char, x: string, y: string)
    requires Lacks(a, c) && Lacks(b, c) && a + ([c] + x) == b + ([c] + y)
    ensures a == b && x == y
  {
    FirstAt(a, c, x);
    FirstAt(b, c, y);
    assert |a| == |b|;
    DropHead(a, [c] + x);
    DropHead(b, [c] + y);
    SameAfter([c], x, y);
  }

  lemma TermThen(t: Term, x: string)
    ensures TermText(t) + x == TERM_HEAD + (t.coeff.im + ("," + (REAL_MARK + (t.coeff.re + ("}" + (LABEL_MARK + (t.pauli + ("\"" + ("}" + x)))))))))
  {
    hide *;
    var e := "\"" + "}";
    Concat("\"", "}", x);
    Concat(t.pauli, e, x);
    var d := t.pauli + e;
    Concat(LABEL_MARK, d, x);
    Concat("}", LABEL_MARK + d, x);
    var c := "}" + (LABEL_MARK + d);
    Concat(t.coeff.re, c, x);
    Concat(REAL_MARK, t.coeff.re + c, x);
    var b := REAL_MARK + (t.coeff.re + c);
    Concat(",", b, x);
    Concat(t.coeff.im, "," + b, x);
    TermTextIs(t);
    Concat(TERM_HEAD, t.coeff.im + ("," + b), x);
  }

  lemma TermTextIs(t: Term)
    ensures TermText(t) == TERM_HEAD + (t.coeff.im + ("," + (REAL_MARK + (t.coeff.re + ("}" + (LABEL_MARK + (t.pauli + ("\"" + "}"))))))))
  {
  }

  /** A clean term's text says where it ends and what it was. */
  lemma TermDelimits(t: Term, u: Term, x: string, y: string)
    requires CleanTerm(t) && CleanTerm(u) && TermText(t) + x == TermText(u) + y
    ensures t == u && x == y
  {
    hide TermText, Lacks;
    TermThen(t, x);
    TermThen(u, y);
    var t3, u3 := t.pauli + ("\"" + ("}" + x)), u.pauli + ("\"" + ("}" + y));
    var t2, u2 := t.coeff.re + ("}" + (LABEL_MARK + t3)), u.coeff.re + ("}" + (LABEL_MARK + u3));
    SameAfter(TERM_HEAD, t.coeff.im + ("," + (REAL_MARK + t2)), u.coeff.im + ("," + (REAL_MARK + u2)));
    SplitAt(t.coeff.im, u.coeff.im, ',', REAL_MARK + t2, REAL_MARK + u2);
    SameAfter(REAL_MARK, t2, u2);
    SplitAt(t.coeff.re, u.coeff.re, '}', LABEL_MARK + t3, LABEL_MARK + u3);
    SameAfter(LABEL_MARK, t3, u3);
    SplitAt(t.pauli, u.pauli, '\"', "}" + x, "}" + y);
    SameAfter("}", x, y);
  }

  /** What follows the first text of a list. */
  function RestOf(texts: seq<string>, x: string): string {
    if texts == [] then "]" + x else "," + (Join(texts) + ("]" + x))
  }

  lemma JoinHead(texts: seq<string>, x: string)
    requires texts != []
    ensures Join(texts) + ("]" + x) == texts[0] + RestOf(texts[1..], x)
  {
    if |texts| > 1 {
      Concat(texts[0], ",", Join(texts[1..]));
      Concat(texts[0], "," + Join(texts[1..]), "]" + x);
      Concat(",", Join(texts[1..]), "]" + x);
    }
  }

  /** Every text of one list says where it ends, whatever text of the other it meets. */
  ghost predicate Delimiting(a: seq<string>, b: seq<string>) {
    && (forall s :: s in a || s in b ==> s != "" && s[0] == '{')
    && (forall s, t, x, y :: s in a && t in b && s + x == t + y ==> s == t && x == y)
  }

  lemma RestDecides(a: seq<string>, b: seq<string>, x: string, y: string)
    requires RestOf(a, x) == RestOf(b, y)
    ensures (a == [] <==> b == []) && (a == [] ==> x == y)
    ensures a != [] ==> Join(a) + ("]" + x) == Join(b) + ("]" + y)
  {
    hide Join;
    assert RestOf(a, x)[0] == if a == [] then ']' else ',';
    assert RestOf(b, y)[0] == if b == [] then ']' else ',';
    if a == [] {
      SameAfter("]", x, y);
    } else {
      SameAfter(",", Join(a) + ("]" + x), Join(b) + ("]" + y));
    }
  }

  lemma JoinStarts(b: seq<string>, y: string)
    requires forall s :: s in b ==> s != "" && s[0] == '{'
    ensures b != [] ==> Join(b) + ("]" + y) != "" && (Join(b) + ("]" + y))[0] == '{'
  {
    if b != [] {
      JoinHead(b, y);
      assert b[0] in b;
    }
  }

  lemma EmptyJoin(b: seq<string>, x: string, y: string)
    requires forall s :: s in b ==> s != "" && s[0] == '{'
    requires "]" + x == Join(b) + ("]" + y)
    ensures b == [] && x == y
  {
    JoinStarts(b, y);
    assert ("]" + x)[0] == ']';
    assert b == [];
    JoinNothing();
    EmptyText("]" + y);
    SameAfter("]", x, y);
  }

  lemma DelimitingTail(a: seq<string>, b: seq<string>)
    requires Delimiting(a, b) && a != [] && b != []
    ensures Delimiting(a[1..], b[1..])
  {
    assert forall s :: s in a[1..] ==> s in a;
    assert forall s :: s in b[1..] ==> s in b;
  }

  lemma {:induction false} JoinDelimits(a: seq<string>, b: seq<string>, x: string, y: string)
    requires Delimiting(a, b) && Join(a) + ("]" + x) == Join(b) + ("]" + y)
    ensures a == b && x == y
    decreases |a|
  {
    hide Join, RestOf;
    if a == [] {
      EmptyText("]" + x);
      JoinNothing();
      EmptyJoin(b, x, y);
    } else if b == [] {
      EmptyText("]" + y);
      JoinNothing();
      EmptyJoin(a, y, x);
    } else {
      JoinHead(a, x);
      JoinHead(b, y);
      assert a[0] in a && b[0] in b;
      RestDecides(a[1..], b[1..], x, y);
      DelimitingTail(a, b);
      if a[1..] != [] {
        JoinDelimits(a[1..], b[1..], x, y);
      }
      assert a == [a[0]] + a[1..] && b == [b[0]] + b[1..];
    }
  }

  lemma JoinNothing()
    ensures Join([]) == ""
  {
  }

  lemma {:induction false} TextsIn<T>(s: seq<T>, text: T -> string)
    ensures forall r :: r in Texts(s, text) ==> exists x :: x in s && text(x) == r
    decreases |s|
  {
    if s != [] {
      TextsIn(s[1..], text);
      forall r | r in Texts(s, text) ensures exists x :: x in s && text(x) == r {
        if r == text(s[0]) {
          assert s[0] in s;
        } else {
          assert r in Texts(s[1..], text);
          var x :| x in s[1..] && text(x) == r;
          assert x in s;
        }
      }
    }
  }

  lemma TermStarts(t: Term)
    ensures TermText(t) != "" && TermText(t)[0] == '{'
  {
  }

  lemma TermPairDelimits(a: seq<Term>, b: seq<Term>, s: string, t: string, x: string, y: string)
    requires (forall t :: t in a ==> CleanTerm(t)) && (forall t :: t in b ==> CleanTerm(t))
    requires s in Texts(a, TermText) && t in Texts(b, TermText) && s + x == t + y
    ensures s == t && x == y
  {
    hide CleanTerm, TermText, Texts;
    TextsIn(a, TermText);
    TextsIn(b, TermText);
    var u :| u in a && TermText(u) == s;
    var v :| v in b && TermText(v) == t;
    TermDelimits(u, v, x, y);
  }

  lemma TermTextsDelimit(a: seq<Term>, b: seq<Term>)
    requires (forall t :: t in a ==> CleanTerm(t)) && (forall t :: t in b ==> CleanTerm(t))
    ensures Delimiting(Texts(a, TermText), Texts(b, TermText))
  {
    hide CleanTerm, TermText, Texts;
    forall s | s in Texts(a, TermText) || s in Texts(b, TermText) ensures s != "" && s[0] == '{' {
      TextsIn(a, TermText);
      TextsIn(b, TermText);
      var u: Term :| TermText(u) == s;
      TermStarts(u);
    }
    forall s, t, x, y | s in Texts(a, TermText) && t in Texts(b, TermText) && s + x == t + y ensures s == t && x == y {
      TermPairDelimits(a, b, s, t, x, y);
    }
  }

  function TermTexts(o: Observable): seq<string> {
    Texts(Sort(o.terms, LabelOf), TermText)
  }

  lemma ObservableThen(o: Observable, x: string)
    ensures ObservableText(o) + x == ID_HEAD + (o.id + ("\"" + (TERMS_MARK + (Join(TermTexts(o)) + ("]" + ("}" + x))))))
  {
    ObservableTextIs(o);
    hide *;
    var terms := Join(TermTexts(o));
    Concat("]", "}", x);
    Concat(terms, "]" + "}", x);
    Concat(TERMS_MARK, terms + ("]" + "}"), x);
    var b := TERMS_MARK + (terms + ("]" + "}"));
    Concat("\"", b, x);
    Concat(o.id, "\"" + b, x);
    Concat(ID_HEAD, o.id + ("\"" + b), x);
  }

  lemma ObservableTextIs(o: Observable)
    ensures ObservableText(o) == ID_HEAD + (o.id + ("\"" + (TERMS_MARK + (Join(TermTexts(o)) + ("]" + "}")))))
  {
  }

  lemma SortedTermsClean(o: Observable)
    requires Clean(o)
    ensures forall t :: t in Sort(o.terms, LabelOf) ==> CleanTerm(t)
  {
    hide CleanTerm, Sort;
    SortSorts(o.terms, LabelOf);
    SameElements(o.terms, Sort(o.terms, LabelOf));
  }

  /** A clean observable's text says where it ends, its id and its term texts. */
  lemma ObservableDelimits(o: Observable, p: Observable, x: string, y: string)
    requires Clean(o) && Clean(p) && ObservableText(o) + x == ObservableText(p) + y
    ensures o.id == p.id && TermTexts(o) == TermTexts(p) && ObservableText(o) == ObservableText(p) && x == y
  {
    ObservableThen(o, x);
    ObservableThen(p, y);
    SortedTermsClean(o);
    SortedTermsClean(p);
    TermTextsDelimit(Sort(o.terms, LabelOf), Sort(p.terms, LabelOf));
    ObservableTextIs(o);
    ObservableTextIs(p);
    assert Lacks(o.id, '\"') && Lacks(p.id, '\"');
    hide ObservableText, Lacks, Join, Delimiting, Sort, Texts, CleanTerm, Clean;
    var o1, p1 := Join(TermTexts(o)) + ("]" + ("}" + x)), Join(TermTexts(p)) + ("]" + ("}" + y));
    SameAfter(ID_HEAD, o.id + ("\"" + (TERMS_MARK + o1)), p.id + ("\"" + (TERMS_MARK + p1)));
    SplitAt(o.id, p.id, '\"', TERMS_MARK + o1, TERMS_MARK + p1);
    SameAfter(TERMS_MARK, o1, p1);
    JoinDelimits(TermTexts(o), TermTexts(p), "}" + x, "}" + y);
    SameAfter("}", x, y);
  }

  ghost predicate AllClean(observables: seq<Observable>) {
    forall o :: o in observables ==> Clean(o)
  }

  lemma ObservableStarts(o: Observable)
    ensures ObservableText(o) != "" && ObservableText(o)[0] == '{'
  {
    hide Join;
  }

  lemma ObservablePairDelimits(a: seq<Observable>, b: seq<Observable>, s: string, t: string, x: string, y: string)
    requires AllClean(a) && AllClean(b)
    requires s in Texts(a, ObservableText) && t in Texts(b, ObservableText) && s + x == t + y
    ensures s == t && x == y
  {
    hide Clean, ObservableText, Texts;
    TextsIn(a, ObservableText);
    TextsIn(b, ObservableText);
    var o :| o in a && ObservableText(o) == s;
    var p :| p in b && ObservableText(p) == t;
    ObservableDelimits(o, p, x, y);
  }

  lemma ObservableTextsDelimit(a: seq<Observable>, b: seq<Observable>)
    requires AllClean(a) && AllClean(b)
    ensures Delimiting(Texts(a, ObservableText), Texts(b, ObservableText))
  {
    hide AllClean, ObservableText, Texts;
    forall s | s in Texts(a, ObservableText) || s in Texts(b, ObservableText) ensures s != "" && s[0] == '{' {
      TextsIn(a, ObservableText);
      TextsIn(b, ObservableText);
      var o: Observable :| ObservableText(o) == s;
      ObservableStarts(o);
    }
    forall s, t, x, y | s in Texts(a, ObservableText) && t in Texts(b, ObservableText) && s + x == t + y ensures s == t && x == y {
      ObservablePairDelimits(a, b, s, t, x, y);
    }
  }

  lemma SortedClean(observables: seq<Observable>)
    requires AllClean(observables)
    ensures AllClean(Sort(observables, IdOf))
  {
    hide Clean, Sort;
    SortSorts(observables, IdOf);
    SameElements(observables, Sort(observables, IdOf));
  }

  /** Clean lists sign alike exactly when their sorted observables print alike, one by one. */
  lemma ObservablesTextInjective(a: seq<Observable>, b: seq<Observable>)
    requires AllClean(a) && AllClean(b)
    ensures ObservablesText(a) == ObservablesText(b) <==>
              Texts(Sort(a, IdOf), ObservableText) == Texts(Sort(b, IdOf), ObservableText)
  {
    var s, t := Texts(Sort(a, IdOf), ObservableText), Texts(Sort(b, IdOf), ObservableText);
    SortedClean(a);
    SortedClean(b);
    ObservableTextsDelimit(Sort(a, IdOf), Sort(b, IdOf));
    hide Join, Texts, Sort, Delimiting, Clean;
    if ObservablesText(a) == ObservablesText(b) {
      Concat("[", Join(s), "]");
      Concat("[", Join(t), "]");
      SameAfter("[", Join(s) + "]", Join(t) + "]");
      EmptyText("]");
      JoinDelimits(s, t, "", "");
    }
  }

  /**
   The signed text of a clean list is the same for all its permutations exactly
   when observables that share an id print alike.
   */
  lemma SignedTextForgetsOrderExactly(a: seq<Observable>)
    requires AllClean(a)
    ensures (forall b :: multiset(b) == multiset(a) ==> ObservablesText(b) == ObservablesText(a)) <==>
              KeyDecidesText(a, IdOf, ObservableText)
  {
    hide ObservablesText, KeyDecidesText, Sort, Texts, ObservableText, Clean;
    TextsForgetOrderExactly(a, IdOf, ObservableText);
    forall b | multiset(b) == multiset(a)
      ensures ObservablesText(b) == ObservablesText(a) <==> Texts(Sort(b, IdOf), ObservableText) == Texts(Sort(a, IdOf), ObservableText)
    {
      SameElements(a, b);
      ObservablesTextInjective(b, a);
    }
  }

  const BARE := Observable("z", [])
  const LOADED := Observable("z", [Term("Z", Coeff("1.0", "0.0"))])

  lemma TheyPrintDifferently()
    ensures Clean(BARE) && Clean(LOADED)
    ensures ObservableText(BARE) != ObservableText(LOADED)
  {
    assert |TermTexts(BARE)| == 0 && |TermTexts(LOADED)| == 1;
    hide ObservableText, Sort, Texts;
    if ObservableText(BARE) == ObservableText(LOADED) {
      ObservableDelimits(BARE, LOADED, "", "");
    }
  }

  /** Two observables with one id are signed in the order they came. */
  lemma DuplicateIdsKeepTheirOrder()
    ensures ObservablesText([BARE, LOADED]) != ObservablesText([LOADED, BARE])
  {
    hide ObservableText, ObservablesText, Clean, Sort, Texts;
    TheyPrintDifferently();
    ObservablesTextInjective([BARE, LOADED], [LOADED, BARE]);
    if ObservablesText([BARE, LOADED]) == ObservablesText([LOADED, BARE]) {
      assert [BARE, LOADED] + [] == [BARE, LOADED] && [LOADED, BARE] + [] == [LOADED, BARE];
      TwoOrders(BARE, LOADED, [], IdOf, ObservableText);
    }
  }
}
