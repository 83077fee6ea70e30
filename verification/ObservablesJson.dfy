/**
 The signed observables as JSON: a reader of RFC 8259 gets back the list by id,
 with the terms of each by label (src/domain/p2p.rs).
 */
module ObservablesJson {
  import opened Decimals
  import opened GoFloat
  import opened Json
  import opened GoJson
  import opened Sorting
  import opened Observables

  /** Text that stands for itself between quotation marks. */
  predicate PlainText(text: string) {
    forall i :: 0 <= i < |text| ==> text[i] >= ' ' && text[i] != '\"' && text[i] != '\\'
  }

  lemma {:induction false} ReadPlainText(text: string, rest: string)
    requires PlainText(text)
    ensures ReadString(text + ("\"" + rest)) == Got(text, rest)
    decreases |text|
  {
    if text == "" {
      EmptyText("\"" + rest);
      DropHead("\"", rest);
    } else {
      var tail := text[1..] + ("\"" + rest);
      ReadPlainText(text[1..], rest);
      assert (text + ("\"" + rest))[1..] == tail;
      assert [text[0]] + text[1..] == text;
    }
  }

  /** Whatever follows a value, the text reads as `v`. */
  ghost predicate ReadsAs(text: string, v: Json<Decimal>) {
    && BeginsValue(text)
    && forall rest :: Delimited(rest) ==> ReadValue(text + rest) == Got(v, rest)
  }

  /** The text of a number of RFC 8259, and nothing else. */
  predicate IsNumber(text: string) {
    ReadNumber(text).Got? && ReadNumber(text).rest == ""
  }

  function NumberOf(text: string): Json<Decimal>
    requires ReadNumber(text).Got?
  {
    Number(ReadNumber(text).value)
  }

  predicate GoodTerm(t: Term) {
    PlainText(t.pauli) && IsNumber(t.coeff.re) && IsNumber(t.coeff.im)
  }

  ghost predicate GoodTerms(terms: seq<Term>) {
    forall t :: t in terms ==> GoodTerm(t)
  }

  ghost predicate GoodObservables(observables: seq<Observable>) {
    forall o :: o in observables ==> PlainText(o.id) && GoodTerms(o.terms)
  }

  // ---------------------------------------------------------------------
  // What the text stands for
  // ---------------------------------------------------------------------

  function TermJson(t: Term): Json<Decimal>
    requires GoodTerm(t)
  {
    Object([("coeff", Object([("imag", NumberOf(t.coeff.im)), ("real", NumberOf(t.coeff.re))])), ("label", String(t.pauli))])
  }

  ghost function TermsJson(terms: seq<Term>): (r: seq<Json<Decimal>>)
    requires GoodTerms(terms)
    ensures |r| == |terms|
  {
    if terms == [] then [] else assert terms[0] in terms; [TermJson(terms[0])] + TermsJson(terms[1..])
  }

  lemma SortedTermsGood(terms: seq<Term>)
    requires GoodTerms(terms)
    ensures GoodTerms(Sort(terms, LabelOf))
  {
    hide GoodTerm;
    SortSorts(terms, LabelOf);
    SameElements(terms, Sort(terms, LabelOf));
  }

  ghost function ObservableJson(o: Observable): Json<Decimal>
    requires GoodTerms(o.terms)
  {
    SortedTermsGood(o.terms);
    Object([("id", String(o.id)), ("terms", Array(TermsJson(Sort(o.terms, LabelOf))))])
  }

  ghost function ObservablesJson(observables: seq<Observable>): (r: seq<Json<Decimal>>)
    requires GoodObservables(observables)
    ensures |r| == |observables|
  {
    if observables == [] then []
    else assert observables[0] in observables; [ObservableJson(observables[0])] + ObservablesJson(observables[1..])
  }

  // ---------------------------------------------------------------------
  // Objects of two members
  // ---------------------------------------------------------------------

  function Member(key: string, text: string): string {
    ("\"" + (key + "\"")) + (":" + text)
  }

  function TwoMembers(first: string, a: string, second: string, b: string): string {
    "{" + (Member(first, a) + ("," + (Member(second, b) + "}")))
  }

  predicate IsKey(key: string) {
    forall i :: 0 <= i < |key| ==> 'a' <= key[i] <= 'z'
  }

  lemma MemberThen(key: string, text: string, rest: string)
    requires IsKey(key)
    ensures Member(key, text) + rest == Quote(key) + (":" + (text + rest))
  {
    EscapeLabel(key);
    hide *;
    var quoted := "\"" + (key + "\"");
    Concat(quoted, ":" + text, rest);
    Concat(":", text, rest);
  }

  lemma MemberReads(key: string, text: string, v: Json<Decimal>, rest: string)
    requires IsKey(key) && ReadsAs(text, v) && Delimited(rest)
    ensures ReadMember(Member(key, text) + rest) == Got((key, v), rest)
  {
    hide ReadMember, ReadValue, Member, Quote;
    MemberThen(key, text, rest);
    ReadMemberOf(key, text + rest, v, rest);
  }

  lemma MemberBegins(key: string, text: string, rest: string)
    ensures BeginsValue(Member(key, text) + rest)
  {
    assert (Member(key, text) + rest)[0] == '\"';
  }

  lemma TwoMembersThen(first: string, a: string, second: string, b: string, rest: string)
    ensures var s := TwoMembers(first, a, second, b) + rest;
      s != "" && s[0] == '{' && s[1..] == Member(first, a) + ("," + (Member(second, b) + ("}" + rest)))
  {
    hide Member;
    var m, n := Member(first, a), Member(second, b);
    Concat(n, "}", rest);
    Concat(",", n + "}", rest);
    Concat(m, "," + (n + "}"), rest);
    var inner := m + ("," + (n + "}"));
    Concat("{", inner, rest);
    DropHead("{", inner + rest);
  }

  lemma MembersRead(first: string, a: string, v: Json<Decimal>, second: string, b: string, w: Json<Decimal>, rest: string)
    requires IsKey(first) && IsKey(second) && ReadsAs(a, v) && ReadsAs(b, w)
    ensures ReadFields(Member(first, a) + ("," + (Member(second, b) + ("}" + rest)))) == Got([(first, v), (second, w)], rest)
  {
    hide ReadMember, ReadFields, Member, ReadsAs, IsKey;
    var last := Member(second, b) + ("}" + rest);
    DropHead("}", rest);
    MemberReads(second, b, w, "}" + rest);
    ReadFieldsStep(last, (second, w), "}" + rest);
    DropHead(",", last);
    MemberReads(first, a, v, "," + last);
    ReadFieldsStep(Member(first, a) + ("," + last), (first, v), "," + last);
    assert [(first, v)] + [(second, w)] == [(first, v), (second, w)];
  }

  lemma TwoMembersRead(first: string, a: string, v: Json<Decimal>, second: string, b: string, w: Json<Decimal>)
    requires IsKey(first) && IsKey(second) && ReadsAs(a, v) && ReadsAs(b, w)
    ensures ReadsAs(TwoMembers(first, a, second, b), Object([(first, v), (second, w)]))
  {
    hide ReadValue, ReadFields, TwoMembers, Member, IsKey;
    var text, fields := TwoMembers(first, a, second, b), [(first, v), (second, w)];
    forall rest ensures ReadValue(text + rest) == Got(Object(fields), rest) {
      TwoMembersThen(first, a, second, b, rest);
      MemberBegins(first, a, "," + (Member(second, b) + ("}" + rest)));
      hide ReadsAs;
      MembersRead(first, a, v, second, b, w, rest);
      ReadValueObject(text + rest, fields, rest);
    }
    TwoMembersThen(first, a, second, b, "");
    EmptyText(text);
  }

  // ---------------------------------------------------------------------
  // Numbers, texts and lists
  // ---------------------------------------------------------------------

  lemma NumberReads(text: string)
    requires IsNumber(text)
    ensures ReadsAs(text, NumberOf(text))
  {
    hide ReadNumber, ReadValue;
    NumberBegins(text);
    forall rest | Delimited(rest) ensures ReadValue(text + rest) == Got(NumberOf(text), rest) {
      ReadNumberBefore(text, rest);
      EmptyText(rest);
      ReadValueNumber(text + rest);
    }
  }

  lemma TextReads(text: string)
    requires PlainText(text)
    ensures ReadsAs("\"" + (text + "\""), String(text))
  {
    hide ReadString, PlainText;
    var quoted := "\"" + (text + "\"");
    forall rest ensures ReadValue(quoted + rest) == Got(String(text), rest) {
      ReadPlainText(text, rest);
      QuotedText(text, rest);
    }
    assert quoted[0] == '\"';
  }

  /** Each text reads as the value at its place. */
  ghost predicate AllRead(texts: seq<string>, values: seq<Json<Decimal>>) {
    |texts| == |values| && forall i :: 0 <= i < |texts| ==> ReadsAs(texts[i], values[i])
  }

  lemma {:induction false} JoinReads(texts: seq<string>, values: seq<Json<Decimal>>, rest: string)
    requires texts != [] && AllRead(texts, values)
    ensures ReadItems(Join(texts) + ("]" + rest)) == Got(values, rest)
    decreases |texts|
  {
    hide Join, ReadItems, ReadValue, RestOf;
    JoinHead(texts, rest);
    var after := RestOf(texts[1..], rest);
    RestStarts(texts[1..], rest);
    assert ReadValue(texts[0] + after) == Got(values[0], after);
    ReadItemsStep(texts[0] + after, values[0], after);
    assert values == [values[0]] + values[1..];
    if |texts| > 1 {
      JoinReads(texts[1..], values[1..], rest);
    } else {
      assert texts[1..] == [] && values == [values[0]];
      assert after[0] == ']' && after[1..] == rest;
    }
  }

  lemma RestStarts(texts: seq<string>, rest: string)
    ensures var after := RestOf(texts, rest);
      && after != "" && Delimited(after)
      && (texts == [] ==> after[0] == ']' && after[1..] == rest)
      && (texts != [] ==> after[0] == ',' && after[1..] == Join(texts) + ("]" + rest))
  {
    hide Join;
    DropHead("]", rest);
    DropHead(",", Join(texts) + ("]" + rest));
  }

  lemma ListReads(texts: seq<string>, values: seq<Json<Decimal>>)
    requires AllRead(texts, values)
    ensures ReadsAs("[" + (Join(texts) + "]"), Array(values))
  {
    hide Join, ReadItems, ReadValue;
    var text := "[" + (Join(texts) + "]");
    forall rest ensures ReadValue(text + rest) == Got(Array(values), rest) {
      BracketRest("[", Join(texts), "]", rest);
      if texts == [] {
        JoinNothing();
        EmptyText("]" + rest);
        DropHead("]", rest);
        ReadValueEmpty(text + rest);
        assert (text + rest)[1..][1..] == (text + rest)[2..];
      } else {
        JoinReads(texts, values, rest);
        JoinHead(texts, rest);
        BeginsWith(texts[0], RestOf(texts[1..], rest));
        ReadValueArray(text + rest, values, rest);
      }
    }
    assert text[0] == '[';
  }

  // ---------------------------------------------------------------------
  // Terms and observables
  // ---------------------------------------------------------------------

  function Label(key: string): string {
    ("\"" + (key + "\"")) + ":"
  }

  lemma MemberIsLabelled(key: string, text: string)
    ensures Member(key, text) == Label(key) + text
  {
    Concat("\"" + (key + "\""), ":", text);
  }

  lemma TermLabels()
    ensures TERM_HEAD == "{" + (Label("coeff") + ("{" + Label("imag")))
    ensures REAL_MARK == Label("real")
    ensures LABEL_MARK == "," + (Label("label") + "\"")
  {
  }

  lemma CoeffNests(hi: string, im: string, hr: string, re: string, rest: string)
    ensures ("{" + ((hi + im) + ("," + ((hr + re) + "}")))) + rest == "{" + (hi + (im + ("," + (hr + (re + ("}" + rest))))))
  {
    hide *;
    var last := (hr + re) + "}";
    Concat("{", (hi + im) + ("," + last), rest);
    Concat(hi + im, "," + last, rest);
    Concat(",", last, rest);
    Concat(hr + re, "}", rest);
    Concat(hr, re, "}" + rest);
    Concat(hi, im, "," + (last + rest));
  }

  lemma TermIsTwoMembers(t: Term)
    ensures TermText(t) == TwoMembers("coeff", TwoMembers("imag", t.coeff.im, "real", t.coeff.re), "label", "\"" + (t.pauli + "\""))
  {
    var im, re, pauli := t.coeff.im, t.coeff.re, t.pauli;
    var hc, hi, hr, hl := Label("coeff"), Label("imag"), Label("real"), Label("label");
    TermTextIs(t);
    TermLabels();
    MemberIsLabelled("imag", im);
    MemberIsLabelled("real", re);
    MemberIsLabelled("label", "\"" + (pauli + "\""));
    var coeff := TwoMembers("imag", im, "real", re);
    MemberIsLabelled("coeff", coeff);
    var end := "\"" + (pauli + ("\"" + "}"));
    var labelled := "," + (hl + end);
    hide Label, Member, TermText;
    Concat("\"", pauli + "\"", "}");
    Concat(pauli, "\"", "}");
    Concat(hl, "\"" + (pauli + "\""), "}");
    assert TwoMembers("coeff", coeff, "label", "\"" + (pauli + "\"")) == "{" + ((hc + coeff) + labelled);
    Concat(hc, coeff, labelled);
    CoeffNests(hi, im, hr, re, labelled);
    Concat(hl, "\"", pauli + ("\"" + "}"));
    Concat(",", hl + "\"", pauli + ("\"" + "}"));
    var tail := im + ("," + (hr + (re + ("}" + labelled))));
    Concat("{", hi, tail);
    Concat(hc, "{" + hi, tail);
    Concat("{", hc + ("{" + hi), tail);
  }

  lemma CoeffReads(im: string, re: string)
    requires IsNumber(im) && IsNumber(re)
    ensures ReadsAs(TwoMembers("imag", im, "real", re), Object([("imag", NumberOf(im)), ("real", NumberOf(re))]))
  {
    NumberReads(im);
    NumberReads(re);
    var v, w := NumberOf(im), NumberOf(re);
    hide *;
    KeysAreKeys();
    TwoMembersRead("imag", im, v, "real", re, w);
  }

  lemma KeysAreKeys()
    ensures IsKey("imag") && IsKey("real") && IsKey("coeff") && IsKey("label") && IsKey("id") && IsKey("terms")
  {
  }

  lemma TermReads(t: Term)
    requires GoodTerm(t)
    ensures ReadsAs(TermText(t), TermJson(t))
  {
    var coeff := TwoMembers("imag", t.coeff.im, "real", t.coeff.re);
    var v := Object([("imag", NumberOf(t.coeff.im)), ("real", NumberOf(t.coeff.re))]);
    assert TermJson(t) == Object([("coeff", v), ("label", String(t.pauli))]);
    TextReads(t.pauli);
    CoeffReads(t.coeff.im, t.coeff.re);
    hide *;
    KeysAreKeys();
    TermIsTwoMembers(t);
    TwoMembersRead("coeff", coeff, v, "label", "\"" + (t.pauli + "\""), String(t.pauli));
  }

  lemma {:induction false} TermsRead(terms: seq<Term>)
    requires GoodTerms(terms)
    ensures AllRead(Texts(terms, TermText), TermsJson(terms))
    decreases |terms|
  {
    hide TermText, TermJson, ReadsAs, GoodTerm;
    if terms != [] {
      assert terms[0] in terms;
      TermReads(terms[0]);
      TermsRead(terms[1..]);
    }
  }

  lemma ObservableLabels()
    ensures ID_HEAD == "{" + (Label("id") + "\"")
    ensures TERMS_MARK == "," + (Label("terms") + "[")
  {
  }

  lemma ObservableIsTwoMembers(o: Observable)
    ensures ObservableText(o) == TwoMembers("id", "\"" + (o.id + "\""), "terms", "[" + (Join(TermTexts(o)) + "]"))
  {
    var id, terms := o.id, Join(TermTexts(o));
    var hi, ht := Label("id"), Label("terms");
    ObservableTextIs(o);
    ObservableLabels();
    MemberIsLabelled("id", "\"" + (id + "\""));
    MemberIsLabelled("terms", "[" + (terms + "]"));
    assert TwoMembers("id", "\"" + (id + "\""), "terms", "[" + (terms + "]"))
        == "{" + ((hi + ("\"" + (id + "\""))) + ("," + ((ht + ("[" + (terms + "]"))) + "}")));
    hide *;
    var tail := "," + (ht + ("[" + (terms + ("]" + "}"))));
    Concat("[", terms + "]", "}");
    Concat(terms, "]", "}");
    Concat(ht, "[" + (terms + "]"), "}");
    Concat(hi, "\"" + (id + "\""), tail);
    Concat("\"", id + "\"", tail);
    Concat(id, "\"", tail);
    Concat(ht, "[", terms + ("]" + "}"));
    Concat(",", ht + "[", terms + ("]" + "}"));
    Concat(hi, "\"", id + ("\"" + tail));
    Concat("{", hi + "\"", id + ("\"" + tail));
  }

  lemma ObservableReads(o: Observable)
    requires PlainText(o.id) && GoodTerms(o.terms)
    ensures ReadsAs(ObservableText(o), ObservableJson(o))
  {
    SortedTermsGood(o.terms);
    TermsRead(Sort(o.terms, LabelOf));
    var values, texts := TermsJson(Sort(o.terms, LabelOf)), TermTexts(o);
    assert AllRead(texts, values);
    assert ObservableJson(o) == Object([("id", String(o.id)), ("terms", Array(values))]);
    TextReads(o.id);
    hide *;
    KeysAreKeys();
    ObservableIsTwoMembers(o);
    ListReads(texts, values);
    TwoMembersRead("id", "\"" + (o.id + "\""), String(o.id), "terms", "[" + (Join(texts) + "]"), Array(values));
  }

  lemma {:induction false} ObservablesRead(observables: seq<Observable>)
    requires GoodObservables(observables)
    ensures AllRead(Texts(observables, ObservableText), ObservablesJson(observables))
    decreases |observables|
  {
    hide ObservableText, ObservableJson, ReadsAs, PlainText, GoodTerms;
    if observables != [] {
      assert observables[0] in observables;
      ObservableReads(observables[0]);
      ObservablesRead(observables[1..]);
    }
  }

  lemma SortedObservablesGood(observables: seq<Observable>)
    requires GoodObservables(observables)
    ensures GoodObservables(Sort(observables, IdOf))
  {
    hide PlainText, GoodTerms;
    SortSorts(observables, IdOf);
    SameElements(observables, Sort(observables, IdOf));
  }

  /**
   For ids and labels that need no escape and coefficients that are numbers, the
   signed text is JSON: the observables by id, each with its id and its terms by
   label, and each term with its imaginary and real part and its label.
   */
  lemma ObservablesRoundTrip(observables: seq<Observable>, rest: string)
    requires GoodObservables(observables) && Delimited(rest)
    ensures GoodObservables(Sort(observables, IdOf))
    ensures ReadValue(ObservablesText(observables) + rest) == Got(Array(ObservablesJson(Sort(observables, IdOf))), rest)
  {
    SortedObservablesGood(observables);
    var texts := Texts(Sort(observables, IdOf), ObservableText);
    hide GoodObservables, ObservableText, Sort, Texts, Join, ReadValue;
    ObservablesRead(Sort(observables, IdOf));
    ListReads(texts, ObservablesJson(Sort(observables, IdOf)));
    Concat("[", Join(texts), "]");
  }
}
