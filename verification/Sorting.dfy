/** The stable sort of a list by a text key, and when it forgets the order it was given. */
module Sorting {
  /** The order of texts: character by character, a prefix first. */
  predicate AtMost(a: string, b: string)
    decreases |a|
  {
    a == "" || (b != "" && (a[0] < b[0] || (a[0] == b[0] && AtMost(a[1..], b[1..]))))
  }

  lemma {:induction false} AtMostTotal(a: string, b: string)
    ensures AtMost(a, b) || AtMost(b, a)
    decreases |a|
  {
    if a != "" && b != "" {
      AtMostTotal(a[1..], b[1..]);
    }
  }

  lemma {:induction false} AtMostAntisymmetric(a: string, b: string)
    requires AtMost(a, b) && AtMost(b, a)
    ensures a == b
    decreases |a|
  {
    if a != "" {
      AtMostAntisymmetric(a[1..], b[1..]);
      assert a == [a[0]] + a[1..] && b == [b[0]] + b[1..];
    }
  }

  lemma {:induction false} AtMostTransitive(a: string, b: string, c: string)
    requires AtMost(a, b) && AtMost(b, c)
    ensures AtMost(a, c)
    decreases |a|
  {
    if a != "" && a[0] == b[0] == c[0] {
      AtMostTransitive(a[1..], b[1..], c[1..]);
    }
  }

  function Insert<T>(x: T, s: seq<T>, key: T -> string): seq<T> {
    if s == [] || AtMost(key(x), key(s[0])) then [x] + s else [s[0]] + Insert(x, s[1..], key)
  }

  /** `sort_by` on a key: equal keys keep their order. */
  function Sort<T>(s: seq<T>, key: T -> string): seq<T> {
    if s == [] then [] else Insert(s[0], Sort(s[1..], key), key)
  }

  ghost predicate Sorted<T>(s: seq<T>, key: T -> string) {
    forall i, j :: 0 <= i < j < |s| ==> AtMost(key(s[i]), key(s[j]))
  }

  lemma {:induction false} InsertSorts<T>(x: T, s: seq<T>, key: T -> string)
    requires Sorted(s, key)
    ensures Sorted(Insert(x, s, key), key)
    ensures multiset(Insert(x, s, key)) == multiset(s) + multiset{x}
    ensures Insert(x, s, key) != [] && Insert(x, s, key)[0] in [x] + s
    decreases |s|
  {
    hide AtMost;
    if s == [] {
    } else if AtMost(key(x), key(s[0])) {
      forall j | 0 <= j < |s| ensures AtMost(key(x), key(s[j])) {
        if j > 0 {
          AtMostTransitive(key(x), key(s[0]), key(s[j]));
        }
      }
    } else {
      AtMostTotal(key(x), key(s[0]));
      InsertSorts(x, s[1..], key);
      InsertLater(x, s, key, Insert(x, s[1..], key));
    }
  }

  /** The head of a sorted list may go in front of what the rest becomes. */
  lemma InsertLater<T>(x: T, s: seq<T>, key: T -> string, tail: seq<T>)
    requires s != [] && Sorted(s, key) && Sorted(tail, key) && AtMost(key(s[0]), key(x))
    requires multiset(tail) == multiset(s[1..]) + multiset{x}
    ensures Sorted([s[0]] + tail, key)
    ensures multiset([s[0]] + tail) == multiset(s) + multiset{x}
  {
    hide AtMost;
    assert s == [s[0]] + s[1..];
    forall j | 0 <= j < |tail| ensures AtMost(key(s[0]), key(tail[j])) {
      assert tail[j] in multiset(tail);
      assert tail[j] == x || tail[j] in s[1..];
    }
  }

  lemma {:induction false} SortSorts<T>(s: seq<T>, key: T -> string)
    ensures Sorted(Sort(s, key), key)
    ensures multiset(Sort(s, key)) == multiset(s)
    decreases |s|
  {
    hide Insert, Sorted;
    if s == [] {
      NothingToSort<T>(key);
    } else {
      SortSorts(s[1..], key);
      InsertSorts(s[0], Sort(s[1..], key), key);
      assert s == [s[0]] + s[1..];
    }
  }

  lemma NothingToSort<T>(key: T -> string)
    ensures Sorted([], key)
  {
  }

  /** Elements that share a key are the same element. */
  ghost predicate KeyDecides<T(!new)>(s: seq<T>, key: T -> string) {
    forall x, y :: x in s && y in s && key(x) == key(y) ==> x == y
  }

  lemma SameElements<T(!new)>(a: seq<T>, b: seq<T>)
    requires multiset(a) == multiset(b)
    ensures |a| == |b|
    ensures forall x :: x in a <==> x in b
  {
    assert |a| == |multiset(a)| == |multiset(b)| == |b|;
    forall x ensures x in a <==> x in b {
      assert x in a <==> x in multiset(a);
      assert x in b <==> x in multiset(b);
    }
  }

  lemma HeadIsLeast<T>(s: seq<T>, x: T, key: T -> string)
    requires Sorted(s, key) && x in s
    ensures s[0] == x || AtMost(key(s[0]), key(x))
  {
    hide AtMost;
  }

  lemma TailElements<T>(a: seq<T>, b: seq<T>)
    requires multiset(a) == multiset(b) && a != [] && b != [] && a[0] == b[0]
    ensures multiset(a[1..]) == multiset(b[1..])
  {
    assert a == [a[0]] + a[1..] && b == [b[0]] + b[1..];
    assert multiset(a[1..]) == multiset(a) - multiset{a[0]};
    assert multiset(b[1..]) == multiset(b) - multiset{b[0]};
  }

  lemma SameHead<T(!new)>(a: seq<T>, b: seq<T>, key: T -> string)
    requires Sorted(a, key) && Sorted(b, key) && multiset(a) == multiset(b) && KeyDecides(a, key) && a != []
    ensures b != [] && a[0] == b[0]
  {
    SameElements(a, b);
    hide AtMost, Sorted;
    HeadIsLeast(a, b[0], key);
    HeadIsLeast(b, a[0], key);
    if a[0] != b[0] {
      AtMostAntisymmetric(key(a[0]), key(b[0]));
    }
  }

  lemma {:induction false} SortedIsUnique<T(!new)>(a: seq<T>, b: seq<T>, key: T -> string)
    requires Sorted(a, key) && Sorted(b, key) && multiset(a) == multiset(b) && KeyDecides(a, key)
    ensures a == b
    decreases |a|
  {
    hide AtMost;
    SameElements(a, b);
    if a != [] {
      SameHead(a, b, key);
      TailElements(a, b);
      SortedIsUnique(a[1..], b[1..], key);
      assert a == [a[0]] + a[1..] && b == [b[0]] + b[1..];
    }
  }

  // ---------------------------------------------------------------------
  // When the given order does not matter
  // ---------------------------------------------------------------------

  ghost predicate OrderForgotten<T(!new)>(s: seq<T>, key: T -> string) {
    forall t :: multiset(t) == multiset(s) ==> Sort(t, key) == Sort(s, key)
  }

  function WithKey<T>(s: seq<T>, k: string, key: T -> string): seq<T> {
    if s == [] then [] else (if key(s[0]) == k then [s[0]] else []) + WithKey(s[1..], k, key)
  }

  lemma WithKeyCons<T>(x: T, s: seq<T>, k: string, key: T -> string)
    ensures WithKey([x] + s, k, key) == (if key(x) == k then [x] else []) + WithKey(s, k, key)
  {
    assert ([x] + s)[1..] == s;
  }

  lemma {:induction false} InsertIsStable<T>(x: T, s: seq<T>, k: string, key: T -> string)
    ensures WithKey(Insert(x, s, key), k, key) == (if key(x) == k then [x] else []) + WithKey(s, k, key)
    decreases |s|
  {
    hide AtMost, WithKey;
    if s == [] || AtMost(key(x), key(s[0])) {
      WithKeyCons(x, s, k, key);
    } else {
      WithKeyCons(s[0], Insert(x, s[1..], key), k, key);
      InsertIsStable(x, s[1..], k, key);
      WithKeyCons(s[0], s[1..], k, key);
      assert s == [s[0]] + s[1..];
      KeyBeyond(key(x), key(s[0]));
      if key(x) == k {
        assert WithKey(s, k, key) == [] + WithKey(s[1..], k, key);
      }
    }
  }

  lemma KeyBeyond(a: string, b: string)
    requires !AtMost(a, b)
    ensures a != b
  {
    AtMostTotal(a, b);
  }

  /** Elements with one key come out in the order they went in. */
  lemma {:induction false} SortIsStable<T>(s: seq<T>, k: string, key: T -> string)
    ensures WithKey(Sort(s, key), k, key) == WithKey(s, k, key)
    decreases |s|
  {
    hide Insert;
    if s != [] {
      SortIsStable(s[1..], k, key);
      InsertIsStable(s[0], Sort(s[1..], key), k, key);
    }
  }

  lemma {:induction false} TakeOut<T>(s: seq<T>, x: T) returns (rest: seq<T>)
    requires x in s
    ensures multiset(s) == multiset(rest) + multiset{x}
    decreases |s|
  {
    assert s == [s[0]] + s[1..];
    if s[0] == x {
      rest := s[1..];
    } else {
      var others := TakeOut(s[1..], x);
      rest := [s[0]] + others;
    }
  }

  lemma TwoFirst<T(!new)>(s: seq<T>, x: T, y: T) returns (rest: seq<T>)
    requires x in s && y in s && x != y
    ensures multiset([x, y] + rest) == multiset(s)
    ensures multiset([y, x] + rest) == multiset(s)
  {
    var others := TakeOut(s, x);
    assert y in multiset(s);
    rest := TakeOut(others, y);
  }

  lemma WithKeyOfTwo<T>(x: T, y: T, rest: seq<T>, key: T -> string)
    requires key(x) == key(y)
    ensures WithKey([x, y] + rest, key(x), key) == [x, y] + WithKey(rest, key(x), key)
  {
    var s := [x, y] + rest;
    assert s[1..] == [y] + rest && s[1..][1..] == rest;
    assert [x] + ([y] + WithKey(rest, key(x), key)) == [x, y] + WithKey(rest, key(x), key);
  }

  /** A sort forgets the order it was given exactly when the key decides the element. */
  lemma SortForgetsOrder<T(!new)>(s: seq<T>, key: T -> string)
    ensures OrderForgotten(s, key) <==> KeyDecides(s, key)
  {
    hide Sort, Sorted, WithKey;
    if KeyDecides(s, key) {
      forall t | multiset(t) == multiset(s) ensures Sort(t, key) == Sort(s, key) {
        SortSorts(s, key);
        SortSorts(t, key);
        SameElements(s, Sort(s, key));
        SortedIsUnique(Sort(s, key), Sort(t, key), key);
      }
    } else {
      var x, y :| x in s && y in s && key(x) == key(y) && x != y;
      var rest := TwoFirst(s, x, y);
      SortIsStable([x, y] + rest, key(x), key);
      SortIsStable([y, x] + rest, key(x), key);
      WithKeyOfTwo(x, y, rest, key);
      WithKeyOfTwo(y, x, rest, key);
      assert ([x, y] + WithKey(rest, key(x), key))[0] == x;
      assert ([y, x] + WithKey(rest, key(x), key))[0] == y;
    }
  }

  // ---------------------------------------------------------------------
  // When only a text of each element matters
  // ---------------------------------------------------------------------

  function Texts<T>(s: seq<T>, text: T -> string): (r: seq<string>)
    ensures |r| == |s|
  {
    if s == [] then [] else [text(s[0])] + Texts(s[1..], text)
  }

  lemma {:induction false} TextsAppend<T>(s: seq<T>, x: T, text: T -> string)
    ensures Texts(s + [x], text) == Texts(s, text) + [text(x)]
    decreases |s|
  {
    if s == [] {
      assert s + [x] == [x];
    } else {
      assert (s + [x])[1..] == s[1..] + [x];
      TextsAppend(s[1..], x, text);
    }
  }

  function PairOf<T>(x: T, key: T -> string, text: T -> string): (string, string) {
    (key(x), text(x))
  }

  function Pairs<T>(s: seq<T>, key: T -> string, text: T -> string): (r: seq<(string, string)>)
    ensures |r| == |s|
    ensures forall i :: 0 <= i < |s| ==> r[i] == PairOf(s[i], key, text)
  {
    if s == [] then [] else [PairOf(s[0], key, text)] + Pairs(s[1..], key, text)
  }

  function First(p: (string, string)): string { p.0 }

  lemma {:induction false} InsertPairs<T>(x: T, s: seq<T>, key: T -> string, text: T -> string)
    ensures Pairs(Insert(x, s, key), key, text) == Insert(PairOf(x, key, text), Pairs(s, key, text), First)
    decreases |s|
  {
    hide AtMost;
    if s == [] {
    } else if AtMost(key(x), key(s[0])) {
      assert ([x] + s)[1..] == s;
    } else {
      InsertPairs(x, s[1..], key, text);
      assert ([s[0]] + Insert(x, s[1..], key))[1..] == Insert(x, s[1..], key);
      assert Pairs(s, key, text)[1..] == Pairs(s[1..], key, text);
    }
  }

  /** Sorting looks at nothing but the keys. */
  lemma {:induction false} SortPairs<T>(s: seq<T>, key: T -> string, text: T -> string)
    ensures Pairs(Sort(s, key), key, text) == Sort(Pairs(s, key, text), First)
    decreases |s|
  {
    hide Insert;
    if s != [] {
      SortPairs(s[1..], key, text);
      InsertPairs(s[0], Sort(s[1..], key), key, text);
      assert Pairs(s, key, text)[1..] == Pairs(s[1..], key, text);
    }
  }

  lemma PairsJoin<T>(a: seq<T>, b: seq<T>, key: T -> string, text: T -> string)
    ensures Pairs(a + b, key, text) == Pairs(a, key, text) + Pairs(b, key, text)
  {
  }

  lemma PairsCons<T>(s: seq<T>, key: T -> string, text: T -> string)
    requires s != []
    ensures multiset(Pairs(s, key, text)) == multiset(Pairs(s[1..], key, text)) + multiset{PairOf(s[0], key, text)}
    ensures multiset(s) == multiset(s[1..]) + multiset{s[0]}
  {
    assert s == [s[0]] + s[1..];
    assert Pairs(s, key, text) == [PairOf(s[0], key, text)] + Pairs(s[1..], key, text);
  }

  lemma {:induction false} TakeOutPair<T>(s: seq<T>, x: T, key: T -> string, text: T -> string) returns (rest: seq<T>)
    requires x in s
    ensures multiset(s) == multiset(rest) + multiset{x}
    ensures multiset(Pairs(s, key, text)) == multiset(Pairs(rest, key, text)) + multiset{PairOf(x, key, text)}
    decreases |s|
  {
    hide Pairs;
    PairsCons(s, key, text);
    if s[0] == x {
      rest := s[1..];
    } else {
      var others := TakeOutPair(s[1..], x, key, text);
      rest := [s[0]] + others;
      PairsCons(rest, key, text);
    }
  }

  lemma CancelOne<T>(a: multiset<T>, b: multiset<T>, x: T)
    requires a + multiset{x} == b + multiset{x}
    ensures a == b
  {
    assert a == (a + multiset{x}) - multiset{x};
    assert b == (b + multiset{x}) - multiset{x};
  }

  lemma HeadIn<T>(s: seq<T>, t: seq<T>)
    requires multiset(s) == multiset(t)
    ensures |s| == |t| && (s != [] ==> s[0] in t)
  {
    assert |s| == |multiset(s)| == |multiset(t)| == |t|;
    if s != [] {
      assert s[0] in multiset(t);
    }
  }

  lemma {:induction false} PairsPermute<T(!new)>(s: seq<T>, t: seq<T>, key: T -> string, text: T -> string)
    requires multiset(s) == multiset(t)
    ensures multiset(Pairs(s, key, text)) == multiset(Pairs(t, key, text))
    decreases |s|
  {
    HeadIn(s, t);
    if s != [] {
      hide Pairs;
      PairsCons(s, key, text);
      var others := TakeOutPair(t, s[0], key, text);
      CancelOne(multiset(s[1..]), multiset(others), s[0]);
      PairsPermute(s[1..], others, key, text);
    }
  }

  lemma {:induction false} TextsOfPairs<T>(s: seq<T>, key: T -> string, text: T -> string)
    ensures |Texts(s, text)| == |s|
    ensures forall i :: 0 <= i < |s| ==> Texts(s, text)[i] == Pairs(s, key, text)[i].1
    decreases |s|
  {
    if s != [] {
      TextsOfPairs(s[1..], key, text);
      assert forall i :: 0 < i < |s| ==> Texts(s, text)[i] == Texts(s[1..], text)[i - 1] && s[i] == s[1..][i - 1];
    }
  }

  /** Elements that share a key have the same text. */
  ghost predicate KeyDecidesText<T(!new)>(s: seq<T>, key: T -> string, text: T -> string) {
    forall x, y :: x in s && y in s && key(x) == key(y) ==> text(x) == text(y)
  }

  ghost predicate TextsForgetOrder<T(!new)>(s: seq<T>, key: T -> string, text: T -> string) {
    forall t :: multiset(t) == multiset(s) ==> Texts(Sort(t, key), text) == Texts(Sort(s, key), text)
  }

  lemma PairsDecide<T(!new)>(s: seq<T>, key: T -> string, text: T -> string)
    requires KeyDecidesText(s, key, text)
    ensures KeyDecides(Pairs(s, key, text), First)
  {
    forall p, q | p in Pairs(s, key, text) && q in Pairs(s, key, text) && First(p) == First(q) ensures p == q {
      var i :| 0 <= i < |s| && Pairs(s, key, text)[i] == p;
      var j :| 0 <= j < |s| && Pairs(s, key, text)[j] == q;
      assert s[i] in s && s[j] in s;
    }
  }

  lemma DecidedTexts<T(!new)>(s: seq<T>, t: seq<T>, key: T -> string, text: T -> string)
    requires multiset(s) == multiset(t) && KeyDecidesText(s, key, text)
    ensures Texts(Sort(t, key), text) == Texts(Sort(s, key), text)
  {
    hide Sort, Pairs, KeyDecidesText, Texts;
    PairsDecide(s, key, text);
    PairsPermute(s, t, key, text);
    SortForgetsOrder(Pairs(s, key, text), First);
    assert Sort(Pairs(t, key, text), First) == Sort(Pairs(s, key, text), First);
    SortPairs(s, key, text);
    SortPairs(t, key, text);
    TextsOfPairs(Sort(s, key), key, text);
    TextsOfPairs(Sort(t, key), key, text);
  }

  lemma SamePairs<T>(a: seq<T>, b: seq<T>, key: T -> string, text: T -> string)
    requires Texts(a, key) == Texts(b, key) && Texts(a, text) == Texts(b, text)
    ensures Pairs(a, key, text) == Pairs(b, key, text)
  {
    hide Texts;
    TextsOfPairs(a, key, text);
    TextsOfPairs(b, key, text);
    TextsOfPairs(a, key, key);
    TextsOfPairs(b, key, key);
    assert forall i :: 0 <= i < |a| ==> key(a[i]) == Texts(a, key)[i] && key(b[i]) == Texts(b, key)[i];
  }

  /** Two elements with one key, put first in either order, show their texts in that order. */
  lemma TwoOrders<T(!new)>(x: T, y: T, rest: seq<T>, key: T -> string, text: T -> string)
    requires key(x) == key(y)
    requires Texts(Sort([x, y] + rest, key), text) == Texts(Sort([y, x] + rest, key), text)
    ensures text(x) == text(y)
  {
    hide Sort, WithKey, Texts;
    var s, t := [x, y] + rest, [y, x] + rest;
    assert multiset(s) == multiset(t);
    DecidedTexts(s, t, key, key);
    SamePairs(Sort(s, key), Sort(t, key), key, text);
    SortPairs(s, key, text);
    SortPairs(t, key, text);
    var p, q, more := PairOf(x, key, text), PairOf(y, key, text), Pairs(rest, key, text);
    PairsJoin([x, y], rest, key, text);
    PairsJoin([y, x], rest, key, text);
    assert Pairs([x, y], key, text) == [p, q] && Pairs([y, x], key, text) == [q, p];
    SortIsStable([p, q] + more, key(x), First);
    SortIsStable([q, p] + more, key(x), First);
    WithKeyOfTwo(p, q, more, First);
    WithKeyOfTwo(q, p, more, First);
    assert ([p, q] + WithKey(more, key(x), First))[0] == p;
    assert ([q, p] + WithKey(more, key(x), First))[0] == q;
  }

  /** The sorted texts forget the order they were given exactly when the key decides the text. */
  lemma TextsForgetOrderExactly<T(!new)>(s: seq<T>, key: T -> string, text: T -> string)
    ensures TextsForgetOrder(s, key, text) <==> KeyDecidesText(s, key, text)
  {
    hide Sort, Texts;
    if KeyDecidesText(s, key, text) {
      forall t | multiset(t) == multiset(s) ensures Texts(Sort(t, key), text) == Texts(Sort(s, key), text) {
        DecidedTexts(s, t, key, text);
      }
    } else {
      var x, y :| x in s && y in s && key(x) == key(y) && text(x) != text(y);
      var rest := TwoFirst(s, x, y);
      if TextsForgetOrder(s, key, text) {
        TwoOrders(x, y, rest, key, text);
      }
    }
  }
}
