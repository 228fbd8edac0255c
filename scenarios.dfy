/**
 * Concrete scopes from the range tests of the library, worked through the
 * model: each lemma compiles one literal scope with `CompileScope` and, for
 * the emitted scopes, runs the validator of the subscription `1-10,10-20`
 * over the result.
 */
module Scenarios {
  import opened Wrappers
  import opened Strings
  import opened Patterns
  import opened Scope

  /** The decimal digits of `v`, most significant first. */
  function Decimal(v: nat): (d: string)
    ensures |d| >= 1 && AllDigits(d) && DigitsValue(d) == v
  {
    if v < 10 then [('0' as int + v) as char]
    else
      var d := Decimal(v / 10) + [('0' as int + v % 10) as char];
      assert d[..|d| - 1] == Decimal(v / 10);
      d
  }

  /** The `-?\d+` token that denotes `v`. */
  function Tok(v: int): (t: Token)
    ensures TokenOk(t) && t.Number? && TokenValue(t) == v
  {
    Number(v < 0, Decimal(if v < 0 then -v else v))
  }

  /** The item `a-b`. */
  function Span(a: int, b: int): (it: Item)
    ensures ItemOk(it) && ItemInterval(it) == Interval(Fin(if a <= b then a else b), Fin(if a <= b then b else a))
  {
    Item(Tok(a), Some(Tok(b)))
  }

  /** The item `a`. */
  function Point(a: int): (it: Item)
    ensures ItemOk(it) && ItemInterval(it) == Interval(Fin(a), Fin(a))
  {
    Item(Tok(a), None)
  }

  /** The item `*-b`: `Number.MIN_VALUE` is positive, so it is the lower end only when `b >= 1`. */
  function StarTo(b: int): (it: Item)
    ensures ItemOk(it)
    ensures ItemInterval(it) == if b >= 1 then Interval(Tiny, Fin(b)) else Interval(Fin(b), Tiny)
  {
    Item(Star, Some(Tok(b)))
  }

  /** The item `a-*`. */
  function FromStar(a: int): (it: Item)
    ensures ItemOk(it) && ItemInterval(it) == Interval(Fin(a), Huge)
  {
    Item(Tok(a), Some(Star))
  }

  lemma TokenHasNoComma(t: Token)
    requires TokenOk(t)
    ensures ',' !in ShowToken(t)
  {
    if t.Number? {
      assert forall k :: 0 <= k < |t.digits| ==> IsDigit(t.digits[k]);
    }
  }

  /** A well-formed item, written out, compiles to its own interval. */
  lemma ItemCompiles(it: Item)
    requires ItemOk(it)
    ensures ',' !in ShowItem(it)
    ensures CompileItem(ShowItem(it)) == Ok(ItemInterval(it))
  {
    ParseShowItem(it);
    TokenHasNoComma(it.lo);
    if it.hi.Some? {
      TokenHasNoComma(it.hi.value);
    }
    assert |ShowToken(it.lo)| >= 1;
  }

  /**
   * A scope written as well-formed items in ascending order of `min`
   * compiles to the merge of their intervals.
   */
  lemma CompileJoined(items: seq<Item>, texts: seq<string>, ivs: seq<Interval>)
    requires |items| >= 1 && |items| == |ivs| && |items| == |texts|
    requires forall k :: 0 <= k < |items| ==> ItemOk(items[k]) && ShowItem(items[k]) == texts[k] && ItemInterval(items[k]) == ivs[k]
    requires SortedByMin(ivs)
    ensures CompileScope(Join(texts, ',')) == Ok(Merge(ivs))
  {
    forall k | 0 <= k < |texts| ensures ',' !in texts[k] && CompileItem(texts[k]) == Ok(ivs[k]) {
      ItemCompiles(items[k]);
    }
    SplitJoin(texts, ',');
    CompileItemsSpec(texts);
    assert CompileItems(texts).value == ivs;
    SortSortedIdentity(ivs);
  }

  /** The subscription scope of the range tests, `1-10,10-20`, once compiled. */
  const Subscribed := [Interval(Fin(1), Fin(20))]

  // The concrete facts the scenarios below rest on: how each item is
  // written, and for each scope its ordering, its text, its merge and its
  // verdict, each in a lemma of its own so that every proof stays small.

  lemma Show0() ensures ShowItem(Point(0)) == "0" {}
  lemma Show0To1() ensures ShowItem(Span(0, 1)) == "0-1" {}
  lemma Show1() ensures ShowItem(Point(1)) == "1" {}
  lemma Show10() ensures ShowItem(Point(10)) == "10" {}
  lemma Show100() ensures ShowItem(Point(100)) == "100" {}
  lemma Show10To11() ensures ShowItem(Span(10, 11)) == "10-11" {}
  lemma Show10To20() ensures ShowItem(Span(10, 20)) == "10-20" {}
  lemma Show10To4() ensures ShowItem(Span(10, 4)) == "10-4" {}
  lemma Show12To22() ensures ShowItem(Span(12, 22)) == "12-22" {}
  lemma Show13() ensures ShowItem(Point(13)) == "13" {}
  lemma Show15() ensures ShowItem(Point(15)) == "15" {}
  lemma Show17To19() ensures ShowItem(Span(17, 19)) == "17-19" {}
  lemma Show18To20() ensures ShowItem(Span(18, 20)) == "18-20" {}
  lemma Show1To10() ensures ShowItem(Span(1, 10)) == "1-10" {}
  lemma Show1To2() ensures ShowItem(Span(1, 2)) == "1-2" {}
  lemma Show1To20() ensures ShowItem(Span(1, 20)) == "1-20" {}
  lemma Show1ToNeg1() ensures ShowItem(Span(1, -1)) == "1--1" {}
  lemma Show2() ensures ShowItem(Point(2)) == "2" {}
  lemma Show20() ensures ShowItem(Point(20)) == "20" {}
  lemma Show21ToStar() ensures ShowItem(FromStar(21)) == "21-*" {}
  lemma Show23() ensures ShowItem(Point(23)) == "23" {}
  lemma Show3() ensures ShowItem(Point(3)) == "3" {}
  lemma Show4() ensures ShowItem(Point(4)) == "4" {}
  lemma Show4To10() ensures ShowItem(Span(4, 10)) == "4-10" {}
  lemma Show5() ensures ShowItem(Point(5)) == "5" {}
  lemma Show5To10() ensures ShowItem(Span(5, 10)) == "5-10" {}
  lemma Show7() ensures ShowItem(Point(7)) == "7" {}
  lemma Show9To21() ensures ShowItem(Span(9, 21)) == "9-21" {}
  lemma ShowNeg1To1() ensures ShowItem(Span(-1, 1)) == "-1-1" {}
  lemma ShowStarTo0() ensures ShowItem(StarTo(0)) == "*-0" {}
  lemma ShowStarTo1() ensures ShowItem(StarTo(1)) == "*-1" {}
  lemma ShowStarTo10() ensures ShowItem(StarTo(10)) == "*-10" {}
  lemma ShowStarTo16() ensures ShowItem(StarTo(16)) == "*-16" {}
  lemma ShowStarTo3() ensures ShowItem(StarTo(3)) == "*-3" {}

  lemma Subscribe1To10And10To20Sorted() ensures SortedByMin([Interval(Fin(1), Fin(10)), Interval(Fin(10), Fin(20))]) {}
  lemma Subscribe1To10And10To20Text() ensures Join(["1-10", "10-20"], ',') == "1-10,10-20" {}
  lemma Subscribe1To10And10To20Merged() ensures Merge([Interval(Fin(1), Fin(10)), Interval(Fin(10), Fin(20))]) == [Interval(Fin(1), Fin(20))] {}

  /** The subscription `foo:1-10,10-20`: the two items touch at 10 and merge into one. */
  lemma Subscribe1To10And10To20()
    ensures CompileScope("1-10,10-20") == Ok([Interval(Fin(1), Fin(20))])
  {
    var items := [Span(1, 10), Span(10, 20)];
    var texts := ["1-10", "10-20"];
    var ivs := [Interval(Fin(1), Fin(10)), Interval(Fin(10), Fin(20))];
    forall k | 0 <= k < 2 ensures ItemOk(items[k]) && ShowItem(items[k]) == texts[k] && ItemInterval(items[k]) == ivs[k] {
      if k == 0 { Show1To10(); } else { Show10To20(); }
    }
    Subscribe1To10And10To20Sorted();
    CompileJoined(items, texts, ivs);
    Subscribe1To10And10To20Text();
    Subscribe1To10And10To20Merged();
  }

  lemma Subscribe1To20And5To10Sorted() ensures SortedByMin([Interval(Fin(1), Fin(20)), Interval(Fin(5), Fin(10))]) {}
  lemma Subscribe1To20And5To10Text() ensures Join(["1-20", "5-10"], ',') == "1-20,5-10" {}
  lemma Subscribe1To20And5To10Merged() ensures Merge([Interval(Fin(1), Fin(20)), Interval(Fin(5), Fin(10))]) == [Interval(Fin(1), Fin(10))] {}

  /** An item inside the previous one still replaces its `max`: the merge keeps the later entry's upper end, so `1-20,5-10` compiles to 1..10. */
  lemma Subscribe1To20And5To10()
    ensures CompileScope("1-20,5-10") == Ok([Interval(Fin(1), Fin(10))])
  {
    var items := [Span(1, 20), Span(5, 10)];
    var texts := ["1-20", "5-10"];
    var ivs := [Interval(Fin(1), Fin(20)), Interval(Fin(5), Fin(10))];
    forall k | 0 <= k < 2 ensures ItemOk(items[k]) && ShowItem(items[k]) == texts[k] && ItemInterval(items[k]) == ivs[k] {
      if k == 0 { Show1To20(); } else { Show5To10(); }
    }
    Subscribe1To20And5To10Sorted();
    CompileJoined(items, texts, ivs);
    Subscribe1To20And5To10Text();
    Subscribe1To20And5To10Merged();
  }

  lemma Emit1Sorted() ensures SortedByMin([Interval(Fin(1), Fin(1))]) {}
  lemma Emit1Text() ensures Join(["1"], ',') == "1" {}
  lemma Emit1Merged() ensures Merge([Interval(Fin(1), Fin(1))]) == [Interval(Fin(1), Fin(1))] {}
  lemma Emit1Verdict() ensures Accepts(Subscribed, [Interval(Fin(1), Fin(1))]) {}

  /** Emitting `foo:1` reaches the listener of `foo:1-10,10-20`. */
  lemma Emit1()
    ensures CompileScope("1") == Ok([Interval(Fin(1), Fin(1))])
    ensures Accepts(Subscribed, CompileScope("1").value)
  {
    var items := [Point(1)];
    var texts := ["1"];
    var ivs := [Interval(Fin(1), Fin(1))];
    forall k | 0 <= k < 1 ensures ItemOk(items[k]) && ShowItem(items[k]) == texts[k] && ItemInterval(items[k]) == ivs[k] {
      Show1();
    }
    Emit1Sorted();
    CompileJoined(items, texts, ivs);
    Emit1Text();
    Emit1Merged();
    Emit1Verdict();
  }

  lemma Emit1To10Sorted() ensures SortedByMin([Interval(Fin(1), Fin(10))]) {}
  lemma Emit1To10Text() ensures Join(["1-10"], ',') == "1-10" {}
  lemma Emit1To10Merged() ensures Merge([Interval(Fin(1), Fin(10))]) == [Interval(Fin(1), Fin(10))] {}
  lemma Emit1To10Verdict() ensures Accepts(Subscribed, [Interval(Fin(1), Fin(10))]) {}

  /** Emitting `foo:1-10` reaches the listener of `foo:1-10,10-20`. */
  lemma Emit1To10()
    ensures CompileScope("1-10") == Ok([Interval(Fin(1), Fin(10))])
    ensures Accepts(Subscribed, CompileScope("1-10").value)
  {
    var items := [Span(1, 10)];
    var texts := ["1-10"];
    var ivs := [Interval(Fin(1), Fin(10))];
    forall k | 0 <= k < 1 ensures ItemOk(items[k]) && ShowItem(items[k]) == texts[k] && ItemInterval(items[k]) == ivs[k] {
      Show1To10();
    }
    Emit1To10Sorted();
    CompileJoined(items, texts, ivs);
    Emit1To10Text();
    Emit1To10Merged();
    Emit1To10Verdict();
  }

  lemma Emit10To4Sorted() ensures SortedByMin([Interval(Fin(4), Fin(10))]) {}
  lemma Emit10To4Text() ensures Join(["10-4"], ',') == "10-4" {}
  lemma Emit10To4Merged() ensures Merge([Interval(Fin(4), Fin(10))]) == [Interval(Fin(4), Fin(10))] {}
  lemma Emit10To4Verdict() ensures Accepts(Subscribed, [Interval(Fin(4), Fin(10))]) {}

  /** Emitting `foo:10-4` reaches the listener of `foo:1-10,10-20`. */
  lemma Emit10To4()
    ensures CompileScope("10-4") == Ok([Interval(Fin(4), Fin(10))])
    ensures Accepts(Subscribed, CompileScope("10-4").value)
  {
    var items := [Span(10, 4)];
    var texts := ["10-4"];
    var ivs := [Interval(Fin(4), Fin(10))];
    forall k | 0 <= k < 1 ensures ItemOk(items[k]) && ShowItem(items[k]) == texts[k] && ItemInterval(items[k]) == ivs[k] {
      Show10To4();
    }
    Emit10To4Sorted();
    CompileJoined(items, texts, ivs);
    Emit10To4Text();
    Emit10To4Merged();
    Emit10To4Verdict();
  }

  lemma Emit18To20Sorted() ensures SortedByMin([Interval(Fin(18), Fin(20))]) {}
  lemma Emit18To20Text() ensures Join(["18-20"], ',') == "18-20" {}
  lemma Emit18To20Merged() ensures Merge([Interval(Fin(18), Fin(20))]) == [Interval(Fin(18), Fin(20))] {}
  lemma Emit18To20Verdict() ensures Accepts(Subscribed, [Interval(Fin(18), Fin(20))]) {}

  /** Emitting `foo:18-20` reaches the listener of `foo:1-10,10-20`. */
  lemma Emit18To20()
    ensures CompileScope("18-20") == Ok([Interval(Fin(18), Fin(20))])
    ensures Accepts(Subscribed, CompileScope("18-20").value)
  {
    var items := [Span(18, 20)];
    var texts := ["18-20"];
    var ivs := [Interval(Fin(18), Fin(20))];
    forall k | 0 <= k < 1 ensures ItemOk(items[k]) && ShowItem(items[k]) == texts[k] && ItemInterval(items[k]) == ivs[k] {
      Show18To20();
    }
    Emit18To20Sorted();
    CompileJoined(items, texts, ivs);
    Emit18To20Text();
    Emit18To20Merged();
    Emit18To20Verdict();
  }

  lemma Emit20Sorted() ensures SortedByMin([Interval(Fin(20), Fin(20))]) {}
  lemma Emit20Text() ensures Join(["20"], ',') == "20" {}
  lemma Emit20Merged() ensures Merge([Interval(Fin(20), Fin(20))]) == [Interval(Fin(20), Fin(20))] {}
  lemma Emit20Verdict() ensures Accepts(Subscribed, [Interval(Fin(20), Fin(20))]) {}

  /** Emitting `foo:20` reaches the listener of `foo:1-10,10-20`. */
  lemma Emit20()
    ensures CompileScope("20") == Ok([Interval(Fin(20), Fin(20))])
    ensures Accepts(Subscribed, CompileScope("20").value)
  {
    var items := [Point(20)];
    var texts := ["20"];
    var ivs := [Interval(Fin(20), Fin(20))];
    forall k | 0 <= k < 1 ensures ItemOk(items[k]) && ShowItem(items[k]) == texts[k] && ItemInterval(items[k]) == ivs[k] {
      Show20();
    }
    Emit20Sorted();
    CompileJoined(items, texts, ivs);
    Emit20Text();
    Emit20Merged();
    Emit20Verdict();
  }

  lemma Emit1To2And4To10Sorted() ensures SortedByMin([Interval(Fin(1), Fin(2)), Interval(Fin(4), Fin(10))]) {}
  lemma Emit1To2And4To10Text() ensures Join(["1-2", "4-10"], ',') == "1-2,4-10" {}
  lemma Emit1To2And4To10Merged() ensures Merge([Interval(Fin(1), Fin(2)), Interval(Fin(4), Fin(10))]) == [Interval(Fin(1), Fin(2)), Interval(Fin(4), Fin(10))] {}
  lemma Emit1To2And4To10Verdict() ensures Accepts(Subscribed, [Interval(Fin(1), Fin(2)), Interval(Fin(4), Fin(10))]) {}

  /** Emitting `foo:1-2,4-10` reaches the listener of `foo:1-10,10-20`. */
  lemma Emit1To2And4To10()
    ensures CompileScope("1-2,4-10") == Ok([Interval(Fin(1), Fin(2)), Interval(Fin(4), Fin(10))])
    ensures Accepts(Subscribed, CompileScope("1-2,4-10").value)
  {
    var items := [Span(1, 2), Span(4, 10)];
    var texts := ["1-2", "4-10"];
    var ivs := [Interval(Fin(1), Fin(2)), Interval(Fin(4), Fin(10))];
    forall k | 0 <= k < 2 ensures ItemOk(items[k]) && ShowItem(items[k]) == texts[k] && ItemInterval(items[k]) == ivs[k] {
      if k == 0 { Show1To2(); } else { Show4To10(); }
    }
    Emit1To2And4To10Sorted();
    CompileJoined(items, texts, ivs);
    Emit1To2And4To10Text();
    Emit1To2And4To10Merged();
    Emit1To2And4To10Verdict();
  }

  lemma Emit1And3And4And5Sorted() ensures SortedByMin([Interval(Fin(1), Fin(1)), Interval(Fin(3), Fin(3)), Interval(Fin(4), Fin(4)), Interval(Fin(5), Fin(5))]) {}
  lemma Emit1And3And4And5Text() ensures Join(["1", "3", "4", "5"], ',') == "1,3,4,5" {}
  lemma Emit1And3And4And5Merged() ensures Merge([Interval(Fin(1), Fin(1)), Interval(Fin(3), Fin(3)), Interval(Fin(4), Fin(4)), Interval(Fin(5), Fin(5))]) == [Interval(Fin(1), Fin(1)), Interval(Fin(3), Fin(3)), Interval(Fin(4), Fin(4)), Interval(Fin(5), Fin(5))] {}
  lemma Emit1And3And4And5Verdict() ensures Accepts(Subscribed, [Interval(Fin(1), Fin(1)), Interval(Fin(3), Fin(3)), Interval(Fin(4), Fin(4)), Interval(Fin(5), Fin(5))]) {}

  /** Emitting `foo:1,3,4,5` reaches the listener of `foo:1-10,10-20`. */
  lemma Emit1And3And4And5()
    ensures CompileScope("1,3,4,5") == Ok([Interval(Fin(1), Fin(1)), Interval(Fin(3), Fin(3)), Interval(Fin(4), Fin(4)), Interval(Fin(5), Fin(5))])
    ensures Accepts(Subscribed, CompileScope("1,3,4,5").value)
  {
    var items := [Point(1), Point(3), Point(4), Point(5)];
    var texts := ["1", "3", "4", "5"];
    var ivs := [Interval(Fin(1), Fin(1)), Interval(Fin(3), Fin(3)), Interval(Fin(4), Fin(4)), Interval(Fin(5), Fin(5))];
    forall k | 0 <= k < 4 ensures ItemOk(items[k]) && ShowItem(items[k]) == texts[k] && ItemInterval(items[k]) == ivs[k] {
      if k == 0 { Show1(); } else if k == 1 { Show3(); } else if k == 2 { Show4(); } else { Show5(); }
    }
    Emit1And3And4And5Sorted();
    CompileJoined(items, texts, ivs);
    Emit1And3And4And5Text();
    Emit1And3And4And5Merged();
    Emit1And3And4And5Verdict();
  }

  lemma Emit10To11And13And15And17To19Sorted() ensures SortedByMin([Interval(Fin(10), Fin(11)), Interval(Fin(13), Fin(13)), Interval(Fin(15), Fin(15)), Interval(Fin(17), Fin(19))]) {}
  lemma Emit10To11And13And15And17To19Text() ensures Join(["10-11", "13", "15", "17-19"], ',') == "10-11,13,15,17-19" {}
  lemma Emit10To11And13And15And17To19Merged() ensures Merge([Interval(Fin(10), Fin(11)), Interval(Fin(13), Fin(13)), Interval(Fin(15), Fin(15)), Interval(Fin(17), Fin(19))]) == [Interval(Fin(10), Fin(11)), Interval(Fin(13), Fin(13)), Interval(Fin(15), Fin(15)), Interval(Fin(17), Fin(19))] {}
  lemma Emit10To11And13And15And17To19Verdict() ensures Accepts(Subscribed, [Interval(Fin(10), Fin(11)), Interval(Fin(13), Fin(13)), Interval(Fin(15), Fin(15)), Interval(Fin(17), Fin(19))]) {}

  /** Emitting `foo:10-11,13,15,17-19` reaches the listener of `foo:1-10,10-20`. */
  lemma Emit10To11And13And15And17To19()
    ensures CompileScope("10-11,13,15,17-19") == Ok([Interval(Fin(10), Fin(11)), Interval(Fin(13), Fin(13)), Interval(Fin(15), Fin(15)), Interval(Fin(17), Fin(19))])
    ensures Accepts(Subscribed, CompileScope("10-11,13,15,17-19").value)
  {
    var items := [Span(10, 11), Point(13), Point(15), Span(17, 19)];
    var texts := ["10-11", "13", "15", "17-19"];
    var ivs := [Interval(Fin(10), Fin(11)), Interval(Fin(13), Fin(13)), Interval(Fin(15), Fin(15)), Interval(Fin(17), Fin(19))];
    forall k | 0 <= k < 4 ensures ItemOk(items[k]) && ShowItem(items[k]) == texts[k] && ItemInterval(items[k]) == ivs[k] {
      if k == 0 { Show10To11(); } else if k == 1 { Show13(); } else if k == 2 { Show15(); } else { Show17To19(); }
    }
    Emit10To11And13And15And17To19Sorted();
    CompileJoined(items, texts, ivs);
    Emit10To11And13And15And17To19Text();
    Emit10To11And13And15And17To19Merged();
    Emit10To11And13And15And17To19Verdict();
  }

  lemma EmitStarTo1Sorted() ensures SortedByMin([Interval(Tiny, Fin(1))]) {}
  lemma EmitStarTo1Text() ensures Join(["*-1"], ',') == "*-1" {}
  lemma EmitStarTo1Merged() ensures Merge([Interval(Tiny, Fin(1))]) == [Interval(Tiny, Fin(1))] {}
  lemma EmitStarTo1Verdict() ensures Accepts(Subscribed, [Interval(Tiny, Fin(1))]) {}

  /** Emitting `foo:*-1` reaches the listener of `foo:1-10,10-20`. */
  lemma EmitStarTo1()
    ensures CompileScope("*-1") == Ok([Interval(Tiny, Fin(1))])
    ensures Accepts(Subscribed, CompileScope("*-1").value)
  {
    var items := [StarTo(1)];
    var texts := ["*-1"];
    var ivs := [Interval(Tiny, Fin(1))];
    forall k | 0 <= k < 1 ensures ItemOk(items[k]) && ShowItem(items[k]) == texts[k] && ItemInterval(items[k]) == ivs[k] {
      ShowStarTo1();
    }
    EmitStarTo1Sorted();
    CompileJoined(items, texts, ivs);
    EmitStarTo1Text();
    EmitStarTo1Merged();
    EmitStarTo1Verdict();
  }

  lemma EmitStarTo10Sorted() ensures SortedByMin([Interval(Tiny, Fin(10))]) {}
  lemma EmitStarTo10Text() ensures Join(["*-10"], ',') == "*-10" {}
  lemma EmitStarTo10Merged() ensures Merge([Interval(Tiny, Fin(10))]) == [Interval(Tiny, Fin(10))] {}
  lemma EmitStarTo10Verdict() ensures Accepts(Subscribed, [Interval(Tiny, Fin(10))]) {}

  /** Emitting `foo:*-10` reaches the listener of `foo:1-10,10-20`. */
  lemma EmitStarTo10()
    ensures CompileScope("*-10") == Ok([Interval(Tiny, Fin(10))])
    ensures Accepts(Subscribed, CompileScope("*-10").value)
  {
    var items := [StarTo(10)];
    var texts := ["*-10"];
    var ivs := [Interval(Tiny, Fin(10))];
    forall k | 0 <= k < 1 ensures ItemOk(items[k]) && ShowItem(items[k]) == texts[k] && ItemInterval(items[k]) == ivs[k] {
      ShowStarTo10();
    }
    EmitStarTo10Sorted();
    CompileJoined(items, texts, ivs);
    EmitStarTo10Text();
    EmitStarTo10Merged();
    EmitStarTo10Verdict();
  }

  lemma EmitStarTo3AndStarTo10AndStarTo16Sorted() ensures SortedByMin([Interval(Tiny, Fin(3)), Interval(Tiny, Fin(10)), Interval(Tiny, Fin(16))]) {}
  lemma EmitStarTo3AndStarTo10AndStarTo16Text() ensures Join(["*-3", "*-10", "*-16"], ',') == "*-3,*-10,*-16" {}
  lemma EmitStarTo3AndStarTo10AndStarTo16Merged() ensures Merge([Interval(Tiny, Fin(3)), Interval(Tiny, Fin(10)), Interval(Tiny, Fin(16))]) == [Interval(Tiny, Fin(16))] {}
  lemma EmitStarTo3AndStarTo10AndStarTo16Verdict() ensures Accepts(Subscribed, [Interval(Tiny, Fin(16))]) {}

  /** Emitting `foo:*-3,*-10,*-16` reaches the listener of `foo:1-10,10-20`. */
  lemma EmitStarTo3AndStarTo10AndStarTo16()
    ensures CompileScope("*-3,*-10,*-16") == Ok([Interval(Tiny, Fin(16))])
    ensures Accepts(Subscribed, CompileScope("*-3,*-10,*-16").value)
  {
    var items := [StarTo(3), StarTo(10), StarTo(16)];
    var texts := ["*-3", "*-10", "*-16"];
    var ivs := [Interval(Tiny, Fin(3)), Interval(Tiny, Fin(10)), Interval(Tiny, Fin(16))];
    forall k | 0 <= k < 3 ensures ItemOk(items[k]) && ShowItem(items[k]) == texts[k] && ItemInterval(items[k]) == ivs[k] {
      if k == 0 { ShowStarTo3(); } else if k == 1 { ShowStarTo10(); } else { ShowStarTo16(); }
    }
    EmitStarTo3AndStarTo10AndStarTo16Sorted();
    CompileJoined(items, texts, ivs);
    EmitStarTo3AndStarTo10AndStarTo16Text();
    EmitStarTo3AndStarTo10AndStarTo16Merged();
    EmitStarTo3AndStarTo10AndStarTo16Verdict();
  }

  lemma Emit0Sorted() ensures SortedByMin([Interval(Fin(0), Fin(0))]) {}
  lemma Emit0Text() ensures Join(["0"], ',') == "0" {}
  lemma Emit0Merged() ensures Merge([Interval(Fin(0), Fin(0))]) == [Interval(Fin(0), Fin(0))] {}
  lemma Emit0Verdict() ensures !Accepts(Subscribed, [Interval(Fin(0), Fin(0))]) {}

  /** Emitting `foo:0` does not reach the listener of `foo:1-10,10-20`. */
  lemma Emit0()
    ensures CompileScope("0") == Ok([Interval(Fin(0), Fin(0))])
    ensures !Accepts(Subscribed, CompileScope("0").value)
  {
    var items := [Point(0)];
    var texts := ["0"];
    var ivs := [Interval(Fin(0), Fin(0))];
    forall k | 0 <= k < 1 ensures ItemOk(items[k]) && ShowItem(items[k]) == texts[k] && ItemInterval(items[k]) == ivs[k] {
      Show0();
    }
    Emit0Sorted();
    CompileJoined(items, texts, ivs);
    Emit0Text();
    Emit0Merged();
    Emit0Verdict();
  }

  lemma Emit0To1Sorted() ensures SortedByMin([Interval(Fin(0), Fin(1))]) {}
  lemma Emit0To1Text() ensures Join(["0-1"], ',') == "0-1" {}
  lemma Emit0To1Merged() ensures Merge([Interval(Fin(0), Fin(1))]) == [Interval(Fin(0), Fin(1))] {}
  lemma Emit0To1Verdict() ensures !Accepts(Subscribed, [Interval(Fin(0), Fin(1))]) {}

  /** Emitting `foo:0-1` does not reach the listener of `foo:1-10,10-20`. */
  lemma Emit0To1()
    ensures CompileScope("0-1") == Ok([Interval(Fin(0), Fin(1))])
    ensures !Accepts(Subscribed, CompileScope("0-1").value)
  {
    var items := [Span(0, 1)];
    var texts := ["0-1"];
    var ivs := [Interval(Fin(0), Fin(1))];
    forall k | 0 <= k < 1 ensures ItemOk(items[k]) && ShowItem(items[k]) == texts[k] && ItemInterval(items[k]) == ivs[k] {
      Show0To1();
    }
    Emit0To1Sorted();
    CompileJoined(items, texts, ivs);
    Emit0To1Text();
    Emit0To1Merged();
    Emit0To1Verdict();
  }

  lemma Emit100Sorted() ensures SortedByMin([Interval(Fin(100), Fin(100))]) {}
  lemma Emit100Text() ensures Join(["100"], ',') == "100" {}
  lemma Emit100Merged() ensures Merge([Interval(Fin(100), Fin(100))]) == [Interval(Fin(100), Fin(100))] {}
  lemma Emit100Verdict() ensures !Accepts(Subscribed, [Interval(Fin(100), Fin(100))]) {}

  /** Emitting `foo:100` does not reach the listener of `foo:1-10,10-20`. */
  lemma Emit100()
    ensures CompileScope("100") == Ok([Interval(Fin(100), Fin(100))])
    ensures !Accepts(Subscribed, CompileScope("100").value)
  {
    var items := [Point(100)];
    var texts := ["100"];
    var ivs := [Interval(Fin(100), Fin(100))];
    forall k | 0 <= k < 1 ensures ItemOk(items[k]) && ShowItem(items[k]) == texts[k] && ItemInterval(items[k]) == ivs[k] {
      Show100();
    }
    Emit100Sorted();
    CompileJoined(items, texts, ivs);
    Emit100Text();
    Emit100Merged();
    Emit100Verdict();
  }

  lemma Emit9To21Sorted() ensures SortedByMin([Interval(Fin(9), Fin(21))]) {}
  lemma Emit9To21Text() ensures Join(["9-21"], ',') == "9-21" {}
  lemma Emit9To21Merged() ensures Merge([Interval(Fin(9), Fin(21))]) == [Interval(Fin(9), Fin(21))] {}
  lemma Emit9To21Verdict() ensures !Accepts(Subscribed, [Interval(Fin(9), Fin(21))]) {}

  /** Emitting `foo:9-21` does not reach the listener of `foo:1-10,10-20`. */
  lemma Emit9To21()
    ensures CompileScope("9-21") == Ok([Interval(Fin(9), Fin(21))])
    ensures !Accepts(Subscribed, CompileScope("9-21").value)
  {
    var items := [Span(9, 21)];
    var texts := ["9-21"];
    var ivs := [Interval(Fin(9), Fin(21))];
    forall k | 0 <= k < 1 ensures ItemOk(items[k]) && ShowItem(items[k]) == texts[k] && ItemInterval(items[k]) == ivs[k] {
      Show9To21();
    }
    Emit9To21Sorted();
    CompileJoined(items, texts, ivs);
    Emit9To21Text();
    Emit9To21Merged();
    Emit9To21Verdict();
  }

  lemma EmitNeg1To1Sorted() ensures SortedByMin([Interval(Fin(-1), Fin(1))]) {}
  lemma EmitNeg1To1Text() ensures Join(["-1-1"], ',') == "-1-1" {}
  lemma EmitNeg1To1Merged() ensures Merge([Interval(Fin(-1), Fin(1))]) == [Interval(Fin(-1), Fin(1))] {}
  lemma EmitNeg1To1Verdict() ensures !Accepts(Subscribed, [Interval(Fin(-1), Fin(1))]) {}

  /** Emitting `foo:-1-1` does not reach the listener of `foo:1-10,10-20`. */
  lemma EmitNeg1To1()
    ensures CompileScope("-1-1") == Ok([Interval(Fin(-1), Fin(1))])
    ensures !Accepts(Subscribed, CompileScope("-1-1").value)
  {
    var items := [Span(-1, 1)];
    var texts := ["-1-1"];
    var ivs := [Interval(Fin(-1), Fin(1))];
    forall k | 0 <= k < 1 ensures ItemOk(items[k]) && ShowItem(items[k]) == texts[k] && ItemInterval(items[k]) == ivs[k] {
      ShowNeg1To1();
    }
    EmitNeg1To1Sorted();
    CompileJoined(items, texts, ivs);
    EmitNeg1To1Text();
    EmitNeg1To1Merged();
    EmitNeg1To1Verdict();
  }

  lemma Emit1ToNeg1Sorted() ensures SortedByMin([Interval(Fin(-1), Fin(1))]) {}
  lemma Emit1ToNeg1Text() ensures Join(["1--1"], ',') == "1--1" {}
  lemma Emit1ToNeg1Merged() ensures Merge([Interval(Fin(-1), Fin(1))]) == [Interval(Fin(-1), Fin(1))] {}
  lemma Emit1ToNeg1Verdict() ensures !Accepts(Subscribed, [Interval(Fin(-1), Fin(1))]) {}

  /** Emitting `foo:1--1` does not reach the listener of `foo:1-10,10-20`. */
  lemma Emit1ToNeg1()
    ensures CompileScope("1--1") == Ok([Interval(Fin(-1), Fin(1))])
    ensures !Accepts(Subscribed, CompileScope("1--1").value)
  {
    var items := [Span(1, -1)];
    var texts := ["1--1"];
    var ivs := [Interval(Fin(-1), Fin(1))];
    forall k | 0 <= k < 1 ensures ItemOk(items[k]) && ShowItem(items[k]) == texts[k] && ItemInterval(items[k]) == ivs[k] {
      Show1ToNeg1();
    }
    Emit1ToNeg1Sorted();
    CompileJoined(items, texts, ivs);
    Emit1ToNeg1Text();
    Emit1ToNeg1Merged();
    Emit1ToNeg1Verdict();
  }

  lemma EmitStarTo0Sorted() ensures SortedByMin([Interval(Fin(0), Tiny)]) {}
  lemma EmitStarTo0Text() ensures Join(["*-0"], ',') == "*-0" {}
  lemma EmitStarTo0Merged() ensures Merge([Interval(Fin(0), Tiny)]) == [Interval(Fin(0), Tiny)] {}
  lemma EmitStarTo0Verdict() ensures !Accepts(Subscribed, [Interval(Fin(0), Tiny)]) {}

  /** Emitting `foo:*-0` does not reach the listener of `foo:1-10,10-20`. */
  lemma EmitStarTo0()
    ensures CompileScope("*-0") == Ok([Interval(Fin(0), Tiny)])
    ensures !Accepts(Subscribed, CompileScope("*-0").value)
  {
    var items := [StarTo(0)];
    var texts := ["*-0"];
    var ivs := [Interval(Fin(0), Tiny)];
    forall k | 0 <= k < 1 ensures ItemOk(items[k]) && ShowItem(items[k]) == texts[k] && ItemInterval(items[k]) == ivs[k] {
      ShowStarTo0();
    }
    EmitStarTo0Sorted();
    CompileJoined(items, texts, ivs);
    EmitStarTo0Text();
    EmitStarTo0Merged();
    EmitStarTo0Verdict();
  }

  lemma Emit21ToStarSorted() ensures SortedByMin([Interval(Fin(21), Huge)]) {}
  lemma Emit21ToStarText() ensures Join(["21-*"], ',') == "21-*" {}
  lemma Emit21ToStarMerged() ensures Merge([Interval(Fin(21), Huge)]) == [Interval(Fin(21), Huge)] {}
  lemma Emit21ToStarVerdict() ensures !Accepts(Subscribed, [Interval(Fin(21), Huge)]) {}

  /** Emitting `foo:21-*` does not reach the listener of `foo:1-10,10-20`. */
  lemma Emit21ToStar()
    ensures CompileScope("21-*") == Ok([Interval(Fin(21), Huge)])
    ensures !Accepts(Subscribed, CompileScope("21-*").value)
  {
    var items := [FromStar(21)];
    var texts := ["21-*"];
    var ivs := [Interval(Fin(21), Huge)];
    forall k | 0 <= k < 1 ensures ItemOk(items[k]) && ShowItem(items[k]) == texts[k] && ItemInterval(items[k]) == ivs[k] {
      Show21ToStar();
    }
    Emit21ToStarSorted();
    CompileJoined(items, texts, ivs);
    Emit21ToStarText();
    Emit21ToStarMerged();
    Emit21ToStarVerdict();
  }

  lemma Emit2And4And7And10And23Sorted() ensures SortedByMin([Interval(Fin(2), Fin(2)), Interval(Fin(4), Fin(4)), Interval(Fin(7), Fin(7)), Interval(Fin(10), Fin(10)), Interval(Fin(23), Fin(23))]) {}
  lemma Emit2And4And7And10And23Text() ensures Join(["2", "4", "7", "10", "23"], ',') == "2,4,7,10,23" {}
  lemma Emit2And4And7And10And23Merged() ensures Merge([Interval(Fin(2), Fin(2)), Interval(Fin(4), Fin(4)), Interval(Fin(7), Fin(7)), Interval(Fin(10), Fin(10)), Interval(Fin(23), Fin(23))]) == [Interval(Fin(2), Fin(2)), Interval(Fin(4), Fin(4)), Interval(Fin(7), Fin(7)), Interval(Fin(10), Fin(10)), Interval(Fin(23), Fin(23))] {}
  lemma Emit2And4And7And10And23Verdict() ensures !Accepts(Subscribed, [Interval(Fin(2), Fin(2)), Interval(Fin(4), Fin(4)), Interval(Fin(7), Fin(7)), Interval(Fin(10), Fin(10)), Interval(Fin(23), Fin(23))]) {}

  /** Emitting `foo:2,4,7,10,23` does not reach the listener of `foo:1-10,10-20`. */
  lemma Emit2And4And7And10And23()
    ensures CompileScope("2,4,7,10,23") == Ok([Interval(Fin(2), Fin(2)), Interval(Fin(4), Fin(4)), Interval(Fin(7), Fin(7)), Interval(Fin(10), Fin(10)), Interval(Fin(23), Fin(23))])
    ensures !Accepts(Subscribed, CompileScope("2,4,7,10,23").value)
  {
    var items := [Point(2), Point(4), Point(7), Point(10), Point(23)];
    var texts := ["2", "4", "7", "10", "23"];
    var ivs := [Interval(Fin(2), Fin(2)), Interval(Fin(4), Fin(4)), Interval(Fin(7), Fin(7)), Interval(Fin(10), Fin(10)), Interval(Fin(23), Fin(23))];
    forall k | 0 <= k < 5 ensures ItemOk(items[k]) && ShowItem(items[k]) == texts[k] && ItemInterval(items[k]) == ivs[k] {
      if k == 0 { Show2(); } else if k == 1 { Show4(); } else if k == 2 { Show7(); } else if k == 3 { Show10(); } else { Show23(); }
    }
    Emit2And4And7And10And23Sorted();
    CompileJoined(items, texts, ivs);
    Emit2And4And7And10And23Text();
    Emit2And4And7And10And23Merged();
    Emit2And4And7And10And23Verdict();
  }

  lemma Emit5To10And12To22Sorted() ensures SortedByMin([Interval(Fin(5), Fin(10)), Interval(Fin(12), Fin(22))]) {}
  lemma Emit5To10And12To22Text() ensures Join(["5-10", "12-22"], ',') == "5-10,12-22" {}
  lemma Emit5To10And12To22Merged() ensures Merge([Interval(Fin(5), Fin(10)), Interval(Fin(12), Fin(22))]) == [Interval(Fin(5), Fin(10)), Interval(Fin(12), Fin(22))] {}
  lemma Emit5To10And12To22Verdict() ensures !Accepts(Subscribed, [Interval(Fin(5), Fin(10)), Interval(Fin(12), Fin(22))]) {}

  /** Emitting `foo:5-10,12-22` does not reach the listener of `foo:1-10,10-20`. */
  lemma Emit5To10And12To22()
    ensures CompileScope("5-10,12-22") == Ok([Interval(Fin(5), Fin(10)), Interval(Fin(12), Fin(22))])
    ensures !Accepts(Subscribed, CompileScope("5-10,12-22").value)
  {
    var items := [Span(5, 10), Span(12, 22)];
    var texts := ["5-10", "12-22"];
    var ivs := [Interval(Fin(5), Fin(10)), Interval(Fin(12), Fin(22))];
    forall k | 0 <= k < 2 ensures ItemOk(items[k]) && ShowItem(items[k]) == texts[k] && ItemInterval(items[k]) == ivs[k] {
      if k == 0 { Show5To10(); } else { Show12To22(); }
    }
    Emit5To10And12To22Sorted();
    CompileJoined(items, texts, ivs);
    Emit5To10And12To22Text();
    Emit5To10And12To22Merged();
    Emit5To10And12To22Verdict();
  }
}
