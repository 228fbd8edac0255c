/**
 * Numeric scopes: `_createRangeArray` compiles a scope string such as
 * "1-10,10-20" into a sorted, merged list of closed intervals, and the
 * closure returned by `_createEventRangeValidator` decides, by a two-pointer
 * walk, whether an emitted interval list is accepted by a subscription's.
 */
module Scope {
  import opened Wrappers
  import opened Strings
  import opened Patterns
  import opened Exceptions

  /**
   * An interval end. `Tiny` is `Number.MIN_VALUE` (the smallest positive
   * double, so strictly between 0 and 1 among these values) and `Huge` is
   * `Number.MAX_VALUE`, above every integer.
   */
  datatype Bound = Fin(n: int) | Tiny | Huge

  function Rank(b: Bound): int
    requires !b.Huge?
  {
    match b
    case Fin(n) => 2 * n
    case Tiny => 1
  }

  /** JavaScript's `<=` on these values. */
  predicate Le(a: Bound, b: Bound) {
    b.Huge? || (!a.Huge? && Rank(a) <= Rank(b))
  }

  /** JavaScript's `<`. */
  predicate Lt(a: Bound, b: Bound) {
    !Le(b, a)
  }

  /** `Math.min`. */
  function Min(a: Bound, b: Bound): (m: Bound)
    ensures Le(m, a) && Le(m, b) && (m == a || m == b)
  {
    if Le(a, b) then a else b
  }

  /** `Math.max`. */
  function Max(a: Bound, b: Bound): (m: Bound)
    ensures Le(a, m) && Le(b, m) && (m == a || m == b)
  {
    if Le(a, b) then b else a
  }

  /** A `{min, max}` entry of a range array. */
  datatype Interval = Interval(min: Bound, max: Bound)

  predicate Contains(iv: Interval, x: Bound) {
    Le(iv.min, x) && Le(x, iv.max)
  }

  /** The value `Number` gives a `-?\d+` token. */
  function TokenValue(t: Token): int
    requires t.Number?
  {
    var v: int := DigitsValue(t.digits);
    if t.negative then -v else v
  }

  /**
   * One parsed item as an interval: a `*` lower end is MIN_VALUE, a `*`
   * upper end MAX_VALUE, a missing upper end copies the converted lower end,
   * and the two ends are put in order. MIN_VALUE is positive, so `*-b`
   * with `b <= 0` has MIN_VALUE as its upper end.
   */
  function ItemInterval(it: Item): (iv: Interval)
    ensures Le(iv.min, iv.max)
    ensures it.lo.Star? && it.hi.None? ==> iv == Interval(Tiny, Tiny)
    ensures it.hi == Some(Star) ==> iv.max == Huge
    ensures it.lo.Number? && it.hi.None? ==> iv == Interval(Fin(TokenValue(it.lo)), Fin(TokenValue(it.lo)))
    ensures it.lo.Number? && it.hi.Some? && it.hi.value.Number? ==>
      var a, b := TokenValue(it.lo), TokenValue(it.hi.value);
      iv == Interval(Fin(if a <= b then a else b), Fin(if a <= b then b else a))
    ensures it.lo.Star? && it.hi.Some? && it.hi.value.Number? ==>
      var b := TokenValue(it.hi.value);
      iv == if b >= 1 then Interval(Tiny, Fin(b)) else Interval(Fin(b), Tiny)
    ensures it.lo.Number? && it.hi == Some(Star) ==> iv == Interval(Fin(TokenValue(it.lo)), Huge)
    ensures it.lo.Star? && it.hi == Some(Star) ==> iv == Interval(Tiny, Huge)
  {
    var lo := if it.lo.Star? then Tiny else Fin(TokenValue(it.lo));
    var hi :=
      match it.hi
      case None => lo
      case Some(t) => if t.Star? then Huge else Fin(TokenValue(t));
    Interval(Min(lo, hi), Max(lo, hi))
  }

  /** One comma item; an empty item is read as `*`. */
  function CompileItem(raw: string): (r: Result<Interval, EventError>)
    ensures r.Err? ==> r.error == InvalidRangeItem
    ensures r.Ok? ==> Le(r.value.min, r.value.max)
    ensures raw == "" ==> r == Ok(Interval(Tiny, Tiny))
  {
    var item := if raw == "" then "*" else raw;
    if raw == "" then
      assert ParseItem("*") == Some(Item(Star, None)) by {
        ParseShowItem(Item(Star, None));
      }
      Ok(ItemInterval(Item(Star, None)))
    else
      match ParseItem(item)
      case None => Err(InvalidRangeItem)
      case Some(it) => Ok(ItemInterval(it))
  }

  /** The fill loop of `_createRangeArray`: every item converted, in order, stopping at the first bad one. */
  function CompileItems(items: seq<string>): Result<seq<Interval>, EventError> {
    if items == [] then Ok([])
    else
      match CompileItems(items[..|items| - 1])
      case Err(e) => Err(e)
      case Ok(ivs) =>
        match CompileItem(items[|items| - 1])
        case Err(e) => Err(e)
        case Ok(iv) => Ok(ivs + [iv])
  }

  /** A compiled item list has one entry per item, each the item's own interval. */
  lemma {:induction false} CompileItemsValues(items: seq<string>)
    ensures CompileItems(items).Ok? ==>
      |CompileItems(items).value| == |items| &&
      forall k :: 0 <= k < |items| ==> CompileItem(items[k]) == Ok(CompileItems(items).value[k])
  {
    if items != [] && CompileItems(items).Ok? {
      var front := items[..|items| - 1];
      CompileItemsValues(front);
      assert forall k :: 0 <= k < |front| ==> items[k] == front[k];
    }
  }

  /** A failing item list fails with InvalidRangeItem because one of its items does. */
  lemma {:induction false} CompileItemsFailure(items: seq<string>)
    ensures CompileItems(items).Err? ==>
      CompileItems(items).error == InvalidRangeItem &&
      exists k :: 0 <= k < |items| && CompileItem(items[k]).Err?
  {
    if items != [] && CompileItems(items).Err? {
      var front := items[..|items| - 1];
      CompileItemsFailure(front);
      if CompileItems(front).Err? {
        var k :| 0 <= k < |front| && CompileItem(front[k]).Err?;
        assert items[k] == front[k];
      } else {
        assert CompileItem(items[|items| - 1]).Err?;
      }
    }
  }

  /** The item list compiles exactly when every item does, entry by entry. */
  lemma CompileItemsSpec(items: seq<string>)
    ensures CompileItems(items).Ok? <==> forall k :: 0 <= k < |items| ==> CompileItem(items[k]).Ok?
    ensures CompileItems(items).Err? ==> CompileItems(items).error == InvalidRangeItem
    ensures CompileItems(items).Ok? ==>
      |CompileItems(items).value| == |items| &&
      forall k :: 0 <= k < |items| ==> CompileItem(items[k]) == Ok(CompileItems(items).value[k])
  {
    CompileItemsValues(items);
    CompileItemsFailure(items);
  }

  predicate WellFormed(s: seq<Interval>) {
    forall k :: 0 <= k < |s| ==> Le(s[k].min, s[k].max)
  }

  predicate SortedByMin(s: seq<Interval>) {
    forall j, k :: 0 <= j < k < |s| ==> Le(s[j].min, s[k].min)
  }

  /** The shape `_createRangeArray` promises: ordered ends, and each entry wholly above the one before. */
  predicate Normalized(s: seq<Interval>) {
    WellFormed(s) && forall j, k :: 0 <= j < k < |s| ==> Lt(s[j].max, s[k].min)
  }

  /** The entries of `s` whose `min` is `b`, in their order in `s`. */
  function WithMin(s: seq<Interval>, b: Bound): seq<Interval> {
    if s == [] then []
    else (if s[0].min == b then [s[0]] else []) + WithMin(s[1..], b)
  }

  function InsertByMin(x: Interval, s: seq<Interval>): (r: seq<Interval>)
    requires SortedByMin(s)
    ensures SortedByMin(r)
    ensures multiset(r) == multiset(s) + multiset{x}
    ensures forall b :: WithMin(r, b) == WithMin([x] + s, b)
  {
    if s == [] || Le(x.min, s[0].min) then
      [x] + s
    else
      var t := InsertByMin(x, s[1..]);
      InsertSorted(x, s, t);
      InsertCounts(x, s, t);
      InsertKeepsOrder(x, s, t);
      [s[0]] + t
  }

  lemma InsertSorted(x: Interval, s: seq<Interval>, t: seq<Interval>)
    requires s != [] && !Le(x.min, s[0].min) && SortedByMin(s)
    requires SortedByMin(t) && multiset(t) == multiset(s[1..]) + multiset{x}
    ensures SortedByMin([s[0]] + t)
  {
    forall k | 0 <= k < |t| ensures Le(s[0].min, t[k].min) {
      assert t[k] in multiset(t);
      if t[k] != x {
        assert t[k] in multiset(s[1..]);
        var j :| 0 <= j < |s[1..]| && s[1..][j] == t[k];
        assert s[j + 1] == t[k];
      }
    }
  }

  lemma InsertCounts(x: Interval, s: seq<Interval>, t: seq<Interval>)
    requires s != [] && multiset(t) == multiset(s[1..]) + multiset{x}
    ensures multiset([s[0]] + t) == multiset(s) + multiset{x}
  {
    assert s == [s[0]] + s[1..];
  }

  lemma WithMinCons(x: Interval, s: seq<Interval>, b: Bound)
    ensures WithMin([x] + s, b) == (if x.min == b then [x] else []) + WithMin(s, b)
  {
    assert ([x] + s)[1..] == s;
  }

  /** Moving `x` past an entry with a different `min` changes no `min` class. */
  lemma InsertKeepsOrder(x: Interval, s: seq<Interval>, t: seq<Interval>)
    requires s != [] && x.min != s[0].min
    requires forall b :: WithMin(t, b) == WithMin([x] + s[1..], b)
    ensures forall b :: WithMin([s[0]] + t, b) == WithMin([x] + s, b)
  {
    assert [s[0]] + s[1..] == s;
    forall b ensures WithMin([s[0]] + t, b) == WithMin([x] + s, b) {
      InsertKeepsClass(x, s[0], s[1..], t, b);
    }
  }

  lemma InsertKeepsClass(x: Interval, y: Interval, u: seq<Interval>, t: seq<Interval>, b: Bound)
    requires x.min != y.min
    requires WithMin(t, b) == WithMin([x] + u, b)
    ensures WithMin([y] + t, b) == WithMin([x] + ([y] + u), b)
  {
    WithMinCons(y, t, b);
    WithMinCons(x, u, b);
    WithMinCons(x, [y] + u, b);
    WithMinCons(y, u, b);
  }

  /**
   * `Array.prototype.sort` with the comparator `a.min - b.min`: the sort is
   * stable, so the result is ordered by `min` and, for every `min` value,
   * keeps the entries with that `min` in their original order.
   */
  function SortByMin(s: seq<Interval>): (r: seq<Interval>)
    ensures SortedByMin(r)
    ensures multiset(r) == multiset(s)
    ensures forall b :: WithMin(r, b) == WithMin(s, b)
  {
    if s == [] then []
    else
      var t := SortByMin(s[1..]);
      assert s == [s[0]] + s[1..];
      assert forall b :: WithMin([s[0]] + t, b) == WithMin(s, b) by {
        forall b ensures WithMin([s[0]] + t, b) == WithMin(s, b) {
          assert ([s[0]] + t)[1..] == t;
        }
      }
      InsertByMin(s[0], t)
  }

  /** A list already ordered by `min` is left as it is: the sort moves nothing it need not. */
  lemma {:induction false} SortSortedIdentity(s: seq<Interval>)
    requires SortedByMin(s)
    ensures SortByMin(s) == s
  {
    if s != [] {
      SortSortedIdentity(s[1..]);
      assert [s[0]] + s[1..] == s;
    }
  }

  /**
   * The merge loop of `_createRangeArray` from the point where `done` is the
   * processed prefix and `rest` the untouched suffix: an entry whose `min`
   * is at most the previous `max` is folded into the previous entry, which
   * keeps its `min` and takes the later entry's `max`.
   */
  function MergeInto(done: seq<Interval>, rest: seq<Interval>): seq<Interval>
    requires |done| >= 1
    decreases |rest|
  {
    if rest == [] then done
    else
      var last := done[|done| - 1];
      if Le(rest[0].min, last.max) then
        MergeInto(done[..|done| - 1] + [Interval(last.min, rest[0].max)], rest[1..])
      else
        MergeInto(done + [rest[0]], rest[1..])
  }

  function Merge(s: seq<Interval>): seq<Interval> {
    if s == [] then [] else MergeInto([s[0]], s[1..])
  }

  function CompileScope(range: string): Result<seq<Interval>, EventError> {
    match CompileItems(Split(range, ','))
    case Err(e) => Err(e)
    case Ok(ivs) => Ok(Merge(SortByMin(ivs)))
  }

  /** With a sorted, well-formed input the merge produces a normalized list. */
  lemma {:induction false} MergeIntoNormalized(done: seq<Interval>, rest: seq<Interval>)
    requires |done| >= 1 && Normalized(done)
    requires WellFormed(rest) && SortedByMin(rest)
    requires forall k :: 0 <= k < |rest| ==> Le(done[|done| - 1].min, rest[k].min)
    ensures |MergeInto(done, rest)| >= 1 && Normalized(MergeInto(done, rest))
    decreases |rest|
  {
    if rest != [] {
      var last := done[|done| - 1];
      if Le(rest[0].min, last.max) {
        var done' := done[..|done| - 1] + [Interval(last.min, rest[0].max)];
        assert done'[|done'| - 1].min == last.min;
        MergeIntoNormalized(done', rest[1..]);
      } else {
        var done' := done + [rest[0]];
        MergeIntoNormalized(done', rest[1..]);
      }
    }
  }

  /** Merging never adds a point: whatever the result contains, some input entry contains. */
  lemma {:induction false} MergeIntoSound(done: seq<Interval>, rest: seq<Interval>, x: Bound)
    requires |done| >= 1
    requires exists k :: 0 <= k < |MergeInto(done, rest)| && Contains(MergeInto(done, rest)[k], x)
    ensures (exists k :: 0 <= k < |done| && Contains(done[k], x)) ||
            (exists k :: 0 <= k < |rest| && Contains(rest[k], x))
    decreases |rest|
  {
    if rest != [] {
      var last := done[|done| - 1];
      if Le(rest[0].min, last.max) {
        var done' := done[..|done| - 1] + [Interval(last.min, rest[0].max)];
        MergeIntoSound(done', rest[1..], x);
        if exists k :: 0 <= k < |done'| && Contains(done'[k], x) {
          var k :| 0 <= k < |done'| && Contains(done'[k], x);
          if k == |done'| - 1 {
            if Le(x, last.max) {
              assert Contains(done[|done| - 1], x);
            } else {
              assert Contains(rest[0], x);
            }
          } else {
            assert Contains(done[k], x);
          }
        } else {
          var k :| 0 <= k < |rest[1..]| && Contains(rest[1..][k], x);
          assert Contains(rest[k + 1], x);
        }
      } else {
        var done' := done + [rest[0]];
        MergeIntoSound(done', rest[1..], x);
        if exists k :: 0 <= k < |done'| && Contains(done'[k], x) {
          var k :| 0 <= k < |done'| && Contains(done'[k], x);
          if k == |done|  {
            assert Contains(rest[0], x);
          } else {
            assert Contains(done[k], x);
          }
        } else {
          var k :| 0 <= k < |rest[1..]| && Contains(rest[1..][k], x);
          assert Contains(rest[k + 1], x);
        }
      }
    }
  }

  /** Sorting and merging a non-empty list of ordered entries gives a normalized, non-empty list. */
  lemma SortMergeNormalized(ivs: seq<Interval>)
    requires |ivs| >= 1 && WellFormed(ivs)
    ensures |Merge(SortByMin(ivs))| >= 1 && Normalized(Merge(SortByMin(ivs)))
  {
    var sorted := SortByMin(ivs);
    assert |sorted| == |ivs| by {
      assert |multiset(sorted)| == |multiset(ivs)|;
    }
    forall k | 0 <= k < |sorted| ensures Le(sorted[k].min, sorted[k].max) {
      assert sorted[k] in multiset(ivs);
    }
    MergeIntoNormalized([sorted[0]], sorted[1..]);
  }

  /**
   * What a compiled scope looks like: never empty, every entry ordered, and
   * each entry wholly above the one before.
   */
  lemma CompiledNormalized(range: string)
    ensures CompileScope(range).Ok? ==>
      |CompileScope(range).value| >= 1 && Normalized(CompileScope(range).value)
  {
    var items := Split(range, ',');
    CompileItemsSpec(items);
    if CompileItems(items).Ok? {
      var ivs := CompileItems(items).value;
      forall k | 0 <= k < |ivs| ensures Le(ivs[k].min, ivs[k].max) {
        assert CompileItem(items[k]) == Ok(ivs[k]);
      }
      SortMergeNormalized(ivs);
    }
  }

  /** An item list fails to compile exactly when some item, other than an empty one, fails RANGE_ITEM_PATTERN. */
  lemma CompileItemsFailIff(items: seq<string>)
    ensures CompileItems(items).Err? <==>
      exists k :: 0 <= k < |items| && items[k] != "" && ParseItem(items[k]).None?
  {
    CompileItemsSpec(items);
    if CompileItems(items).Ok? {
      forall k | 0 <= k < |items| ensures !(items[k] != "" && ParseItem(items[k]).None?) {
        assert CompileItem(items[k]).Ok?;
      }
    } else {
      var k :| 0 <= k < |items| && CompileItem(items[k]).Err?;
      assert items[k] != "";
    }
  }

  /**
   * An omitted or empty scope compiles like `*`: the single point
   * `[MIN_VALUE, MIN_VALUE]`.
   */
  lemma EmptyScopeCompiles()
    ensures CompileScope("") == Ok([Interval(Tiny, Tiny)])
    ensures CompileScope("*") == Ok([Interval(Tiny, Tiny)])
  {
    assert Split("", ',') == [""];
    assert CompileItem("") == Ok(Interval(Tiny, Tiny));
    CompileItemsSpec([""]);
    NoSeparatorIsOnePiece("*", ',');
    assert CompileItem("*") == Ok(Interval(Tiny, Tiny)) by {
      ParseShowItem(Item(Star, None));
    }
    CompileItemsSpec(["*"]);
  }

  /** A scope that passes EVT_RANGE_PATTERN always compiles. */
  lemma RangeMatchesCompiles(range: string)
    requires RangeMatches(range)
    ensures CompileScope(range).Ok?
  {
    var items := Split(range, ',');
    CompileItemsFailIff(items);
    assert forall k :: 0 <= k < |items| ==> ParseItem(items[k]).Some?;
    assert CompileItems(items).Ok?;
  }

  /** The fill loop of `_createRangeArray`: one interval per comma item, throwing on a malformed item. */
  method FillRangeArray(rangeData: seq<string>) returns (r: Result<seq<Interval>, EventError>)
    ensures r == CompileItems(rangeData)
  {
    var rangeArray: seq<Interval> := [];
    var i := 0;
    while i < |rangeData|
      invariant 0 <= i <= |rangeData|
      invariant CompileItems(rangeData[..i]) == Ok(rangeArray)
    {
      CompileItemParsed(rangeData[i]);
      var rangeItem := ParseItem(if rangeData[i] == "" then "*" else rangeData[i]);
      if rangeItem.None? {
        CompileItemsStuck(rangeData, i);
        return Err(InvalidRangeItem);
      }
      CompileItemsNext(rangeData, i);
      rangeArray := rangeArray + [ItemInterval(rangeItem.value)];
      i := i + 1;
    }
    assert rangeData[..i] == rangeData;
    return Ok(rangeArray);
  }

  /** `CompileItem` is RANGE_ITEM_PATTERN applied to the item, `*` standing in for an empty one. */
  lemma CompileItemParsed(raw: string)
    ensures CompileItem(raw) ==
      match ParseItem(if raw == "" then "*" else raw)
      case None => Err(InvalidRangeItem)
      case Some(it) => Ok(ItemInterval(it))
  {
    if raw == "" {
      ParseShowItem(Item(Star, None));
    }
  }

  /** The fill loop's step: one more compiled item appended. */
  lemma CompileItemsNext(items: seq<string>, i: nat)
    requires i < |items|
    ensures CompileItems(items[..i + 1]) ==
      match CompileItems(items[..i])
      case Err(e) => Err(e)
      case Ok(ivs) =>
        match CompileItem(items[i])
        case Err(e) => Err(e)
        case Ok(iv) => Ok(ivs + [iv])
  {
    assert items[..i + 1][..i] == items[..i];
  }

  /** The fill loop stops at the first item that does not compile, and so does `CompileItems`. */
  lemma {:induction false} CompileItemsStuck(items: seq<string>, i: nat)
    requires i < |items|
    requires CompileItems(items[..i]).Ok? && CompileItem(items[i]).Err?
    ensures CompileItems(items) == Err(InvalidRangeItem)
  {
    var front := items[..|items| - 1];
    if i == |items| - 1 {
      assert front == items[..i];
    } else {
      assert front[..i] == items[..i] && front[i] == items[i];
      CompileItemsStuck(front, i);
    }
  }

  /** The merge loop of `_createRangeArray` over the sorted array, folding with `splice(i--, 1)`. */
  method MergeRangeArray(sorted: seq<Interval>) returns (rangeArray: seq<Interval>)
    requires |sorted| >= 1
    ensures rangeArray == Merge(sorted)
  {
    rangeArray := sorted;
    var i := 1;
    assert rangeArray[..1] == [sorted[0]];
    while i < |rangeArray|
      invariant 1 <= i <= |rangeArray|
      invariant MergeInto(rangeArray[..i], rangeArray[i..]) == Merge(sorted)
      decreases |rangeArray| - i
    {
      if Le(rangeArray[i].min, rangeArray[i - 1].max) {
        var merged := Interval(rangeArray[i - 1].min, rangeArray[i].max);
        assert rangeArray[..i][..i - 1] == rangeArray[..i - 1];
        assert rangeArray[i..][1..] == rangeArray[i + 1..];
        rangeArray := rangeArray[..i - 1] + [merged] + rangeArray[i + 1..];
        assert rangeArray[..i] == rangeArray[..i - 1] + [merged];
        i := i - 1;
      } else {
        assert rangeArray[..i + 1] == rangeArray[..i] + [rangeArray[i]];
        assert rangeArray[i..][1..] == rangeArray[i + 1..];
      }
      i := i + 1;
    }
    assert rangeArray[..i] == rangeArray;
  }

  /**
   * `_createRangeArray`: fill the array item by item (throwing on a malformed
   * item), sort it by `min`, then merge neighbouring entries.
   */
  method CreateRangeArray(range: string) returns (r: Result<seq<Interval>, EventError>)
    ensures r == CompileScope(range)
    ensures r.Ok? ==> |r.value| >= 1 && Normalized(r.value)
  {
    var rangeData := Split(range, ',');
    var filled := FillRangeArray(rangeData);
    if filled.Err? {
      return filled;
    }
    CompileItemsSpec(rangeData);
    var sorted := SortByMin(filled.value);
    assert |sorted| >= 1 by {
      assert |multiset(sorted)| == |rangeData|;
    }
    var merged := MergeRangeArray(sorted);
    CompiledNormalized(range);
    return Ok(merged);
  }

  /**
   * The rejection test of the validator loop for one subscription entry
   * `left` and one emitted entry `right`, with its JavaScript operators and
   * its sentinel comparisons as written.
   */
  predicate Rejects(left: Interval, right: Interval) {
    (Le(left.min, right.min) || Le(right.max, left.max)) &&
    ((Lt(right.min, left.min) && right.min != Tiny) ||
     (Lt(left.max, right.max) && right.max != Huge))
  }

  /** The validator loop from pointers `li` (subscription) and `ri` (emission). */
  function AcceptsFrom(ctx: seq<Interval>, range: seq<Interval>, li: nat, ri: nat): bool
    decreases |ctx| - li + |range| - ri
  {
    if li < |ctx| && ri < |range| then
      if Lt(ctx[li].max, range[ri].min) then AcceptsFrom(ctx, range, li + 1, ri)
      else if Rejects(ctx[li], range[ri]) then false
      else AcceptsFrom(ctx, range, li, ri + 1)
    else
      ri >= |range|
  }

  /** What the closure built by `_createEventRangeValidator(ctx)` answers for `range`. */
  function Accepts(ctx: seq<Interval>, range: seq<Interval>): bool {
    AcceptsFrom(ctx, range, 0, 0)
  }

  /**
   * A subscription without a scope compiles to the single point MIN_VALUE,
   * which no integer point lies on: positive points pass beyond it and
   * exhaust the subscription list, the others are rejected by it.
   */
  lemma UnscopedRejectsPoints(n: int)
    ensures !Accepts([Interval(Tiny, Tiny)], [Interval(Fin(n), Fin(n))])
  {
    var ctx, range := [Interval(Tiny, Tiny)], [Interval(Fin(n), Fin(n))];
    if n >= 1 {
      assert Lt(ctx[0].max, range[0].min);
      assert !AcceptsFrom(ctx, range, 1, 0);
    } else {
      assert !Lt(ctx[0].max, range[0].min) && Rejects(ctx[0], range[0]);
    }
  }

  /** `ctx[j]` is the first subscription entry whose `max` reaches `x`. */
  predicate FirstReaching(ctx: seq<Interval>, x: Bound, j: int) {
    0 <= j < |ctx| && Le(x, ctx[j].max) && forall i :: 0 <= i < j ==> Lt(ctx[i].max, x)
  }

  /** The first subscription entry reaching `right.min` exists and does not reject `right`. */
  ghost predicate CoveredBy(ctx: seq<Interval>, right: Interval) {
    exists j :: FirstReaching(ctx, right.min, j) && !Rejects(ctx[j], right)
  }

  lemma FirstReachingUnique(ctx: seq<Interval>, x: Bound, j: int, j': int)
    requires FirstReaching(ctx, x, j) && FirstReaching(ctx, x, j')
    ensures j == j'
  {
  }

  lemma LtLeTrans(a: Bound, b: Bound, c: Bound)
    requires Lt(a, b) && Le(b, c)
    ensures Lt(a, c)
  {
  }

  /** The entry the loop stopped at rejects `right`, so no entry covers it. */
  lemma RejectedNotCovered(ctx: seq<Interval>, right: Interval, li: int)
    requires FirstReaching(ctx, right.min, li) && Rejects(ctx[li], right)
    ensures !CoveredBy(ctx, right)
  {
    if CoveredBy(ctx, right) {
      var j :| FirstReaching(ctx, right.min, j) && !Rejects(ctx[j], right);
      FirstReachingUnique(ctx, right.min, j, li);
    }
  }

  /** Every subscription entry lies below `x`, so nothing covers an entry starting at `x`. */
  lemma ExhaustedNotCovered(ctx: seq<Interval>, right: Interval)
    requires forall i :: 0 <= i < |ctx| ==> Lt(ctx[i].max, right.min)
    ensures !CoveredBy(ctx, right)
  {
  }

  /** The entry the loop accepts `right` at covers it, and the entries before it stay below the next emitted entry. */
  lemma CoveredHere(ctx: seq<Interval>, range: seq<Interval>, li: nat, ri: nat)
    requires SortedByMin(range)
    requires li < |ctx| && ri < |range|
    requires forall i :: 0 <= i < li ==> Lt(ctx[i].max, range[ri].min)
    requires !Lt(ctx[li].max, range[ri].min) && !Rejects(ctx[li], range[ri])
    ensures CoveredBy(ctx, range[ri])
    ensures ri + 1 < |range| ==> forall i :: 0 <= i < li ==> Lt(ctx[i].max, range[ri + 1].min)
  {
    assert FirstReaching(ctx, range[ri].min, li);
    if ri + 1 < |range| {
      forall i | 0 <= i < li ensures Lt(ctx[i].max, range[ri + 1].min) {
        LtLeTrans(ctx[i].max, range[ri].min, range[ri + 1].min);
      }
    }
  }

  lemma {:induction false} AcceptsFromCharacterized(ctx: seq<Interval>, range: seq<Interval>, li: nat, ri: nat)
    requires SortedByMin(range)
    requires li <= |ctx| && ri <= |range|
    requires ri < |range| ==> forall i :: 0 <= i < li ==> Lt(ctx[i].max, range[ri].min)
    ensures AcceptsFrom(ctx, range, li, ri) <==> forall k :: ri <= k < |range| ==> CoveredBy(ctx, range[k])
    decreases |ctx| - li + |range| - ri
  {
    if li < |ctx| && ri < |range| {
      var right := range[ri];
      if Lt(ctx[li].max, right.min) {
        AcceptsFromCharacterized(ctx, range, li + 1, ri);
      } else if Rejects(ctx[li], right) {
        RejectedNotCovered(ctx, right, li);
      } else {
        CoveredHere(ctx, range, li, ri);
        AcceptsFromCharacterized(ctx, range, li, ri + 1);
      }
    } else if ri < |range| {
      ExhaustedNotCovered(ctx, range[ri]);
    }
  }

  /**
   * For a sorted emission, the validator accepts exactly when every emitted
   * entry is not rejected by the first subscription entry whose `max`
   * reaches that entry's `min`; it rejects when no such entry is left.
   */
  lemma AcceptsCharacterized(ctx: seq<Interval>, range: seq<Interval>)
    requires SortedByMin(range)
    ensures Accepts(ctx, range) <==> forall k :: 0 <= k < |range| ==> CoveredBy(ctx, range[k])
  {
    AcceptsFromCharacterized(ctx, range, 0, 0);
  }

  /**
   * The closure returned by `_createEventRangeValidator`: the two-pointer
   * loop over the captured subscription list `ctxRange` and the emitted
   * list `range`.
   */
  method RangeValidate(ctxRange: seq<Interval>, range: seq<Interval>) returns (ok: bool)
    ensures ok == Accepts(ctxRange, range)
  {
    var leftIndex, rightIndex := 0, 0;
    while leftIndex < |ctxRange| && rightIndex < |range|
      invariant leftIndex <= |ctxRange| && rightIndex <= |range|
      invariant AcceptsFrom(ctxRange, range, leftIndex, rightIndex) == Accepts(ctxRange, range)
      decreases |ctxRange| - leftIndex + |range| - rightIndex
    {
      var left, right := ctxRange[leftIndex], range[rightIndex];
      if Lt(left.max, right.min) {
        leftIndex := leftIndex + 1;
      } else if Rejects(left, right) {
        return false;
      } else {
        rightIndex := rightIndex + 1;
      }
    }
    if rightIndex < |range| {
      return false;
    }
    return true;
  }

  /** No entry of `ctx` can be reached before the one that contains `right`. */
  lemma ContainedIsFirstReaching(ctx: seq<Interval>, right: Interval, j: int)
    requires Normalized(ctx) && 0 <= j < |ctx|
    requires Le(right.min, right.max)
    requires Contains(ctx[j], right.min) && Contains(ctx[j], right.max)
    ensures FirstReaching(ctx, right.min, j) && !Rejects(ctx[j], right)
  {
    forall i | 0 <= i < j ensures Lt(ctx[i].max, right.min) {
      assert Lt(ctx[i].max, ctx[j].min);
    }
  }

  /**
   * For compiled inputs, containment suffices: when every emitted entry lies
   * inside one subscription entry, the validator accepts.
   */
  lemma ContainedIsAccepted(ctx: seq<Interval>, range: seq<Interval>)
    requires Normalized(ctx) && Normalized(range)
    requires forall k :: 0 <= k < |range| ==>
      exists j :: 0 <= j < |ctx| && Contains(ctx[j], range[k].min) && Contains(ctx[j], range[k].max)
    ensures Accepts(ctx, range)
  {
    assert SortedByMin(range) by {
      forall j, k | 0 <= j < k < |range| ensures Le(range[j].min, range[k].min) {
        assert Lt(range[j].max, range[k].min);
      }
    }
    forall k | 0 <= k < |range| ensures CoveredBy(ctx, range[k]) {
      var j :| 0 <= j < |ctx| && Contains(ctx[j], range[k].min) && Contains(ctx[j], range[k].max);
      ContainedIsFirstReaching(ctx, range[k], j);
    }
    AcceptsCharacterized(ctx, range);
  }

  /**
   * The rejection test, read in terms of containment: an emitted entry is
   * let through exactly when each of its ends is inside the subscription
   * entry or is a sentinel (`*` lower end MIN_VALUE, `*` upper end
   * MAX_VALUE), or when it strictly encloses the subscription entry.
   */
  lemma RejectsExactly(left: Interval, right: Interval)
    ensures !Rejects(left, right) <==>
      ((Le(left.min, right.min) || right.min == Tiny) && (Le(right.max, left.max) || right.max == Huge)) ||
      (Lt(right.min, left.min) && Lt(left.max, right.max))
  {
  }
}
