/**
 * The registration and walk tests of test/range.test.js (`once`/`on` on
 * dotted events, then `emit`), worked through the model from the raw event
 * strings: `Subscribe` for each registration, then `Dispatch` for the
 * emission, with the tries in between written out. The tries hold only the
 * listeners under test: the tests' own `complete` and `test` listeners sit
 * at root keys that a literal emission never visits and that a `*.foo`
 * emission visits without firing anything, since they have no `foo` key.
 */
module WalkScenarios {
  import opened Wrappers
  import opened Strings
  import opened Patterns
  import opened Exceptions
  import opened Scope
  import opened Trie
  import opened Events

  // ------------------------------------------ registration steps

  /** The child `_createEventContext` descends into for `key`: the existing one, or a fresh `{}`. */
  function ChildOr(n: Node, key: string): Node {
    match Find(n.children, key) case Some(i) => n.children[i].1 case None => EmptyNode
  }

  /** One iteration of the `_createEventContext` loop. */
  lemma CreateStep(n: Node, path: seq<string>, rest: seq<string>)
    requires |path| >= 1 && path[1..] == rest
    ensures CreateEventContext(n, path) == Node(n.registered, SetChild(n.children, path[0], CreateEventContext(ChildOr(n, path[0]), rest)))
  {
  }

  /** Pushing a record at a path goes through the child at its first segment. */
  lemma PushStep(n: Node, i: nat, path: seq<string>, rest: seq<string>, rec: Record)
    requires |path| >= 1 && path[1..] == rest && Find(n.children, path[0]) == Some(i)
    ensures PushRecord(n, path, rec) == Node(n.registered, n.children[i := (path[0], PushRecord(n.children[i].1, rest, rec))])
  {
  }

  /** Registering `a.b` where no key `a` exists adds the key `a`, holding only `b`, after all the others. */
  lemma RegisterNewBranch(n: Node, a: string, b: string, rec: Record)
    requires Find(n.children, a).None?
    ensures Register(n, [a, b], rec) == Node(n.registered, n.children + [(a, Node(None, [(b, Node(Some([rec]), []))]))])
  {
    CreateStep(n, [a, b], [b]);
    CreateStep(EmptyNode, [b], []);
    assert SetChild([], b, EmptyNode) == [(b, EmptyNode)];
    var mid := Node(None, [(b, EmptyNode)]);
    var c := Node(n.registered, n.children + [(a, mid)]);
    assert CreateEventContext(n, [a, b]) == c;
    FindFirst(c.children, a, |n.children|);
    PushStep(c, |n.children|, [a, b], [b], rec);
    PushStep(mid, 0, [b], [], rec);
    assert mid.children[0 := (b, Node(Some([rec]), []))] == [(b, Node(Some([rec]), []))];
    assert c.children[|n.children| := (a, Node(None, [(b, Node(Some([rec]), []))]))] == n.children + [(a, Node(None, [(b, Node(Some([rec]), []))]))];
  }

  /** Registering `a.b` where `a` exists but has no key `b` adds `b` after `a`'s other keys. */
  lemma RegisterNewLeaf(n: Node, i: nat, a: string, b: string, rec: Record)
    requires Find(n.children, a) == Some(i) && Find(n.children[i].1.children, b).None?
    ensures Register(n, [a, b], rec) ==
      Node(n.registered, n.children[i := (a, Node(n.children[i].1.registered, n.children[i].1.children + [(b, Node(Some([rec]), []))]))])
  {
    var p := n.children[i].1;
    CreateStep(n, [a, b], [b]);
    CreateStep(p, [b], []);
    var p' := Node(p.registered, p.children + [(b, EmptyNode)]);
    assert CreateEventContext(p, [b]) == p';
    var c := Node(n.registered, n.children[i := (a, p')]);
    assert CreateEventContext(n, [a, b]) == c;
    FindFirst(c.children, a, i);
    FindFirst(p'.children, b, |p.children|);
    PushStep(c, i, [a, b], [b], rec);
    PushStep(p', |p.children|, [b], [], rec);
    assert p'.children[|p.children| := (b, Node(Some([rec]), []))] == p.children + [(b, Node(Some([rec]), []))];
  }

  /** Writing a child back unchanged leaves the keys as they were. */
  lemma SetChildSame(kids: seq<(string, Node)>, i: nat, key: string, node: Node)
    requires Find(kids, key) == Some(i) && kids[i].1 == node
    ensures SetChild(kids, key, node) == kids
  {
    assert kids[i := (key, node)] == kids;
  }

  // -------------------------------------- events without a scope

  /** What an omitted scope compiles to (`EmptyScopeCompiles`): the point `*`. */
  const Unscoped := [Interval(Tiny, Tiny)]

  /** A path segment contains neither `:` nor `.`. */
  lemma SegmentHasNoSeparator(seg: string)
    requires SegmentOk(seg)
    ensures ':' !in seg && '.' !in seg && |seg| >= 1
  {
    if seg != "*" {
      assert forall k :: 1 <= k < |seg| ==> IsWordChar(seg[k]);
    }
  }

  lemma {:induction false} JoinHasNoColon(segs: seq<string>)
    requires |segs| >= 1
    requires forall k :: 0 <= k < |segs| ==> SegmentOk(segs[k])
    ensures ':' !in Join(segs, '.') && |Join(segs, '.')| >= 1
  {
    SegmentHasNoSeparator(segs[0]);
    if |segs| > 1 {
      JoinHasNoColon(segs[1..]);
    }
  }

  /** The scope `*` that `eventData[1] || '*'` substitutes passes EVT_RANGE_PATTERN. */
  lemma StarScopeMatches()
    ensures RangeMatches("*")
  {
    NoSeparatorIsOnePiece("*", ',');
    ParseShowItem(Item(Star, None));
    assert ShowItem(Item(Star, None)) == "*";
  }

  /** An event built from segments has no `:`, hence no scope part. */
  lemma SplitPlain(segs: seq<string>)
    requires |segs| >= 1
    requires forall k :: 0 <= k < |segs| ==> SegmentOk(segs[k])
    ensures SplitEvent(Join(segs, '.')) == Target(Join(segs, '.'), None)
    ensures Join(segs, '.') != ""
  {
    JoinHasNoColon(segs);
    NoSeparatorIsOnePiece(Join(segs, '.'), ':');
  }

  lemma CheckPlain(segs: seq<string>)
    requires |segs| >= 1
    requires forall k :: 0 <= k < |segs| ==> SegmentOk(segs[k])
    ensures CheckTarget(Join(segs, '.')) == Ok(Target(Join(segs, '.'), None))
  {
    SplitPlain(segs);
    PathLanguage(segs);
    StarScopeMatches();
    assert ScopeText(None) == "*";
  }

  /** An event without a scope whose path is `segs` joined by dots. */
  lemma LocatePlain(segs: seq<string>)
    requires |segs| >= 1
    requires forall k :: 0 <= k < |segs| ==> SegmentOk(segs[k])
    ensures Locate(Str(Join(segs, '.'))) == Ok((segs, Unscoped))
  {
    SplitPlain(segs);
    CheckPlain(segs);
    PathLanguage(segs);
    EmptyScopeCompiles();
    assert None.GetOr("") == "";
  }

  /** Subscribing to an event without a scope registers, at its segments, a record with the point scope `*`. */
  lemma SubscribePlain(events: Node, segs: seq<string>, id: ListenerId, ttl: JsValue)
    requires |segs| >= 1
    requires forall k :: 0 <= k < |segs| ==> SegmentOk(segs[k])
    requires TtlOf(ttl).Some?
    ensures Subscribe(events, Str(Join(segs, '.')), Function(id), ttl) ==
      Ok(Register(events, segs, Record(Join(segs, '.'), Join(segs, '.'), Unscoped, id, TtlOf(ttl).value)))
  {
    SplitPlain(segs);
    CheckPlain(segs);
    PathLanguage(segs);
    EmptyScopeCompiles();
  }

  /** Emitting an event without a scope walks its segments with the point scope `*`. */
  lemma DispatchPlain(events: Node, segs: seq<string>)
    requires |segs| >= 1
    requires forall k :: 0 <= k < |segs| ==> SegmentOk(segs[k])
    ensures var w := Iterate(events, segs, 0, Unscoped);
      Dispatch(events, Str(Join(segs, '.'))) == Outcome(w.node, w.fired, if w.status.Threw? then Some(TypeError) else None)
  {
    LocatePlain(segs);
  }

  // -------------------------------------------------- walk steps

  /** At a literal segment whose child and `*` sibling both exist, the literal child fires first, then the `*` sibling. */
  lemma LiteralFired(n: Node, path: seq<string>, idx: nat, range: seq<Interval>, i: nat, s: nat)
    requires idx < |path| && path[idx] != "*"
    requires Find(n.children, path[idx]) == Some(i) && Find(n.children, "*") == Some(s)
    requires !Iterate(n.children[i].1, path, idx + 1, range).status.Threw?
    ensures Iterate(n, path, idx, range).fired ==
      Iterate(n.children[i].1, path, idx + 1, range).fired + Iterate(n.children[s].1, path, idx + 1, range).fired
  {
  }

  /** At an emitted `*` over two keys, the first key fires first, then the second. */
  lemma WildcardTwoFired(n: Node, path: seq<string>, idx: nat, range: seq<Interval>)
    requires idx < |path| && path[idx] == "*" && |n.children| == 2
    requires !Iterate(n.children[0].1, path, idx + 1, range).status.Threw?
    requires !Iterate(n.children[1].1, path, idx + 1, range).status.Threw?
    ensures Iterate(n, path, idx, range).fired ==
      Iterate(n.children[0].1, path, idx + 1, range).fired + Iterate(n.children[1].1, path, idx + 1, range).fired
    ensures !Iterate(n, path, idx, range).status.Threw?
  {
    var w := Iterate(n.children[0].1, path, idx + 1, range);
    var next := Settle(n.children, n.children[0].0, w);
    var w1 := Iterate(n.children[1].1, path, idx + 1, range);
    var next1 := Settle(next, n.children[1].0, w1);
    assert IterateKids(n, 2, next1, path, idx + 1, range).fired == [];
    assert !IterateKids(n, 2, next1, path, idx + 1, range).threw;
    var rest := IterateKids(n, 1, next, path, idx + 1, range);
    assert rest.fired == Iterate(n.children[1].1, path, idx + 1, range).fired + [];
  }

  /** A node holding one record and no keys. */
  function Leaf(rec: Record): Node {
    Node(Some([rec]), [])
  }

  /** A leaf holding one unlimited record that accepts the emission fires it and stays as it was. */
  lemma UnlimitedLeafWalk(rec: Record, path: seq<string>, idx: nat, range: seq<Interval>)
    requires |path| <= idx && rec.ttl.Unlimited? && Accepts(rec.range, range)
    ensures Iterate(Leaf(rec), path, idx, range) == Walk(Leaf(rec), [rec.listener], Done(false))
  {
    LeafResultOne(rec, range);
    assert rec.(ttl := Decrement(rec.ttl)) == rec;
  }

  // ------------------------------------ wildcards in event names

  /** The record `once(path, listener)` leaves: the raw event, its path, the point scope and a ttl of 1. */
  function Once(path: string, id: ListenerId): Record {
    Record(path, path, Unscoped, id, Count(1))
  }

  /** The node `foo` once `foo.bar` and `foo.*` are registered. */
  const FooNode := Node(None, [("bar", Leaf(Once("foo.bar", 1))), ("*", Leaf(Once("foo.*", 2)))])

  /** The node `*` once `*.bar` and `*.*` are registered. */
  const StarNode := Node(None, [("bar", Leaf(Once("*.bar", 3))), ("*", Leaf(Once("*.*", 4)))])

  /** The trie after the four `once` registrations of the wildcard test. */
  const FourOnce := Node(None, [("foo", FooNode), ("*", StarNode)])

  const OneOnce := Node(None, [("foo", Node(None, [("bar", Leaf(Once("foo.bar", 1)))]))])

  const TwoOnce := Node(None, [("foo", FooNode)])

  const ThreeOnce := Node(None, [("foo", FooNode), ("*", Node(None, [("bar", Leaf(Once("*.bar", 3)))]))])

  lemma OneOnceBuilt() ensures Register(EmptyNode, ["foo", "bar"], Once("foo.bar", 1)) == OneOnce {
    RegisterNewBranch(EmptyNode, "foo", "bar", Once("foo.bar", 1));
    assert [] + OneOnce.children == OneOnce.children;
  }

  lemma TwoOnceBuilt() ensures Register(OneOnce, ["foo", "*"], Once("foo.*", 2)) == TwoOnce {
    assert Find(OneOnce.children[0].1.children, "*").None?;
    RegisterNewLeaf(OneOnce, 0, "foo", "*", Once("foo.*", 2));
    assert OneOnce.children[0].1.children + [("*", Leaf(Once("foo.*", 2)))] == FooNode.children;
    assert OneOnce.children[0 := ("foo", FooNode)] == TwoOnce.children;
  }

  lemma ThreeOnceBuilt() ensures Register(TwoOnce, ["*", "bar"], Once("*.bar", 3)) == ThreeOnce {
    assert Find(TwoOnce.children, "*").None?;
    RegisterNewBranch(TwoOnce, "*", "bar", Once("*.bar", 3));
  }

  lemma FourOnceBuilt() ensures Register(ThreeOnce, ["*", "*"], Once("*.*", 4)) == FourOnce {
    assert Find(ThreeOnce.children, "*") == Some(1);
    assert Find(ThreeOnce.children[1].1.children, "*").None?;
    RegisterNewLeaf(ThreeOnce, 1, "*", "*", Once("*.*", 4));
    assert ThreeOnce.children[1].1.children + [("*", Leaf(Once("*.*", 4)))] == StarNode.children;
    assert ThreeOnce.children[1 := ("*", StarNode)] == FourOnce.children;
  }

  lemma FooBarSegments()
    ensures SegmentOk("foo") && SegmentOk("bar") && SegmentOk("*")
  {
  }

  lemma SubscribeFooBar() ensures Subscribe(EmptyNode, Str("foo.bar"), Function(1), Num(Int(1))) == Ok(OneOnce) {
    var segs := ["foo", "bar"];
    FooBarSegments();
    assert Join(segs, '.') == "foo.bar";
    SubscribePlain(EmptyNode, segs, 1, Num(Int(1)));
    OneOnceBuilt();
  }

  lemma SubscribeFooStar() ensures Subscribe(OneOnce, Str("foo.*"), Function(2), Num(Int(1))) == Ok(TwoOnce) {
    var segs := ["foo", "*"];
    FooBarSegments();
    assert Join(segs, '.') == "foo.*";
    SubscribePlain(OneOnce, segs, 2, Num(Int(1)));
    TwoOnceBuilt();
  }

  lemma SubscribeStarBar() ensures Subscribe(TwoOnce, Str("*.bar"), Function(3), Num(Int(1))) == Ok(ThreeOnce) {
    var segs := ["*", "bar"];
    FooBarSegments();
    assert Join(segs, '.') == "*.bar";
    SubscribePlain(TwoOnce, segs, 3, Num(Int(1)));
    ThreeOnceBuilt();
  }

  lemma SubscribeStarStar() ensures Subscribe(ThreeOnce, Str("*.*"), Function(4), Num(Int(1))) == Ok(FourOnce) {
    var segs := ["*", "*"];
    FooBarSegments();
    assert Join(segs, '.') == "*.*";
    SubscribePlain(ThreeOnce, segs, 4, Num(Int(1)));
    FourOnceBuilt();
  }

  lemma FooOnceFires()
    ensures Iterate(FooNode, ["foo", "bar"], 1, Unscoped).fired == [1, 2]
    ensures Iterate(FooNode, ["foo", "bar"], 1, Unscoped).status == Done(true)
  {
  }

  lemma StarOnceFires()
    ensures Iterate(StarNode, ["foo", "bar"], 1, Unscoped).fired == [3, 4]
    ensures Iterate(StarNode, ["foo", "bar"], 1, Unscoped).status == Done(true)
  {
  }

  lemma FourOnceFires()
    ensures Iterate(FourOnce, ["foo", "bar"], 0, Unscoped).fired == [1, 2, 3, 4]
    ensures Iterate(FourOnce, ["foo", "bar"], 0, Unscoped).status == Done(true)
    ensures NoKeys(Iterate(FourOnce, ["foo", "bar"], 0, Unscoped).node)
  {
    assert Find(FourOnce.children, "foo") == Some(0);
    assert Find(FourOnce.children, "*") == Some(1);
    FooOnceFires();
    StarOnceFires();
    LiteralFired(FourOnce, ["foo", "bar"], 0, Unscoped, 0, 1);
  }

  lemma JoinFooBar() ensures Join(["foo", "bar"], '.') == "foo.bar" {}

  lemma EmitFooBar()
    ensures Dispatch(FourOnce, Str("foo.bar")).fired == [1, 2, 3, 4]
    ensures Dispatch(FourOnce, Str("foo.bar")).error == None
    ensures NoKeys(Dispatch(FourOnce, Str("foo.bar")).events)
  {
    FooBarSegments();
    JoinFooBar();
    DispatchPlain(FourOnce, ["foo", "bar"]);
    FourOnceFires();
  }

  /**
   * "should handle wildcards in event name": `once` on `foo.bar`, `foo.*`,
   * `*.bar` and `*.*`, then `emit('foo.bar')`, fires the four listeners in
   * registration order; every record is spent, so the walk deletes every
   * key and the trie is left empty.
   */
  lemma WildcardEventNamesTest()
    ensures Subscribe(EmptyNode, Str("foo.bar"), Function(1), Num(Int(1))) == Ok(OneOnce)
    ensures Subscribe(OneOnce, Str("foo.*"), Function(2), Num(Int(1))) == Ok(TwoOnce)
    ensures Subscribe(TwoOnce, Str("*.bar"), Function(3), Num(Int(1))) == Ok(ThreeOnce)
    ensures Subscribe(ThreeOnce, Str("*.*"), Function(4), Num(Int(1))) == Ok(FourOnce)
    ensures Dispatch(FourOnce, Str("foo.bar")).fired == [1, 2, 3, 4]
    ensures Dispatch(FourOnce, Str("foo.bar")).error == None
    ensures NoKeys(Dispatch(FourOnce, Str("foo.bar")).events)
  {
    SubscribeFooBar();
    SubscribeFooStar();
    SubscribeStarBar();
    SubscribeStarStar();
    EmitFooBar();
  }

  // ---------------------------------------- emit with a wildcard

  /** The record `on(path, listener)` leaves: the ttl is `Number.MAX_VALUE`. */
  function On(path: string, id: ListenerId): Record {
    Record(path, path, Unscoped, id, Unlimited)
  }

  /** The node `event` after `event.foo`, `event.bar`, `event.buz`. */
  const EventNode := Node(None, [("foo", Leaf(On("event.foo", 1))), ("bar", Leaf(On("event.bar", 2))), ("buz", Leaf(On("event.buz", 3)))])

  /** The node `other` after `other.foo`, `other.bar`, `other.buz`. */
  const OtherNode := Node(None, [("foo", Leaf(On("other.foo", 4))), ("bar", Leaf(On("other.bar", 5))), ("buz", Leaf(On("other.buz", 6)))])

  /** The trie after the six `on` registrations of the emit-with-wildcard test. */
  const Six := Node(None, [("event", EventNode), ("other", OtherNode)])

  const Six1 := Node(None, [("event", Node(None, [("foo", Leaf(On("event.foo", 1)))]))])

  const Six2 := Node(None, [("event", Node(None, [("foo", Leaf(On("event.foo", 1))), ("bar", Leaf(On("event.bar", 2)))]))])

  const Six3 := Node(None, [("event", EventNode)])

  const Six4 := Node(None, [("event", EventNode), ("other", Node(None, [("foo", Leaf(On("other.foo", 4)))]))])

  const Six5 := Node(None, [("event", EventNode), ("other", Node(None, [("foo", Leaf(On("other.foo", 4))), ("bar", Leaf(On("other.bar", 5)))]))])

  lemma Six1Built() ensures Register(EmptyNode, ["event", "foo"], On("event.foo", 1)) == Six1 {
    RegisterNewBranch(EmptyNode, "event", "foo", On("event.foo", 1));
    assert [] + Six1.children == Six1.children;
  }

  lemma Six2Built() ensures Register(Six1, ["event", "bar"], On("event.bar", 2)) == Six2 {
    assert Find(Six1.children[0].1.children, "bar").None?;
    RegisterNewLeaf(Six1, 0, "event", "bar", On("event.bar", 2));
    assert Six1.children[0].1.children + [("bar", Leaf(On("event.bar", 2)))] == Six2.children[0].1.children;
    assert Six1.children[0 := ("event", Six2.children[0].1)] == Six2.children;
  }

  lemma Six3Built() ensures Register(Six2, ["event", "buz"], On("event.buz", 3)) == Six3 {
    assert Find(Six2.children[0].1.children, "buz").None?;
    RegisterNewLeaf(Six2, 0, "event", "buz", On("event.buz", 3));
    assert Six2.children[0].1.children + [("buz", Leaf(On("event.buz", 3)))] == EventNode.children;
    assert Six2.children[0 := ("event", EventNode)] == Six3.children;
  }

  lemma Six4Built() ensures Register(Six3, ["other", "foo"], On("other.foo", 4)) == Six4 {
    assert Find(Six3.children, "other").None?;
    RegisterNewBranch(Six3, "other", "foo", On("other.foo", 4));
  }

  lemma Six5Built() ensures Register(Six4, ["other", "bar"], On("other.bar", 5)) == Six5 {
    assert Find(Six4.children, "other") == Some(1);
    assert Find(Six4.children[1].1.children, "bar").None?;
    RegisterNewLeaf(Six4, 1, "other", "bar", On("other.bar", 5));
    assert Six4.children[1].1.children + [("bar", Leaf(On("other.bar", 5)))] == Six5.children[1].1.children;
    assert Six4.children[1 := ("other", Six5.children[1].1)] == Six5.children;
  }

  lemma Six6Built() ensures Register(Six5, ["other", "buz"], On("other.buz", 6)) == Six {
    assert Find(Six5.children, "other") == Some(1);
    assert Find(Six5.children[1].1.children, "buz").None?;
    RegisterNewLeaf(Six5, 1, "other", "buz", On("other.buz", 6));
    assert Six5.children[1].1.children + [("buz", Leaf(On("other.buz", 6)))] == OtherNode.children;
    assert Six5.children[1 := ("other", OtherNode)] == Six.children;
  }

  lemma EventSegments()
    ensures SegmentOk("event") && SegmentOk("other") && SegmentOk("foo") && SegmentOk("bar") && SegmentOk("buz") && SegmentOk("*")
  {
  }

  lemma SubscribeEventFoo() ensures Subscribe(EmptyNode, Str("event.foo"), Function(1), Num(MaxValue)) == Ok(Six1) {
    EventSegments();
    assert Join(["event", "foo"], '.') == "event.foo";
    SubscribePlain(EmptyNode, ["event", "foo"], 1, Num(MaxValue));
    Six1Built();
  }

  lemma SubscribeEventBar() ensures Subscribe(Six1, Str("event.bar"), Function(2), Num(MaxValue)) == Ok(Six2) {
    EventSegments();
    assert Join(["event", "bar"], '.') == "event.bar";
    SubscribePlain(Six1, ["event", "bar"], 2, Num(MaxValue));
    Six2Built();
  }

  lemma SubscribeEventBuz() ensures Subscribe(Six2, Str("event.buz"), Function(3), Num(MaxValue)) == Ok(Six3) {
    EventSegments();
    assert Join(["event", "buz"], '.') == "event.buz";
    SubscribePlain(Six2, ["event", "buz"], 3, Num(MaxValue));
    Six3Built();
  }

  lemma SubscribeOtherFoo() ensures Subscribe(Six3, Str("other.foo"), Function(4), Num(MaxValue)) == Ok(Six4) {
    EventSegments();
    assert Join(["other", "foo"], '.') == "other.foo";
    SubscribePlain(Six3, ["other", "foo"], 4, Num(MaxValue));
    Six4Built();
  }

  lemma SubscribeOtherBar() ensures Subscribe(Six4, Str("other.bar"), Function(5), Num(MaxValue)) == Ok(Six5) {
    EventSegments();
    assert Join(["other", "bar"], '.') == "other.bar";
    SubscribePlain(Six4, ["other", "bar"], 5, Num(MaxValue));
    Six5Built();
  }

  lemma SubscribeOtherBuz() ensures Subscribe(Six5, Str("other.buz"), Function(6), Num(MaxValue)) == Ok(Six) {
    EventSegments();
    assert Join(["other", "buz"], '.') == "other.buz";
    SubscribePlain(Six5, ["other", "buz"], 6, Num(MaxValue));
    Six6Built();
  }

  lemma EventStarFires()
    ensures Iterate(EventNode, ["event", "*"], 1, Unscoped).fired == [1, 2, 3]
    ensures Iterate(EventNode, ["event", "*"], 1, Unscoped).status == Done(false)
  {
    var path := ["event", "*"];
    assert Accepts(Unscoped, Unscoped);
    UnlimitedLeafWalk(On("event.foo", 1), path, 2, Unscoped);
    UnlimitedLeafWalk(On("event.bar", 2), path, 2, Unscoped);
    UnlimitedLeafWalk(On("event.buz", 3), path, 2, Unscoped);
  }

  lemma SixEventStarFires()
    ensures Iterate(Six, ["event", "*"], 0, Unscoped).fired == [1, 2, 3]
    ensures Iterate(Six, ["event", "*"], 0, Unscoped).status == Done(false)
  {
    EventStarFires();
  }

  lemma EventStarKeeps()
    ensures Iterate(EventNode, ["event", "*"], 1, Unscoped).node == EventNode
  {
    var path := ["event", "*"];
    var kids := EventNode.children;
    assert Accepts(Unscoped, Unscoped);
    UnlimitedLeafWalk(On("event.foo", 1), path, 2, Unscoped);
    UnlimitedLeafWalk(On("event.bar", 2), path, 2, Unscoped);
    UnlimitedLeafWalk(On("event.buz", 3), path, 2, Unscoped);
    assert Find(kids, "foo") == Some(0);
    assert Find(kids, "bar") == Some(1);
    assert Find(kids, "buz") == Some(2);
    SetChildSame(kids, 0, "foo", kids[0].1);
    SetChildSame(kids, 1, "bar", kids[1].1);
    SetChildSame(kids, 2, "buz", kids[2].1);
    assert IterateKids(EventNode, 3, kids, path, 2, Unscoped).kids == kids;
    assert IterateKids(EventNode, 2, kids, path, 2, Unscoped).kids == kids;
    assert IterateKids(EventNode, 1, kids, path, 2, Unscoped).kids == kids;
    assert IterateKids(EventNode, 0, kids, path, 2, Unscoped).kids == kids;
  }

  lemma SixEventStarKeeps()
    ensures Iterate(Six, ["event", "*"], 0, Unscoped).node == Six
  {
    EventStarFires();
    EventStarKeeps();
    assert Find(Six.children, "event") == Some(0);
    assert Find(Six.children, "*").None?;
    SetChildSame(Six.children, 0, "event", EventNode);
  }

  lemma EventFooFires()
    ensures Iterate(EventNode, ["*", "foo"], 1, Unscoped).fired == [1]
    ensures Iterate(EventNode, ["*", "foo"], 1, Unscoped).status == Done(false)
  {
  }

  lemma OtherFooFires()
    ensures Iterate(OtherNode, ["*", "foo"], 1, Unscoped).fired == [4]
    ensures Iterate(OtherNode, ["*", "foo"], 1, Unscoped).status == Done(false)
  {
  }

  lemma SixStarFooFires()
    ensures Iterate(Six, ["*", "foo"], 0, Unscoped).fired == [1, 4]
    ensures !Iterate(Six, ["*", "foo"], 0, Unscoped).status.Threw?
  {
    EventFooFires();
    OtherFooFires();
    WildcardTwoFired(Six, ["*", "foo"], 0, Unscoped);
  }

  lemma EmitEventStar()
    ensures Dispatch(Six, Str("event.*")) == Outcome(Six, [1, 2, 3], None)
  {
    EventSegments();
    assert Join(["event", "*"], '.') == "event.*";
    DispatchPlain(Six, ["event", "*"]);
    SixEventStarFires();
    SixEventStarKeeps();
  }

  lemma EmitStarFoo()
    ensures Dispatch(Six, Str("*.foo")).fired == [1, 4]
    ensures Dispatch(Six, Str("*.foo")).error == None
  {
    EventSegments();
    assert Join(["*", "foo"], '.') == "*.foo";
    DispatchPlain(Six, ["*", "foo"]);
    SixStarFooFires();
  }

  /**
   * "should emit with wildcard": `on` for `event.foo`, `event.bar`,
   * `event.buz`, `other.foo`, `other.bar`, `other.buz`; `emit('event.*')`
   * fires the three `event` listeners in registration order and leaves the
   * trie as it was, and `emit('*.foo')` then fires `event.foo` and
   * `other.foo`.
   */
  lemma EmitWithWildcardTest()
    ensures Subscribe(EmptyNode, Str("event.foo"), Function(1), Num(MaxValue)) == Ok(Six1)
    ensures Subscribe(Six1, Str("event.bar"), Function(2), Num(MaxValue)) == Ok(Six2)
    ensures Subscribe(Six2, Str("event.buz"), Function(3), Num(MaxValue)) == Ok(Six3)
    ensures Subscribe(Six3, Str("other.foo"), Function(4), Num(MaxValue)) == Ok(Six4)
    ensures Subscribe(Six4, Str("other.bar"), Function(5), Num(MaxValue)) == Ok(Six5)
    ensures Subscribe(Six5, Str("other.buz"), Function(6), Num(MaxValue)) == Ok(Six)
    ensures Dispatch(Six, Str("event.*")) == Outcome(Six, [1, 2, 3], None)
    ensures Dispatch(Six, Str("*.foo")).fired == [1, 4]
    ensures Dispatch(Six, Str("*.foo")).error == None
  {
    SubscribeEventFoo();
    SubscribeEventBar();
    SubscribeEventBuz();
    SubscribeOtherFoo();
    SubscribeOtherBar();
    SubscribeOtherBuz();
    EmitEventStar();
    EmitStarFoo();
  }

  // ------------------------------------- literal segments above a `*`

  /** A trie holding only an unlimited listener on `*.a`. */
  const StarA := Node(None, [("*", Node(None, [("a", Leaf(Record("*.a", "*.a", Unscoped, 1, Unlimited)))]))])

  /**
   * Emitting `z.a.*` there: the root has no `z` key, so its `*` key is never
   * consulted; the walk is safe, fires nothing, changes nothing and throws
   * nothing.
   */
  lemma EmitUnderMissingLiteral()
    ensures SafeToWalk(StarA, Str("z.a.*"))
    ensures Dispatch(StarA, Str("z.a.*")) == Outcome(StarA, [], None)
  {
    var segs := ["z", "a", "*"];
    assert SegmentOk("z") && SegmentOk("a") && SegmentOk("*");
    assert Join(segs, '.') == "z.a.*";
    LocatePlain(segs);
    DispatchPlain(StarA, segs);
    MissingLiteralSkipped(StarA, segs, 0, Unscoped);
  }

  /** `a.c.d` registered first, then `b`: the keys of the root are `a`, then `b`. */
  const ThrowFirst := Node(None, [
    ("a", Node(None, [("c", Node(None, [("d", Leaf(Record("a.c.d", "a.c.d", Unscoped, 1, Unlimited)))]))])),
    ("b", Leaf(Record("b", "b", Unscoped, 2, Unlimited)))])

  /** Under `a`, emitting `*.*` reaches `c`, which holds no list, and throws there. */
  lemma FirstKeyThrows()
    ensures WildcardSafe(ThrowFirst.children[0].1, ["*", "*"], 1, Unscoped)
    ensures Iterate(ThrowFirst.children[0].1, ["*", "*"], 1, Unscoped) == Walk(ThrowFirst.children[0].1, [], Threw)
  {
    var a := ThrowFirst.children[0].1;
    var c := a.children[0].1;
    assert Iterate(c, ["*", "*"], 2, Unscoped) == Walk(c, [], Threw);
    assert Settle(a.children, "c", Walk(c, [], Threw)) == a.children;
    assert KidsSafe(a, 0, ["*", "*"], 2, Unscoped);
  }

  /**
   * Emitting `*.*` there: the call for the first key throws at `c`, so the
   * loop stops before key `b`, whose `__registered` list an emitted `*`
   * would otherwise have been applied to; the walk is safe and throws the
   * TypeError with nothing fired.
   */
  lemma EmitStopsAtFirstThrow()
    ensures SafeToWalk(ThrowFirst, Str("*.*"))
    ensures Dispatch(ThrowFirst, Str("*.*")) == Outcome(ThrowFirst, [], Some(TypeError))
  {
    var segs := ["*", "*"];
    assert SegmentOk("*");
    assert Join(segs, '.') == "*.*";
    LocatePlain(segs);
    DispatchPlain(ThrowFirst, segs);
    FirstKeyThrows();
    var a := ThrowFirst.children[0].1;
    assert Settle(ThrowFirst.children, "a", Walk(a, [], Threw)) == ThrowFirst.children;
    assert KidsSafe(ThrowFirst, 0, segs, 1, Unscoped);
  }

  // ----------------------------------------------------- budgets

  /**
   * "should listen only once": a `once` record on `foo:1-10`, reached by two
   * emissions of `foo:3`, fires once.
   */
  lemma ListenOnceTest()
    ensures Repeat([Record("foo:1-10", "foo", [Interval(Fin(1), Fin(10))], 1, Count(1))], [Interval(Fin(3), Fin(3))], 2) == [1]
  {
    var rec := Record("foo:1-10", "foo", [Interval(Fin(1), Fin(10))], 1, Count(1));
    assert Accepts(rec.range, [Interval(Fin(3), Fin(3))]);
    RepeatBudget(rec, [Interval(Fin(3), Fin(3))], 2);
  }

  /**
   * "should listen a limited amount of times": a record on `foo` with a ttl
   * of 10, reached by 50 emissions of `foo`, fires 10 times.
   */
  lemma ListenTenTimesTest()
    ensures Repeat([Record("foo", "foo", Unscoped, 1, Count(10))], Unscoped, 50) == seq(10, _ => 1)
  {
    var rec := Record("foo", "foo", Unscoped, 1, Count(10));
    assert Accepts(Unscoped, Unscoped);
    RepeatBudget(rec, Unscoped, 50);
  }
}
