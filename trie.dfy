/**
 * The topic trie of lib/events.js: a plain object per node whose keys are
 * path segments (with `*` stored as an ordinary key) and whose
 * `__registered` key, when present, holds the subscription records placed
 * at exactly that path. A node is a value here; a key's entry in an object
 * is an entry of the insertion-ordered `children` sequence.
 */
module Trie {
  import opened Wrappers
  import opened Scope

  /**
   * A record's remaining budget. `Unlimited` stands for `Number.MAX_VALUE`
   * (and `Infinity`), which `--` leaves unchanged.
   */
  datatype Ttl = Unlimited | Count(n: int)

  /** `--key.ttl`. */
  function Decrement(t: Ttl): Ttl {
    match t
    case Unlimited => Unlimited
    case Count(n) => Count(n - 1)
  }

  /** `key.ttl <= 0`. */
  predicate Exhausted(t: Ttl) {
    t.Count? && t.n <= 0
  }

  /** A listener function, known only by its identity. */
  type ListenerId = nat

  /**
   * One entry of `__registered`. The validator closure is represented by the
   * compiled scope it closes over; calling it is `Accepts(range, emitted)`.
   */
  datatype Record = Record(rawEvent: string, eventPath: string, range: seq<Interval>, listener: ListenerId, ttl: Ttl)

  /** A trie node: the `__registered` list if the key exists, and the other keys in insertion order. */
  datatype Node = Node(registered: Option<seq<Record>>, children: seq<(string, Node)>)

  /** The `{}` of a freshly created node. */
  const EmptyNode := Node(None, [])

  /** `!Object.keys(ctx).length`: neither a `__registered` key nor any child key. */
  predicate NoKeys(n: Node) {
    n.registered.None? && n.children == []
  }

  /** The position of `key` among the keys, if it is one. */
  function Find(kids: seq<(string, Node)>, key: string): (r: Option<nat>)
    ensures r.Some? ==> r.value < |kids| && kids[r.value].0 == key
    ensures r.Some? ==> forall j :: 0 <= j < r.value ==> kids[j].0 != key
    ensures r.None? ==> forall j :: 0 <= j < |kids| ==> kids[j].0 != key
  {
    if kids == [] then None
    else if kids[0].0 == key then Some(0)
    else
      match Find(kids[1..], key)
      case None => None
      case Some(i) => Some(i + 1)
  }

  /** `ctx[key] = child`: overwrite the entry, or add the key at the end. */
  function SetChild(kids: seq<(string, Node)>, key: string, child: Node): seq<(string, Node)> {
    match Find(kids, key)
    case Some(i) => kids[i := (key, child)]
    case None => kids + [(key, child)]
  }

  /** `delete ctx[key]`. */
  function RemoveChild(kids: seq<(string, Node)>, key: string): seq<(string, Node)> {
    match Find(kids, key)
    case Some(i) => kids[..i] + kids[i + 1..]
    case None => kids
  }

  /** Keys are never repeated, at any depth: the shape every JavaScript object has. */
  ghost predicate UniqueKeys(n: Node) {
    (forall i, j :: 0 <= i < j < |n.children| ==> n.children[i].0 != n.children[j].0) &&
    forall i :: 0 <= i < |n.children| ==> UniqueKeys(n.children[i].1)
  }

  /** The node reached from `n` by following `path` key by key. */
  function Lookup(n: Node, path: seq<string>): Option<Node>
    decreases |path|
  {
    if path == [] then Some(n)
    else
      match Find(n.children, path[0])
      case None => None
      case Some(i) => Lookup(n.children[i].1, path[1..])
  }

  /** The registrations of the node at `path`: `None` when there is no such node or it has no list. */
  function RegisteredAt(n: Node, path: seq<string>): Option<seq<Record>> {
    match Lookup(n, path)
    case None => None
    case Some(m) => m.registered
  }

  /**
   * `_createEventContext`: follow `path` from the root, creating `{}` for
   * every missing key.
   */
  function CreateEventContext(n: Node, path: seq<string>): Node
    decreases |path|
  {
    if path == [] then n
    else
      var child := match Find(n.children, path[0]) case Some(i) => n.children[i].1 case None => EmptyNode;
      Node(n.registered, SetChild(n.children, path[0], CreateEventContext(child, path[1..])))
  }

  /**
   * Lines 124-132 of `addListener` on the node `_createEventContext` returned:
   * `__registered` is created if missing and the record pushed at its end.
   */
  function PushRecord(n: Node, path: seq<string>, rec: Record): Node
    decreases |path|
  {
    if path == [] then Node(Some(if n.registered.Some? then n.registered.value + [rec] else [rec]), n.children)
    else
      match Find(n.children, path[0])
      case None => n
      case Some(i) => Node(n.registered, n.children[i := (path[0], PushRecord(n.children[i].1, path[1..], rec))])
  }

  /** The whole registration step of `addListener` for a path already checked. */
  function Register(n: Node, path: seq<string>, rec: Record): Node {
    PushRecord(CreateEventContext(n, path), path, rec)
  }

  // ---------------------------------------------------------------- lookups

  lemma FindSetChild(kids: seq<(string, Node)>, key: string, child: Node, other: string)
    ensures key == other ==>
      Find(SetChild(kids, key, child), other).Some? &&
      SetChild(kids, key, child)[Find(SetChild(kids, key, child), other).value].1 == child
    ensures key != other ==>
      match Find(kids, other)
      case None => Find(SetChild(kids, key, child), other).None?
      case Some(i) =>
        Find(SetChild(kids, key, child), other) == Some(i) && SetChild(kids, key, child)[i] == kids[i]
  {
    var s := SetChild(kids, key, child);
    if key == other {
      match Find(kids, key)
      case Some(i) =>
        FindFirst(s, key, i);
      case None =>
        FindFirst(s, key, |kids|);
    } else {
      match Find(kids, other)
      case None =>
        assert forall j :: 0 <= j < |s| ==> s[j].0 != other;
      case Some(i) =>
        assert s[i] == kids[i];
        assert forall j :: 0 <= j < i ==> s[j].0 != other;
        FindFirst(s, other, i);
    }
  }

  /** `Find` returns the first position holding the key. */
  lemma {:induction false} FindFirst(kids: seq<(string, Node)>, key: string, i: nat)
    requires i < |kids| && kids[i].0 == key
    requires forall j :: 0 <= j < i ==> kids[j].0 != key
    ensures Find(kids, key) == Some(i)
  {
    if i > 0 {
      assert kids[0].0 != key;
      assert kids[1..][i - 1] == kids[i];
      FindFirst(kids[1..], key, i - 1);
    }
  }

  /**
   * `_createEventContext` makes the node at `path` exist, and the nodes
   * that exist afterwards are exactly those that existed before and the
   * prefixes of `path`.
   */
  lemma {:induction false} CreateEventContextNodes(n: Node, path: seq<string>, q: seq<string>)
    ensures Lookup(CreateEventContext(n, path), q).Some? <==>
      Lookup(n, q).Some? || (|q| <= |path| && q == path[..|q|])
    decreases |path|
  {
    if path != [] && q != [] {
      var child := match Find(n.children, path[0]) case Some(i) => n.children[i].1 case None => EmptyNode;
      var sub := CreateEventContext(child, path[1..]);
      FindSetChild(n.children, path[0], sub, q[0]);
      CreateEventContextNodes(child, path[1..], q[1..]);
      if q[0] == path[0] {
        if Find(n.children, path[0]).None? {
          EmptyLookup(q[1..]);
        }
        assert (|q| <= |path| && q == path[..|q|]) <==> (|q[1..]| <= |path[1..]| && q[1..] == path[1..][..|q[1..]|]);
      }
    }
  }

  /** Only the root path exists in a fresh node. */
  lemma EmptyLookup(q: seq<string>)
    ensures Lookup(EmptyNode, q).Some? <==> q == []
  {
  }

  /**
   * `_createEventContext` leaves every registration list where it was:
   * nodes it finds keep theirs, and nodes it creates have none.
   */
  lemma {:induction false} CreateEventContextKeepsRecords(n: Node, path: seq<string>, q: seq<string>)
    ensures RegisteredAt(CreateEventContext(n, path), q) == RegisteredAt(n, q)
    decreases |path|
  {
    if path != [] && q != [] {
      var child := match Find(n.children, path[0]) case Some(i) => n.children[i].1 case None => EmptyNode;
      var sub := CreateEventContext(child, path[1..]);
      FindSetChild(n.children, path[0], sub, q[0]);
      CreateEventContextKeepsRecords(child, path[1..], q[1..]);
      if q[0] == path[0] && Find(n.children, path[0]).None? {
        EmptyRegisteredAt(q[1..]);
      }
    }
  }

  lemma EmptyRegisteredAt(q: seq<string>)
    ensures RegisteredAt(EmptyNode, q).None?
  {
  }

  /** When the node already exists, `_createEventContext` changes nothing. */
  lemma {:induction false} CreateEventContextExisting(n: Node, path: seq<string>)
    requires Lookup(n, path).Some?
    ensures CreateEventContext(n, path) == n
    decreases |path|
  {
    if path != [] {
      var i := Find(n.children, path[0]).value;
      CreateEventContextExisting(n.children[i].1, path[1..]);
      assert n.children[i := (path[0], n.children[i].1)] == n.children;
    }
  }

  /**
   * `addListener` appends exactly one record, at the end of the list at
   * `path` (starting a list if there was none).
   */
  lemma {:induction false} RegisterAppends(n: Node, path: seq<string>, rec: Record)
    ensures RegisteredAt(Register(n, path, rec), path) == Some(RegisteredAt(n, path).GetOr([]) + [rec])
  {
    CreateEventContextNodes(n, path, path);
    CreateEventContextKeepsRecords(n, path, path);
    PushRecordHere(CreateEventContext(n, path), path, rec);
  }

  lemma {:induction false} PushRecordHere(n: Node, path: seq<string>, rec: Record)
    requires Lookup(n, path).Some?
    ensures RegisteredAt(PushRecord(n, path, rec), path) == Some(RegisteredAt(n, path).GetOr([]) + [rec])
    decreases |path|
  {
    if path != [] {
      var i := Find(n.children, path[0]).value;
      var kids := n.children[i := (path[0], PushRecord(n.children[i].1, path[1..], rec))];
      FindFirst(kids, path[0], i);
      PushRecordHere(n.children[i].1, path[1..], rec);
    } else {
      assert [] + [rec] == [rec];
    }
  }

  /** `addListener` touches no other path's list, and creates or removes no node beyond `_createEventContext`'s. */
  lemma {:induction false} RegisterKeepsOthers(n: Node, path: seq<string>, rec: Record, q: seq<string>)
    requires q != path
    ensures RegisteredAt(Register(n, path, rec), q) == RegisteredAt(n, q)
  {
    CreateEventContextKeepsRecords(n, path, q);
    PushRecordElsewhere(CreateEventContext(n, path), path, rec, q);
  }

  lemma {:induction false} PushRecordElsewhere(n: Node, path: seq<string>, rec: Record, q: seq<string>)
    requires q != path
    ensures RegisteredAt(PushRecord(n, path, rec), q) == RegisteredAt(n, q)
    decreases |path|
  {
    if path != [] && q != [] {
      match Find(n.children, path[0])
      case None =>
      case Some(i) =>
        var sub := PushRecord(n.children[i].1, path[1..], rec);
        var kids := n.children[i := (path[0], sub)];
        if q[0] == path[0] {
          FindFirst(kids, path[0], i);
          PushRecordElsewhere(n.children[i].1, path[1..], rec, q[1..]);
        } else {
          match Find(n.children, q[0])
          case None =>
            assert forall j :: 0 <= j < |kids| ==> kids[j].0 != q[0];
          case Some(k) =>
            assert forall j :: 0 <= j < k ==> kids[j].0 != q[0];
            FindFirst(kids, q[0], k);
        }
    }
  }

  // ------------------------------------------------------------- leaf visit

  /**
   * The leaf loop of `contextIterator` (lines 324-334) over the records in
   * order: the `__registered` list it leaves and the listeners it hands to
   * the callback.
   */
  function LeafResult(recs: seq<Record>, range: seq<Interval>): (seq<Record>, seq<ListenerId>)
    decreases |recs|
  {
    if recs == [] then ([], [])
    else
      var before := LeafResult(recs[..|recs| - 1], range);
      var fate := RecordFate(recs[|recs| - 1], range);
      (before.0 + fate.0, before.1 + fate.1)
  }

  /**
   * What one record becomes in one visit: kept as is when the validator
   * rejects the emission; otherwise its listener fires and it is kept with
   * one less budget, or removed when that budget is exhausted.
   */
  function RecordFate(rec: Record, range: seq<Interval>): (seq<Record>, seq<ListenerId>) {
    if Accepts(rec.range, range) then
      var rec' := rec.(ttl := Decrement(rec.ttl));
      (if Exhausted(rec'.ttl) then [] else [rec'], [rec.listener])
    else
      ([rec], [])
  }

  /**
   * Records are handled independently and in order: visiting `a + b` is
   * visiting `a`, then `b`, each record by its own fate.
   */
  lemma {:induction false} LeafResultAppend(a: seq<Record>, b: seq<Record>, range: seq<Interval>)
    ensures LeafResult(a + b, range) ==
      (LeafResult(a, range).0 + LeafResult(b, range).0, LeafResult(a, range).1 + LeafResult(b, range).1)
    decreases |b|
  {
    if b == [] {
      assert a + b == a;
      var ra := LeafResult(a, range);
      assert LeafResult(b, range) == ([], []);
      assert ra.0 + [] == ra.0 && ra.1 + [] == ra.1;
    } else {
      var b' := b[..|b| - 1];
      var ab := a + b;
      assert ab[..|ab| - 1] == a + b';
      assert ab[|ab| - 1] == b[|b| - 1];
      LeafResultAppend(a, b', range);
      var ra, rb', f := LeafResult(a, range), LeafResult(b', range), RecordFate(b[|b| - 1], range);
      assert LeafResult(ab, range) == ((ra.0 + rb'.0) + f.0, (ra.1 + rb'.1) + f.1);
      assert LeafResult(b, range) == (rb'.0 + f.0, rb'.1 + f.1);
      assert (ra.0 + rb'.0) + f.0 == ra.0 + (rb'.0 + f.0);
      assert (ra.1 + rb'.1) + f.1 == ra.1 + (rb'.1 + f.1);
    }
  }

  /** One more record at the end adds that record's fate at the end. */
  lemma LeafResultStep(recs: seq<Record>, k: nat, range: seq<Interval>)
    requires k < |recs|
    ensures LeafResult(recs[..k + 1], range) ==
      (LeafResult(recs[..k], range).0 + RecordFate(recs[k], range).0,
       LeafResult(recs[..k], range).1 + RecordFate(recs[k], range).1)
  {
    assert recs[..k + 1][..k] == recs[..k];
  }

  /** A single record's visit is its fate. */
  lemma LeafResultOne(rec: Record, range: seq<Interval>)
    ensures LeafResult([rec], range) == RecordFate(rec, range)
  {
    assert [rec][..0] == [];
    var f := RecordFate(rec, range);
    assert [] + f.0 == f.0 && [] + f.1 == f.1;
  }

  /** A record the validator rejects is left exactly as it was and fires nothing. */
  lemma RejectedUntouched(rec: Record, range: seq<Interval>)
    requires !Accepts(rec.range, range)
    ensures LeafResult([rec], range) == ([rec], [])
  {
    LeafResultOne(rec, range);
  }

  /** `k` emissions in a row reaching a leaf that holds `recs`: what they fire in total. */
  function Repeat(recs: seq<Record>, range: seq<Interval>, k: nat): seq<ListenerId>
    decreases k
  {
    if k == 0 then []
    else LeafResult(recs, range).1 + Repeat(LeafResult(recs, range).0, range, k - 1)
  }

  /** How many of `k` emissions a record with budget `t` answers: a budget of 0 or less still answers once. */
  function Budget(t: Ttl, k: nat): nat {
    match t
    case Unlimited => k
    case Count(n) => if n <= 1 then (if k == 0 then 0 else 1) else if n <= k then n else k
  }

  /**
   * The invocation budget: a record the validator accepts fires on the first
   * `Budget(ttl, k)` of `k` emissions and never again, `once` exactly once,
   * `Unlimited` every time.
   */
  lemma {:induction false} RepeatBudget(rec: Record, range: seq<Interval>, k: nat)
    requires Accepts(rec.range, range)
    ensures Repeat([rec], range, k) == seq(Budget(rec.ttl, k), _ => rec.listener)
    decreases k
  {
    if k > 0 {
      LeafResultOne(rec, range);
      var rec' := rec.(ttl := Decrement(rec.ttl));
      if Exhausted(rec'.ttl) {
        assert Repeat([], range, k - 1) == [] by { RepeatEmpty(range, k - 1); }
      } else {
        RepeatBudget(rec', range, k - 1);
      }
    }
  }

  lemma {:induction false} RepeatEmpty(range: seq<Interval>, k: nat)
    ensures Repeat([], range, k) == []
  {
    if k > 0 {
      RepeatEmpty(range, k - 1);
    }
  }

  /**
   * The loop's step on the first unvisited record `rest[0]`, with `done`
   * the records kept so far: each branch leaves the kept records followed
   * by the unvisited ones, and fires that record's listener when accepted.
   */
  lemma VisitFirst(done: seq<Record>, rest: seq<Record>, range: seq<Interval>)
    requires rest != []
    ensures var rec, f := rest[0], RecordFate(rest[0], range);
      var rec' := rec.(ttl := Decrement(rec.ttl));
      var kept := done + rest;
      (Accepts(rec.range, range) ==> f.1 == [rec.listener]) &&
      (!Accepts(rec.range, range) ==> f.1 == [] && kept == (done + f.0) + rest[1..]) &&
      (Accepts(rec.range, range) && Exhausted(rec'.ttl) ==>
        kept[..|done|] + kept[|done| + 1..] == (done + f.0) + rest[1..] && |done + f.0| == |done|) &&
      (Accepts(rec.range, range) && !Exhausted(rec'.ttl) ==>
        kept[|done| := rec'] == (done + f.0) + rest[1..] && |done + f.0| == |done| + 1)
  {
    var kept := done + rest;
    assert kept[..|done|] == done;
    assert kept[|done| + 1..] == rest[1..];
    assert rest == [rest[0]] + rest[1..];
  }

  /**
   * The leaf loop as written: records visited in order, `--key.ttl` on each
   * accepted one, `splice(i--, 1); --ilen` when it is exhausted, and the
   * listener handed to the callback (collected here in `fired`).
   */
  method LeafVisit(registered: seq<Record>, range: seq<Interval>) returns (kept: seq<Record>, fired: seq<ListenerId>)
    ensures kept == LeafResult(registered, range).0
    ensures fired == LeafResult(registered, range).1
  {
    kept := registered;
    fired := [];
    var i: int := 0;
    var ilen := |kept|;
    ghost var k := 0;
    ghost var res: (seq<Record>, seq<ListenerId>) := ([], []);
    while i < ilen
      invariant 0 <= k <= |registered|
      invariant res == LeafResult(registered[..k], range)
      invariant ilen == |kept|
      invariant kept == res.0 + registered[k..]
      invariant i == |res.0|
      invariant fired == res.1
      decreases |registered| - k
    {
      LeafResultStep(registered, k, range);
      ghost var rest := registered[k..];
      assert rest[0] == registered[k] && rest[1..] == registered[k + 1..];
      VisitFirst(res.0, rest, range);
      ghost var fate := RecordFate(registered[k], range);
      var key := kept[i];
      var ok := RangeValidate(key.range, range);
      if ok {
        key := key.(ttl := Decrement(key.ttl));
        var listener := key.listener;
        if Exhausted(key.ttl) {
          kept := kept[..i] + kept[i + 1..];
          i := i - 1;
          ilen := ilen - 1;
        } else {
          kept := kept[i := key];
        }
        fired := fired + [listener];
      }
      res := (res.0 + fate.0, res.1 + fate.1);
      i := i + 1;
      k := k + 1;
    }
    assert registered[k..] == [];
    assert registered[..k] == registered;
    assert kept == res.0 + [];
  }

  // ------------------------------------------------------------------- walk

  /** How one call of `contextIterator` ended: its boolean result, or the TypeError of line 324. */
  datatype Status = Done(empty: bool) | Threw

  /** The node as the call left it, the listeners handed to the callback, and how it ended. */
  datatype Walk = Walk(node: Node, fired: seq<ListenerId>, status: Status)

  /** The wildcard loop's progress over a key snapshot: the keys left, the listeners fired, and whether a call threw. */
  datatype KidsWalk = KidsWalk(kids: seq<(string, Node)>, fired: seq<ListenerId>, threw: bool)

  /**
   * `contextIterator(ctx, path, pathIndex, range, callback)`: past the last
   * segment, the leaf loop; at an emitted `*`, every key in insertion order;
   * at a literal segment, the literal child and then, only when the literal
   * child exists, the `*` child. A child whose call returns true is deleted.
   */
  function Iterate(n: Node, path: seq<string>, idx: nat, range: seq<Interval>): Walk
    decreases n, 1
  {
    if |path| <= idx then
      match n.registered
      case None => Walk(n, [], Threw)
      case Some(recs) =>
        var (kept, fired) := LeafResult(recs, range);
        Walk(Node(Some(kept), n.children), fired, Done(kept == []))
    else if path[idx] == "*" then
      var o := IterateKids(n, 0, n.children, path, idx + 1, range);
      var n' := Node(n.registered, o.kids);
      Walk(n', o.fired, if o.threw then Threw else Done(NoKeys(n')))
    else
      var key := path[idx];
      match Find(n.children, key)
      case None => Walk(n, [], Done(NoKeys(n)))
      case Some(i) =>
        var w := Iterate(n.children[i].1, path, idx + 1, range);
        var n1 := Node(n.registered, Settle(n.children, key, w));
        if w.status.Threw? then Walk(n1, w.fired, Threw)
        else
          match Find(n.children, "*")
          case None => Walk(n1, w.fired, Done(NoKeys(n1)))
          case Some(s) =>
            var v := Iterate(n.children[s].1, path, idx + 1, range);
            var n2 := Node(n.registered, Settle(n1.children, "*", v));
            Walk(n2, w.fired + v.fired, if v.status.Threw? then Threw else Done(NoKeys(n2)))
  }

  /** After a child's call: `delete ctx[key]` when it returned true, otherwise the child as the call left it. */
  function Settle(kids: seq<(string, Node)>, key: string, w: Walk): seq<(string, Node)> {
    if w.status == Done(true) then RemoveChild(kids, key) else SetChild(kids, key, w.node)
  }

  /**
   * The wildcard loop (lines 339-347) from key number `j` of the snapshot
   * `Object.keys(parent)`, with `current` the keys as the loop has left them
   * so far. The child visited for a key is the snapshot's: no earlier
   * iteration touches another key's child.
   */
  function IterateKids(parent: Node, j: nat, current: seq<(string, Node)>, path: seq<string>, idx: nat, range: seq<Interval>): KidsWalk
    requires j <= |parent.children|
    decreases parent, 0, |parent.children| - j
  {
    if j == |parent.children| then KidsWalk(current, [], false)
    else
      var (key, child) := parent.children[j];
      var w := Iterate(child, path, idx, range);
      var next := Settle(current, key, w);
      if w.status.Threw? then KidsWalk(next, w.fired, true)
      else
        var rest := IterateKids(parent, j + 1, next, path, idx, range);
        KidsWalk(rest.kids, w.fired + rest.fired, rest.threw)
  }

  /**
   * `contextIterator` as written: the leaf loop, or the wildcard loop over a
   * snapshot of the keys, or the literal child followed by the `*` child,
   * deleting every child whose call returned true.
   */
  method ContextIterator(ctx: Node, path: seq<string>, pathIndex: nat, range: seq<Interval>) returns (w: Walk)
    ensures w == Iterate(ctx, path, pathIndex, range)
    decreases ctx, 1
  {
    if |path| - 1 < pathIndex {
      if ctx.registered.None? {
        // `ctx.__registered.length` on a node without a list
        return Walk(ctx, [], Threw);
      }
      var kept, fired := LeafVisit(ctx.registered.value, range);
      return Walk(Node(Some(kept), ctx.children), fired, Done(|kept| == 0));
    } else if path[pathIndex] == "*" {
      w := WildcardKeys(ctx, path, pathIndex, range);
    } else {
      var key := path[pathIndex];
      var found := Find(ctx.children, key);
      if found.None? {
        return Walk(ctx, [], Done(NoKeys(ctx)));
      }
      var r := ContextIterator(ctx.children[found.value].1, path, pathIndex + 1, range);
      var children := Settle(ctx.children, key, r);
      if r.status.Threw? {
        return Walk(Node(ctx.registered, children), r.fired, Threw);
      }
      var fired := r.fired;
      // `ctx['*']`: the literal step above touched no other key
      var star := Find(ctx.children, "*");
      if star.Some? {
        var v := ContextIterator(ctx.children[star.value].1, path, pathIndex + 1, range);
        children := Settle(children, "*", v);
        fired := fired + v.fired;
        if v.status.Threw? {
          return Walk(Node(ctx.registered, children), fired, Threw);
        }
      }
      var n' := Node(ctx.registered, children);
      return Walk(n', fired, Done(NoKeys(n')));
    }
  }

  /** `Iterate` at an emitted `*`: the wildcard loop over all keys, then the emptiness test. */
  lemma IterateAtWildcard(n: Node, path: seq<string>, idx: nat, range: seq<Interval>)
    requires idx < |path| && path[idx] == "*"
    ensures Iterate(n, path, idx, range) ==
      var o := IterateKids(n, 0, n.children, path, idx + 1, range);
      var n' := Node(n.registered, o.kids);
      Walk(n', o.fired, if o.threw then Threw else Done(NoKeys(n')))
  {
  }

  /**
   * One iteration of the wildcard loop: when the loop has fired `fired` and
   * the rest from key `j` on is still to come, visiting key `j` either
   * throws, ending the loop, or moves its listeners into `fired`.
   */
  lemma KidsAdvance(parent: Node, j: nat, current: seq<(string, Node)>, fired: seq<ListenerId>,
                    path: seq<string>, idx: nat, range: seq<Interval>, total: KidsWalk)
    requires j < |parent.children|
    requires total ==
      var rest := IterateKids(parent, j, current, path, idx, range);
      KidsWalk(rest.kids, fired + rest.fired, rest.threw)
    ensures var w := Iterate(parent.children[j].1, path, idx, range);
      var next := Settle(current, parent.children[j].0, w);
      (w.status.Threw? ==> total == KidsWalk(next, fired + w.fired, true)) &&
      (!w.status.Threw? ==>
         var rest := IterateKids(parent, j + 1, next, path, idx, range);
         total == KidsWalk(rest.kids, (fired + w.fired) + rest.fired, rest.threw))
  {
    var w := Iterate(parent.children[j].1, path, idx, range);
    var next := Settle(current, parent.children[j].0, w);
    var rest := IterateKids(parent, j + 1, next, path, idx, range);
    assert (fired + w.fired) + rest.fired == fired + (w.fired + rest.fired);
  }

  /**
   * The wildcard branch of `contextIterator` (lines 339-347): every key of
   * the snapshot `Object.keys(ctx)` in order, deleting the children whose
   * call returned true, and stopping at a call that throws.
   */
  method WildcardKeys(ctx: Node, path: seq<string>, pathIndex: nat, range: seq<Interval>) returns (w: Walk)
    requires pathIndex < |path| && path[pathIndex] == "*"
    ensures w == Iterate(ctx, path, pathIndex, range)
    decreases ctx, 0
  {
    IterateAtWildcard(ctx, path, pathIndex, range);
    ghost var total := IterateKids(ctx, 0, ctx.children, path, pathIndex + 1, range);
    var keys := ctx.children;
    var children := ctx.children;
    var fired: seq<ListenerId> := [];
    var i := 0;
    assert [] + total.fired == total.fired;
    while i < |keys|
      invariant 0 <= i <= |keys|
      invariant total ==
        var rest := IterateKids(ctx, i, children, path, pathIndex + 1, range);
        KidsWalk(rest.kids, fired + rest.fired, rest.threw)
    {
      var (key, child) := keys[i];
      var r := ContextIterator(child, path, pathIndex + 1, range);
      KidsAdvance(ctx, i, children, fired, path, pathIndex + 1, range, total);
      children := Settle(children, key, r);
      if r.status.Threw? {
        return Walk(Node(ctx.registered, children), fired + r.fired, Threw);
      }
      fired := fired + r.fired;
      i := i + 1;
    }
    assert fired + [] == fired;
    var n' := Node(ctx.registered, children);
    return Walk(n', fired, Done(NoKeys(n')));
  }

  // ------------------------------------------------------- walk properties

  /**
   * Emitting a path whose node exists but holds no `__registered` list, with
   * no `*` on the way, ends in the TypeError of line 324: the literal child
   * is always visited first and the error stops the walk.
   */
  lemma {:induction false} EmitWithoutListThrows(n: Node, path: seq<string>, idx: nat, range: seq<Interval>)
    requires idx <= |path|
    requires forall k :: idx <= k < |path| ==> path[k] != "*"
    requires Lookup(n, path[idx..]).Some? && RegisteredAt(n, path[idx..]).None?
    ensures Iterate(n, path, idx, range).status == Threw
    decreases |path| - idx
  {
    if idx < |path| {
      assert path[idx..][0] == path[idx] && path[idx..][1..] == path[idx + 1..];
      var i := Find(n.children, path[idx]).value;
      EmitWithoutListThrows(n.children[i].1, path, idx + 1, range);
    }
  }

  /**
   * Subscribing below a path that has no list of its own, and then emitting
   * that path, throws: `on('a.b')` followed by `emit('a')`.
   */
  lemma EmitAboveSubscriptionThrows(n: Node, p: seq<string>, q: seq<string>, rec: Record, range: seq<Interval>)
    requires q != []
    requires forall k :: 0 <= k < |p| ==> p[k] != "*"
    requires RegisteredAt(n, p).None?
    ensures Iterate(Register(n, p + q, rec), p, 0, range).status == Threw
  {
    var m := Register(n, p + q, rec);
    assert (p + q)[..|p|] == p;
    CreateEventContextNodes(n, p + q, p);
    PushRecordKeepsNodes(CreateEventContext(n, p + q), p + q, rec, p);
    assert p != p + q by { assert |p + q| > |p|; }
    RegisterKeepsOthers(n, p + q, rec, p);
    assert p[0..] == p;
    EmitWithoutListThrows(m, p, 0, range);
  }

  /** Pushing a record neither creates nor removes a node. */
  lemma {:induction false} PushRecordKeepsNodes(n: Node, path: seq<string>, rec: Record, q: seq<string>)
    ensures Lookup(PushRecord(n, path, rec), q).Some? == Lookup(n, q).Some?
    decreases |path|
  {
    if path != [] && q != [] {
      match Find(n.children, path[0])
      case None =>
      case Some(i) =>
        var kids := n.children[i := (path[0], PushRecord(n.children[i].1, path[1..], rec))];
        if q[0] == path[0] {
          FindFirst(kids, path[0], i);
          PushRecordKeepsNodes(n.children[i].1, path[1..], rec, q[1..]);
        } else {
          match Find(n.children, q[0])
          case None =>
            assert forall j :: 0 <= j < |kids| ==> kids[j].0 != q[0];
          case Some(k) =>
            assert forall j :: 0 <= j < k ==> kids[j].0 != q[0];
            FindFirst(kids, q[0], k);
        }
    }
  }

  /** No `*` key anywhere along `path` below `n`. */
  predicate NoStarAlong(n: Node, path: seq<string>)
    decreases |path|
  {
    path != [] ==>
      Find(n.children, "*").None? &&
      match Find(n.children, path[0])
      case None => true
      case Some(i) => NoStarAlong(n.children[i].1, path[1..])
  }

  /**
   * Literal dispatch: with no `*` in the emitted path and no `*` key along
   * it, an emission fires exactly what the leaf loop at that path fires, in
   * registration order.
   */
  lemma {:induction false} LiteralEmitFiresLeaf(n: Node, path: seq<string>, idx: nat, range: seq<Interval>)
    requires idx <= |path|
    requires forall k :: idx <= k < |path| ==> path[k] != "*"
    requires NoStarAlong(n, path[idx..])
    requires RegisteredAt(n, path[idx..]).Some?
    ensures Iterate(n, path, idx, range).fired == LeafResult(RegisteredAt(n, path[idx..]).value, range).1
    decreases |path| - idx
  {
    if idx < |path| {
      assert path[idx..][0] == path[idx] && path[idx..][1..] == path[idx + 1..];
      var i := Find(n.children, path[idx]).value;
      LiteralEmitFiresLeaf(n.children[i].1, path, idx + 1, range);
    }
  }

  predicate DistinctKeys(kids: seq<(string, Node)>) {
    forall i, j :: 0 <= i < j < |kids| ==> kids[i].0 != kids[j].0
  }

  lemma RemoveChildGone(kids: seq<(string, Node)>, key: string)
    requires DistinctKeys(kids)
    ensures Find(RemoveChild(kids, key), key).None?
  {
    match Find(kids, key)
    case None =>
    case Some(i) =>
      var r := kids[..i] + kids[i + 1..];
      forall j | 0 <= j < |r| ensures r[j].0 != key {
        if j < i {
          assert r[j] == kids[j];
        } else {
          assert r[j] == kids[j + 1];
        }
      }
  }

  lemma RemoveChildOther(kids: seq<(string, Node)>, key: string, other: string)
    requires Find(kids, other).None?
    ensures Find(RemoveChild(kids, key), other).None?
  {
    match Find(kids, key)
    case None =>
    case Some(i) =>
      var r := kids[..i] + kids[i + 1..];
      forall j | 0 <= j < |r| ensures r[j].0 != other {
        if j < i {
          assert r[j] == kids[j];
        } else {
          assert r[j] == kids[j + 1];
        }
      }
  }

  /**
   * A pruned leaf drops its descendants: when the leaf loop empties the list
   * at the emitted literal path, the leaf's key is deleted from its parent,
   * together with every subscription registered below it.
   */
  lemma PrunedLeafDropsSubtree(n: Node, path: seq<string>, idx: nat, range: seq<Interval>)
    requires idx + 1 == |path| && path[idx] != "*"
    requires DistinctKeys(n.children)
    requires Find(n.children, path[idx]).Some?
    requires n.children[Find(n.children, path[idx]).value].1.registered.Some?
    requires LeafResult(n.children[Find(n.children, path[idx]).value].1.registered.value, range).0 == []
    ensures Find(Iterate(n, path, idx, range).node.children, path[idx]).None?
    ensures forall q :: Lookup(Iterate(n, path, idx, range).node, [path[idx]] + q).None?
  {
    var key := path[idx];
    var i := Find(n.children, key).value;
    var w := Iterate(n.children[i].1, path, idx + 1, range);
    assert w.status == Done(true);
    var kids1 := RemoveChild(n.children, key);
    RemoveChildGone(n.children, key);
    match Find(n.children, "*")
    case None =>
    case Some(s) =>
      var v := Iterate(n.children[s].1, path, idx + 1, range);
      FindSetChild(kids1, "*", v.node, key);
      RemoveChildOther(kids1, "*", key);
  }

  // ------------------------------------------------------------ unique keys

  lemma SetChildDistinct(kids: seq<(string, Node)>, key: string, child: Node)
    requires DistinctKeys(kids)
    ensures DistinctKeys(SetChild(kids, key, child))
    ensures forall e :: e in SetChild(kids, key, child) ==> e in kids || e == (key, child)
  {
    var r := SetChild(kids, key, child);
    match Find(kids, key)
    case Some(i) =>
      forall e | e in r ensures e in kids || e == (key, child) {
        var j :| 0 <= j < |r| && r[j] == e;
        if j != i {
          assert r[j] == kids[j];
        }
      }
    case None =>
  }

  lemma RemoveChildDistinct(kids: seq<(string, Node)>, key: string)
    requires DistinctKeys(kids)
    ensures DistinctKeys(RemoveChild(kids, key))
    ensures forall e :: e in RemoveChild(kids, key) ==> e in kids
  {
    match Find(kids, key)
    case None =>
    case Some(i) =>
      var r := kids[..i] + kids[i + 1..];
      assert forall j :: 0 <= j < |r| ==> r[j] == kids[if j < i then j else j + 1];
  }

  /** Every entry's subtree has unique keys. */
  ghost predicate AllUnique(kids: seq<(string, Node)>) {
    DistinctKeys(kids) && forall e :: e in kids ==> UniqueKeys(e.1)
  }

  lemma UniqueKeysKids(n: Node)
    ensures UniqueKeys(n) <==> AllUnique(n.children)
  {
    if AllUnique(n.children) {
      forall i | 0 <= i < |n.children| ensures UniqueKeys(n.children[i].1) {
        assert n.children[i] in n.children;
      }
    }
  }

  lemma SettleUnique(kids: seq<(string, Node)>, key: string, w: Walk)
    requires AllUnique(kids) && UniqueKeys(w.node)
    ensures AllUnique(Settle(kids, key, w))
  {
    if w.status == Done(true) {
      RemoveChildDistinct(kids, key);
    } else {
      SetChildDistinct(kids, key, w.node);
    }
  }

  /** `_createEventContext` keeps every key of every object unique. */
  lemma {:induction false} CreateEventContextUnique(n: Node, path: seq<string>)
    requires UniqueKeys(n)
    ensures UniqueKeys(CreateEventContext(n, path))
    decreases |path|
  {
    if path != [] {
      UniqueKeysKids(n);
      var child := match Find(n.children, path[0]) case Some(i) => n.children[i].1 case None => EmptyNode;
      if Find(n.children, path[0]).Some? {
        assert n.children[Find(n.children, path[0]).value] in n.children;
      }
      CreateEventContextUnique(child, path[1..]);
      var sub := CreateEventContext(child, path[1..]);
      SetChildDistinct(n.children, path[0], sub);
      UniqueKeysKids(CreateEventContext(n, path));
    }
  }

  lemma {:induction false} PushRecordUnique(n: Node, path: seq<string>, rec: Record)
    requires UniqueKeys(n)
    ensures UniqueKeys(PushRecord(n, path, rec))
    decreases |path|
  {
    if path != [] {
      match Find(n.children, path[0])
      case None =>
      case Some(i) =>
        UniqueKeysKids(n);
        PushRecordUnique(n.children[i].1, path[1..], rec);
        var kids := n.children[i := (path[0], PushRecord(n.children[i].1, path[1..], rec))];
        assert forall j :: 0 <= j < |kids| ==> kids[j].0 == n.children[j].0;
        forall e | e in kids ensures UniqueKeys(e.1) {
          var j :| 0 <= j < |kids| && kids[j] == e;
          if j != i {
            assert kids[j] in n.children;
          }
        }
        UniqueKeysKids(PushRecord(n, path, rec));
    }
  }

  /** Registration keeps every key of every object unique. */
  lemma RegisterUnique(n: Node, path: seq<string>, rec: Record)
    requires UniqueKeys(n)
    ensures UniqueKeys(Register(n, path, rec))
  {
    CreateEventContextUnique(n, path);
    PushRecordUnique(CreateEventContext(n, path), path, rec);
  }

  /** The walk keeps every key of every object unique, whether it finishes or throws. */
  lemma {:induction false} IterateUnique(n: Node, path: seq<string>, idx: nat, range: seq<Interval>)
    requires UniqueKeys(n)
    ensures UniqueKeys(Iterate(n, path, idx, range).node)
    decreases n, 1
  {
    UniqueKeysKids(n);
    UniqueKeysKids(Iterate(n, path, idx, range).node);
    if |path| <= idx {
    } else if path[idx] == "*" {
      IterateKidsUnique(n, 0, n.children, path, idx + 1, range);
    } else {
      var key := path[idx];
      match Find(n.children, key)
      case None =>
      case Some(i) =>
        assert n.children[i] in n.children;
        var w := Iterate(n.children[i].1, path, idx + 1, range);
        IterateUnique(n.children[i].1, path, idx + 1, range);
        SettleUnique(n.children, key, w);
        var kids1 := Settle(n.children, key, w);
        if !w.status.Threw? {
          match Find(n.children, "*")
          case None =>
          case Some(s) =>
            assert n.children[s] in n.children;
            var v := Iterate(n.children[s].1, path, idx + 1, range);
            IterateUnique(n.children[s].1, path, idx + 1, range);
            SettleUnique(kids1, "*", v);
        }
    }
  }

  lemma {:induction false} IterateKidsUnique(parent: Node, j: nat, current: seq<(string, Node)>, path: seq<string>, idx: nat, range: seq<Interval>)
    requires j <= |parent.children|
    requires UniqueKeys(parent) && AllUnique(current)
    ensures AllUnique(IterateKids(parent, j, current, path, idx, range).kids)
    decreases parent, 0, |parent.children| - j
  {
    if j < |parent.children| {
      UniqueKeysKids(parent);
      var (key, child) := parent.children[j];
      assert parent.children[j] in parent.children;
      IterateUnique(child, path, idx, range);
      var w := Iterate(child, path, idx, range);
      SettleUnique(current, key, w);
      if !w.status.Threw? {
        IterateKidsUnique(parent, j + 1, Settle(current, key, w), path, idx, range);
      }
    }
  }

  /** The lists in `ss`, one after the other. */
  function Concat(ss: seq<seq<ListenerId>>): (r: seq<ListenerId>)
    ensures ss == [] ==> r == []
  {
    if ss == [] then [] else ss[0] + Concat(ss[1..])
  }

  /** What the snapshot's children from key number `j` on fire, each walked on its own, in key order. */
  ghost function FiredList(parent: Node, j: nat, path: seq<string>, idx: nat, range: seq<Interval>): seq<seq<ListenerId>>
    requires j <= |parent.children|
  {
    seq(|parent.children| - j, k requires 0 <= k < |parent.children| - j =>
      Iterate(parent.children[j + k].1, path, idx, range).fired)
  }

  /** One iteration of the wildcard loop, written out. */
  lemma KidsUnfold(parent: Node, j: nat, current: seq<(string, Node)>, path: seq<string>, idx: nat, range: seq<Interval>, w: Walk)
    requires j < |parent.children|
    requires w == Iterate(parent.children[j].1, path, idx, range)
    ensures var next := Settle(current, parent.children[j].0, w);
      IterateKids(parent, j, current, path, idx, range) ==
      if w.status.Threw? then KidsWalk(next, w.fired, true)
      else
        var rest := IterateKids(parent, j + 1, next, path, idx, range);
        KidsWalk(rest.kids, w.fired + rest.fired, rest.threw)
  {
  }

  /** The wildcard loop throws exactly when one of the snapshot's children from key number `j` on throws. */
  lemma {:induction false} KidsThrowIff(parent: Node, j: nat, current: seq<(string, Node)>, path: seq<string>, idx: nat, range: seq<Interval>)
    requires j <= |parent.children|
    ensures IterateKids(parent, j, current, path, idx, range).threw <==>
      exists k :: j <= k < |parent.children| && Iterate(parent.children[k].1, path, idx, range).status.Threw?
    decreases |parent.children| - j
  {
    if j < |parent.children| {
      var w := Iterate(parent.children[j].1, path, idx, range);
      var next := Settle(current, parent.children[j].0, w);
      KidsUnfold(parent, j, current, path, idx, range, w);
      KidsThrowIff(parent, j + 1, next, path, idx, range);
      if !w.status.Threw? {
        if k :| j <= k < |parent.children| && Iterate(parent.children[k].1, path, idx, range).status.Threw? {
          assert j + 1 <= k;
        }
      }
    }
  }

  /**
   * When none of the snapshot's children from key number `j` on throws, the
   * wildcard loop fires what each child fires, key after key in insertion
   * order.
   */
  lemma {:induction false} KidsFireInKeyOrder(parent: Node, j: nat, current: seq<(string, Node)>, path: seq<string>, idx: nat, range: seq<Interval>)
    requires j <= |parent.children|
    requires forall k :: j <= k < |parent.children| ==> !Iterate(parent.children[k].1, path, idx, range).status.Threw?
    ensures IterateKids(parent, j, current, path, idx, range).fired == Concat(FiredList(parent, j, path, idx, range))
    decreases |parent.children| - j
  {
    if j < |parent.children| {
      var w := Iterate(parent.children[j].1, path, idx, range);
      var next := Settle(current, parent.children[j].0, w);
      KidsUnfold(parent, j, current, path, idx, range, w);
      KidsFireInKeyOrder(parent, j + 1, next, path, idx, range);
      FiredListCons(parent, j, path, idx, range);
      ConcatCons(w.fired, FiredList(parent, j + 1, path, idx, range));
    }
  }

  lemma FiredListCons(parent: Node, j: nat, path: seq<string>, idx: nat, range: seq<Interval>)
    requires j < |parent.children|
    ensures FiredList(parent, j, path, idx, range) ==
      [Iterate(parent.children[j].1, path, idx, range).fired] + FiredList(parent, j + 1, path, idx, range)
  {
    var fl := FiredList(parent, j, path, idx, range);
    assert fl[0] == Iterate(parent.children[j].1, path, idx, range).fired;
    assert fl[1..] == FiredList(parent, j + 1, path, idx, range);
  }

  lemma ConcatCons(x: seq<ListenerId>, t: seq<seq<ListenerId>>)
    ensures Concat([x] + t) == x + Concat(t)
  {
    assert ([x] + t)[0] == x && ([x] + t)[1..] == t;
  }

  /** An emitted `*` visits every key of the node: it throws iff some child does, and otherwise fires the children in key order. */
  lemma WildcardFiresInKeyOrder(n: Node, path: seq<string>, idx: nat, range: seq<Interval>)
    requires idx < |path| && path[idx] == "*"
    ensures Iterate(n, path, idx, range).status.Threw? <==>
      exists k :: 0 <= k < |n.children| && Iterate(n.children[k].1, path, idx + 1, range).status.Threw?
    ensures (forall k :: 0 <= k < |n.children| ==> !Iterate(n.children[k].1, path, idx + 1, range).status.Threw?) ==>
      Iterate(n, path, idx, range).fired == Concat(FiredList(n, 0, path, idx + 1, range))
  {
    KidsThrowIff(n, 0, n.children, path, idx + 1, range);
    if forall k :: 0 <= k < |n.children| ==> !Iterate(n.children[k].1, path, idx + 1, range).status.Threw? {
      KidsFireInKeyOrder(n, 0, n.children, path, idx + 1, range);
    }
  }

  /**
   * A literal segment with no child of that name ends the walk there: the
   * `*` child is consulted only after a literal child was visited, so even
   * when `ctx['*']` exists nothing fires and nothing changes.
   */
  lemma MissingLiteralSkipped(n: Node, path: seq<string>, idx: nat, range: seq<Interval>)
    requires idx < |path| && path[idx] != "*"
    requires Find(n.children, path[idx]).None?
    ensures Iterate(n, path, idx, range) == Walk(n, [], Done(NoKeys(n)))
  {
  }

  /**
   * The walk never applies an emitted `*` to a node holding a `__registered`
   * list. At such a node `Object.keys(ctx)` also yields `__registered`, and
   * the walk would recurse into the array itself; this model excludes it.
   * Only the nodes the walk actually visits are constrained: at a literal
   * segment the literal child, and the `*` child only when the literal
   * child exists and its call did not throw; at an emitted `*` the
   * snapshot's keys up to the first call that throws.
   */
  ghost predicate WildcardSafe(n: Node, path: seq<string>, idx: nat, range: seq<Interval>)
    decreases n, 1
  {
    if |path| <= idx then true
    else if path[idx] == "*" then n.registered.None? && KidsSafe(n, 0, path, idx + 1, range)
    else
      match Find(n.children, path[idx])
      case None => true
      case Some(i) =>
        var child := n.children[i].1;
        WildcardSafe(child, path, idx + 1, range) &&
        (Iterate(child, path, idx + 1, range).status.Threw? ||
         match Find(n.children, "*")
         case None => true
         case Some(s) => WildcardSafe(n.children[s].1, path, idx + 1, range))
  }

  /** `WildcardSafe` for the wildcard loop's calls from key number `j` of the snapshot. */
  ghost predicate KidsSafe(parent: Node, j: nat, path: seq<string>, idx: nat, range: seq<Interval>)
    requires j <= |parent.children|
    decreases parent, 0, |parent.children| - j
  {
    j == |parent.children| ||
    (WildcardSafe(parent.children[j].1, path, idx, range) &&
     (Iterate(parent.children[j].1, path, idx, range).status.Threw? || KidsSafe(parent, j + 1, path, idx, range)))
  }

  /** A walk whose remaining segments are all literal is always safe. */
  lemma {:induction false} LiteralPathSafe(n: Node, path: seq<string>, idx: nat, range: seq<Interval>)
    requires forall k :: idx <= k < |path| ==> path[k] != "*"
    ensures WildcardSafe(n, path, idx, range)
    decreases n
  {
    if idx < |path| {
      match Find(n.children, path[idx])
      case None =>
      case Some(i) =>
        LiteralPathSafe(n.children[i].1, path, idx + 1, range);
        match Find(n.children, "*")
        case None =>
        case Some(s) => LiteralPathSafe(n.children[s].1, path, idx + 1, range);
    }
  }
}
