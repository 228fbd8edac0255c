# Topic-and-scope event registry, modelled in Dafny

This project models the core of `lib/events.js`, an event emitter whose
events are dotted topic paths (`foo.bar`, `foo.*`) with an optional numeric
scope (`foo:1-10,10-20`). Its three parts are modelled separately.

- **The scope compiler and validator.** `_createRangeArray` turns a scope
  string into a sorted, merged list of closed intervals. The closure built
  by `_createEventRangeValidator` decides by a two-pointer loop whether an
  emitted interval list is accepted. Both are in `scope.dfy`, with the
  three regular expressions written out as recognisers in `patterns.dfy`
  and `split`/`join` in `strings.dfy`.
- **The topic trie.** `_createEventContext` and the push of `addListener`
  build the trie. `contextIterator` walks it: it consumes invocation
  budgets, hands listeners to a callback and deletes the nodes it empties.
  All of this is in `trie.dfy`. The trie is a value (`Node`). The loops of
  the source are methods (`LeafVisit`, `WildcardKeys`, `ContextIterator`,
  `FillRangeArray`, `MergeRangeArray`, `RangeValidate`), each proved equal
  to a recursive specification function. The properties are proved as
  lemmas about those functions.
- **The entry points.** `addListener`, `on`, `once`, `_processEventContext`,
  `removeListener`, `removeAllListeners`, `getListeners`, `emitEvent` and
  `emitEventSync` are in `events.dfy`. They appear as the pure functions
  `Subscribe`, `Locate` and `Dispatch`, and as the methods of the class
  `Registry`. The class holds the trie and the queue of listener calls that
  `setImmediate` has scheduled, and updates both in place.
  `exceptions.dfy` names each exception the code throws.
- **The library's tests.** `scenarios.dfy` works the scope test of
  `test/range.test.js` through the model. `walk_scenarios.dfy` works the
  once, ttl and wildcard tests through it.

Numbers are unbounded integers. The model adds two special bounds, and
a ttl that never runs out:

- `Number.MIN_VALUE`, the result of a `*` lower end, is the bound `Tiny`.
  It is strictly between 0 and 1.
- `Number.MAX_VALUE`, the result of a `*` upper end, is the bound `Huge`.
- A ttl of `Number.MAX_VALUE` or `Infinity` is `Unlimited`: it never runs
  out.

Where the code and the design it was written to differ, the model follows
the code:

- **Path segments.** The code's EVT_PATH_PATTERN admits `[a-z]\w*`, case
  insensitive. It has no `-` in a segment.
- **Ttl.** Any number other than NaN is accepted. A ttl of 0 or less still
  fires once: the record is removed only after its first accepted
  emission (`Trie.Budget`).
- **Merging.** The merge loop sets the previous entry's `max` to the later
  entry's `max`, even when that is smaller. So `1-20,5-10` compiles to
  1..10 (`Scenarios.Subscribe1To20And5To10`).
- **Removal and listing.** Whatever the callback returns is ignored, and
  the leaf loop consumes budgets before it calls the callback. So
  `removeListener`, `removeAllListeners` and `getListeners` walk exactly as
  an emission does: they purge nothing and they consume budgets.
- **Errors mid-walk.** A walk that reaches a node with no `__registered`
  list throws a TypeError. The trie keeps what the walk had changed
  before that point.

## Model

| member | source | states |
|---|---|---|
| Strings.Split | lib/events.js:112 | no piece contains the separator, and joining the pieces gives the input back |
| Strings.SplitJoin | lib/events.js:305 | splitting a join of separator-free pieces returns those pieces |
| Patterns.ParseItemShown | lib/events.js:12 | an item RANGE_ITEM_PATTERN accepts is well formed, and its capture groups render back to exactly that item |
| Patterns.ParseShowItem | lib/events.js:12 | every well-formed item is accepted and read back as the same capture groups |
| Patterns.PathLanguage | lib/events.js:9 | a dot-join of valid segments matches EVT_PATH_PATTERN, and splitting it on `.` gives the segments |
| Scope.ItemInterval | lib/events.js:205-221 | the two ends are ordered; the exact interval for each shape: `*` is [MIN_VALUE, MIN_VALUE], `n` is [n, n], `a-b` is [min, max] of the two, `*-b` is [MIN_VALUE, b] for b >= 1 and [b, MIN_VALUE] otherwise, `a-*` is [a, MAX_VALUE], `*-*` is [MIN_VALUE, MAX_VALUE] |
| Scope.CompileItem | lib/events.js:199-203 | an empty item reads as `*`, giving [MIN_VALUE, MIN_VALUE]; a bad item fails with InvalidRangeItem; a good one has ordered ends |
| Scope.CompileItemsSpec | lib/events.js:198-222 | the item list compiles iff every item does, to one interval per item in order; otherwise it fails with InvalidRangeItem |
| Scope.CompileItemsFailIff | lib/events.js:199-203 | compiling fails iff some non-empty item fails RANGE_ITEM_PATTERN |
| Scope.SortByMin | lib/events.js:224-226 | the result is ordered by `min`, is a permutation of the input, and keeps the input order among entries with equal `min` |
| Scope.SortSortedIdentity | lib/events.js:224-226 | a list already ordered by `min` is left unchanged |
| Scope.SortMergeNormalized | lib/events.js:224-233 | sorting then merging a non-empty list of ordered entries gives a non-empty list whose entries are ordered and pairwise strictly apart |
| Scope.MergeIntoSound | lib/events.js:228-233 | the merge never adds a point: any point of the result lies in some input entry |
| Scope.CompiledNormalized | lib/events.js:191-236 | a compiled scope is non-empty, ordered and pairwise strictly apart |
| Scope.EmptyScopeCompiles | lib/events.js:192-199 | the scopes `''` and `*` both compile to the single point MIN_VALUE |
| Scope.RangeMatchesCompiles | lib/events.js:118-120 | a scope that passes EVT_RANGE_PATTERN always compiles |
| Scope.FillRangeArray | lib/events.js:198-222 | the fill loop yields one interval per item, or InvalidRangeItem at the first bad item, exactly as CompileItems |
| Scope.MergeRangeArray | lib/events.js:228-233 | the merge loop with `splice(i--, 1)` yields the merge function's result |
| Scope.CreateRangeArray | lib/events.js:191-236 | `_createRangeArray` returns the compiled scope, and when it succeeds the list is non-empty and normalized |
| Scope.RangeValidate | lib/events.js:245-280 | the two-pointer loop answers what the validator function answers |
| Scope.AcceptsCharacterized | lib/events.js:253-279 | for a sorted emission, the validator accepts iff every emitted entry is not rejected by the first subscription entry whose `max` reaches its `min` |
| Scope.ContainedIsAccepted | lib/events.js:238-281 | for normalized lists, if every emitted entry lies inside one subscription entry, the validator accepts |
| Scope.UnscopedRejectsPoints | lib/events.js:253-276 | a subscription without a scope (the point MIN_VALUE) accepts no emitted integer point |
| Scope.RejectsExactly | lib/events.js:262-264 | a subscription entry lets an emitted entry pass iff each end is inside it or is the open `*` end, or the emitted entry strictly contains it |
| Trie.CreateEventContextNodes | lib/events.js:174-189 | after `_createEventContext` a path exists iff it existed before or is a prefix of the created path |
| Trie.CreateEventContextKeepsRecords | lib/events.js:174-189 | `_createEventContext` changes no registration list anywhere |
| Trie.CreateEventContextExisting | lib/events.js:180-186 | on a path that already exists, `_createEventContext` changes nothing |
| Trie.PushRecordKeepsNodes | lib/events.js:124-126 | pushing a record neither creates nor removes a node |
| Trie.RegisterAppends | lib/events.js:122-132 | registration appends exactly the new record at the end of the path's list, creating the list if it is missing |
| Trie.RegisterKeepsOthers | lib/events.js:122-132 | registration leaves every other path's list unchanged |
| Trie.RegisterUnique | lib/events.js:174-189 | registration keeps every object's keys distinct |
| Trie.LeafResultAppend | lib/events.js:324-334 | the leaf loop treats records independently and in order: visiting `a + b` is visiting `a`, then `b` |
| Trie.RejectedUntouched | lib/events.js:326 | a record the validator rejects is kept unchanged and fires nothing |
| Trie.RepeatBudget | lib/events.js:326-331 | over `k` emissions an accepted record fires `Budget(ttl, k)` times: `once` exactly once, a ttl of n at most n times, an unlimited ttl every time |
| Trie.LeafVisit | lib/events.js:324-334 | the leaf loop with `--key.ttl` and `splice(i--, 1); --ilen` leaves the kept list, and fires the listeners, that the leaf function defines |
| Trie.WildcardKeys | lib/events.js:339-347 | the wildcard loop over the key snapshot yields the walk function's node, listeners and status |
| Trie.ContextIterator | lib/events.js:313-362 | `contextIterator` yields exactly the walk function's node, listeners and status, including a TypeError mid-walk |
| Trie.EmitWithoutListThrows | lib/events.js:322-324 | emitting a literal path whose node exists but holds no list throws a TypeError |
| Trie.EmitAboveSubscriptionThrows | lib/events.js:322-336 | after registering `p.q`, emitting the strict prefix `p` (with no list at `p` and no `*`) throws a TypeError |
| Trie.LiteralEmitFiresLeaf | lib/events.js:348-359 | with no `*` along the way, a literal emission fires exactly what the leaf loop fires at its node |
| Trie.PrunedLeafDropsSubtree | lib/events.js:336-352 | a leaf whose every record is spent is deleted from its parent, and nothing below it remains reachable |
| Trie.KidsThrowIff | lib/events.js:341-347 | the wildcard loop throws iff the walk of one of the snapshot's children throws |
| Trie.KidsFireInKeyOrder | lib/events.js:339-347 | when no child's walk throws, the wildcard loop fires what each child fires, key after key in insertion order |
| Trie.WildcardFiresInKeyOrder | lib/events.js:337-347 | an emitted `*` throws iff one of the node's children does, and otherwise fires all children's listeners in key order |
| Trie.MissingLiteralSkipped | lib/events.js:348-361 | at a literal segment with no child of that name the walk fires nothing and changes nothing, even when a `*` child exists |
| Trie.LiteralPathSafe | lib/events.js:337-359 | a walk whose remaining segments are all literal never reaches the excluded case |
| Trie.IterateUnique | lib/events.js:313-362 | the walk keeps every object's keys distinct, whether it finishes or throws |
| Events.SubscribeSucceedsIff | lib/events.js:102-120 | `addListener` succeeds iff the event is a non-empty string, the listener a function, the ttl a non-NaN number, the path passes EVT_PATH_PATTERN and the scope (`*` when omitted) passes EVT_RANGE_PATTERN |
| Events.SubscribeAppends | lib/events.js:112-133 | a successful `addListener` appends one record (raw event, path, compiled scope, listener, ttl) to its path's list and to no other |
| Events.OnTtl | lib/events.js:28-34 | `on` with two arguments has an unlimited ttl; with three, the second argument is the ttl and the third the listener |
| Events.CheckedScopesCompile | lib/events.js:114-122 | once the patterns pass, both readings of the scope compile: `eventData[1] \|\| '*'` and a missing scope as `''` |
| Events.LocateRejectsLikeSubscribe | lib/events.js:289-303 | for a valid listener and ttl, the walk entry point rejects exactly the events `addListener` rejects, with the same error |
| Events.LiteralEventSafe | lib/events.js:305-308 | every event whose path has no `*` segment can be walked over every trie |
| Events.Registry.constructor | lib/events.js:21-22 | a new emitter starts with an empty trie and nothing queued |
| Events.Registry.AddListener | lib/events.js:96-133 | the trie becomes the registration result, or stays unchanged and the first failing check's error is returned; keys stay distinct |
| Events.Registry.On | lib/events.js:28-37 | `on` shuffles its arguments, then behaves as `addListener` |
| Events.Registry.Once | lib/events.js:43-45 | `once` is `addListener` with a ttl of 1 |
| Events.Registry.ProcessEventContext | lib/events.js:284-309 | the checks, then the walk from the root: the new trie, the listeners handed over and the error are the dispatch function's |
| Events.Registry.RemoveListener | lib/events.js:135-139 | `removeListener` changes the trie exactly as an emission does, whatever listener is named |
| Events.Registry.RemoveAllListeners | lib/events.js:141-145 | `removeAllListeners` changes the trie exactly as an emission does |
| Events.Registry.GetListeners | lib/events.js:147-155 | `getListeners` returns the listeners an emission would fire, in order, and consumes their budgets |
| Events.Registry.EmitEvent | lib/events.js:157-163 | `emitEvent` queues the fired listeners in order behind those already queued; calls queued before a TypeError stay queued |
| Events.Registry.EmitEventSync | lib/events.js:165-169 | `emitEventSync` calls the fired listeners in the order the walk reaches them |
| Scenarios.Subscribe1To10And10To20 | test/range.test.js:114 | the subscription scope `1-10,10-20` compiles to the one interval 1..20 |
| Scenarios.Subscribe1To20And5To10 | lib/events.js:228-233 | `1-20,5-10` compiles to 1..10: the merge keeps the later entry's `max` |
| Scenarios.Emit1 | test/range.test.js:127 | emitting `foo:1` reaches the `foo:1-10,10-20` listener |
| Scenarios.Emit1To10 | test/range.test.js:127 | `foo:1-10` reaches it |
| Scenarios.Emit10To4 | test/range.test.js:127 | `foo:10-4` reaches it |
| Scenarios.Emit18To20 | test/range.test.js:127 | `foo:18-20` reaches it |
| Scenarios.Emit20 | test/range.test.js:127 | `foo:20` reaches it |
| Scenarios.Emit1To2And4To10 | test/range.test.js:128 | `foo:1-2,4-10` reaches it |
| Scenarios.Emit1And3And4And5 | test/range.test.js:128 | `foo:1,3,4,5` reaches it |
| Scenarios.Emit10To11And13And15And17To19 | test/range.test.js:128 | `foo:10-11,13,15,17-19` reaches it |
| Scenarios.EmitStarTo1 | test/range.test.js:129 | `foo:*-1` reaches it |
| Scenarios.EmitStarTo10 | test/range.test.js:129 | `foo:*-10` reaches it |
| Scenarios.EmitStarTo3AndStarTo10AndStarTo16 | test/range.test.js:129 | `foo:*-3,*-10,*-16` reaches it |
| Scenarios.Emit0 | test/range.test.js:136 | `foo:0` does not reach it |
| Scenarios.Emit0To1 | test/range.test.js:136 | `foo:0-1` does not reach it |
| Scenarios.Emit100 | test/range.test.js:136 | `foo:100` does not reach it |
| Scenarios.Emit9To21 | test/range.test.js:136 | `foo:9-21` does not reach it |
| Scenarios.EmitNeg1To1 | test/range.test.js:136 | `foo:-1-1` does not reach it |
| Scenarios.Emit1ToNeg1 | test/range.test.js:136 | `foo:1--1` does not reach it |
| Scenarios.EmitStarTo0 | test/range.test.js:137 | `foo:*-0` does not reach it |
| Scenarios.Emit21ToStar | test/range.test.js:137 | `foo:21-*` does not reach it |
| Scenarios.Emit2And4And7And10And23 | test/range.test.js:138 | `foo:2,4,7,10,23` does not reach it |
| Scenarios.Emit5To10And12To22 | test/range.test.js:138 | `foo:5-10,12-22` does not reach it |
| WalkScenarios.EmitUnderMissingLiteral | lib/events.js:348-359 | with only `*.a` registered, emitting `z.a.*` is admitted, fires nothing, changes nothing and throws nothing |
| WalkScenarios.EmitStopsAtFirstThrow | lib/events.js:339-347 | with `a.c.d` and then `b` registered, emitting `*.*` is admitted and throws at `a.c` before key `b` is visited |
| WalkScenarios.ListenOnceTest | test/range.test.js:160-166 | a `once` listener on `foo:1-10`, emitted `foo:3` twice, fires once |
| WalkScenarios.ListenTenTimesTest | test/range.test.js:183-191 | a listener on `foo` with ttl 10, emitted 50 times, fires 10 times |
| WalkScenarios.WildcardEventNamesTest | test/range.test.js:194-217 | `once` on `foo.bar`, `foo.*`, `*.bar`, `*.*`, then `emit('foo.bar')`, fires all four in registration order and leaves an empty trie |
| WalkScenarios.EmitWithWildcardTest | test/range.test.js:220-247 | `on` for six `event.*`/`other.*` paths; `emit('event.*')` fires the three `event` listeners in order and leaves the trie as it was; `emit('*.foo')` fires `event.foo` then `other.foo` |

## Left out

- The `EventEmitter` constructor's property definitions (lib/events.js:21-93) are not modelled. They only forward to the functions modelled here. `Registry` stands for one emitter's closure over `_events`.
- `setImmediate` is modelled only as appending the listener to the `pending` queue. Running the queued calls, the listener's arguments (`eventArgs`), and what a listener does when called are not modelled.
- Re-entrancy is left out: a synchronous listener that emits or subscribes during `emitEventSync` would change the trie in the middle of the walk.
- lib/exceptions.js and the `error-factory` package are not part of this model. An exception is its kind, `EventError`; the message and message data are not reproduced.
- Floating point is not modelled. Numbers are unbounded integers plus `Tiny` and `Huge`. Rounding of digit strings beyond 2^53 and fractional or other non-integer ttl values are left out.
- Events.Registry.ProcessEventContext, Events.Registry.RemoveListener, Events.Registry.RemoveAllListeners, Events.Registry.GetListeners, Events.Registry.EmitEvent and Events.Registry.EmitEventSync require `SafeToWalk`: the walk must not apply an emitted `*` to a node that holds a `__registered` list. The code would then recurse into the array and its record objects, whose own keys (`length`, the indices, the record fields) and key order the value trie does not represent. `SafeToWalk` constrains only the nodes the walk visits, as `Iterate` visits them: it holds for every event without a `*` segment (`Events.LiteralEventSafe`) and for `*` segments below a missing literal key or after the loop has thrown.
- Inherited object properties are left out: a segment naming a property of `Object.prototype` (such as `constructor`) is treated as an ordinary absent key.
- The regular expressions are modelled as hand-written recognisers (`Patterns`), with no regular-expression engine.
- The trie is a value that each operation replaces whole. This equals the source's in-place mutation because no other code holds a reference into `_events`, but aliasing is not modelled.
- Events.Registry.RemoveListener, Events.Registry.RemoveAllListeners, Events.Registry.GetListeners: these model the code, not the removal-by-identity and side-effect-free listing that the design describes (see the list of differences above).
- The scope test's `complete` listener and the wildcard test's `test` and `complete` listeners are not in the scenario tries. The emissions under test fire none of them.
