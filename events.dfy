/**
 * The entry points of lib/events.js over one registry: `addListener` (and
 * the `on`/`once` argument handling), `_processEventContext`, and the five
 * operations built on it, `removeListener`, `removeAllListeners`,
 * `getListeners`, `emitEvent` and `emitEventSync`.
 */
module Events {
  import opened Wrappers
  import opened Strings
  import opened Patterns
  import opened Exceptions
  import opened Scope
  import opened Trie

  /** The JavaScript numbers the model distinguishes. */
  datatype Number = Int(i: int) | MaxValue | Infinity | NaN

  /** An argument as JavaScript passes it. */
  datatype JsValue = Undefined | Null | Bool(b: bool) | Num(x: Number) | Str(s: string) | Function(id: ListenerId) | Object

  /** JavaScript truthiness (`!v` is its negation). */
  predicate Truthy(v: JsValue) {
    match v
    case Undefined => false
    case Null => false
    case Bool(b) => b
    case Num(x) => x != Int(0) && x != NaN
    case Str(s) => s != ""
    case Function(_) => true
    case Object => true
  }

  /**
   * The ttl check of `addListener` (`typeof ttl !== 'number' || isNaN(ttl)`)
   * and the budget an accepted ttl stands for.
   */
  function TtlOf(ttl: JsValue): Option<Ttl> {
    match ttl
    case Num(Int(n)) => Some(Count(n))
    case Num(MaxValue) => Some(Unlimited)
    case Num(Infinity) => Some(Unlimited)
    case _ => None
  }

  /**
   * `on(event, listener)` and `on(event, ttl, listener)`: with three or more
   * arguments the second is the ttl and the third the listener; otherwise
   * the ttl is `Number.MAX_VALUE`.
   */
  function OnArguments(args: seq<JsValue>): (JsValue, JsValue, JsValue) {
    var event := if |args| >= 1 then args[0] else Undefined;
    if |args| >= 3 then (event, args[2], args[1])
    else (event, if |args| >= 2 then args[1] else Undefined, Num(MaxValue))
  }

  /** What `event.split(':')` yields at positions 0 and 1 (`undefined` when missing). */
  datatype Target = Target(path: string, scope: Option<string>)

  function SplitEvent(event: string): Target {
    var data := Split(event, ':');
    Target(data[0], if |data| >= 2 then Some(data[1]) else None)
  }

  /** `eventData[1] || '*'`. */
  function ScopeText(scope: Option<string>): string {
    if scope.Some? && scope.value != "" then scope.value else "*"
  }

  /** The pattern checks shared by both entry points: EVT_PATH_PATTERN, then EVT_RANGE_PATTERN. */
  function CheckTarget(event: string): Result<Target, EventError> {
    var t := SplitEvent(event);
    if !PathMatches(t.path) then Err(InvalidPath)
    else if !RangeMatches(ScopeText(t.scope)) then Err(InvalidRange)
    else Ok(t)
  }

  /** `addListener(events, event, listener, ttl)`: the trie after registration, or the error thrown. */
  function Subscribe(events: Node, event: JsValue, listener: JsValue, ttl: JsValue): Result<Node, EventError> {
    if !Truthy(event) then Err(EmptyEvent)
    else if !event.Str? then Err(EventNotString)
    else if !listener.Function? then Err(ListenerNotFunction)
    else if TtlOf(ttl).None? then Err(InvalidTtl)
    else
      match CheckTarget(event.s)
      case Err(e) => Err(e)
      case Ok(t) =>
        match CompileScope(ScopeText(t.scope))
        case Err(e) => Err(e)
        case Ok(range) =>
          Ok(Register(events, Split(t.path, '.'), Record(event.s, t.path, range, listener.id, TtlOf(ttl).value)))
  }

  /**
   * The checks of `_processEventContext` and what it hands `contextIterator`:
   * the path's segments and the compiled emitted scope (from `eventData[1]`,
   * `''` when missing).
   */
  function Locate(event: JsValue): Result<(seq<string>, seq<Interval>), EventError> {
    if !Truthy(event) then Err(EmptyEvent)
    else if !event.Str? then Err(EventNotString)
    else
      match CheckTarget(event.s)
      case Err(e) => Err(e)
      case Ok(t) =>
        match CompileScope(t.scope.GetOr(""))
        case Err(e) => Err(e)
        case Ok(range) => Ok((Split(t.path, '.'), range))
  }

  /** The trie after a walk, the listeners handed to the callback before it ended, and the error it threw. */
  datatype Outcome = Outcome(events: Node, fired: seq<ListenerId>, error: Option<EventError>)

  /** `_processEventContext(events, event, callback)`. */
  function Dispatch(events: Node, event: JsValue): Outcome {
    match Locate(event)
    case Err(e) => Outcome(events, [], Some(e))
    case Ok((path, range)) =>
      var w := Iterate(events, path, 0, range);
      Outcome(w.node, w.fired, if w.status.Threw? then Some(TypeError) else None)
  }

  /** The walk for `event` stays clear of the `__registered` keys. */
  ghost predicate SafeToWalk(events: Node, event: JsValue) {
    Locate(event).Ok? ==> WildcardSafe(events, Locate(event).value.0, 0, Locate(event).value.1)
  }

  /** An event whose path has no `*` segment can be walked over any trie. */
  lemma LiteralEventSafe(events: Node, event: JsValue)
    requires Locate(event).Ok? ==> "*" !in Locate(event).value.0
    ensures SafeToWalk(events, event)
  {
    if Locate(event).Ok? {
      var (path, range) := Locate(event).value;
      LiteralPathSafe(events, path, 0, range);
    }
  }

  /**
   * `addListener` succeeds exactly when the event is a non-empty string, the
   * listener a function, the ttl a number other than NaN, the path matches
   * EVT_PATH_PATTERN and the scope (`*` when omitted) EVT_RANGE_PATTERN.
   */
  lemma SubscribeSucceedsIff(events: Node, event: JsValue, listener: JsValue, ttl: JsValue)
    ensures Subscribe(events, event, listener, ttl).Ok? <==>
      event.Str? && event.s != "" && listener.Function? && TtlOf(ttl).Some? &&
      PathMatches(SplitEvent(event.s).path) && RangeMatches(ScopeText(SplitEvent(event.s).scope))
  {
    if event.Str? && event.s != "" && CheckTarget(event.s).Ok? {
      RangeMatchesCompiles(ScopeText(SplitEvent(event.s).scope));
    }
  }

  /**
   * A successful `addListener` appends exactly one record, carrying the raw
   * event, its path, the compiled scope, the listener and the ttl, at the
   * end of the list of the node at the split path; no other path's list
   * changes.
   */
  lemma SubscribeAppends(events: Node, event: JsValue, listener: JsValue, ttl: JsValue, q: seq<string>)
    requires Subscribe(events, event, listener, ttl).Ok?
    ensures var t := SplitEvent(event.s);
      var path := Split(t.path, '.');
      var rec := Record(event.s, t.path, CompileScope(ScopeText(t.scope)).value, listener.id, TtlOf(ttl).value);
      RegisteredAt(Subscribe(events, event, listener, ttl).value, path) == Some(RegisteredAt(events, path).GetOr([]) + [rec]) &&
      (q != path ==> RegisteredAt(Subscribe(events, event, listener, ttl).value, q) == RegisteredAt(events, q))
  {
    var t := SplitEvent(event.s);
    var path := Split(t.path, '.');
    var rec := Record(event.s, t.path, CompileScope(ScopeText(t.scope)).value, listener.id, TtlOf(ttl).value);
    RegisterAppends(events, path, rec);
    if q != path {
      RegisterKeepsOthers(events, path, rec, q);
    }
  }

  /** `on` with two arguments registers with an unlimited budget; with three, the middle one is the ttl. */
  lemma OnTtl(args: seq<JsValue>)
    ensures |args| <= 2 ==> TtlOf(OnArguments(args).2) == Some(Unlimited)
    ensures |args| >= 3 ==> OnArguments(args) == (args[0], args[2], args[1])
  {
  }

  /** Once the patterns pass, both readings of the scope compile: `eventData[1] || '*'` and `eventData[1]` or `''`. */
  lemma CheckedScopesCompile(event: string)
    requires CheckTarget(event).Ok?
    ensures CompileScope(ScopeText(CheckTarget(event).value.scope)).Ok?
    ensures CompileScope(CheckTarget(event).value.scope.GetOr("")).Ok?
  {
    var t := CheckTarget(event).value;
    RangeMatchesCompiles(ScopeText(t.scope));
    if t.scope.GetOr("") == "" {
      EmptyScopeCompiles();
    } else {
      assert t.scope.GetOr("") == ScopeText(t.scope);
    }
  }

  /**
   * The walk entry point applies the same checks as `addListener`, minus
   * the listener and ttl ones: for a valid listener and ttl both reject the
   * same events with the same error.
   */
  lemma LocateRejectsLikeSubscribe(events: Node, event: JsValue, listener: JsValue, ttl: JsValue)
    requires listener.Function? && TtlOf(ttl).Some?
    ensures Locate(event).Ok? ==> Subscribe(events, event, listener, ttl).Ok?
    ensures Locate(event).Err? ==> Subscribe(events, event, listener, ttl) == Err(Locate(event).error)
  {
    if event.Str? && event.s != "" && CheckTarget(event.s).Ok? {
      CheckedScopesCompile(event.s);
    }
  }

  /** The registry behind one `EventEmitter`: the trie `_events`, and the listener calls `setImmediate` has queued. */
  class Registry {
    var events: Node
    var pending: seq<ListenerId>

    /**
     * Every object of the trie has each key at most once, as a JavaScript
     * object does. The other contracts do not lean on it; it is kept to
     * show that the key lists the methods build can stand for `_events`
     * (`RegisterUnique`, `IterateUnique`), so looking up the first entry
     * with a key is `ctx[key]`.
     */
    ghost predicate Valid()
      reads this
    {
      UniqueKeys(events)
    }

    constructor()
      ensures Valid()
      ensures events == EmptyNode && pending == []
    {
      events := EmptyNode;
      pending := [];
    }

    /** `addListener`: the checks in their order, then `_createEventContext` and the push. */
    method AddListener(event: JsValue, listener: JsValue, ttl: JsValue) returns (r: Result<(), EventError>)
      requires Valid()
      modifies this
      ensures Valid()
      ensures Subscribe(old(events), event, listener, ttl).Ok? ==>
        r == Ok(()) && events == Subscribe(old(events), event, listener, ttl).value
      ensures Subscribe(old(events), event, listener, ttl).Err? ==>
        r == Err(Subscribe(old(events), event, listener, ttl).error) && events == old(events)
      ensures pending == old(pending)
    {
      if !Truthy(event) {
        return Err(EmptyEvent);
      } else if !event.Str? {
        return Err(EventNotString);
      } else if !listener.Function? {
        return Err(ListenerNotFunction);
      } else if TtlOf(ttl).None? {
        return Err(InvalidTtl);
      }
      var target := CheckTarget(event.s);
      if target.Err? {
        return Err(target.error);
      }
      var eventPath := target.value.path;
      var rangeValidate := CreateRangeArray(ScopeText(target.value.scope));
      if rangeValidate.Err? {
        return Err(rangeValidate.error);
      }
      var rec := Record(event.s, eventPath, rangeValidate.value, listener.id, TtlOf(ttl).value);
      RegisterUnique(events, Split(eventPath, '.'), rec);
      events := Register(events, Split(eventPath, '.'), rec);
      return Ok(());
    }

    /** `on`: the ttl argument shuffle, then `addListener`. */
    method On(args: seq<JsValue>) returns (r: Result<(), EventError>)
      requires Valid()
      modifies this
      ensures Valid()
      ensures var (event, listener, ttl) := OnArguments(args);
        Subscribe(old(events), event, listener, ttl).Ok? ==>
          r == Ok(()) && events == Subscribe(old(events), event, listener, ttl).value
      ensures var (event, listener, ttl) := OnArguments(args);
        Subscribe(old(events), event, listener, ttl).Err? ==>
          r == Err(Subscribe(old(events), event, listener, ttl).error) && events == old(events)
      ensures pending == old(pending)
    {
      var ttl := Num(MaxValue);
      var event := if |args| >= 1 then args[0] else Undefined;
      var listener := if |args| >= 2 then args[1] else Undefined;
      if |args| >= 3 {
        ttl := listener;
        listener := args[2];
      }
      r := AddListener(event, listener, ttl);
    }

    /** `once`: `addListener` with a ttl of 1. */
    method Once(event: JsValue, listener: JsValue) returns (r: Result<(), EventError>)
      requires Valid()
      modifies this
      ensures Valid()
      ensures Subscribe(old(events), event, listener, Num(Int(1))).Ok? ==>
        r == Ok(()) && events == Subscribe(old(events), event, listener, Num(Int(1))).value
      ensures Subscribe(old(events), event, listener, Num(Int(1))).Err? ==>
        r == Err(Subscribe(old(events), event, listener, Num(Int(1))).error) && events == old(events)
      ensures pending == old(pending)
    {
      r := AddListener(event, listener, Num(Int(1)));
    }

    /**
     * `_processEventContext`: the checks, the emitted scope compiled, and the
     * walk from the root. A TypeError thrown mid-walk leaves the trie as the
     * walk had changed it so far.
     */
    method ProcessEventContext(event: JsValue) returns (fired: seq<ListenerId>, error: Option<EventError>)
      requires Valid() && SafeToWalk(events, event)
      modifies this
      ensures Valid()
      ensures events == Dispatch(old(events), event).events
      ensures fired == Dispatch(old(events), event).fired
      ensures error == Dispatch(old(events), event).error
      ensures pending == old(pending)
    {
      if !Truthy(event) {
        return [], Some(EmptyEvent);
      } else if !event.Str? {
        return [], Some(EventNotString);
      }
      var target := CheckTarget(event.s);
      if target.Err? {
        return [], Some(target.error);
      }
      var eventPath := Split(target.value.path, '.');
      var eventRange := CreateRangeArray(target.value.scope.GetOr(""));
      if eventRange.Err? {
        return [], Some(eventRange.error);
      }
      IterateUnique(events, eventPath, 0, eventRange.value);
      var w := ContextIterator(events, eventPath, 0, eventRange.value);
      events := w.node;
      fired := w.fired;
      error := if w.status.Threw? then Some(TypeError) else None;
    }

    /**
     * `removeListener`: its callback's result is ignored, so it walks exactly
     * as an emission does, `listener` plays no part, and only the budgets
     * are consumed.
     */
    method RemoveListener(event: JsValue, listener: JsValue) returns (error: Option<EventError>)
      requires Valid() && SafeToWalk(events, event)
      modifies this
      ensures Valid()
      ensures events == Dispatch(old(events), event).events
      ensures error == Dispatch(old(events), event).error
      ensures pending == old(pending)
    {
      var _, e := ProcessEventContext(event);
      error := e;
    }

    /** `removeAllListeners`: the same walk, also consuming budgets rather than clearing. */
    method RemoveAllListeners(event: JsValue) returns (error: Option<EventError>)
      requires Valid() && SafeToWalk(events, event)
      modifies this
      ensures Valid()
      ensures events == Dispatch(old(events), event).events
      ensures error == Dispatch(old(events), event).error
      ensures pending == old(pending)
    {
      var _, e := ProcessEventContext(event);
      error := e;
    }

    /** `getListeners`: the listeners the walk hands over, in order; the walk consumes their budgets too. */
    method GetListeners(event: JsValue) returns (r: Result<seq<ListenerId>, EventError>)
      requires Valid() && SafeToWalk(events, event)
      modifies this
      ensures Valid()
      ensures events == Dispatch(old(events), event).events
      ensures Dispatch(old(events), event).error.None? ==> r == Ok(Dispatch(old(events), event).fired)
      ensures Dispatch(old(events), event).error.Some? ==> r == Err(Dispatch(old(events), event).error.value)
      ensures pending == old(pending)
    {
      var listeners, e := ProcessEventContext(event);
      if e.Some? {
        return Err(e.value);
      }
      return Ok(listeners);
    }

    /**
     * `emitEvent`: every listener the walk hands over is queued with
     * `setImmediate`, in order, behind the calls already queued; those
     * queued before a TypeError stay queued.
     */
    method EmitEvent(event: JsValue, eventArgs: seq<JsValue>) returns (error: Option<EventError>)
      requires Valid() && SafeToWalk(events, event)
      modifies this
      ensures Valid()
      ensures events == Dispatch(old(events), event).events
      ensures pending == old(pending) + Dispatch(old(events), event).fired
      ensures error == Dispatch(old(events), event).error
    {
      var fired, e := ProcessEventContext(event);
      pending := pending + fired;
      error := e;
    }

    /** `emitEventSync`: the listeners the walk calls in place, in the order it calls them. */
    method EmitEventSync(event: JsValue, eventArgs: seq<JsValue>) returns (invoked: seq<ListenerId>, error: Option<EventError>)
      requires Valid() && SafeToWalk(events, event)
      modifies this
      ensures Valid()
      ensures events == Dispatch(old(events), event).events
      ensures invoked == Dispatch(old(events), event).fired
      ensures error == Dispatch(old(events), event).error
      ensures pending == old(pending)
    {
      invoked, error := ProcessEventContext(event);
    }
  }
}
