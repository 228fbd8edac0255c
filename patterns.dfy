/**
 * Hand-written recognisers for the three regular expressions of
 * lib/events.js: EVT_PATH_PATTERN (a dotted topic path), EVT_RANGE_PATTERN
 * (a comma-separated scope) and RANGE_ITEM_PATTERN (one scope item, with its
 * two capture groups).
 */
module Patterns {
  import opened Wrappers
  import opened Strings

  /** One value of a scope item: `*` or `-?\d+`, kept as written. */
  datatype Token = Star | Number(negative: bool, digits: string)

  predicate TokenOk(t: Token) {
    t.Star? || (|t.digits| >= 1 && AllDigits(t.digits))
  }

  function ShowToken(t: Token): string {
    match t
    case Star => "*"
    case Number(negative, digits) => (if negative then "-" else "") + digits
  }

  /** A match of RANGE_ITEM_PATTERN: capture group 1, and group 2 when present. */
  datatype Item = Item(lo: Token, hi: Option<Token>)

  predicate ItemOk(it: Item) {
    TokenOk(it.lo) && (it.hi.Some? ==> TokenOk(it.hi.value))
  }

  function ShowItem(it: Item): string {
    ShowToken(it.lo) + (match it.hi case None => "" case Some(t) => "-" + ShowToken(t))
  }

  /** The longest token at the start of `s`, and the text after it. */
  function LeadToken(s: string): Option<(Token, string)> {
    if s != [] && s[0] == '*' then
      Some((Star, s[1..]))
    else
      var negative := s != [] && s[0] == '-';
      var body := if negative then s[1..] else s;
      var n := DigitRun(body);
      if n == 0 then None else Some((Number(negative, body[..n]), body[n..]))
  }

  lemma LeadTokenShown(s: string)
    ensures LeadToken(s).Some? ==>
      TokenOk(LeadToken(s).value.0) && ShowToken(LeadToken(s).value.0) + LeadToken(s).value.1 == s
    ensures LeadToken(s).Some? && LeadToken(s).value.0.Number? ==>
      LeadToken(s).value.1 == [] || !IsDigit(LeadToken(s).value.1[0])
  {
    if s != [] && s[0] == '*' {
      assert s == "*" + s[1..];
    } else {
      var negative := s != [] && s[0] == '-';
      var body := if negative then s[1..] else s;
      LeadNumberShown(s, negative, body);
    }
  }

  lemma LeadNumberShown(s: string, negative: bool, body: string)
    requires !(s != [] && s[0] == '*')
    requires negative == (s != [] && s[0] == '-')
    requires body == if negative then s[1..] else s
    ensures DigitRun(body) > 0 ==>
      var n := DigitRun(body);
      TokenOk(Number(negative, body[..n])) &&
      ShowToken(Number(negative, body[..n])) + body[n..] == s &&
      (body[n..] == [] || !IsDigit(body[n..][0]))
  {
    DigitRunSpec(body);
    var n := DigitRun(body);
    assert body[..n] + body[n..] == body;
    if negative {
      assert s == "-" + body;
    }
  }

  /** `s` read as exactly one token. */
  function WholeToken(s: string): Option<Token> {
    match LeadToken(s)
    case Some((t, rest)) => if rest == [] then Some(t) else None
    case None => None
  }

  /** RANGE_ITEM_PATTERN applied to one comma item, giving its capture groups. */
  function ParseItem(item: string): Option<Item> {
    match LeadToken(item)
    case None => None
    case Some((lo, rest)) =>
      if rest == [] then Some(Item(lo, None))
      else if rest[0] == '-' then
        match WholeToken(rest[1..])
        case Some(hi) => Some(Item(lo, Some(hi)))
        case None => None
      else None
  }

  /** Whatever the recogniser accepts is the rendering of the item it returns: it never invents text. */
  lemma ParseItemShown(item: string)
    ensures ParseItem(item).Some? ==> ItemOk(ParseItem(item).value) && ShowItem(ParseItem(item).value) == item
  {
    LeadTokenShown(item);
    if LeadToken(item).Some? {
      var (lo, rest) := LeadToken(item).value;
      if rest != [] && rest[0] == '-' {
        LeadTokenShown(rest[1..]);
        assert rest == "-" + rest[1..];
      }
    }
  }

  lemma LeadTokenOfShow(t: Token, tail: string)
    requires TokenOk(t)
    requires t.Number? ==> tail == [] || !IsDigit(tail[0])
    ensures LeadToken(ShowToken(t) + tail) == Some((t, tail))
  {
    if t.Star? {
      var s := ShowToken(t) + tail;
      assert s[0] == '*' && s[1..] == tail;
    } else {
      LeadNumberOfShow(t.negative, t.digits, tail);
    }
  }

  lemma LeadNumberOfShow(negative: bool, digits: string, tail: string)
    requires |digits| >= 1 && AllDigits(digits)
    requires tail == [] || !IsDigit(tail[0])
    ensures LeadToken(ShowToken(Number(negative, digits)) + tail) == Some((Number(negative, digits), tail))
  {
    var body := digits + tail;
    DigitRunOfDigits(digits, tail);
    assert body[..|digits|] == digits && body[|digits|..] == tail;
    var s := ShowToken(Number(negative, digits)) + tail;
    if negative {
      assert s == "-" + body;
      assert s[1..] == body;
    } else {
      assert s == body;
    }
    assert s[0] != '*';
  }

  lemma WholeTokenOfShow(t: Token)
    requires TokenOk(t)
    ensures WholeToken(ShowToken(t)) == Some(t)
  {
    LeadTokenOfShow(t, "");
    assert ShowToken(t) + "" == ShowToken(t);
  }

  lemma ParseShowSpan(lo: Token, hi: Token)
    requires TokenOk(lo) && TokenOk(hi)
    ensures ParseItem(ShowToken(lo) + ("-" + ShowToken(hi))) == Some(Item(lo, Some(hi)))
  {
    var tail := "-" + ShowToken(hi);
    LeadTokenOfShow(lo, tail);
    WholeTokenOfShow(hi);
    assert tail[0] == '-' && tail[1..] == ShowToken(hi);
  }

  /**
   * Every well-formed item is accepted and read back as itself: together
   * with ParseItemShown, the recogniser accepts exactly the language of
   * RANGE_ITEM_PATTERN and returns its capture groups.
   */
  lemma ParseShowItem(it: Item)
    requires ItemOk(it)
    ensures ParseItem(ShowItem(it)) == Some(it)
  {
    match it.hi
    case None =>
      LeadTokenOfShow(it.lo, "");
      assert ShowItem(it) == ShowToken(it.lo) + "";
    case Some(hi) =>
      ParseShowSpan(it.lo, hi);
  }

  /** One segment of EVT_PATH_PATTERN: `\*` or `[a-z]\w*` under the `i` flag. */
  predicate SegmentOk(seg: string) {
    seg == "*" ||
    (|seg| >= 1 && IsLetter(seg[0]) && forall k :: 1 <= k < |seg| ==> IsWordChar(seg[k]))
  }

  /** EVT_PATH_PATTERN: one or more segments joined by `.`. */
  predicate PathMatches(path: string) {
    var segs := Split(path, '.');
    forall k :: 0 <= k < |segs| ==> SegmentOk(segs[k])
  }

  /** EVT_RANGE_PATTERN: one or more items joined by `,`. */
  predicate RangeMatches(range: string) {
    var items := Split(range, ',');
    forall k :: 0 <= k < |items| ==> ParseItem(items[k]).Some?
  }

  /**
   * EVT_PATH_PATTERN's language is the set of dot-joins of valid segments,
   * and splitting such a path on `.` returns those segments.
   */
  lemma {:induction false} PathLanguage(segs: seq<string>)
    requires |segs| >= 1
    requires forall k :: 0 <= k < |segs| ==> SegmentOk(segs[k])
    ensures PathMatches(Join(segs, '.'))
    ensures Split(Join(segs, '.'), '.') == segs
  {
    forall k | 0 <= k < |segs| ensures '.' !in segs[k] {
      assert forall j :: 0 <= j < |segs[k]| ==> segs[k][j] != '.';
    }
    SplitJoin(segs, '.');
  }
}
