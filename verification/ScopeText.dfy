/** The text a grant's scope is keyed by: `JSON.stringify` of its controller, target
    and sorted actions, over UTF-16 code units. */
module ScopeText {
  import opened LabelText

  // ---- JSON strings

  function HexDigit(d: int): CodeUnit
    requires 0 <= d < 16
  {
    if d < 10 then 0x30 + d else 0x57 + d
  }

  function HexValue(c: CodeUnit): int {
    if c < 0x3a then c - 0x30 else c - 0x57
  }

  function Hex4(c: CodeUnit): Text {
    [HexDigit(c / 16 / 16 / 16), HexDigit(c / 16 / 16 % 16), HexDigit(c / 16 % 16), HexDigit(c % 16)]
  }

  lemma DigitReadsBack(d: int)
    requires 0 <= d < 16
    ensures HexValue(HexDigit(d)) == d
  {
  }

  lemma HexReadsBack(c: CodeUnit)
    ensures HexValue(Hex4(c)[0]) * 4096 + HexValue(Hex4(c)[1]) * 256 + HexValue(Hex4(c)[2]) * 16 + HexValue(Hex4(c)[3]) == c
  {
    var third, second, first := c / 16, c / 16 / 16, c / 16 / 16 / 16;
    DigitReadsBack(first);
    DigitReadsBack(second % 16);
    DigitReadsBack(third % 16);
    DigitReadsBack(c % 16);
    assert second == 16 * first + second % 16;
    assert third == 16 * second + third % 16;
  }

  /** The letter a short escape takes, or 0. */
  function ShortEscape(c: CodeUnit): CodeUnit {
    if c == 0x22 then 0x22
    else if c == 0x5c then 0x5c
    else if c == 0x8 then 0x62
    else if c == 0x9 then 0x74
    else if c == 0xa then 0x6e
    else if c == 0xc then 0x66
    else if c == 0xd then 0x72
    else 0
  }

  function ShortValue(letter: CodeUnit): CodeUnit {
    if letter == 0x62 then 0x8
    else if letter == 0x74 then 0x9
    else if letter == 0x6e then 0xa
    else if letter == 0x66 then 0xc
    else if letter == 0x72 then 0xd
    else letter
  }

  /** One unit that is not half of a surrogate pair. */
  function EscapedUnit(c: CodeUnit): Text {
    if ShortEscape(c) != 0 then [0x5c, ShortEscape(c)]
    else if c < 0x20 || HighSurrogate(c) || LowSurrogate(c) then [0x5c, 0x75] + Hex4(c)
    else [c]
  }

  /** A string's units escaped, then its closing quote, then `after`. */
  function EscapedThen(t: Text, after: Text): Text {
    if t == [] then [0x22] + after
    else if 2 <= |t| && HighSurrogate(t[0]) && LowSurrogate(t[1]) then [t[0]] + ([t[1]] + EscapedThen(t[2..], after))
    else EscapedUnit(t[0]) + EscapedThen(t[1..], after)
  }

  function QuotedThen(t: Text, after: Text): Text {
    [0x22] + EscapedThen(t, after)
  }

  /** A reader of what follows an opening quote: the text, and what comes after the
      closing quote. */
  function ReadString(s: Text): (Text, Text) {
    if s == [] then ([], [])
    else if s[0] == 0x22 then ([], s[1..])
    else if s[0] == 0x5c && 6 <= |s| && s[1] == 0x75 then
      var code := HexValue(s[2]) * 4096 + HexValue(s[3]) * 256 + HexValue(s[4]) * 16 + HexValue(s[5]);
      var rest := ReadString(s[6..]);
      ([if 0 <= code < 0x1_0000 then code else 0] + rest.0, rest.1)
    else if s[0] == 0x5c && 2 <= |s| then
      var rest := ReadString(s[2..]);
      ([ShortValue(s[1])] + rest.0, rest.1)
    else
      var rest := ReadString(s[1..]);
      ([s[0]] + rest.0, rest.1)
  }

  lemma UnitReadsBack(c: CodeUnit, s: Text)
    ensures ReadString(EscapedUnit(c) + s) == ([c] + ReadString(s).0, ReadString(s).1)
  {
    var unit := EscapedUnit(c);
    assert (unit + s)[|unit|..] == s;
    assert forall i :: 0 <= i < |unit| ==> (unit + s)[i] == unit[i];
    HexReadsBack(c);
  }

  lemma RawReadsBack(c: CodeUnit, s: Text)
    requires c != 0x22 && c != 0x5c
    ensures ReadString([c] + s) == ([c] + ReadString(s).0, ReadString(s).1)
  {
    assert ([c] + s)[1..] == s;
  }

  /** Reading back a quoted text gives the text, and leaves what follows it. */
  lemma {:induction false} QuotedReadsBack(t: Text, after: Text)
    ensures ReadString(EscapedThen(t, after)) == (t, after)
  {
    if t == [] {
      assert ([0x22] + after)[1..] == after;
    } else if 2 <= |t| && HighSurrogate(t[0]) && LowSurrogate(t[1]) {
      var rest := EscapedThen(t[2..], after);
      QuotedReadsBack(t[2..], after);
      RawReadsBack(t[1], rest);
      RawReadsBack(t[0], [t[1]] + rest);
      assert t == [t[0]] + ([t[1]] + t[2..]);
    } else {
      QuotedReadsBack(t[1..], after);
      UnitReadsBack(t[0], EscapedThen(t[1..], after));
      assert t == [t[0]] + t[1..];
    }
  }

  /** So a quoted text is never a proper part of another: both it and what follows
      are determined. */
  lemma QuotedIsInjective(a: Text, x: Text, b: Text, y: Text)
    requires QuotedThen(a, x) == QuotedThen(b, y)
    ensures a == b && x == y
  {
    QuotedReadsBack(a, x);
    QuotedReadsBack(b, y);
    SameAfterFirst(0x22, EscapedThen(a, x), EscapedThen(b, y));
  }

  lemma SameAfterFirst(c: CodeUnit, x: Text, y: Text)
    requires [c] + x == [c] + y
    ensures x == y
  {
    assert x == ([c] + x)[1..] && y == ([c] + y)[1..];
  }

  // ---- The key

  /** The elements after the first, each behind its comma, then the two closing
      brackets of the key. */
  function Continued(actions: seq<Text>): Text {
    if actions == [] then [0x5d, 0x5d] else [0x2c] + QuotedThen(actions[0], Continued(actions[1..]))
  }

  function ListEnd(actions: seq<Text>): Text {
    if actions == [] then [0x5d, 0x5d] else QuotedThen(actions[0], Continued(actions[1..]))
  }

  /** `["controller","target",["action",...]]`. */
  function ScopeKey(controller: Text, target: Text, actions: seq<Text>): Text {
    [0x5b] + QuotedThen(controller, [0x2c] + QuotedThen(target, [0x2c] + ([0x5b] + ListEnd(actions))))
  }

  lemma {:induction false} ContinuedIsInjective(a: seq<Text>, b: seq<Text>)
    requires Continued(a) == Continued(b)
    ensures a == b
  {
    assert Continued(a)[0] == Continued(b)[0];
    if a != [] && b != [] {
      SameAfterFirst(0x2c, QuotedThen(a[0], Continued(a[1..])), QuotedThen(b[0], Continued(b[1..])));
      QuotedIsInjective(a[0], Continued(a[1..]), b[0], Continued(b[1..]));
      ContinuedIsInjective(a[1..], b[1..]);
      assert a == [a[0]] + a[1..] && b == [b[0]] + b[1..];
    }
  }

  lemma ListIsInjective(a: seq<Text>, b: seq<Text>)
    requires ListEnd(a) == ListEnd(b)
    ensures a == b
  {
    assert ListEnd(a)[0] == ListEnd(b)[0];
    if a != [] && b != [] {
      QuotedIsInjective(a[0], Continued(a[1..]), b[0], Continued(b[1..]));
      ContinuedIsInjective(a[1..], b[1..]);
      assert a == [a[0]] + a[1..] && b == [b[0]] + b[1..];
    }
  }

  /** Two scopes have one key exactly when they are the same controller, target and
      list of actions. */
  lemma ScopeKeyIsInjective(c: Text, t: Text, a: seq<Text>, d: Text, u: Text, b: seq<Text>)
    ensures ScopeKey(c, t, a) == ScopeKey(d, u, b) <==> c == d && t == u && a == b
  {
    if ScopeKey(c, t, a) == ScopeKey(d, u, b) {
      var x, y := [0x5b] + ListEnd(a), [0x5b] + ListEnd(b);
      var v, w := QuotedThen(t, [0x2c] + x), QuotedThen(u, [0x2c] + y);
      SameAfterFirst(0x5b, QuotedThen(c, [0x2c] + v), QuotedThen(d, [0x2c] + w));
      QuotedIsInjective(c, [0x2c] + v, d, [0x2c] + w);
      SameAfterFirst(0x2c, v, w);
      QuotedIsInjective(t, [0x2c] + x, u, [0x2c] + y);
      SameAfterFirst(0x2c, x, y);
      SameAfterFirst(0x5b, ListEnd(a), ListEnd(b));
      ListIsInjective(a, b);
    }
  }

  // ---- The sort

  /** Code-unit order, the default of `Array.prototype.sort`. */
  predicate AtMost(a: Text, b: Text) {
    a == [] || (b != [] && (a[0] < b[0] || (a[0] == b[0] && AtMost(a[1..], b[1..]))))
  }

  lemma {:induction false} AtMostIsTotalOrder(a: Text, b: Text, c: Text)
    ensures AtMost(a, b) || AtMost(b, a)
    ensures AtMost(a, b) && AtMost(b, a) ==> a == b
    ensures AtMost(a, b) && AtMost(b, c) ==> AtMost(a, c)
    decreases |a| + |b| + |c|
  {
    if a != [] && b != [] && c != [] {
      AtMostIsTotalOrder(a[1..], b[1..], c[1..]);
      assert a == [a[0]] + a[1..] && b == [b[0]] + b[1..];
    } else if a != [] && b != [] {
      AtMostIsTotalOrder(a[1..], b[1..], c);
      assert a == [a[0]] + a[1..] && b == [b[0]] + b[1..];
    }
  }

  ghost predicate InOrder(s: seq<Text>) {
    forall i, j :: 0 <= i < j < |s| ==> AtMost(s[i], s[j])
  }

  function Inserted(x: Text, s: seq<Text>): seq<Text> {
    if s == [] || AtMost(x, s[0]) then [x] + s else [s[0]] + Inserted(x, s[1..])
  }

  function Sorted(s: seq<Text>): seq<Text> {
    if s == [] then [] else Inserted(s[0], Sorted(s[1..]))
  }

  lemma {:induction false} InsertedKeeps(x: Text, s: seq<Text>)
    requires InOrder(s)
    ensures multiset(Inserted(x, s)) == multiset(s) + multiset{x} && InOrder(Inserted(x, s))
  {
    if s == [] || AtMost(x, s[0]) {
      forall j | 0 <= j < |s| ensures AtMost(x, s[j]) { AtMostIsTotalOrder(x, s[0], s[j]); }
    } else {
      InsertedKeeps(x, s[1..]);
      AtMostIsTotalOrder(x, s[0], x);
      assert s == [s[0]] + s[1..];
      var r := Inserted(x, s[1..]);
      forall j | 0 <= j < |r| ensures AtMost(s[0], r[j]) {
        assert r[j] in multiset(r);
        assert r[j] == x || r[j] in s[1..];
      }
    }
  }

  lemma {:induction false} SortedKeeps(s: seq<Text>)
    ensures multiset(Sorted(s)) == multiset(s) && InOrder(Sorted(s))
  {
    if s != [] {
      SortedKeeps(s[1..]);
      InsertedKeeps(s[0], Sorted(s[1..]));
      assert s == [s[0]] + s[1..];
    }
  }

  lemma HeadIsLeast(a: seq<Text>, x: Text)
    requires a != [] && InOrder(a) && x in multiset(a)
    ensures AtMost(a[0], x)
  {
    AtMostIsTotalOrder(a[0], a[0], a[0]);
    var j :| 0 <= j < |a| && a[j] == x;
  }

  lemma TailMultiset(a: seq<Text>)
    requires a != []
    ensures multiset(a[1..]) == multiset(a) - multiset{a[0]}
  {
    assert a == [a[0]] + a[1..];
  }

  /** One order for one collection of actions. */
  lemma {:induction false} OrderIsUnique(a: seq<Text>, b: seq<Text>)
    requires InOrder(a) && InOrder(b) && multiset(a) == multiset(b)
    ensures a == b
  {
    assert |a| == |multiset(a)| && |b| == |multiset(b)|;
    if a != [] {
      assert a[0] in multiset(a) && b[0] in multiset(b);
      HeadIsLeast(a, b[0]);
      HeadIsLeast(b, a[0]);
      AtMostIsTotalOrder(a[0], b[0], b[0]);
      TailMultiset(a);
      TailMultiset(b);
      OrderIsUnique(a[1..], b[1..]);
      assert a == [a[0]] + a[1..] && b == [b[0]] + b[1..];
    }
  }

  /** Sorting forgets exactly the order. */
  lemma SortedEqualIff(a: seq<Text>, b: seq<Text>)
    ensures Sorted(a) == Sorted(b) <==> multiset(a) == multiset(b)
  {
    SortedKeeps(a);
    SortedKeeps(b);
    if multiset(a) == multiset(b) { OrderIsUnique(Sorted(a), Sorted(b)); }
  }
}
