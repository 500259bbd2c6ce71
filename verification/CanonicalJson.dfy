/** The canonical plan text: sorted keys, no spaces, ASCII escapes, numbers as lexemes (RFC 8259). */
module CanonicalJson {

  // ---- Text: a Python str, a sequence of code points (surrogates may stand alone).

  type CodePoint = c: int | 0 <= c < 0x11_0000
  type Text = seq<CodePoint>

  predicate High(c: int) { 0xD800 <= c < 0xDC00 }
  predicate Low(c: int) { 0xDC00 <= c < 0xE000 }

  /** No high surrogate directly before a low one. A JSON reader never produces such a pair: it joins it. */
  predicate NoPair(x: Text) {
    forall i :: 0 <= i < |x| - 1 ==> !(High(x[i]) && Low(x[i + 1]))
  }

  /** A str built from a literal. */
  function Lit(s: string): (x: Text)
    ensures |x| == |s| && forall i :: 0 <= i < |s| ==> x[i] == s[i] as int
  {
    seq(|s|, i requires 0 <= i < |s| => s[i] as int)
  }

  lemma LitFaithful(s: string, t: string)
    ensures NoPair(Lit(s))
    ensures Lit(s) == Lit(t) <==> s == t
  {}

  /** The code units the encoder escapes: one per basic code point, a surrogate pair otherwise. */
  function Units(x: Text): seq<int> {
    if x == [] then []
    else if x[0] < 0x1_0000 then [x[0]] + Units(x[1..])
    else [0xD800 + (x[0] - 0x1_0000) / 0x400, 0xDC00 + (x[0] - 0x1_0000) % 0x400] + Units(x[1..])
  }

  lemma {:induction false} UnitsInjective(x: Text, y: Text)
    requires NoPair(x) && NoPair(y) && Units(x) == Units(y)
    ensures x == y
  {
    if x == [] || y == [] {
    } else {
      var a, b := Units(x), Units(y);
      if x[0] < 0x1_0000 && y[0] < 0x1_0000 {
        assert a[1..] == Units(x[1..]) && b[1..] == Units(y[1..]);
        UnitsInjective(x[1..], y[1..]);
      } else if x[0] >= 0x1_0000 && y[0] >= 0x1_0000 {
        assert a[2..] == Units(x[1..]) && b[2..] == Units(y[1..]);
        assert a[0] == b[0] && a[1] == b[1];
        UnitsInjective(x[1..], y[1..]);
      } else if x[0] < 0x1_0000 {
        NoLowAfterHigh(x, b);
      } else {
        NoLowAfterHigh(y, a);
      }
    }
  }

  lemma NoLowAfterHigh(x: Text, units: seq<int>)
    requires NoPair(x) && Units(x) == units && |x| > 0 && x[0] < 0x1_0000
    ensures |units| >= 2 && High(units[0]) ==> !Low(units[1])
  {}

  /** Read code units back, joining every pair. */
  function Join(units: seq<int>): Text
    requires forall i :: 0 <= i < |units| ==> 0 <= units[i] < 0x1_0000
  {
    if units == [] then []
    else if |units| >= 2 && High(units[0]) && Low(units[1]) then
      [0x1_0000 + (units[0] - 0xD800) * 0x400 + (units[1] - 0xDC00)] + Join(units[2..])
    else [units[0]] + Join(units[1..])
  }

  lemma {:induction false} JoinReads(units: seq<int>)
    requires forall i :: 0 <= i < |units| ==> 0 <= units[i] < 0x1_0000
    ensures NoPair(Join(units)) && Units(Join(units)) == units
  {
    if units == [] {
    } else {
      var x := Join(units);
      if |units| >= 2 && High(units[0]) && Low(units[1]) {
        JoinReads(units[2..]);
        assert x[1..] == Join(units[2..]);
        assert units == units[..2] + units[2..];
      } else {
        JoinReads(units[1..]);
        assert x[1..] == Join(units[1..]);
        assert units == [units[0]] + units[1..];
        if |x| > 1 {
          assert Units(x[1..])[0] == units[1];
        }
      }
      forall i | 0 <= i < |x| - 1 ensures !(High(x[i]) && Low(x[i + 1])) {
        if i > 0 { assert x[i] == x[1..][i - 1] && x[i + 1] == x[1..][i]; }
      }
    }
  }

  lemma {:induction false} UnitsInRange(x: Text)
    ensures forall i :: 0 <= i < |Units(x)| ==> 0 <= Units(x)[i] < 0x1_0000
  {
    if x == [] {
    } else {
      UnitsInRange(x[1..]);
    }
  }

  // ---- Escaping. Printers take the text that follows, so every claim below is about one equality.

  function HexDigit(d: int): char
    requires 0 <= d < 16
  {
    "0123456789abcdef"[d]
  }

  function Hex(u: int): (r: string)
    requires 0 <= u < 0x1_0000
    ensures |r| == 4
  {
    [HexDigit(u / 16 / 16 / 16), HexDigit(u / 16 / 16 % 16), HexDigit(u / 16 % 16), HexDigit(u % 16)]
  }

  function Escape(u: int): (r: string)
    requires 0 <= u < 0x1_0000
    ensures r != [] && r[0] != '"'
  {
    if u == 0x22 then "\\\""
    else if u == 0x5C then "\\\\"
    else if 0x20 <= u <= 0x7E then [u as char]
    else if u == 0x0A then "\\n"
    else if u == 0x0D then "\\r"
    else if u == 0x09 then "\\t"
    else if u == 0x0C then "\\f"
    else if u == 0x08 then "\\b"
    else "\\u" + Hex(u)
  }

  function PutUnits(units: seq<int>, rest: string): (r: string)
    requires forall i :: 0 <= i < |units| ==> 0 <= units[i] < 0x1_0000
    ensures r != [] && (r[0] == '"' <==> units == [])
  {
    if units == [] then ['"'] + rest else Escape(units[0]) + PutUnits(units[1..], rest)
  }

  /** A string value, quotes included, followed by `rest`. */
  function PutText(x: Text, rest: string): string {
    UnitsInRange(x);
    ['"'] + PutUnits(Units(x), rest)
  }

  lemma HexInjective(u: int, v: int)
    requires 0 <= u < 0x1_0000 && 0 <= v < 0x1_0000 && Hex(u) == Hex(v)
    ensures u == v
  {
    var a, b := Hex(u), Hex(v);
    assert a[0] == b[0] && a[1] == b[1] && a[2] == b[2] && a[3] == b[3];
    HexDigitInjective(u / 16 / 16 / 16, v / 16 / 16 / 16);
    HexDigitInjective(u / 16 / 16 % 16, v / 16 / 16 % 16);
    HexDigitInjective(u / 16 % 16, v / 16 % 16);
    HexDigitInjective(u % 16, v % 16);
  }

  lemma HexDigitInjective(a: int, b: int)
    requires 0 <= a < 16 && 0 <= b < 16 && HexDigit(a) == HexDigit(b)
    ensures a == b
  {}

  lemma SplitEqual(a: string, b: string, s: string, t: string)
    requires a + s == b + t && |a| == |b|
    ensures a == b && s == t
  {
    assert a == (a + s)[..|a|] && b == (b + t)[..|b|];
    assert s == (a + s)[|a|..] && t == (b + t)[|b|..];
  }

  /** What an escape of fewer than six characters stands for. */
  function ShortMeaning(e: string): int
    requires |e| == 1 || |e| == 2
  {
    if |e| == 1 then e[0] as int
    else
      match e[1]
      case 'n' => 0x0A
      case 'r' => 0x0D
      case 't' => 0x09
      case 'f' => 0x0C
      case 'b' => 0x08
      case c => c as int
  }

  lemma EscapeRead(u: int)
    requires 0 <= u < 0x1_0000
    ensures |Escape(u)| == 1 || |Escape(u)| == 2 ==> ShortMeaning(Escape(u)) == u
    ensures |Escape(u)| != 1 && |Escape(u)| != 2 ==> |Escape(u)| == 6 && Escape(u)[2..] == Hex(u)
  {}

  lemma EscapeInjective(u: int, v: int)
    requires 0 <= u < 0x1_0000 && 0 <= v < 0x1_0000 && Escape(u) == Escape(v)
    ensures u == v
  {
    EscapeRead(u);
    EscapeRead(v);
    if |Escape(u)| == 6 { HexInjective(u, v); }
  }

  lemma EscapePrefixFree(u: int, v: int, s: string, t: string)
    requires 0 <= u < 0x1_0000 && 0 <= v < 0x1_0000
    requires Escape(u) + s == Escape(v) + t
    ensures u == v && s == t
  {
    var a, b := Escape(u), Escape(v);
    var l := a + s;
    assert a[0] == l[0] && b[0] == l[0];
    if |a| >= 2 && |b| >= 2 {
      assert a[1] == l[1] && b[1] == l[1];
    }
    assert |a| == |b|;
    SplitEqual(a, b, s, t);
    EscapeInjective(u, v);
  }

  lemma {:induction false} PutUnitsInjective(us: seq<int>, vs: seq<int>, s: string, t: string)
    requires forall i :: 0 <= i < |us| ==> 0 <= us[i] < 0x1_0000
    requires forall i :: 0 <= i < |vs| ==> 0 <= vs[i] < 0x1_0000
    requires PutUnits(us, s) == PutUnits(vs, t)
    ensures us == vs && s == t
  {
    var l := PutUnits(us, s);
    if us == [] && vs == [] {
      assert s == l[1..] && t == l[1..];
    } else if us != [] && vs != [] {
      EscapePrefixFree(us[0], vs[0], PutUnits(us[1..], s), PutUnits(vs[1..], t));
      PutUnitsInjective(us[1..], vs[1..], s, t);
    }
  }

  lemma PutTextInjective(x: Text, y: Text, s: string, t: string)
    requires PutText(x, s) == PutText(y, t)
    ensures Units(x) == Units(y) && s == t
    ensures NoPair(x) && NoPair(y) ==> x == y
  {
    UnitsInRange(x);
    UnitsInRange(y);
    assert PutText(x, s)[1..] == PutUnits(Units(x), s) && PutText(y, t)[1..] == PutUnits(Units(y), t);
    PutUnitsInjective(Units(x), Units(y), s, t);
    if NoPair(x) && NoPair(y) { UnitsInjective(x, y); }
  }

  /** Two strs print alike exactly if their code units are the same. */
  lemma PrintedAlike(x: Text, y: Text)
    ensures PutText(x, "") == PutText(y, "") <==> Units(x) == Units(y)
  {
    if PutText(x, "") == PutText(y, "") { PutTextInjective(x, y, "", ""); }
  }

  predicate Basic(x: Text) {
    forall i :: 0 <= i < |x| ==> x[i] < 0x1_0000
  }

  lemma {:induction false} BasicUnits(x: Text)
    requires Basic(x)
    ensures Units(x) == x
  {
    if x == [] {
    } else {
      BasicUnits(x[1..]);
      assert x == [x[0]] + x[1..];
    }
  }

  lemma {:induction false} PairFromAbove(y: Text)
    requires !Basic(y)
    ensures exists i :: 0 <= i < |Units(y)| - 1 && High(Units(y)[i]) && Low(Units(y)[i + 1])
  {
    var u := Units(y);
    if y[0] >= 0x1_0000 {
      assert High(u[0]) && Low(u[1]);
    } else {
      PairFromAbove(y[1..]);
      var i :| 0 <= i < |Units(y[1..])| - 1 && High(Units(y[1..])[i]) && Low(Units(y[1..])[i + 1]);
      assert u[i + 1] == Units(y[1..])[i] && u[i + 2] == Units(y[1..])[i + 1];
    }
  }

  /** The units of a str, each as a code point of its own, print as the str does. */
  lemma SpelledOut(x: Text) returns (y: Text)
    ensures Basic(y) && y == Units(x) && Units(y) == Units(x)
  {
    UnitsInRange(x);
    y := Units(x);
    BasicUnits(y);
  }

  /** Printed text identifies a str among all strs if and only if the str has no surrogate pair
      and no code point that is printed as one. */
  lemma TextIdentified(x: Text)
    ensures (forall y: Text :: PutText(y, "") == PutText(x, "") ==> y == x) <==> NoPair(x) && Basic(x)
  {
    if NoPair(x) && Basic(x) {
      forall y: Text | PutText(y, "") == PutText(x, "") ensures y == x {
        PrintedAlike(y, x);
        BasicUnits(x);
        if Basic(y) { BasicUnits(y); } else { PairFromAbove(y); }
      }
    } else if Basic(x) {
      UnitsInRange(x);
      JoinReads(Units(x));
      PrintedAlike(Join(Units(x)), x);
    } else {
      var y := SpelledOut(x);
      PrintedAlike(y, x);
    }
  }

  /** Among the strs a JSON reader can produce, it identifies exactly those that could come from one. */
  lemma ReadTextIdentified(x: Text)
    ensures (forall y: Text :: NoPair(y) && PutText(y, "") == PutText(x, "") ==> y == x) <==> NoPair(x)
  {
    if NoPair(x) {
      forall y: Text | NoPair(y) && PutText(y, "") == PutText(x, "") ensures y == x {
        PutTextInjective(x, y, "", "");
      }
    } else {
      UnitsInRange(x);
      JoinReads(Units(x));
      PrintedAlike(Join(Units(x)), x);
    }
  }

  /** U+10000 and the two lone surrogates D800 DC00 are different strs with the same printed text. */
  lemma LoneSurrogatesCollide()
    ensures var x: Text, y: Text := [0x1_0000], [0xD800, 0xDC00];
      x != y && PutText(x, "") == PutText(y, "")
  {
    var x: Text, y: Text := [0x1_0000], [0xD800, 0xDC00];
    assert Units(x[1..]) == [] && Units(y[1..][1..]) == [];
    assert Units(y[1..]) == [0xDC00];
    assert Units(x) == [0xD800, 0xDC00] == Units(y);
  }

  // ---- Trees. An object keeps its insertion order, as a Python dict does.

  datatype Member = Member(key: Text, value: Json)

  datatype Json =
    | Null
    | Bool(b: bool)
    | Num(lexeme: string)
    | Str(text: Text)
    | Arr(items: seq<Json>)
    | Obj(members: seq<Member>)

  /** Characters of the lexemes the encoder writes for numbers, its NaN and Infinity spellings included. */
  predicate NumChar(c: char) {
    '0' <= c <= '9' || c in "+-.eENaInfity"
  }

  predicate NumLexeme(l: string) {
    && l != [] && ('0' <= l[0] <= '9' || l[0] in "-NI")
    && forall i :: 0 <= i < |l| ==> NumChar(l[i])
  }

  /** str(n), which is also how the encoder writes an integer. */
  function Decimal(n: int): (r: string)
    ensures NumLexeme(r)
  {
    if n < 0 then ['-'] + Digits(-n) else Digits(n)
  }

  function Digits(n: nat): (r: string)
    ensures r != [] && forall i :: 0 <= i < |r| ==> '0' <= r[i] <= '9'
  {
    if n < 10 then [(n + '0' as int) as char] else Digits(n / 10) + [(n % 10 + '0' as int) as char]
  }

  lemma {:induction false} DigitsInjective(m: nat, n: nat)
    requires Digits(m) == Digits(n)
    ensures m == n
  {
    var a, b := Digits(m), Digits(n);
    assert a[|a| - 1] as int - '0' as int == m % 10 && b[|b| - 1] as int - '0' as int == n % 10;
    if m < 10 || n < 10 {
    } else {
      assert a[..|a| - 1] == Digits(m / 10) && b[..|b| - 1] == Digits(n / 10);
      DigitsInjective(m / 10, n / 10);
    }
  }

  lemma DecimalInjective(m: int, n: int)
    requires Decimal(m) == Decimal(n)
    ensures m == n
  {
    if m < 0 && n < 0 {
      assert Decimal(m)[1..] == Digits(-m) && Decimal(n)[1..] == Digits(-n);
      DigitsInjective(-m, -n);
    } else if m >= 0 && n >= 0 {
      DigitsInjective(m, n);
    }
  }

  ghost predicate DistinctKeys(ms: seq<Member>) {
    forall i, k :: 0 <= i < k < |ms| ==> ms[i].key != ms[k].key
  }

  /** A tree a JSON reader can hand over: distinct keys, proper lexemes, joined surrogates. */
  ghost predicate WellFormed(j: Json) {
    match j
    case Num(l) => NumLexeme(l)
    case Str(x) => NoPair(x)
    case Arr(xs) => forall i :: 0 <= i < |xs| ==> WellFormed(xs[i])
    case Obj(ms) => DistinctKeys(ms) && forall i :: 0 <= i < |ms| ==> NoPair(ms[i].key) && WellFormed(ms[i].value)
    case _ => true
  }

  /** The same JSON tree up to the order of members, numbers compared by lexeme. */
  ghost predicate SameTree(j: Json, k: Json)
    decreases j
  {
    match (j, k)
    case (Arr(xs), Arr(ys)) => |xs| == |ys| && forall i :: 0 <= i < |xs| ==> SameTree(xs[i], ys[i])
    case (Obj(ms), Obj(ns)) =>
      && Keys(ms) == Keys(ns)
      && forall a, b :: 0 <= a < |ms| && 0 <= b < |ns| && ms[a].key == ns[b].key ==> SameTree(ms[a].value, ns[b].value)
    case _ => j == k
  }

  function Keys(ms: seq<Member>): set<Text> {
    set i | 0 <= i < |ms| :: ms[i].key
  }

  // ---- Printing a tree in the order it stands.

  function Put(j: Json, rest: string): string
    decreases j, 0
  {
    match j
    case Null => "null" + rest
    case Bool(b) => (if b then "true" else "false") + rest
    case Num(l) => l + rest
    case Str(x) => PutText(x, rest)
    case Arr(xs) => ['['] + (if xs == [] then [']'] + rest else Put(xs[0], PutItems(xs[1..], rest)))
    case Obj(ms) => ['{'] + (if ms == [] then ['}'] + rest else PutMember(ms[0], PutMembers(ms[1..], rest)))
  }

  function PutItems(xs: seq<Json>, rest: string): string
    decreases xs, 1
  {
    if xs == [] then [']'] + rest else [','] + Put(xs[0], PutItems(xs[1..], rest))
  }

  function PutMember(m: Member, rest: string): string
    decreases m, 1
  {
    PutText(m.key, [':'] + Put(m.value, rest))
  }

  function PutMembers(ms: seq<Member>, rest: string): string
    decreases ms, 1
  {
    if ms == [] then ['}'] + rest else [','] + PutMember(ms[0], PutMembers(ms[1..], rest))
  }

  /** What may follow a printed value: nothing, a comma or a closing bracket. */
  predicate Follows(rest: string) {
    rest == [] || rest[0] in ",]}"
  }

  lemma StartsWithNumChar(l: string, rest: string)
    requires Follows(rest) && forall i :: 0 <= i < |l| ==> NumChar(l[i])
    ensures l != [] <==> l + rest != [] && NumChar((l + rest)[0])
  {}

  lemma {:induction false} MaximalMunch(l: string, m: string, s: string, t: string)
    requires forall i :: 0 <= i < |l| ==> NumChar(l[i])
    requires forall i :: 0 <= i < |m| ==> NumChar(m[i])
    requires Follows(s) && Follows(t) && l + s == m + t
    ensures l == m && s == t
  {
    StartsWithNumChar(l, s);
    StartsWithNumChar(m, t);
    if l == [] {
      assert l + s == s && m + t == t;
    } else {
      assert (l + s)[1..] == l[1..] + s && (m + t)[1..] == m[1..] + t;
      assert (l + s)[0] == l[0] && (m + t)[0] == m[0];
      MaximalMunch(l[1..], m[1..], s, t);
      assert l == [l[0]] + l[1..] && m == [m[0]] + m[1..];
    }
  }

  /** The first character tells the kind of value. */
  function Kind(j: Json): int {
    match j
    case Null => 0
    case Bool(b) => if b then 1 else 2
    case Num(_) => 3
    case Str(_) => 4
    case Arr(_) => 5
    case Obj(_) => 6
  }

  predicate Starts(c: char, kind: int) {
    match kind
    case 0 => c == 'n' case 1 => c == 't' case 2 => c == 'f'
    case 3 => '0' <= c <= '9' || c in "-NI"
    case 4 => c == '"' case 5 => c == '[' case _ => c == '{'
  }

  lemma FirstChar(j: Json, rest: string)
    requires WellFormed(j)
    ensures Put(j, rest) != [] && Starts(Put(j, rest)[0], Kind(j))
  {}

  lemma ArrayOpens(xs: seq<Json>, rest: string)
    requires WellFormed(Arr(xs))
    ensures var l := Put(Arr(xs), rest);
      |l| >= 2 && (xs == [] <==> l[1] == ']')
  {}

  /** The printed text determines the tree, member order included, and where it ends. */
  lemma {:induction false} PutInjective(j: Json, k: Json, s: string, t: string)
    requires WellFormed(j) && WellFormed(k) && Follows(s) && Follows(t)
    requires Put(j, s) == Put(k, t)
    ensures j == k && s == t
    decreases j, 0
  {
    FirstChar(j, s);
    FirstChar(k, t);
    assert Kind(j) == Kind(k);
    match j
    case Null => SplitEqual("null", "null", s, t);
    case Bool(b) => SplitEqual(if b then "true" else "false", if b then "true" else "false", s, t);
    case Num(l) => MaximalMunch(l, k.lexeme, s, t);
    case Str(x) => PutTextInjective(x, k.text, s, t);
    case Arr(xs) => PutArrayInjective(xs, k.items, s, t);
    case Obj(ms) => PutObjectInjective(ms, k.members, s, t);
  }

  lemma {:induction false} PutArrayInjective(xs: seq<Json>, ys: seq<Json>, s: string, t: string)
    requires WellFormed(Arr(xs)) && WellFormed(Arr(ys)) && Put(Arr(xs), s) == Put(Arr(ys), t)
    ensures xs == ys && s == t
    decreases xs, 2
  {
    var l := Put(Arr(xs), s);
    ArrayOpens(xs, s);
    ArrayOpens(ys, t);
    if xs == [] {
      assert l[2..] == s && l[2..] == t;
    } else {
      assert l[1..] == Put(xs[0], PutItems(xs[1..], s)) && l[1..] == Put(ys[0], PutItems(ys[1..], t));
      PutInjective(xs[0], ys[0], PutItems(xs[1..], s), PutItems(ys[1..], t));
      PutItemsInjective(xs[1..], ys[1..], s, t);
    }
  }

  lemma {:induction false} PutObjectInjective(ms: seq<Member>, ns: seq<Member>, s: string, t: string)
    requires WellFormed(Obj(ms)) && WellFormed(Obj(ns)) && Put(Obj(ms), s) == Put(Obj(ns), t)
    ensures ms == ns && s == t
    decreases ms, 2
  {
    var l := Put(Obj(ms), s);
    assert l[1] == '"' <==> ms != [];
    if ms == [] {
      assert l[2..] == s && l[2..] == t;
    } else {
      assert l[1..] == PutMember(ms[0], PutMembers(ms[1..], s)) && l[1..] == PutMember(ns[0], PutMembers(ns[1..], t));
      PutMemberInjective(ms[0], ns[0], PutMembers(ms[1..], s), PutMembers(ns[1..], t));
      PutMembersInjective(ms[1..], ns[1..], s, t);
    }
  }

  lemma {:induction false} PutItemsInjective(xs: seq<Json>, ys: seq<Json>, s: string, t: string)
    requires forall i :: 0 <= i < |xs| ==> WellFormed(xs[i])
    requires forall i :: 0 <= i < |ys| ==> WellFormed(ys[i])
    requires PutItems(xs, s) == PutItems(ys, t)
    ensures xs == ys && s == t
    decreases xs, 1
  {
    assert PutItems(xs, s)[0] == PutItems(ys, t)[0];
    if xs == [] {
      SplitEqual("]", "]", s, t);
    } else {
      SplitEqual(",", ",", PutItems(xs, s)[1..], PutItems(ys, t)[1..]);
      PutInjective(xs[0], ys[0], PutItems(xs[1..], s), PutItems(ys[1..], t));
      PutItemsInjective(xs[1..], ys[1..], s, t);
    }
  }

  lemma {:induction false} PutMemberInjective(m: Member, n: Member, s: string, t: string)
    requires NoPair(m.key) && NoPair(n.key) && WellFormed(m.value) && WellFormed(n.value) && Follows(s) && Follows(t)
    requires PutMember(m, s) == PutMember(n, t)
    ensures m == n && s == t
    decreases m, 1
  {
    PutTextInjective(m.key, n.key, [':'] + Put(m.value, s), [':'] + Put(n.value, t));
    SplitEqual(":", ":", Put(m.value, s), Put(n.value, t));
    PutInjective(m.value, n.value, s, t);
  }

  lemma {:induction false} PutMembersInjective(ms: seq<Member>, ns: seq<Member>, s: string, t: string)
    requires forall i :: 0 <= i < |ms| ==> NoPair(ms[i].key) && WellFormed(ms[i].value)
    requires forall i :: 0 <= i < |ns| ==> NoPair(ns[i].key) && WellFormed(ns[i].value)
    requires PutMembers(ms, s) == PutMembers(ns, t)
    ensures ms == ns && s == t
    decreases ms, 1
  {
    assert PutMembers(ms, s)[0] == PutMembers(ns, t)[0];
    if ms == [] {
      SplitEqual("}", "}", s, t);
    } else {
      SplitEqual(",", ",", PutMembers(ms, s)[1..], PutMembers(ns, t)[1..]);
      PutMemberInjective(ms[0], ns[0], PutMembers(ms[1..], s), PutMembers(ns[1..], t));
      PutMembersInjective(ms[1..], ns[1..], s, t);
    }
  }

  // ---- Sorting keys.

  /** Code-point order, the order Python sorts strs in. */
  predicate Less(x: Text, y: Text) {
    y != [] && (x == [] || x[0] < y[0] || (x[0] == y[0] && Less(x[1..], y[1..])))
  }

  lemma {:induction false} LessTrichotomy(x: Text, y: Text)
    ensures x != y ==> Less(x, y) || Less(y, x)
    ensures !(Less(x, y) && Less(y, x)) && !Less(x, x)
  {
    if x == [] || y == [] {
    } else {
      LessTrichotomy(x[1..], y[1..]);
      if x[0] == y[0] && x[1..] == y[1..] {
        assert x == [x[0]] + x[1..] && y == [y[0]] + y[1..];
      }
    }
    if x != [] { LessTrichotomy(x[1..], x[1..]); }
  }

  lemma {:induction false} LessTransitive(x: Text, y: Text, z: Text)
    requires Less(x, y) && Less(y, z)
    ensures Less(x, z)
  {
    if x == [] {
    } else if x[0] == y[0] && y[0] == z[0] {
      LessTransitive(x[1..], y[1..], z[1..]);
    }
  }

  ghost predicate Sorted(ms: seq<Member>) {
    forall i, k :: 0 <= i < k < |ms| ==> Less(ms[i].key, ms[k].key)
  }

  function Insert(m: Member, ms: seq<Member>): seq<Member> {
    if ms == [] || Less(m.key, ms[0].key) then [m] + ms else [ms[0]] + Insert(m, ms[1..])
  }

  function Sort(ms: seq<Member>): seq<Member> {
    if ms == [] then [] else Insert(ms[0], Sort(ms[1..]))
  }

  lemma {:induction false} InsertPermutes(m: Member, ms: seq<Member>)
    ensures multiset(Insert(m, ms)) == multiset{m} + multiset(ms)
  {
    if ms == [] || Less(m.key, ms[0].key) {
    } else {
      InsertPermutes(m, ms[1..]);
      assert ms == [ms[0]] + ms[1..];
    }
  }

  ghost predicate AllAbove(key: Text, ms: seq<Member>) {
    forall k :: 0 <= k < |ms| ==> Less(key, ms[k].key)
  }

  lemma {:induction false} InsertAbove(key: Text, m: Member, ms: seq<Member>)
    requires Less(key, m.key) && AllAbove(key, ms)
    ensures AllAbove(key, Insert(m, ms))
  {
    if ms == [] || Less(m.key, ms[0].key) {
    } else {
      InsertAbove(key, m, ms[1..]);
    }
  }

  lemma {:induction false} InsertSorted(m: Member, ms: seq<Member>)
    requires Sorted(ms) && forall k :: 0 <= k < |ms| ==> ms[k].key != m.key
    ensures Sorted(Insert(m, ms))
  {
    if ms == [] {
    } else if Less(m.key, ms[0].key) {
      forall k | 1 <= k < |ms| ensures Less(m.key, ms[k].key) {
        LessTransitive(m.key, ms[0].key, ms[k].key);
      }
    } else {
      LessTrichotomy(m.key, ms[0].key);
      InsertSorted(m, ms[1..]);
      InsertAbove(ms[0].key, m, ms[1..]);
    }
  }

  lemma {:induction false} SortKeeps(ms: seq<Member>)
    ensures multiset(Sort(ms)) == multiset(ms)
    ensures DistinctKeys(ms) ==> Sorted(Sort(ms))
  {
    if ms == [] {
    } else {
      var tail := Sort(ms[1..]);
      SortKeeps(ms[1..]);
      InsertPermutes(ms[0], tail);
      assert ms == [ms[0]] + ms[1..];
      if DistinctKeys(ms) {
        forall i | 0 <= i < |tail| ensures tail[i].key != ms[0].key {
          assert tail[i] in multiset(tail);
          assert tail[i] in ms[1..];
        }
        InsertSorted(ms[0], tail);
      }
    }
  }

  /** The head of a sorted list is below every other member. */
  lemma HeadIsLeast(ms: seq<Member>, m: Member)
    requires Sorted(ms) && m in ms && m != ms[0]
    ensures Less(ms[0].key, m.key)
  {}

  lemma SameHead(ms: seq<Member>, ns: seq<Member>)
    requires Sorted(ms) && Sorted(ns) && ms != [] && ns != [] && multiset(ms) == multiset(ns)
    ensures ms[0] == ns[0]
  {
    assert ms[0] in multiset(ns) && ns[0] in multiset(ms);
    if ms[0] != ns[0] {
      HeadIsLeast(ms, ns[0]);
      HeadIsLeast(ns, ms[0]);
      LessTrichotomy(ms[0].key, ns[0].key);
    }
  }

  lemma SameTail(ms: seq<Member>, ns: seq<Member>)
    requires ms != [] && ns != [] && ms[0] == ns[0] && multiset(ms) == multiset(ns)
    ensures multiset(ms[1..]) == multiset(ns[1..])
  {
    assert ms == [ms[0]] + ms[1..] && ns == [ns[0]] + ns[1..];
    assert multiset(ms[1..]) == multiset(ms) - multiset{ms[0]};
    assert multiset(ns[1..]) == multiset(ns) - multiset{ns[0]};
  }

  /** Two sorted member lists with the same members are the same list. */
  lemma {:induction false} SortedUnique(ms: seq<Member>, ns: seq<Member>)
    requires Sorted(ms) && Sorted(ns)
    requires multiset(ms) == multiset(ns)
    ensures ms == ns
  {
    assert |multiset(ms)| == |ms| && |multiset(ns)| == |ns|;
    if ms == [] {
    } else {
      SameHead(ms, ns);
      SameTail(ms, ns);
      SortedUnique(ms[1..], ns[1..]);
      assert ms == [ms[0]] + ms[1..] && ns == [ns[0]] + ns[1..];
    }
  }

  /** Every object of the tree with its members in key order. */
  function Canon(j: Json): Json
    decreases j, 0
  {
    match j
    case Arr(xs) => Arr(CanonItems(xs))
    case Obj(ms) => Obj(Sort(CanonMembers(ms)))
    case _ => j
  }

  function CanonItems(xs: seq<Json>): (r: seq<Json>)
    ensures |r| == |xs|
    ensures forall i :: 0 <= i < |xs| ==> r[i] == Canon(xs[i])
    decreases xs, 1
  {
    if xs == [] then [] else [Canon(xs[0])] + CanonItems(xs[1..])
  }

  function CanonMembers(ms: seq<Member>): (r: seq<Member>)
    ensures |r| == |ms|
    ensures forall i :: 0 <= i < |ms| ==> r[i] == Member(ms[i].key, Canon(ms[i].value))
    decreases ms, 1
  {
    if ms == [] then [] else [Member(ms[0].key, Canon(ms[0].value))] + CanonMembers(ms[1..])
  }

  /** json.dumps(value, sort_keys=True, separators=(",", ":")). */
  function Dumps(j: Json): string { Put(Canon(j), "") }

  lemma {:induction false} CanonWellFormed(j: Json)
    requires WellFormed(j)
    ensures WellFormed(Canon(j))
    decreases j
  {
    match j
    case Arr(xs) =>
      forall i | 0 <= i < |xs| ensures WellFormed(Canon(xs[i])) { CanonWellFormed(xs[i]); }
    case Obj(ms) =>
      var cs := CanonMembers(ms);
      var ss := Sort(cs);
      SortKeeps(cs);
      forall k | 0 <= k < |ss| ensures NoPair(ss[k].key) && WellFormed(ss[k].value) {
        assert ss[k] in multiset(cs);
        var i :| 0 <= i < |cs| && cs[i] == ss[k];
        CanonWellFormed(ms[i].value);
      }
      forall i, k | 0 <= i < k < |ss| ensures ss[i].key != ss[k].key {
        LessTrichotomy(ss[i].key, ss[k].key);
      }
    case _ =>
  }

  lemma {:induction false} CanonSame(j: Json, k: Json)
    requires WellFormed(j) && WellFormed(k)
    ensures Canon(j) == Canon(k) <==> SameTree(j, k)
    decreases j
  {
    if j.Arr? && k.Arr? {
      var xs, ys := j.items, k.items;
      forall i | 0 <= i < |xs| && i < |ys| ensures Canon(xs[i]) == Canon(ys[i]) <==> SameTree(xs[i], ys[i]) {
        CanonSame(xs[i], ys[i]);
      }
      if Canon(j) == Canon(k) {
        assert forall i :: 0 <= i < |xs| ==> CanonItems(xs)[i] == CanonItems(ys)[i];
      }
      if SameTree(j, k) {
        assert CanonItems(xs) == CanonItems(ys);
      }
    } else if j.Obj? && k.Obj? {
      forall a, b | 0 <= a < |j.members| && 0 <= b < |k.members|
        ensures Canon(j.members[a].value) == Canon(k.members[b].value) <==>
                SameTree(j.members[a].value, k.members[b].value)
      {
        CanonSame(j.members[a].value, k.members[b].value);
      }
      CanonSameMembers(j.members, k.members);
    }
  }

  /** Which of two member lists hold the same canonical members. */
  ghost predicate SameElements(cs: seq<Member>, ds: seq<Member>) {
    (forall m :: m in cs ==> m in ds) && (forall m :: m in ds ==> m in cs)
  }

  lemma {:induction false} AtMostOnce(ms: seq<Member>, m: Member)
    requires DistinctKeys(ms)
    ensures multiset(ms)[m] == if m in ms then 1 else 0
  {
    if ms == [] {
    } else {
      assert ms == [ms[0]] + ms[1..];
      AtMostOnce(ms[1..], m);
    }
  }

  lemma SortedAgree(cs: seq<Member>, ds: seq<Member>)
    requires DistinctKeys(cs) && DistinctKeys(ds)
    ensures Sort(cs) == Sort(ds) <==> SameElements(cs, ds)
  {
    SortKeeps(cs);
    SortKeeps(ds);
    if Sort(cs) == Sort(ds) {
      forall m ensures m in cs <==> m in ds {
        assert m in cs <==> m in multiset(cs);
        assert m in ds <==> m in multiset(ds);
      }
    }
    if SameElements(cs, ds) {
      forall m ensures multiset(cs)[m] == multiset(ds)[m] {
        AtMostOnce(cs, m);
        AtMostOnce(ds, m);
      }
      assert multiset(cs) == multiset(ds);
      SortedUnique(Sort(cs), Sort(ds));
    }
  }

  ghost predicate Corresponds(ms: seq<Member>, ns: seq<Member>) {
    forall a, b :: 0 <= a < |ms| && 0 <= b < |ns| ==>
      (Canon(ms[a].value) == Canon(ns[b].value) <==> SameTree(ms[a].value, ns[b].value))
  }

  lemma CanonSameMembers(ms: seq<Member>, ns: seq<Member>)
    requires DistinctKeys(ms) && DistinctKeys(ns) && Corresponds(ms, ns)
    ensures Sort(CanonMembers(ms)) == Sort(CanonMembers(ns)) <==> SameTree(Obj(ms), Obj(ns))
  {
    SortedAgree(CanonMembers(ms), CanonMembers(ns));
    if SameElements(CanonMembers(ms), CanonMembers(ns)) { EqualMembersAreSame(ms, ns); }
    if SameTree(Obj(ms), Obj(ns)) { SameMembersAreEqual(ms, ns); }
  }

  lemma EqualMembersAreSame(ms: seq<Member>, ns: seq<Member>)
    requires DistinctKeys(ns) && Corresponds(ms, ns)
    requires SameElements(CanonMembers(ms), CanonMembers(ns))
    ensures SameTree(Obj(ms), Obj(ns))
  {
    var cs, ds := CanonMembers(ms), CanonMembers(ns);
    KeysFound(ms, ns);
    KeysFound(ns, ms);
    forall a, b | 0 <= a < |ms| && 0 <= b < |ns| && ms[a].key == ns[b].key
      ensures SameTree(ms[a].value, ns[b].value)
    {
      assert cs[a] in ds;
      var c :| 0 <= c < |ds| && ds[c] == cs[a];
      assert ns[c].key == ns[b].key;
      assert c == b;
    }
  }

  lemma SameMembersAreEqual(ms: seq<Member>, ns: seq<Member>)
    requires Corresponds(ms, ns) && SameTree(Obj(ms), Obj(ns))
    ensures SameElements(CanonMembers(ms), CanonMembers(ns))
  {
    var cs, ds := CanonMembers(ms), CanonMembers(ns);
    forall m | m in cs ensures m in ds {
      var a :| 0 <= a < |cs| && cs[a] == m;
      assert ms[a].key in Keys(ns);
      var b :| 0 <= b < |ns| && ns[b].key == ms[a].key;
      assert ds[b] == m;
    }
    forall m | m in ds ensures m in cs {
      var b :| 0 <= b < |ds| && ds[b] == m;
      assert ns[b].key in Keys(ms);
      var a :| 0 <= a < |ms| && ms[a].key == ns[b].key;
      assert cs[a] == m;
    }
  }

  lemma KeysFound(ms: seq<Member>, ns: seq<Member>)
    requires forall m :: m in CanonMembers(ms) ==> m in CanonMembers(ns)
    ensures Keys(ms) <= Keys(ns)
  {
    var cs, ds := CanonMembers(ms), CanonMembers(ns);
    forall key | key in Keys(ms) ensures key in Keys(ns) {
      var a :| 0 <= a < |ms| && ms[a].key == key;
      assert cs[a] in ds;
      var b :| 0 <= b < |ds| && ds[b] == cs[a];
      assert ns[b].key == key;
    }
  }

  /** The canonical text is the same exactly for trees that are the same up to member order. */
  lemma DumpsIdentifies(j: Json, k: Json)
    requires WellFormed(j) && WellFormed(k)
    ensures Dumps(j) == Dumps(k) <==> SameTree(j, k)
  {
    CanonSame(j, k);
    CanonWellFormed(j);
    CanonWellFormed(k);
    if Dumps(j) == Dumps(k) {
      PutInjective(Canon(j), Canon(k), "", "");
    }
  }

  lemma {:induction false} SameReflexive(j: Json)
    requires WellFormed(j)
    ensures SameTree(j, j)
  {
    match j
    case Arr(xs) => forall i | 0 <= i < |xs| ensures SameTree(xs[i], xs[i]) { SameReflexive(xs[i]); }
    case Obj(ms) => forall i | 0 <= i < |ms| ensures SameTree(ms[i].value, ms[i].value) { SameReflexive(ms[i].value); }
    case _ =>
  }

  lemma ReorderedSame(ms: seq<Member>, ns: seq<Member>)
    requires WellFormed(Obj(ns)) && (forall m :: m in ms <==> m in ns)
    ensures SameTree(Obj(ms), Obj(ns))
  {
    forall a, b | 0 <= a < |ms| && 0 <= b < |ns| && ms[a].key == ns[b].key ensures SameTree(ms[a].value, ns[b].value) {
      assert ms[a] in ns;
      var c :| 0 <= c < |ns| && ns[c] == ms[a];
      assert c == b;
      SameReflexive(ns[b].value);
    }
    forall a | 0 <= a < |ms| ensures ms[a].key in Keys(ns) { assert ms[a] in ns; }
    forall b | 0 <= b < |ns| ensures ns[b].key in Keys(ms) { assert ns[b] in ms; }
  }

  /** The order in which an object was built does not show. */
  lemma InsertionOrderIrrelevant(ms: seq<Member>, ns: seq<Member>)
    requires WellFormed(Obj(ms)) && WellFormed(Obj(ns)) && multiset(ms) == multiset(ns)
    ensures Dumps(Obj(ms)) == Dumps(Obj(ns))
  {
    forall m ensures m in ms <==> m in ns {
      assert m in ms <==> m in multiset(ms);
      assert m in ns <==> m in multiset(ns);
    }
    ReorderedSame(ms, ns);
    DumpsIdentifies(Obj(ms), Obj(ns));
  }
}
