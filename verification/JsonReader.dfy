/** A reader of JSON texts without white space (RFC 8259), and what it makes of the canonical plan text. */
module JsonReader {
  import opened Wrappers
  import opened CanonicalJson

  // ---- Strings: section 7 of RFC 8259.

  function HexValue(c: char): (r: Option<int>)
    ensures r.Some? ==> 0 <= r.value < 16
  {
    if '0' <= c <= '9' then Some(c as int - '0' as int)
    else if 'a' <= c <= 'f' then Some(c as int - 'a' as int + 10)
    else if 'A' <= c <= 'F' then Some(c as int - 'A' as int + 10)
    else None
  }

  function HexNumber(s: string): (r: Option<int>)
    requires |s| == 4
    ensures r.Some? ==> 0 <= r.value < 0x1_0000
  {
    var a, b, c, d := HexValue(s[0]), HexValue(s[1]), HexValue(s[2]), HexValue(s[3]);
    if a.Some? && b.Some? && c.Some? && d.Some?
    then Some(((a.value * 16 + b.value) * 16 + c.value) * 16 + d.value) else None
  }

  /** A printable character of ASCII. */
  predicate Printable(c: char) { ' ' <= c <= '~' }

  /** What an escape of one letter stands for. */
  function Meaning(c: char): Option<int> {
    match c
    case '"' => Some(0x22)
    case '\\' => Some(0x5C)
    case '/' => Some(0x2F)
    case 'b' => Some(0x08)
    case 'f' => Some(0x0C)
    case 'n' => Some(0x0A)
    case 'r' => Some(0x0D)
    case 't' => Some(0x09)
    case _ => None
  }

  /** The first code unit of a string's inside, and what follows it. */
  function ReadUnit(s: string): (r: Option<(int, string)>)
    ensures r.Some? ==> 0 <= r.value.0 < 0x1_0000 && |r.value.1| < |s|
  {
    if s == "" || s[0] == '"' || !Printable(s[0]) then None
    else if s[0] != '\\' then Some((s[0] as int, s[1..]))
    else if |s| >= 6 && s[1] == 'u' then
      match HexNumber(s[2..6])
      case Some(u) => Some((u, s[6..]))
      case None => None
    else if |s| >= 2 && Meaning(s[1]).Some? then Some((Meaning(s[1]).value, s[2..]))
    else None
  }

  /** The code units up to the closing quote, and what follows it. */
  function ReadUnits(s: string): (r: Option<(seq<int>, string)>)
    ensures r.Some? ==> |r.value.1| < |s| && forall i :: 0 <= i < |r.value.0| ==> 0 <= r.value.0[i] < 0x1_0000
    decreases |s|
  {
    if s != "" && s[0] == '"' then Some(([], s[1..]))
    else
      match ReadUnit(s)
      case None => None
      case Some((u, after)) =>
        match ReadUnits(after)
        case None => None
        case Some((units, rest)) => Some(([u] + units, rest))
  }

  function ReadText(s: string): (r: Option<(Text, string)>)
    ensures r.Some? ==> |r.value.1| < |s|
  {
    if s == "" || s[0] != '"' then None
    else
      match ReadUnits(s[1..])
      case None => None
      case Some((units, rest)) => Some((Join(units), rest))
  }

  // ---- Values: sections 3 to 6. A number is kept as the lexeme it was written as.

  function NumLength(s: string): (n: nat)
    ensures n <= |s|
  {
    if s == "" || !NumChar(s[0]) then 0 else 1 + NumLength(s[1..])
  }

  function ReadValue(s: string): (r: Option<(Json, string)>)
    ensures r.Some? ==> |r.value.1| < |s|
    decreases |s|, 0
  {
    if "null" <= s then Some((Null, s[4..]))
    else if "true" <= s then Some((Bool(true), s[4..]))
    else if "false" <= s then Some((Bool(false), s[5..]))
    else if s == "" then None
    else if s[0] == '"' then
      match ReadText(s)
      case None => None
      case Some((x, rest)) => Some((Str(x), rest))
    else if s[0] == '[' then ReadArray(s)
    else if s[0] == '{' then ReadObject(s)
    else if '0' <= s[0] <= '9' || s[0] in "-NI" then
      var n := NumLength(s);
      if n == 0 then None else Some((Num(s[..n]), s[n..]))
    else None
  }

  function ReadArray(s: string): (r: Option<(Json, string)>)
    requires s != "" && s[0] == '['
    ensures r.Some? ==> |r.value.1| < |s|
    decreases |s| - 1, 1
  {
    if |s| > 1 && s[1] == ']' then Some((Arr([]), s[2..]))
    else
      match ReadValue(s[1..])
      case None => None
      case Some((j, after)) =>
        match ReadItems(after)
        case None => None
        case Some((js, rest)) => Some((Arr([j] + js), rest))
  }

  /** The further items of an array. */
  function ReadItems(s: string): (r: Option<(seq<Json>, string)>)
    ensures r.Some? ==> |r.value.1| < |s|
    decreases |s|, 0
  {
    if s == "" then None
    else if s[0] == ']' then Some(([], s[1..]))
    else if s[0] != ',' then None
    else
      match ReadValue(s[1..])
      case None => None
      case Some((j, after)) =>
        match ReadItems(after)
        case None => None
        case Some((js, rest)) => Some(([j] + js, rest))
  }

  function ReadObject(s: string): (r: Option<(Json, string)>)
    requires s != "" && s[0] == '{'
    ensures r.Some? ==> |r.value.1| < |s|
    decreases |s| - 1, 1
  {
    if |s| > 1 && s[1] == '}' then Some((Obj([]), s[2..]))
    else
      match ReadMember(s[1..])
      case None => None
      case Some((m, after)) =>
        match ReadMembers(after)
        case None => None
        case Some((ms, rest)) => Some((Obj([m] + ms), rest))
  }

  function ReadMember(s: string): (r: Option<(Member, string)>)
    ensures r.Some? ==> |r.value.1| < |s|
    decreases |s|, 0
  {
    match ReadText(s)
    case None => None
    case Some((key, after)) =>
      if after == "" || after[0] != ':' then None
      else
        match ReadValue(after[1..])
        case None => None
        case Some((j, rest)) => Some((Member(key, j), rest))
  }

  /** The further members of an object. */
  function ReadMembers(s: string): (r: Option<(seq<Member>, string)>)
    ensures r.Some? ==> |r.value.1| < |s|
    decreases |s|, 0
  {
    if s == "" then None
    else if s[0] == '}' then Some(([], s[1..]))
    else if s[0] != ',' then None
    else
      match ReadMember(s[1..])
      case None => None
      case Some((m, after)) =>
        match ReadMembers(after)
        case None => None
        case Some((ms, rest)) => Some(([m] + ms, rest))
  }

  // ---- Reading back what was printed.

  lemma HexReads(u: int)
    requires 0 <= u < 0x1_0000
    ensures HexNumber(Hex(u)) == Some(u)
  {
    DigitReads(u / 16 / 16 / 16);
    DigitReads(u / 16 / 16 % 16);
    DigitReads(u / 16 % 16);
    DigitReads(u % 16);
  }

  lemma DigitReads(d: int)
    requires 0 <= d < 16
    ensures HexValue(HexDigit(d)) == Some(d)
  {}

  lemma LongEscapeReads(u: int, rest: string)
    requires 0 <= u < 0x1_0000 && Escape(u) == "\\u" + Hex(u)
    ensures ReadUnit("\\u" + Hex(u) + rest) == Some((u, rest))
  {
    var s := "\\u" + Hex(u) + rest;
    assert s[0] == '\\' && s[1] == 'u' && s[2..6] == Hex(u) && s[6..] == rest;
    HexReads(u);
  }

  lemma UnitReads(u: int, rest: string)
    requires 0 <= u < 0x1_0000
    ensures ReadUnit(Escape(u) + rest) == Some((u, rest))
  {
    EscapeRead(u);
    if |Escape(u)| == 6 {
      LongEscapeReads(u, rest);
    } else {
      assert (Escape(u) + rest)[|Escape(u)|..] == rest;
    }
  }

  lemma UnitThen(u: int, after: string, units: seq<int>, rest: string)
    requires 0 <= u < 0x1_0000 && ReadUnits(after) == Some((units, rest))
    ensures ReadUnits(Escape(u) + after) == Some(([u] + units, rest))
  {
    UnitReads(u, after);
    assert (Escape(u) + after)[0] == Escape(u)[0];
  }

  lemma {:induction false} UnitsRead(units: seq<int>, rest: string)
    requires forall i :: 0 <= i < |units| ==> 0 <= units[i] < 0x1_0000
    ensures ReadUnits(PutUnits(units, rest)) == Some((units, rest))
  {
    if units == [] {
      assert (['"'] + rest)[1..] == rest;
    } else {
      UnitsRead(units[1..], rest);
      UnitThen(units[0], PutUnits(units[1..], rest), units[1..], rest);
      assert units == [units[0]] + units[1..];
    }
  }

  /** A printed str reads back as itself, its surrogate pairs joined. */
  lemma TextReads(x: Text, rest: string)
    ensures ReadText(PutText(x, rest)).Some? && ReadText(PutText(x, rest)).value.1 == rest
    ensures Units(ReadText(PutText(x, rest)).value.0) == Units(x)
    ensures NoPair(x) ==> ReadText(PutText(x, rest)) == Some((x, rest))
  {
    UnitsInRange(x);
    assert PutText(x, rest)[1..] == PutUnits(Units(x), rest);
    UnitsRead(Units(x), rest);
    JoinReads(Units(x));
    if NoPair(x) { UnitsInjective(Join(Units(x)), x); }
  }

  lemma {:induction false} NumReads(l: string, rest: string)
    requires (forall i :: 0 <= i < |l| ==> NumChar(l[i])) && Follows(rest)
    ensures NumLength(l + rest) == |l|
  {
    if l == [] {
      assert l + rest == rest;
    } else {
      assert (l + rest)[1..] == l[1..] + rest;
      NumReads(l[1..], rest);
    }
  }

  /** The first character tells what a value is. */
  lemma Dispatch(s: string)
    requires s != "" && s[0] !in "ntf"
    ensures !("null" <= s) && !("true" <= s) && !("false" <= s)
    ensures s[0] == '[' ==> ReadValue(s) == ReadArray(s)
    ensures s[0] == '{' ==> ReadValue(s) == ReadObject(s)
    ensures ('0' <= s[0] <= '9' || s[0] in "-NI") && NumLength(s) > 0 ==>
      ReadValue(s) == Some((Num(s[..NumLength(s)]), s[NumLength(s)..]))
  {}

  lemma NumberReads(l: string, rest: string)
    requires NumLexeme(l) && Follows(rest)
    ensures ReadValue(l + rest) == Some((Num(l), rest))
  {
    var s := l + rest;
    NumReads(l, rest);
    assert s[0] == l[0];
    Dispatch(s);
    assert s[..|l|] == l && s[|l|..] == rest;
  }

  lemma WordReads(j: Json, rest: string)
    requires j.Null? || j.Bool?
    ensures ReadValue(Put(j, rest)) == Some((j, rest))
  {
    var s := Put(j, rest);
    match j
    case Null => assert s[..4] == "null" && s[4..] == rest;
    case Bool(b) =>
      if b { assert s[..4] == "true" && s[4..] == rest; } else { assert s[..5] == "false" && s[5..] == rest; }
  }

  /** Whatever follows it, a printed tree reads back as that very tree, member order included. */
  lemma {:induction false} ValueReads(j: Json, rest: string)
    requires WellFormed(j) && Follows(rest)
    ensures ReadValue(Put(j, rest)) == Some((j, rest))
    decreases j, 0
  {
    match j
    case Num(l) => NumberReads(l, rest);
    case Str(x) =>
      TextReads(x, rest);
      Dispatch(Put(j, rest));
    case Arr(xs) => ArrayReads(xs, rest);
    case Obj(ms) => ObjectReads(ms, rest);
    case _ => WordReads(j, rest);
  }

  lemma {:induction false} ArrayReads(xs: seq<Json>, rest: string)
    requires WellFormed(Arr(xs))
    ensures ReadValue(Put(Arr(xs), rest)) == Some((Arr(xs), rest))
    decreases xs, 2
  {
    var s := Put(Arr(xs), rest);
    Dispatch(s);
    ArrayOpens(xs, rest);
    if xs == [] {
      assert s[2..] == rest;
    } else {
      assert s[1..] == Put(xs[0], PutItems(xs[1..], rest));
      ValueReads(xs[0], PutItems(xs[1..], rest));
      ItemsRead(xs[1..], rest);
      assert xs == [xs[0]] + xs[1..];
    }
  }

  lemma {:induction false} ItemsRead(xs: seq<Json>, rest: string)
    requires forall i :: 0 <= i < |xs| ==> WellFormed(xs[i])
    ensures ReadItems(PutItems(xs, rest)) == Some((xs, rest))
    decreases xs, 1
  {
    var s := PutItems(xs, rest);
    if xs == [] {
      assert s[1..] == rest;
    } else {
      assert s[1..] == Put(xs[0], PutItems(xs[1..], rest));
      ValueReads(xs[0], PutItems(xs[1..], rest));
      ItemsRead(xs[1..], rest);
      assert xs == [xs[0]] + xs[1..];
    }
  }

  lemma {:induction false} ObjectReads(ms: seq<Member>, rest: string)
    requires WellFormed(Obj(ms))
    ensures ReadValue(Put(Obj(ms), rest)) == Some((Obj(ms), rest))
    decreases ms, 2
  {
    var s := Put(Obj(ms), rest);
    Dispatch(s);
    if ms == [] {
      assert s[2..] == rest;
    } else {
      assert s[1..] == PutMember(ms[0], PutMembers(ms[1..], rest));
      assert s[1] == '"';
      MemberReads(ms[0], PutMembers(ms[1..], rest));
      MembersRead(ms[1..], rest);
      assert ms == [ms[0]] + ms[1..];
    }
  }

  lemma {:induction false} MemberReads(m: Member, rest: string)
    requires NoPair(m.key) && WellFormed(m.value) && Follows(rest)
    ensures ReadMember(PutMember(m, rest)) == Some((m, rest))
    decreases m, 1
  {
    TextReads(m.key, [':'] + Put(m.value, rest));
    assert ([':'] + Put(m.value, rest))[1..] == Put(m.value, rest);
    ValueReads(m.value, rest);
  }

  lemma MembersNext(s: string, m: Member, after: string, ms: seq<Member>, rest: string)
    requires s != "" && s[0] == ',' && ReadMember(s[1..]) == Some((m, after))
    requires ReadMembers(after) == Some((ms, rest))
    ensures ReadMembers(s) == Some(([m] + ms, rest))
  {}

  lemma {:induction false} MembersRead(ms: seq<Member>, rest: string)
    requires forall i :: 0 <= i < |ms| ==> NoPair(ms[i].key) && WellFormed(ms[i].value)
    ensures ReadMembers(PutMembers(ms, rest)) == Some((ms, rest))
    decreases ms, 1
  {
    var s := PutMembers(ms, rest);
    if ms == [] {
      assert s[1..] == rest;
    } else {
      assert s[1..] == PutMember(ms[0], PutMembers(ms[1..], rest));
      MemberReads(ms[0], PutMembers(ms[1..], rest));
      MembersRead(ms[1..], rest);
      MembersNext(s, ms[0], PutMembers(ms[1..], rest), ms[1..], rest);
      assert ms == [ms[0]] + ms[1..];
    }
  }

  // ---- The canonical text.

  /** In every object of the tree the keys ascend. */
  ghost predicate KeysAscend(j: Json) {
    match j
    case Arr(xs) => forall i :: 0 <= i < |xs| ==> KeysAscend(xs[i])
    case Obj(ms) => Sorted(ms) && forall i :: 0 <= i < |ms| ==> KeysAscend(ms[i].value)
    case _ => true
  }

  lemma {:induction false} CanonAscends(j: Json)
    requires WellFormed(j)
    ensures KeysAscend(Canon(j))
    decreases j
  {
    match j
    case Arr(xs) => forall i | 0 <= i < |xs| ensures KeysAscend(Canon(xs[i])) { CanonAscends(xs[i]); }
    case Obj(ms) =>
      var cs, ss := CanonMembers(ms), Sort(CanonMembers(ms));
      SortKeeps(cs);
      forall k | 0 <= k < |ss| ensures KeysAscend(ss[k].value) {
        assert ss[k] in multiset(cs);
        var i :| 0 <= i < |cs| && cs[i] == ss[k];
        CanonAscends(ms[i].value);
      }
    case _ =>
  }

  lemma {:induction false} CanonIsSame(j: Json)
    requires WellFormed(j)
    ensures SameTree(Canon(j), j)
    decreases j
  {
    match j
    case Arr(xs) => forall i | 0 <= i < |xs| ensures SameTree(Canon(xs[i]), xs[i]) { CanonIsSame(xs[i]); }
    case Obj(ms) =>
      forall i | 0 <= i < |ms| ensures SameTree(Canon(ms[i].value), ms[i].value) { CanonIsSame(ms[i].value); }
      SortedMembersSame(ms);
    case _ =>
  }

  lemma SortedMember(ms: seq<Member>, cs: seq<Member>, m: Member) returns (i: nat)
    requires cs == CanonMembers(ms) && multiset(Sort(cs)) == multiset(cs) && m in Sort(cs)
    ensures i < |ms| && m == Member(ms[i].key, Canon(ms[i].value))
  {
    assert m in multiset(cs);
    i :| 0 <= i < |cs| && cs[i] == m;
  }

  lemma SortedKeys(ms: seq<Member>)
    ensures Keys(Sort(CanonMembers(ms))) == Keys(ms)
  {
    var cs, ss := CanonMembers(ms), Sort(CanonMembers(ms));
    SortKeeps(cs);
    forall k | 0 <= k < |ss| ensures ss[k].key in Keys(ms) { var i := SortedMember(ms, cs, ss[k]); }
    forall i | 0 <= i < |ms| ensures ms[i].key in Keys(ss) {
      assert cs[i] in multiset(ss);
      var k :| 0 <= k < |ss| && ss[k] == cs[i];
    }
  }

  lemma SortedMembersSame(ms: seq<Member>)
    requires DistinctKeys(ms) && forall i :: 0 <= i < |ms| ==> SameTree(Canon(ms[i].value), ms[i].value)
    ensures SameTree(Obj(Sort(CanonMembers(ms))), Obj(ms))
  {
    var ss := Sort(CanonMembers(ms));
    SortKeeps(CanonMembers(ms));
    SortedKeys(ms);
    forall a, b | 0 <= a < |ss| && 0 <= b < |ms| && ss[a].key == ms[b].key ensures SameTree(ss[a].value, ms[b].value) {
      var i := SortedMember(ms, CanonMembers(ms), ss[a]);
      assert i == b;
    }
  }

  /** The canonical text of a plan, read without allowing a space between its tokens, is the plan's tree with the
      keys of every object in ascending order; and every character of the text is printable ASCII. */
  lemma DumpsReadsBack(j: Json)
    requires WellFormed(j)
    ensures ReadValue(Dumps(j)) == Some((Canon(j), ""))
    ensures SameTree(Canon(j), j) && KeysAscend(Canon(j))
    ensures AllPrintable(Dumps(j))
  {
    CanonWellFormed(j);
    ValueReads(Canon(j), "");
    CanonIsSame(j);
    CanonAscends(j);
    PutPrintable(Canon(j), "");
  }

  /** The order of keys is that of their first different code points, a prefix coming first. */
  lemma {:induction false} LessIsLexicographic(x: Text, y: Text)
    ensures Less(x, y) <==>
      exists k :: 0 <= k <= |x| && k < |y| && x[..k] == y[..k] && (k == |x| || x[k] < y[k])
  {
    if x == [] || y == [] {
      if y != [] { assert x[..0] == y[..0]; }
    } else if x[0] != y[0] {
      assert x[..0] == y[..0];
      assert forall k :: 0 < k <= |x| && k < |y| ==> x[..k][0] == x[0] && y[..k][0] == y[0];
    } else {
      LessIsLexicographic(x[1..], y[1..]);
      if Less(x[1..], y[1..]) {
        var k :| 0 <= k <= |x[1..]| && k < |y[1..]| && x[1..][..k] == y[1..][..k]
                 && (k == |x[1..]| || x[1..][k] < y[1..][k]);
        assert x[..k + 1] == [x[0]] + x[1..][..k] && y[..k + 1] == [y[0]] + y[1..][..k];
      }
      if k :| 0 <= k <= |x| && k < |y| && x[..k] == y[..k] && (k == |x| || x[k] < y[k]) {
        assert x[1..][..k - 1] == x[..k][1..] == y[..k][1..] == y[1..][..k - 1];
      }
    }
  }

  // ---- Spelling.

  predicate AllPrintable(s: string) {
    forall i :: 0 <= i < |s| ==> Printable(s[i])
  }

  lemma EscapePrintable(u: int)
    requires 0 <= u < 0x1_0000
    ensures AllPrintable(Escape(u))
  {
    EscapeRead(u);
    if |Escape(u)| == 6 {
      assert Escape(u) == "\\u" + Hex(u);
      forall d | 0 <= d < 16 ensures Printable(HexDigit(d)) { DigitReads(d); }
    }
  }

  /** No text that reads as a code unit is shorter than its printed spelling, and that has no capital digits. */
  lemma EscapeIsShortest(u: int, e: string, rest: string)
    requires 0 <= u < 0x1_0000 && ReadUnit(e + rest) == Some((u, rest))
    ensures |Escape(u)| <= |e|
    ensures |Escape(u)| == 6 ==> forall i :: 2 <= i < 6 ==> Escape(u)[i] in "0123456789abcdef"
  {
    var s := e + rest;
    assert |e| >= 1 && s[0] == e[0];
    if |e| >= 2 { assert s[1] == e[1]; }
    EscapeRead(u);
  }

  lemma {:induction false} UnitsPrintable(units: seq<int>, rest: string)
    requires (forall i :: 0 <= i < |units| ==> 0 <= units[i] < 0x1_0000) && AllPrintable(rest)
    ensures AllPrintable(PutUnits(units, rest))
  {
    if units == [] {
    } else {
      EscapePrintable(units[0]);
      UnitsPrintable(units[1..], rest);
    }
  }

  lemma TextPrintable(x: Text, rest: string)
    requires AllPrintable(rest)
    ensures AllPrintable(PutText(x, rest))
  {
    UnitsInRange(x);
    UnitsPrintable(Units(x), rest);
  }

  lemma PlainPrintable(j: Json, rest: string)
    requires WellFormed(j) && AllPrintable(rest) && (j.Null? || j.Bool? || j.Num?)
    ensures AllPrintable(Put(j, rest))
  {
    match j
    case Null => JoinPrintable("null", rest);
    case Bool(b) => JoinPrintable(if b then "true" else "false", rest);
    case Num(l) => JoinPrintable(l, rest);
  }

  lemma JoinPrintable(s: string, rest: string)
    requires AllPrintable(s) && AllPrintable(rest)
    ensures AllPrintable(s + rest)
  {}

  lemma {:induction false} PutPrintable(j: Json, rest: string)
    requires WellFormed(j) && AllPrintable(rest)
    ensures AllPrintable(Put(j, rest))
    decreases j, 0
  {
    match j
    case Str(x) => TextPrintable(x, rest);
    case Arr(xs) =>
      if xs != [] {
        ItemsPrintable(xs[1..], rest);
        PutPrintable(xs[0], PutItems(xs[1..], rest));
      }
    case Obj(ms) =>
      if ms != [] {
        MembersPrintable(ms[1..], rest);
        MemberPrintable(ms[0], PutMembers(ms[1..], rest));
      }
    case _ => PlainPrintable(j, rest);
  }

  lemma {:induction false} ItemsPrintable(xs: seq<Json>, rest: string)
    requires (forall i :: 0 <= i < |xs| ==> WellFormed(xs[i])) && AllPrintable(rest)
    ensures AllPrintable(PutItems(xs, rest))
    decreases xs, 1
  {
    if xs == [] {
    } else {
      ItemsPrintable(xs[1..], rest);
      PutPrintable(xs[0], PutItems(xs[1..], rest));
    }
  }

  lemma {:induction false} MemberPrintable(m: Member, rest: string)
    requires WellFormed(m.value) && AllPrintable(rest)
    ensures AllPrintable(PutMember(m, rest))
    decreases m, 1
  {
    PutPrintable(m.value, rest);
    TextPrintable(m.key, [':'] + Put(m.value, rest));
  }

  lemma {:induction false} MembersPrintable(ms: seq<Member>, rest: string)
    requires (forall i :: 0 <= i < |ms| ==> WellFormed(ms[i].value)) && AllPrintable(rest)
    ensures AllPrintable(PutMembers(ms, rest))
    decreases ms, 1
  {
    if ms == [] {
    } else {
      MembersPrintable(ms[1..], rest);
      MemberPrintable(ms[0], PutMembers(ms[1..], rest));
    }
  }

  // ---- Integers.

  function NatOf(s: string): int {
    if s == "" then 0 else NatOf(s[..|s| - 1]) * 10 + (s[|s| - 1] as int - '0' as int)
  }

  function IntOf(s: string): int {
    if s != "" && s[0] == '-' then -NatOf(s[1..]) else NatOf(s)
  }

  lemma {:induction false} DigitsValue(n: nat)
    ensures NatOf(Digits(n)) == n && (Digits(n)[0] == '0' ==> n == 0 && |Digits(n)| == 1)
  {
    if n < 10 {
      assert Digits(n)[..0] == "";
    } else {
      DigitsValue(n / 10);
      assert Digits(n)[..|Digits(n)| - 1] == Digits(n / 10);
    }
  }

  /** An integer is written in decimal, with no zero in front. */
  lemma DecimalValue(n: int)
    ensures IntOf(Decimal(n)) == n
    ensures n > 0 ==> Decimal(n)[0] != '0'
    ensures n < 0 ==> Decimal(n)[1] != '0'
  {
    if n < 0 {
      DigitsValue(-n);
      assert Decimal(n)[1..] == Digits(-n);
    } else {
      DigitsValue(n);
    }
  }
}
