/** Projecting graph state onto the public run state, citations included. */
module TicketMapping {
  import opened Wrappers
  import opened Tickets

  // ---- findall of `\[([^\]]+)\]`

  /** Index of the first closing bracket, or the length. */
  function Close(s: string): (c: nat)
    ensures c <= |s| && (c < |s| ==> s[c] == ']') && forall k :: 0 <= k < c ==> s[k] != ']'
  {
    if s == "" || s[0] == ']' then 0 else 1 + Close(s[1..])
  }

  predicate MatchHere(s: string) {
    s != "" && s[0] == '[' && 1 <= Close(s[1..]) < |s| - 1
  }

  function Scan(s: string): seq<string>
    decreases |s|
  {
    if s == "" then []
    else if MatchHere(s) then
      var c := Close(s[1..]);
      [s[1..][..c]] + Scan(s[c + 2..])
    else Scan(s[1..])
  }

  /** A text cut at its matches: what lies before one, and what stands in its brackets. */
  datatype Piece = Piece(gap: string, content: string)

  function Flatten(pieces: seq<Piece>, tail: string): string {
    if pieces == [] then tail else pieces[0].gap + Bracketed(pieces[0].content, Flatten(pieces[1..], tail))
  }

  function Bracketed(content: string, rest: string): string { "[" + (content + ("]" + rest)) }

  /** No match begins inside `gap`, given what follows it. */
  ghost predicate Unmatched(gap: string, rest: string) {
    forall k :: 0 <= k < |gap| ==> !MatchHere((gap + rest)[k..])
  }

  /** The cut takes every match leftmost: contents are bracket bodies and no gap hides another match. */
  ghost predicate Leftmost(pieces: seq<Piece>, tail: string) {
    if pieces == [] then Unmatched(tail, "")
    else
      var p, rest := pieces[0], Flatten(pieces[1..], tail);
      && p.content != "" && ']' !in p.content
      && Unmatched(p.gap, Bracketed(p.content, rest))
      && Leftmost(pieces[1..], tail)
  }

  function Contents(pieces: seq<Piece>): seq<string> {
    if pieces == [] then [] else [pieces[0].content] + Contents(pieces[1..])
  }

  lemma {:induction false} SkipGap(gap: string, rest: string)
    requires Unmatched(gap, rest)
    ensures Scan(gap + rest) == Scan(rest)
    decreases |gap|
  {
    if gap == "" {
      assert gap + rest == rest;
    } else {
      var s := gap + rest;
      assert s[0..] == s && s[1..] == gap[1..] + rest;
      assert !MatchHere(s[0..]);
      forall k | 0 <= k < |gap[1..]| ensures !MatchHere((gap[1..] + rest)[k..]) {
        assert (gap[1..] + rest)[k..] == s[k + 1..];
      }
      SkipGap(gap[1..], rest);
    }
  }

  lemma CloseAt(content: string, rest: string)
    requires ']' !in content
    ensures Close(content + ("]" + rest)) == |content|
  {
    var s := content + ("]" + rest);
    assert s[|content|] == ']';
    assert forall k :: 0 <= k < |content| ==> s[k] == content[k];
  }

  lemma ScanBracketed(content: string, rest: string)
    requires content != "" && ']' !in content
    ensures Scan(Bracketed(content, rest)) == [content] + Scan(rest)
  {
    var s, t := Bracketed(content, rest), content + ("]" + rest);
    assert s[1..] == t;
    CloseAt(content, rest);
    assert t[..|content|] == content && s[|content| + 2..] == rest;
  }

  /** The scanner returns the bodies of the leftmost cut, in order. */
  lemma {:induction false} ScanIsLeftmost(pieces: seq<Piece>, tail: string)
    requires Leftmost(pieces, tail)
    ensures Scan(Flatten(pieces, tail)) == Contents(pieces)
  {
    if pieces == [] {
      SkipGap(tail, "");
      assert tail + "" == tail;
    } else {
      var p, rest := pieces[0], Flatten(pieces[1..], tail);
      SkipGap(p.gap, Bracketed(p.content, rest));
      ScanBracketed(p.content, rest);
      ScanIsLeftmost(pieces[1..], tail);
    }
  }

  /** Every text has a leftmost cut. */
  lemma {:induction false} LeftmostExists(s: string) returns (pieces: seq<Piece>, tail: string)
    ensures Flatten(pieces, tail) == s && Leftmost(pieces, tail)
    decreases |s|
  {
    if s == "" {
      pieces, tail := [], "";
    } else if MatchHere(s) {
      var c := Close(s[1..]);
      var content := s[1..][..c];
      pieces, tail := LeftmostExists(s[c + 2..]);
      assert s == "" + Bracketed(content, s[c + 2..]);
      pieces := [Piece("", content)] + pieces;
    } else {
      pieces, tail := LeftmostExists(s[1..]);
      if pieces == [] {
        Prepend(s[0], tail, "");
        tail := [s[0]] + tail;
        assert tail == s;
      } else {
        var p, rest := pieces[0], Flatten(pieces[1..], tail);
        assert s == [s[0]] + (p.gap + Bracketed(p.content, rest));
        Prepend(s[0], p.gap, Bracketed(p.content, rest));
        pieces := [Piece([s[0]] + p.gap, p.content)] + pieces[1..];
      }
    }
  }

  lemma Prepend(c: char, gap: string, rest: string)
    requires Unmatched(gap, rest) && !MatchHere([c] + (gap + rest))
    ensures Unmatched([c] + gap, rest)
    ensures [c] + gap + rest == [c] + (gap + rest)
  {
    var s := [c] + gap + rest;
    assert s == [c] + (gap + rest);
    forall k | 0 <= k < |[c] + gap| ensures !MatchHere(s[k..]) {
      if k == 0 { assert s[0..] == s; } else { assert s[k..] == (gap + rest)[k - 1..]; }
    }
  }

  // ---- dict.fromkeys

  function FirstSeen(xs: seq<string>): seq<string> {
    if xs == [] then []
    else
      var before, last := FirstSeen(xs[..|xs| - 1]), xs[|xs| - 1];
      if last in before then before else before + [last]
  }

  /** Position of the first occurrence. */
  function FirstIndex(xs: seq<string>, x: string): (i: nat)
    requires x in xs
    ensures i < |xs| && xs[i] == x && forall k :: 0 <= k < i ==> xs[k] != x
  {
    if xs[0] == x then 0 else 1 + FirstIndex(xs[1..], x)
  }

  /** Each string once, in the order of first occurrences. */
  lemma {:induction false} FirstSeenOrder(xs: seq<string>)
    ensures forall x :: x in FirstSeen(xs) <==> x in xs
    ensures forall i, j :: 0 <= i < j < |FirstSeen(xs)| ==>
      FirstSeen(xs)[i] in xs && FirstSeen(xs)[j] in xs
      && FirstIndex(xs, FirstSeen(xs)[i]) < FirstIndex(xs, FirstSeen(xs)[j])
  {
    if xs == [] {
    } else {
      var init, last, r := xs[..|xs| - 1], xs[|xs| - 1], FirstSeen(xs);
      FirstSeenOrder(init);
      assert xs == init + [last];
      forall i, j | 0 <= i < j < |r| ensures FirstIndex(xs, r[i]) < FirstIndex(xs, r[j]) {
        if r[j] in init { assert xs[FirstIndex(init, r[j])] == r[j]; }
        assert r[i] in init && xs[FirstIndex(init, r[i])] == r[i];
      }
    }
  }

  function Citations(answer: Option<string>): seq<string> {
    FirstSeen(Scan(if answer.Some? then answer.value else ""))
  }

  /** What a text cites: the bodies of its leftmost bracket matches, each once, in the order of first occurrence. */
  lemma CitationsInOrder(pieces: seq<Piece>, tail: string)
    requires Leftmost(pieces, tail)
    ensures var c, xs := Citations(Some(Flatten(pieces, tail))), Contents(pieces);
      && (forall x :: x in c <==> x in xs)
      && forall i, j :: 0 <= i < j < |c| ==> c[i] in xs && c[j] in xs && FirstIndex(xs, c[i]) < FirstIndex(xs, c[j])
    ensures Citations(None) == []
  {
    ScanIsLeftmost(pieces, tail);
    FirstSeenOrder(Contents(pieces));
  }

  /** `answer or other` on strings: None and the empty string both give way. */
  function OrElse(answer: Option<string>, other: Option<string>): Option<string> {
    if answer.Some? && answer.value != "" then answer else other
  }

  const APPROVED := "Approved and submitted. "

  /** The approval prefix adds no citation and hides none. */
  lemma ApprovalKeepsCitations(draft: string)
    ensures Citations(Some(APPROVED + draft)) == Citations(Some(draft))
  {
    forall k | 0 <= k < |APPROVED| ensures !MatchHere((APPROVED + draft)[k..]) {
      assert (APPROVED + draft)[k..][0] == APPROVED[k] != '[';
    }
    SkipGap(APPROVED, draft);
  }

  function ToRunState(ticketId: string, values: Option<Values>, createdAt: Option<int>,
                      pending: Option<PendingAction>): RunState {
    match values
    case None =>
      RunState(ticketId, if pending.Some? then WaitingApproval else Completed, None, None, pending, [], createdAt)
    case Some(v) =>
      RunState(ticketId,
               if pending.Some? then WaitingApproval else if v.status.Some? then v.status.value else Completed,
               v.finalAnswer, v.category, pending, Citations(OrElse(v.finalAnswer, v.draft)), createdAt)
  }
}
