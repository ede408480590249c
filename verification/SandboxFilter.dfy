/**
 `filterArrayPreservingComments` as the source computes it: positions of elements and commas, a set of
 commas to keep, edits sorted by position and spliced into the text.  It gives exactly the edit of
 SandboxAllow.
 */
module SandboxFilter {
  import opened Wrappers
  import opened TomlLexer
  import opened SandboxAllow
  import opened SandboxEdit

  // -------------------------------------------------------------------------- positions

  predicate Before(spans: seq<Span>, commas: seq<nat>, pos: nat) {
    (forall i | 0 <= i < |spans| :: spans[i].start < spans[i].end <= pos) && (forall i | 0 <= i < |commas| :: commas[i] < pos)
  }

  predicate From(spans: seq<Span>, commas: seq<nat>, pos: nat) {
    && (forall i | 0 <= i < |spans| :: pos <= spans[i].start < spans[i].end)
    && (forall i | 0 <= i < |commas| :: pos <= commas[i])
  }

  lemma {:induction false} PositionsFrom(ls: seq<Lexeme>, pos: nat, depth: int)
    requires forall i | 0 <= i < |ls| :: Text(ls[i]) != ""
    ensures From(Tokens(ls, pos, depth), Commas(ls, pos, depth), pos)
    ensures |Tokens(ls, pos, depth)| == TokenCount(ls, depth)
  {
    if ls != [] {
      var l, rest := ls[0], ls[1..];
      var next, d := pos + |Text(l)|, DepthAfter(l, depth);
      assert Text(l) != "";
      PositionsFrom(rest, next, d);
      assert Tokens(ls, pos, depth) == (if IsToken(l, depth) then [Span(pos, next)] else []) + Tokens(rest, next, d);
      assert Commas(ls, pos, depth) == (if IsComma(l, depth) then [pos] else []) + Commas(rest, next, d);
      assert TokenCount(ls, depth) == (if IsToken(l, depth) then 1 else 0) + TokenCount(rest, d);
      hide Tokens, Commas, TokenCount, Text;
      FromMore(if IsToken(l, depth) then [Span(pos, next)] else [], if IsComma(l, depth) then [pos] else [],
               Tokens(rest, next, d), Commas(rest, next, d), pos, next);
    }
  }

  lemma FromMore(a: seq<Span>, b: seq<nat>, spans: seq<Span>, commas: seq<nat>, pos: nat, next: nat)
    requires From(a, b, pos) && From(spans, commas, next) && pos <= next
    ensures From(a + spans, b + commas, pos)
  {}

  /** The lexemes from a position on, after k elements and j commas. */
  ghost predicate Layout(ls: seq<Lexeme>, pos: nat, depth: int, k: nat, j: nat, tokens: seq<Span>, commas: seq<nat>) {
    && k <= |tokens| && j <= |commas|
    && Tokens(ls, pos, depth) == tokens[k..] && Commas(ls, pos, depth) == commas[j..]
    && Before(tokens[..k], commas[..j], pos) && From(tokens[k..], commas[j..], pos)
    && (forall i | 0 <= i < |ls| :: Text(ls[i]) != "")
  }

  lemma LayoutStep(ls: seq<Lexeme>, pos: nat, depth: int, k: nat, j: nat, tokens: seq<Span>, commas: seq<nat>)
    requires ls != [] && Layout(ls, pos, depth, k, j, tokens, commas)
    ensures var l := ls[0];
      var next := pos + |Text(l)|;
      var k', j' := if IsToken(l, depth) then k + 1 else k, if IsComma(l, depth) then j + 1 else j;
      && (IsToken(l, depth) ==> k < |tokens| && tokens[k] == Span(pos, next))
      && (IsComma(l, depth) ==> j < |commas| && commas[j] == pos)
      && Layout(ls[1..], next, DepthAfter(l, depth), k', j', tokens, commas)
  {
    var l, rest := ls[0], ls[1..];
    var next, d := pos + |Text(l)|, DepthAfter(l, depth);
    assert Text(l) != "";
    PositionsFrom(rest, next, d);
    var k', j' := if IsToken(l, depth) then k + 1 else k, if IsComma(l, depth) then j + 1 else j;
    assert tokens[k..] == (if IsToken(l, depth) then [Span(pos, next)] else []) + Tokens(rest, next, d);
    assert commas[j..] == (if IsComma(l, depth) then [pos] else []) + Commas(rest, next, d);
    assert IsToken(l, depth) ==> tokens[k] == tokens[k..][0] && tokens[k + 1..] == tokens[k..][1..];
    assert IsComma(l, depth) ==> commas[j] == commas[j..][0] && commas[j + 1..] == commas[j..][1..];
    assert [] + Tokens(rest, next, d) == Tokens(rest, next, d) && [] + Commas(rest, next, d) == Commas(rest, next, d);
    forall i | 0 <= i < |tokens[..k']| ensures tokens[..k'][i].start < tokens[..k'][i].end <= next {
      assert i < k ==> tokens[..k][i] == tokens[i];
    }
    forall i | 0 <= i < |commas[..j']| ensures commas[..j'][i] < next {
      assert i < j ==> commas[..j][i] == commas[i];
    }
  }

  lemma LayoutAt(raw: string)
    requires Lex(raw).Some?
    ensures var ls := Lex(raw).value; Layout(ls, 0, 0, 0, 0, Tokens(ls, 0, 0), Commas(ls, 0, 0))
  {
    var ls := Lex(raw).value;
    LexSeparated(raw);
    SeparatedTexts(ls);
    PositionsFrom(ls, 0, 0);
    assert Tokens(ls, 0, 0)[0..] == Tokens(ls, 0, 0) && Commas(ls, 0, 0)[0..] == Commas(ls, 0, 0);
  }

  lemma {:induction false} SeparatedTexts(ls: seq<Lexeme>)
    requires Separated(ls)
    ensures forall i | 0 <= i < |ls| :: Text(ls[i]) != ""
  {
    if ls != [] {
      SeparatedTexts(ls[1..]);
      assert forall i | 1 <= i < |ls| :: ls[i] == ls[1..][i - 1];
    }
  }

  // -------------------------------------------------------------------------- which commas stay

  // The first comma of a range; of everything behind a position.
  function FirstIn(commas: seq<nat>, from: nat, before: nat): Option<nat> {
    if commas == [] then None
    else if from <= commas[0] < before then Some(commas[0])
    else FirstIn(commas[1..], from, before)
  }

  function FirstBehind(commas: seq<nat>, pos: nat): Option<nat> {
    if commas == [] then None else if commas[0] > pos then Some(commas[0]) else FirstBehind(commas[1..], pos)
  }

  // Two kept elements with none kept between; the last one kept.
  predicate NextKept(items: seq<Item>, p: nat, n: nat) {
    p < n < |items| && items[p].keep && items[n].keep && forall i | p < i < n :: !items[i].keep
  }

  predicate LastKept(items: seq<Item>, p: nat) {
    p < |items| && items[p].keep && forall i | p < i < |items| :: !items[i].keep
  }

  ghost predicate Retained(tokens: seq<Span>, commas: seq<nat>, items: seq<Item>, c: nat)
    requires |tokens| == |items|
  {
    || (exists p: nat, n: nat :: NextKept(items, p, n) && FirstIn(commas, tokens[p].end, tokens[n].start) == Some(c))
    || (exists p: nat :: LastKept(items, p) && FirstBehind(commas, tokens[p].end) == Some(c))
  }

  // -------------------------------------------------------------------------- the gap behind a position

  function LastBelow(items: seq<Item>, k: nat): Option<nat>
    requires k <= |items|
  {
    if k == 0 then None else if items[k - 1].keep then Some(k - 1) else LastBelow(items, k - 1)
  }

  lemma {:induction false} LastBelowIs(items: seq<Item>, k: nat)
    requires k <= |items|
    ensures LastBelow(items, k).None? ==> forall i | 0 <= i < k :: !items[i].keep
    ensures LastBelow(items, k).Some? ==>
      var p := LastBelow(items, k).value; p < k && items[p].keep && forall i | p < i < k :: !items[i].keep
  {
    if k > 0 {
      LastBelowIs(items, k - 1);
    }
  }

  predicate SeparatedSince(commas: seq<nat>, end: nat, more: bool) {
    exists i | 0 <= i < |commas| :: if more then end <= commas[i] else end < commas[i]
  }

  function GapAt(tokens: seq<Span>, commas: seq<nat>, items: seq<Item>, k: nat, j: nat, pos: nat): Gap
    requires |tokens| == |items| && k <= |items| && j <= |commas| && Before(tokens[..k], commas[..j], pos)
  {
    var p := LastBelow(items, k);
    if p.None? then NoneKept
    else
      LastBelowIs(items, k);
      assert tokens[..k][p.value] == tokens[p.value];
      Since(pos - tokens[p.value].end, SeparatedSince(commas[..j], tokens[p.value].end, MoreKept(items, k)))
  }

  lemma {:induction false} FirstInIs(commas: seq<nat>, from: nat, before: nat, j: nat, pos: nat)
    requires j <= |commas| && (forall i | 0 <= i < j :: commas[i] < pos) && (forall i | j <= i < |commas| :: pos <= commas[i])
    ensures before == pos ==> (FirstIn(commas, from, before).Some? <==> SeparatedSince(commas[..j], from, true))
    ensures j < |commas| && commas[j] == pos && from <= pos < before && pos !in commas[..j] ==>
      (FirstIn(commas, from, before) == Some(pos) <==> !SeparatedSince(commas[..j], from, true))
    ensures FirstIn(commas, from, before).Some? ==> from <= FirstIn(commas, from, before).value < before
  {
    if j > 0 {
      var rest := commas[1..];
      assert forall i | 0 <= i < |rest| :: rest[i] == commas[i + 1];
      FirstInIs(rest, from, before, j - 1, pos);
      assert commas[..j] == [commas[0]] + rest[..j - 1];
      ConsSeparated(commas[0], rest[..j - 1], from, true);
    } else if commas != [] {
      FirstInNone(commas, from, before, pos);
    }
  }

  lemma ConsSeparated(c: nat, rest: seq<nat>, end: nat, more: bool)
    ensures SeparatedSince([c] + rest, end, more) <==> (if more then end <= c else end < c) || SeparatedSince(rest, end, more)
  {
    var all := [c] + rest;
    assert forall i | 0 <= i < |rest| :: all[i + 1] == rest[i];
    assert all[0] == c;
  }

  lemma {:induction false} FirstInNone(commas: seq<nat>, from: nat, before: nat, pos: nat)
    requires forall i | 0 <= i < |commas| :: pos <= commas[i]
    ensures before <= pos ==> FirstIn(commas, from, before).None?
    ensures commas != [] && from <= commas[0] < before ==> FirstIn(commas, from, before) == Some(commas[0])
    ensures FirstIn(commas, from, before).Some? ==> from <= FirstIn(commas, from, before).value < before
  {
    if commas != [] {
      assert forall i | 0 <= i < |commas[1..]| :: commas[1..][i] == commas[i + 1];
      FirstInNone(commas[1..], from, before, pos);
    }
  }

  lemma {:induction false} FirstBehindIs(commas: seq<nat>, end: nat, j: nat, pos: nat)
    requires j < |commas| && commas[j] == pos && (forall i | 0 <= i < j :: commas[i] < pos)
    ensures FirstBehind(commas, end) == Some(pos) <==> end < pos && !SeparatedSince(commas[..j], end, false)
    ensures FirstBehind(commas, end).Some? ==> end < FirstBehind(commas, end).value
  {
    if j > 0 {
      var rest := commas[1..];
      assert forall i | 0 <= i < |rest| :: rest[i] == commas[i + 1];
      FirstBehindIs(rest, end, j - 1, pos);
      assert commas[..j] == [commas[0]] + rest[..j - 1];
      ConsSeparated(commas[0], rest[..j - 1], end, false);
    } else {
      FirstBehindAfter(commas, end);
    }
  }

  lemma {:induction false} FirstBehindAfter(commas: seq<nat>, end: nat)
    ensures FirstBehind(commas, end).Some? ==> end < FirstBehind(commas, end).value
    ensures commas != [] && commas[0] > end ==> FirstBehind(commas, end) == Some(commas[0])
  {
    if commas != [] {
      FirstBehindAfter(commas[1..], end);
    }
  }

  lemma {:induction false} LastBelowIsLast(items: seq<Item>, k: nat, p: nat)
    requires p < k <= |items| && items[p].keep && forall i | p < i < k :: !items[i].keep
    ensures LastBelow(items, k) == Some(p)
  {
    if p < k - 1 {
      LastBelowIsLast(items, k - 1, p);
    }
  }

  // The positions around a comma of the array.
  ghost predicate AtComma(tokens: seq<Span>, commas: seq<nat>, k: nat, j: nat, pos: nat) {
    && k <= |tokens| && j < |commas| && commas[j] == pos
    && (forall i | 0 <= i < k :: tokens[i].start < tokens[i].end <= pos) && (forall i | k <= i < |tokens| :: pos < tokens[i].start < tokens[i].end)
    && (forall i | 0 <= i < j :: commas[i] < pos) && (forall i | j < i < |commas| :: pos < commas[i])
  }

  lemma LayoutComma(ls: seq<Lexeme>, pos: nat, depth: int, k: nat, j: nat, tokens: seq<Span>, commas: seq<nat>)
    requires ls != [] && IsComma(ls[0], depth) && Layout(ls, pos, depth, k, j, tokens, commas)
    ensures AtComma(tokens, commas, k, j, pos)
  {
    LayoutStep(ls, pos, depth, k, j, tokens, commas);
    CommaBetween(tokens, commas, k, j, pos);
  }

  lemma CommaBetween(tokens: seq<Span>, commas: seq<nat>, k: nat, j: nat, pos: nat)
    requires k <= |tokens| && j < |commas| && commas[j] == pos
    requires Before(tokens[..k], commas[..j], pos) && From(tokens[k..], commas[j + 1..], pos + 1)
    ensures AtComma(tokens, commas, k, j, pos)
  {
    forall i | 0 <= i < k ensures tokens[i].start < tokens[i].end <= pos { assert tokens[..k][i] == tokens[i]; }
    forall i | k <= i < |tokens| ensures pos < tokens[i].start < tokens[i].end { assert tokens[k..][i - k] == tokens[i]; }
    forall i | 0 <= i < j ensures commas[i] < pos { assert commas[..j][i] == commas[i]; }
    forall i | j < i < |commas| ensures pos < commas[i] { assert commas[j + 1..][i - j - 1] == commas[i]; }
  }

  // A comma is kept by the positions exactly if it is kept by the lexemes.
  lemma CommaRetained(tokens: seq<Span>, commas: seq<nat>, items: seq<Item>, k: nat, j: nat, pos: nat)
    requires AtComma(tokens, commas, k, j, pos) && |tokens| == |items| && Before(tokens[..k], commas[..j], pos)
    ensures Retained(tokens, commas, items, pos) <==> KeepsComma(GapAt(tokens, commas, items, k, j, pos), MoreKept(items, k))
  {
    LastBelowIs(items, k);
    forall p: nat, n: nat | NextKept(items, p, n) && FirstIn(commas, tokens[p].end, tokens[n].start) == Some(pos)
      ensures KeepsComma(GapAt(tokens, commas, items, k, j, pos), MoreKept(items, k)) {
      RetainedBetween(tokens, commas, items, k, j, pos, p, n);
    }
    forall p: nat | LastKept(items, p) && FirstBehind(commas, tokens[p].end) == Some(pos)
      ensures KeepsComma(GapAt(tokens, commas, items, k, j, pos), MoreKept(items, k)) {
      RetainedBehind(tokens, commas, items, k, j, pos, p);
    }
    if KeepsComma(GapAt(tokens, commas, items, k, j, pos), MoreKept(items, k)) {
      KeptRetained(tokens, commas, items, k, j, pos);
    }
  }

  lemma RetainedBetween(tokens: seq<Span>, commas: seq<nat>, items: seq<Item>, k: nat, j: nat, pos: nat, p: nat, n: nat)
    requires AtComma(tokens, commas, k, j, pos) && |tokens| == |items| && Before(tokens[..k], commas[..j], pos)
    requires NextKept(items, p, n) && FirstIn(commas, tokens[p].end, tokens[n].start) == Some(pos)
    ensures KeepsComma(GapAt(tokens, commas, items, k, j, pos), MoreKept(items, k))
  {
    FirstInIs(commas, tokens[p].end, tokens[n].start, j, pos);
    assert p < k <= n;
    LastBelowIsLast(items, k, p);
  }

  lemma RetainedBehind(tokens: seq<Span>, commas: seq<nat>, items: seq<Item>, k: nat, j: nat, pos: nat, p: nat)
    requires AtComma(tokens, commas, k, j, pos) && |tokens| == |items| && Before(tokens[..k], commas[..j], pos)
    requires LastKept(items, p) && FirstBehind(commas, tokens[p].end) == Some(pos)
    ensures KeepsComma(GapAt(tokens, commas, items, k, j, pos), MoreKept(items, k))
  {
    FirstBehindIs(commas, tokens[p].end, j, pos);
    assert p < k;
    LastBelowIsLast(items, k, p);
  }

  lemma KeptRetained(tokens: seq<Span>, commas: seq<nat>, items: seq<Item>, k: nat, j: nat, pos: nat)
    requires AtComma(tokens, commas, k, j, pos) && |tokens| == |items| && Before(tokens[..k], commas[..j], pos)
    requires KeepsComma(GapAt(tokens, commas, items, k, j, pos), MoreKept(items, k))
    ensures Retained(tokens, commas, items, pos)
  {
    LastBelowIs(items, k);
    var p := LastBelow(items, k).value;
    if MoreKept(items, k) {
      var n := FirstKept(items, k);
      assert NextKept(items, p, n);
      FirstInIs(commas, tokens[p].end, tokens[n].start, j, pos);
    } else {
      assert LastKept(items, p);
      FirstBehindIs(commas, tokens[p].end, j, pos);
    }
  }

  ghost function FirstKept(items: seq<Item>, k: nat): (n: nat)
    requires k <= |items| && MoreKept(items, k)
    ensures k <= n < |items| && items[n].keep && forall i | k <= i < n :: !items[i].keep
    decreases |items| - k
  {
    if items[k].keep then k else FirstKept(items, k + 1)
  }

  // -------------------------------------------------------------------------- how the gap moves

  lemma GapOverRemoved(tokens: seq<Span>, commas: seq<nat>, items: seq<Item>, k: nat, j: nat, pos: nat, next: nat)
    requires |tokens| == |items| && k < |items| && j <= |commas| && pos <= next && !items[k].keep
    requires Before(tokens[..k], commas[..j], pos) && Before(tokens[..k + 1], commas[..j], next)
    ensures GapAt(tokens, commas, items, k + 1, j, next) == Farther(GapAt(tokens, commas, items, k, j, pos), next - pos)
  {
    LastBelowIs(items, k);
    assert MoreKept(items, k) <==> MoreKept(items, k + 1);
  }

  lemma GapOverKept(tokens: seq<Span>, commas: seq<nat>, items: seq<Item>, k: nat, j: nat, pos: nat, next: nat)
    requires |tokens| == |items| && k < |items| && j <= |commas| && items[k].keep && tokens[k] == Span(pos, next) && pos <= next
    requires Before(tokens[..k], commas[..j], pos) && Before(tokens[..k + 1], commas[..j], next)
    requires forall i | j <= i < |commas| :: pos <= commas[i]
    ensures GapAt(tokens, commas, items, k + 1, j, next) == Since(0, false)
    ensures var gap := GapAt(tokens, commas, items, k, j, pos);
      (gap.Since? && !gap.separated) <==>
      exists p: nat :: NextKept(items, p, k) && FirstIn(commas, tokens[p].end, tokens[k].start).None?
  {
    LastBelowIs(items, k);
    assert forall i | 0 <= i < j :: commas[..j][i] == commas[i] < pos;
    forall p: nat | NextKept(items, p, k) ensures LastBelow(items, k) == Some(p) {
      LastBelowIsLast(items, k, p);
    }
    if LastBelow(items, k).Some? {
      var p := LastBelow(items, k).value;
      assert NextKept(items, p, k);
      FirstInIs(commas, tokens[p].end, pos, j, pos);
    }
  }

  lemma GapOverComma(tokens: seq<Span>, commas: seq<nat>, items: seq<Item>, k: nat, j: nat, pos: nat)
    requires |tokens| == |items| && k <= |items| && j < |commas| && commas[j] == pos
    requires Before(tokens[..k], commas[..j], pos) && Before(tokens[..k], commas[..j + 1], pos + 1)
    ensures var gap := GapAt(tokens, commas, items, k, j, pos);
      GapAt(tokens, commas, items, k, j + 1, pos + 1) ==
      if KeepsComma(gap, MoreKept(items, k)) then Since(gap.distance + 1, true) else Farther(gap, 1)
  {
    LastBelowIs(items, k);
    if LastBelow(items, k).Some? {
      var end, more := tokens[LastBelow(items, k).value].end, MoreKept(items, k);
      assert tokens[..k][LastBelow(items, k).value].end <= pos;
      SeparatedOneMore(commas, j, end, more);
    }
  }

  lemma SeparatedOneMore(commas: seq<nat>, j: nat, end: nat, more: bool)
    requires j < |commas|
    ensures SeparatedSince(commas[..j + 1], end, more) <==>
      (if more then end <= commas[j] else end < commas[j]) || SeparatedSince(commas[..j], end, more)
  {
    var now, was := commas[..j + 1], commas[..j];
    assert forall i | 0 <= i < j :: now[i] == was[i];
    assert now[j] == commas[j];
  }

  lemma GapOverOther(tokens: seq<Span>, commas: seq<nat>, items: seq<Item>, k: nat, j: nat, pos: nat, next: nat)
    requires |tokens| == |items| && k <= |items| && j <= |commas| && pos <= next
    requires Before(tokens[..k], commas[..j], pos) && Before(tokens[..k], commas[..j], next)
    ensures GapAt(tokens, commas, items, k, j, next) == Farther(GapAt(tokens, commas, items, k, j, pos), next - pos)
  {
    LastBelowIs(items, k);
  }
}
