/**
 The edits of `filterArrayPreservingComments` in src/config/sandbox-allow.ts, sorted by position and
 spliced into the text: the loops over positions give exactly the edit of SandboxAllow on lexemes.
 */
module SandboxSplice {
  import opened Wrappers
  import opened TomlLexer
  import opened SandboxAllow
  import opened SandboxEdit
  import opened SandboxFilter

  // -------------------------------------------------------------------------- splicing

  // Edits in order, from a cursor on, inside a text of a given length.
  predicate Fits(edits: seq<Edit>, cursor: nat, length: nat) {
    if edits == [] then cursor <= length
    else cursor <= edits[0].start <= edits[0].end <= length && Fits(edits[1..], edits[0].end, length)
  }

  function Splice(raw: string, cursor: nat, edits: seq<Edit>): string
    requires Fits(edits, cursor, |raw|)
    decreases |edits|
  {
    if edits == [] then raw[cursor..]
    else raw[cursor..edits[0].start] + edits[0].replacement + Splice(raw, edits[0].end, edits[1..])
  }

  function Replacement(item: Item): string { if item.keep then Quoted(item.value) else "" }

  /** The edits of the lexemes from a position on, in order. */
  function EditsOf(ls: seq<Lexeme>, pos: nat, depth: int, k: nat, items: seq<Item>, retained: set<nat>): seq<Edit>
    requires k + TokenCount(ls, depth) == |items|
  {
    if ls == [] then []
    else
      var next, d := pos + |Text(ls[0])|, DepthAfter(ls[0], depth);
      if IsToken(ls[0], depth) then [Edit(pos, next, Replacement(items[k]))] + EditsOf(ls[1..], next, d, k + 1, items, retained)
      else if IsComma(ls[0], depth) && pos !in retained then [Edit(pos, next, "")] + EditsOf(ls[1..], next, d, k, items, retained)
      else EditsOf(ls[1..], next, d, k, items, retained)
  }

  predicate StartAt(edits: seq<Edit>, pos: nat) { forall i | 0 <= i < |edits| :: pos <= edits[i].start }

  lemma {:induction false} EditsFit(ls: seq<Lexeme>, pos: nat, depth: int, k: nat, items: seq<Item>, retained: set<nat>)
    requires k + TokenCount(ls, depth) == |items|
    ensures var edits := EditsOf(ls, pos, depth, k, items, retained);
      Fits(edits, pos, pos + |Concat(ls)|) && StartAt(edits, pos)
  {
    if ls != [] {
      var l, rest := ls[0], ls[1..];
      var next, d := pos + |Text(l)|, DepthAfter(l, depth);
      var k' := if IsToken(l, depth) then k + 1 else k;
      EditsFit(rest, next, d, k', items, retained);
      var tail := EditsOf(rest, next, d, k', items, retained);
      FitsEarlier(tail, pos, next, pos + |Concat(ls)|);
    }
  }

  lemma {:induction false} FitsEarlier(edits: seq<Edit>, cursor: nat, from: nat, length: nat)
    requires Fits(edits, from, length) && cursor <= from
    ensures Fits(edits, cursor, length)
  {}

  // Text before the first edit is passed as it is.
  lemma {:induction false} SpliceOver(raw: string, cursor: nat, from: nat, edits: seq<Edit>)
    requires Fits(edits, from, |raw|) && cursor <= from
    ensures Fits(edits, cursor, |raw|) && from <= |raw| && Splice(raw, cursor, edits) == raw[cursor..from] + Splice(raw, from, edits)
  {
    if edits == [] {
      assert raw[cursor..] == raw[cursor..from] + raw[from..];
    } else {
      assert raw[cursor..edits[0].start] == raw[cursor..from] + raw[from..edits[0].start];
      JoinFour(raw[cursor..from], raw[from..edits[0].start], edits[0].replacement, Splice(raw, edits[0].end, edits[1..]));
    }
  }

  lemma JoinFour(a: string, b: string, c: string, d: string)
    ensures (a + b) + c + d == a + (b + c + d)
  {}

  lemma SpliceEdit(raw: string, edit: Edit, edits: seq<Edit>)
    requires Fits([edit] + edits, edit.start, |raw|)
    ensures Fits(edits, edit.end, |raw|) && Splice(raw, edit.start, [edit] + edits) == edit.replacement + Splice(raw, edit.end, edits)
  {
    var all := [edit] + edits;
    assert all[0] == edit && all[1..] == edits;
    assert Fits(edits, edit.end, |raw|);
    assert Splice(raw, edit.start, all) == raw[edit.start..edit.start] + edit.replacement + Splice(raw, edit.end, edits);
    hide Splice, Fits;
    assert raw[edit.start..edit.start] == "";
    assert "" + edit.replacement == edit.replacement;
  }

  // -------------------------------------------------------------------------- the edits are the tidied lexemes

  ghost predicate Agrees(tokens: seq<Span>, commas: seq<nat>, items: seq<Item>, retained: set<nat>)
    requires |tokens| == |items|
  {
    forall c | c in commas :: c in retained <==> Retained(tokens, commas, items, c)
  }

  // Two kept neighbours, the second at or behind an index, have a comma between them.
  ghost predicate CommaBetweenKept(tokens: seq<Span>, commas: seq<nat>, items: seq<Item>, p: nat, n: nat)
    requires |tokens| == |items|
  {
    NextKept(items, p, n) ==> FirstIn(commas, tokens[p].end, tokens[n].start).Some?
  }

  ghost predicate SeparatedFrom(tokens: seq<Span>, commas: seq<nat>, items: seq<Item>, k: nat)
    requires |tokens| == |items|
  {
    forall p: nat, n: nat | k <= n < |items| :: CommaBetweenKept(tokens, commas, items, p, n)
  }

  // What the tidied lexemes from a position on have to do with the edits.
  ghost predicate Matches(raw: string, pos: nat, tidied: Option<seq<Lexeme>>, edits: seq<Edit>, separated: bool) {
    && (tidied.Some? <==> separated)
    && Fits(edits, pos, |raw|)
    && (tidied.Some? ==> Splice(raw, pos, edits) == Concat(tidied.value))
  }

  lemma OntoConcat(l: Lexeme, tidied: Option<seq<Lexeme>>)
    ensures Onto(l, tidied).Some? <==> tidied.Some?
    ensures tidied.Some? ==> Concat(Onto(l, tidied).value) == Text(l) + Concat(tidied.value)
  {
    if tidied.Some? {
      assert ([l] + tidied.value)[1..] == tidied.value;
    }
  }

  // A lexeme that stays.
  lemma {:induction false} MatchesStay(raw: string, pos: nat, l: Lexeme, tidied: Option<seq<Lexeme>>, edits: seq<Edit>, separated: bool)
    requires pos + |Text(l)| <= |raw| && raw[pos..pos + |Text(l)|] == Text(l)
    requires Matches(raw, pos + |Text(l)|, tidied, edits, separated)
    ensures Matches(raw, pos, Onto(l, tidied), edits, separated)
  {
    OntoConcat(l, tidied);
    SpliceOver(raw, pos, pos + |Text(l)|, edits);
  }

  // A lexeme that goes.
  lemma MatchesGone(raw: string, pos: nat, next: nat, tidied: Option<seq<Lexeme>>, edits: seq<Edit>, separated: bool)
    requires pos <= next <= |raw| && Matches(raw, next, tidied, edits, separated)
    ensures Matches(raw, pos, tidied, [Edit(pos, next, "")] + edits, separated)
  {
    FitsCons(Edit(pos, next, ""), edits, |raw|);
    SpliceEdit(raw, Edit(pos, next, ""), edits);
    if tidied.Some? {
      assert "" + Concat(tidied.value) == Concat(tidied.value);
    }
  }

  lemma FitsCons(edit: Edit, edits: seq<Edit>, length: nat)
    requires edit.start <= edit.end <= length && Fits(edits, edit.end, length)
    ensures Fits([edit] + edits, edit.start, length)
  {
    assert ([edit] + edits)[1..] == edits;
  }

  // A lexeme that is written anew, or refused.
  lemma MatchesRewritten(raw: string, pos: nat, next: nat, l: Lexeme, refused: bool, tidied: Option<seq<Lexeme>>,
                         edits: seq<Edit>, later: bool, separated: bool)
    requires pos <= next <= |raw| && Matches(raw, next, tidied, edits, later) && (separated <==> later && !refused)
    ensures Matches(raw, pos, if refused then None else Onto(l, tidied), [Edit(pos, next, Text(l))] + edits, separated)
  {
    FitsCons(Edit(pos, next, Text(l)), edits, |raw|);
    SpliceEdit(raw, Edit(pos, next, Text(l)), edits);
    OntoConcat(l, tidied);
  }

  lemma SeparatedSkip(tokens: seq<Span>, commas: seq<nat>, items: seq<Item>, k: nat)
    requires |tokens| == |items| && k < |items|
    ensures SeparatedFrom(tokens, commas, items, k) <==>
      SeparatedFrom(tokens, commas, items, k + 1) && forall p: nat :: CommaBetweenKept(tokens, commas, items, p, k)
  {}

  lemma NotBetween(tokens: seq<Span>, commas: seq<nat>, items: seq<Item>, k: nat)
    requires |tokens| == |items| && k < |items|
    ensures (forall p: nat :: CommaBetweenKept(tokens, commas, items, p, k)) <==>
      !exists p: nat :: NextKept(items, p, k) && FirstIn(commas, tokens[p].end, tokens[k].start).None?
  {
    forall p: nat | NextKept(items, p, k) && FirstIn(commas, tokens[p].end, tokens[k].start).None?
      ensures !CommaBetweenKept(tokens, commas, items, p, k) {
    }
    forall p: nat | !CommaBetweenKept(tokens, commas, items, p, k)
      ensures NextKept(items, p, k) && FirstIn(commas, tokens[p].end, tokens[k].start).None? {
    }
  }

  // The whole position of the induction below.
  ghost predicate At(raw: string, ls: seq<Lexeme>, pos: nat, depth: int, k: nat, j: nat, tokens: seq<Span>, commas: seq<nat>,
                     items: seq<Item>, retained: set<nat>)
  {
    && Layout(ls, pos, depth, k, j, tokens, commas) && |tokens| == |items| && k + TokenCount(ls, depth) == |items|
    && pos <= |raw| && raw[pos..] == Concat(ls) && Agrees(tokens, commas, items, retained)
  }

  lemma AtStep(raw: string, ls: seq<Lexeme>, pos: nat, depth: int, k: nat, j: nat, tokens: seq<Span>, commas: seq<nat>,
               items: seq<Item>, retained: set<nat>)
    requires ls != [] && At(raw, ls, pos, depth, k, j, tokens, commas, items, retained)
    ensures var l := ls[0];
      var next := pos + |Text(l)|;
      var k', j' := if IsToken(l, depth) then k + 1 else k, if IsComma(l, depth) then j + 1 else j;
      && At(raw, ls[1..], next, DepthAfter(l, depth), k', j', tokens, commas, items, retained)
      && raw[pos..next] == Text(l)
      && (IsToken(l, depth) ==> k < |tokens| && tokens[k] == Span(pos, next))
      && (IsComma(l, depth) ==> AtComma(tokens, commas, k, j, pos))
  {
    hide Layout, Tokens, Commas, Agrees, AtComma;
    var l := ls[0];
    var next := pos + |Text(l)|;
    LayoutStep(ls, pos, depth, k, j, tokens, commas);
    if IsComma(l, depth) {
      LayoutComma(ls, pos, depth, k, j, tokens, commas);
    }
    assert raw[pos..] == Text(l) + Concat(ls[1..]);
    assert raw[pos..][..|Text(l)|] == raw[pos..next];
    assert raw[pos..][|Text(l)|..] == raw[next..];
  }

  lemma LayoutBefore(ls: seq<Lexeme>, pos: nat, depth: int, k: nat, j: nat, tokens: seq<Span>, commas: seq<nat>)
    requires Layout(ls, pos, depth, k, j, tokens, commas)
    ensures k <= |tokens| && j <= |commas| && Before(tokens[..k], commas[..j], pos)
    ensures forall i | j <= i < |commas| :: pos <= commas[i]
  {
    forall i | j <= i < |commas| ensures pos <= commas[i] { assert commas[j..][i - j] == commas[i]; }
  }

  // One lexeme of the induction, each from the one behind it.
  lemma TokenSplices(raw: string, ls: seq<Lexeme>, pos: nat, k: nat, j: nat, tokens: seq<Span>, commas: seq<nat>,
                     items: seq<Item>, retained: set<nat>)
    requires ls != [] && IsToken(ls[0], 1) && At(raw, ls, pos, 1, k, j, tokens, commas, items, retained)
    requires var next := pos + |Text(ls[0])|;
      && At(raw, ls[1..], next, 1, k + 1, j, tokens, commas, items, retained)
      && k < |tokens| && tokens[k] == Span(pos, next) && next <= |raw|
      && Matches(raw, next, Tidy(ls[1..], 1, k + 1, GapAt(tokens, commas, items, k + 1, j, next), items),
                 EditsOf(ls[1..], next, 1, k + 1, items, retained), SeparatedFrom(tokens, commas, items, k + 1))
    ensures Matches(raw, pos, Tidy(ls, 1, k, GapAt(tokens, commas, items, k, j, pos), items),
                    EditsOf(ls, pos, 1, k, items, retained), SeparatedFrom(tokens, commas, items, k))
  {
    hide Matches, FirstIn, Tokens, Commas, Agrees, SeparatedFrom, GapAt, From, Before, MoreKept;
    var l, rest := ls[0], ls[1..];
    var next := pos + |Text(l)|;
    var gap := GapAt(tokens, commas, items, k, j, pos);
    var tail := EditsOf(rest, next, 1, k + 1, items, retained);
    LayoutBefore(ls, pos, 1, k, j, tokens, commas);
    LayoutBefore(rest, next, 1, k + 1, j, tokens, commas);
    SeparatedSkip(tokens, commas, items, k);
    if !items[k].keep {
      GapOverRemoved(tokens, commas, items, k, j, pos, next);
      MatchesGone(raw, pos, next, Tidy(rest, 1, k + 1, Farther(gap, |Text(l)|), items), tail, SeparatedFrom(tokens, commas, items, k + 1));
    } else {
      GapOverKept(tokens, commas, items, k, j, pos, next);
      NotBetween(tokens, commas, items, k);
      MatchesRewritten(raw, pos, next, Str(Quoted(items[k].value)), gap.Since? && !gap.separated,
                       Tidy(rest, 1, k + 1, Since(0, false), items), tail, SeparatedFrom(tokens, commas, items, k + 1),
                       SeparatedFrom(tokens, commas, items, k));
    }
  }

  lemma CommaSplices(raw: string, ls: seq<Lexeme>, pos: nat, k: nat, j: nat, tokens: seq<Span>, commas: seq<nat>,
                     items: seq<Item>, retained: set<nat>)
    requires ls != [] && IsComma(ls[0], 1) && At(raw, ls, pos, 1, k, j, tokens, commas, items, retained)
    requires At(raw, ls[1..], pos + 1, 1, k, j + 1, tokens, commas, items, retained)
      && AtComma(tokens, commas, k, j, pos) && raw[pos..pos + 1] == ","
      && Matches(raw, pos + 1, Tidy(ls[1..], 1, k, GapAt(tokens, commas, items, k, j + 1, pos + 1), items),
                 EditsOf(ls[1..], pos + 1, 1, k, items, retained), SeparatedFrom(tokens, commas, items, k))
    ensures Matches(raw, pos, Tidy(ls, 1, k, GapAt(tokens, commas, items, k, j, pos), items),
                    EditsOf(ls, pos, 1, k, items, retained), SeparatedFrom(tokens, commas, items, k))
  {
    hide Matches, FirstIn, Tokens, Commas, SeparatedFrom, GapAt, From, Before, MoreKept, Retained;
    var gap := GapAt(tokens, commas, items, k, j, pos);
    var tail := EditsOf(ls[1..], pos + 1, 1, k, items, retained);
    LayoutBefore(ls, pos, 1, k, j, tokens, commas);
    LayoutBefore(ls[1..], pos + 1, 1, k, j + 1, tokens, commas);
    CommaRetained(tokens, commas, items, k, j, pos);
    GapOverComma(tokens, commas, items, k, j, pos);
    assert commas[j] in commas;
    if KeepsComma(gap, MoreKept(items, k)) {
      MatchesStay(raw, pos, Comma, Tidy(ls[1..], 1, k, Since(gap.distance + 1, true), items), tail, SeparatedFrom(tokens, commas, items, k));
    } else {
      MatchesGone(raw, pos, pos + 1, Tidy(ls[1..], 1, k, Farther(gap, 1), items), tail, SeparatedFrom(tokens, commas, items, k));
    }
  }

  lemma OtherSplices(raw: string, ls: seq<Lexeme>, pos: nat, depth: int, k: nat, j: nat, tokens: seq<Span>, commas: seq<nat>,
                     items: seq<Item>, retained: set<nat>)
    requires ls != [] && !IsToken(ls[0], depth) && !IsComma(ls[0], depth) && At(raw, ls, pos, depth, k, j, tokens, commas, items, retained)
    requires var next, d := pos + |Text(ls[0])|, DepthAfter(ls[0], depth);
      && At(raw, ls[1..], next, d, k, j, tokens, commas, items, retained)
      && next <= |raw| && raw[pos..next] == Text(ls[0])
      && Matches(raw, next, Tidy(ls[1..], d, k, GapAt(tokens, commas, items, k, j, next), items),
                 EditsOf(ls[1..], next, d, k, items, retained), SeparatedFrom(tokens, commas, items, k))
    ensures Matches(raw, pos, Tidy(ls, depth, k, GapAt(tokens, commas, items, k, j, pos), items),
                    EditsOf(ls, pos, depth, k, items, retained), SeparatedFrom(tokens, commas, items, k))
  {
    hide Matches, FirstIn, Tokens, Commas, SeparatedFrom, GapAt, From, Before, MoreKept, Agrees;
    var l, rest := ls[0], ls[1..];
    var next, d := pos + |Text(l)|, DepthAfter(l, depth);
    LayoutBefore(ls, pos, depth, k, j, tokens, commas);
    LayoutBefore(rest, next, d, k, j, tokens, commas);
    GapOverOther(tokens, commas, items, k, j, pos, next);
    MatchesStay(raw, pos, l, Tidy(rest, d, k, GapAt(tokens, commas, items, k, j, next), items),
                EditsOf(rest, next, d, k, items, retained), SeparatedFrom(tokens, commas, items, k));
  }

  /**
   Splicing the edits of the positions gives the tidied lexemes, and these are refused exactly if two
   kept neighbours have no comma between them.
   */
  lemma {:induction false} TidySplices(raw: string, ls: seq<Lexeme>, pos: nat, depth: int, k: nat, j: nat, tokens: seq<Span>,
                                       commas: seq<nat>, items: seq<Item>, retained: set<nat>)
    requires At(raw, ls, pos, depth, k, j, tokens, commas, items, retained)
    ensures Matches(raw, pos, Tidy(ls, depth, k, GapAt(tokens, commas, items, k, j, pos), items),
                    EditsOf(ls, pos, depth, k, items, retained), SeparatedFrom(tokens, commas, items, k))
    decreases |ls|
  {
    hide FirstIn, Tokens, Commas, GapAt, From, Before, MoreKept, Agrees, Retained, AtComma, Layout;
    if ls == [] {
      assert raw[pos..] == "";
    } else {
      hide Tidy, EditsOf, SeparatedFrom, Matches, At;
      var l := ls[0];
      var next, d := pos + |Text(l)|, DepthAfter(l, depth);
      AtStep(raw, ls, pos, depth, k, j, tokens, commas, items, retained);
      if IsToken(l, depth) {
        TidySplices(raw, ls[1..], next, d, k + 1, j, tokens, commas, items, retained);
        TokenSplices(raw, ls, pos, k, j, tokens, commas, items, retained);
      } else if IsComma(l, depth) {
        TidySplices(raw, ls[1..], next, d, k, j + 1, tokens, commas, items, retained);
        CommaSplices(raw, ls, pos, k, j, tokens, commas, items, retained);
      } else {
        TidySplices(raw, ls[1..], next, d, k, j, tokens, commas, items, retained);
        OtherSplices(raw, ls, pos, depth, k, j, tokens, commas, items, retained);
      }
    }
  }
}
