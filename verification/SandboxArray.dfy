/**
 `filterArrayPreservingComments` of src/config/sandbox-allow.ts: the loops over elements, commas and
 sorted edits.  It computes exactly the edit of SandboxAllow.
 */
module SandboxArray {
  import opened Wrappers
  import opened TomlLexer
  import opened SandboxAllow
  import opened SandboxEdit
  import opened SandboxFilter
  import opened SandboxSplice

  // -------------------------------------------------------------------------- the edits, sorted

  function TokenEdits(tokens: seq<Span>, items: seq<Item>): seq<Edit>
    requires |tokens| == |items|
  {
    if tokens == [] then []
    else [Edit(tokens[0].start, tokens[0].end, Replacement(items[0]))] + TokenEdits(tokens[1..], items[1..])
  }

  function CommaEdits(commas: seq<nat>, retained: set<nat>): seq<Edit> {
    if commas == [] then []
    else (if commas[0] in retained then [] else [Edit(commas[0], commas[0] + 1, "")]) + CommaEdits(commas[1..], retained)
  }

  function Insert(edit: Edit, edits: seq<Edit>): seq<Edit> {
    if edits == [] || edit.start <= edits[0].start then [edit] + edits else [edits[0]] + Insert(edit, edits[1..])
  }

  // A stable sort by position.
  function Sorted(edits: seq<Edit>): seq<Edit> {
    if edits == [] then [] else Insert(edits[0], Sorted(edits[1..]))
  }

  lemma InsertBehind(later: Edit, edit: Edit, edits: seq<Edit>)
    requires edit.start < later.start
    ensures Insert(later, [edit] + edits) == [edit] + Insert(later, edits)
  {
    assert ([edit] + edits)[1..] == edits;
  }

  lemma InsertFirst(edit: Edit, edits: seq<Edit>)
    requires forall e | e in edits :: edit.start < e.start
    ensures Insert(edit, edits) == [edit] + edits
  {
    assert edits != [] ==> edits[0] in edits;
  }

  lemma {:induction false} SortedMiddle(before: seq<Edit>, edit: Edit, behind: seq<Edit>)
    requires forall e | e in before || e in behind :: edit.start < e.start
    ensures Sorted(before + ([edit] + behind)) == [edit] + Sorted(before + behind)
  {
    hide Insert;
    var all := before + ([edit] + behind);
    if before == [] {
      assert all == [edit] + behind && before + behind == behind;
      assert all[1..] == behind;
      SortedMembers(behind);
      InsertFirst(edit, Sorted(behind));
    } else {
      var rest := before[1..];
      SortedMiddle(rest, edit, behind);
      assert all[1..] == rest + ([edit] + behind) && (before + behind)[1..] == rest + behind;
      assert before[0] in before;
      InsertBehind(before[0], edit, Sorted(rest + behind));
    }
  }

  lemma SortedFront(edit: Edit, edits: seq<Edit>, behind: seq<Edit>)
    requires forall e | e in edits || e in behind :: edit.start < e.start
    ensures Sorted(([edit] + edits) + behind) == [edit] + Sorted(edits + behind)
  {
    hide Sorted;
    SortedMiddle([], edit, edits + behind);
    assert ([edit] + edits) + behind == [] + ([edit] + (edits + behind));
    assert [] + (edits + behind) == edits + behind;
  }

  lemma {:induction false} InsertMembers(edit: Edit, edits: seq<Edit>)
    ensures forall e :: e in Insert(edit, edits) <==> e == edit || e in edits
  {
    if edits != [] && edit.start > edits[0].start {
      InsertMembers(edit, edits[1..]);
      assert edits == [edits[0]] + edits[1..];
    }
  }

  lemma {:induction false} SortedMembers(edits: seq<Edit>)
    ensures forall e :: e in Sorted(edits) <==> e in edits
  {
    if edits != [] {
      SortedMembers(edits[1..]);
      InsertMembers(edits[0], Sorted(edits[1..]));
      assert edits == [edits[0]] + edits[1..];
    }
  }

  lemma {:induction false} TokenEditsStart(tokens: seq<Span>, items: seq<Item>, pos: nat)
    requires |tokens| == |items| && forall i | 0 <= i < |tokens| :: pos <= tokens[i].start
    ensures forall e | e in TokenEdits(tokens, items) :: pos <= e.start
  {
    if tokens != [] {
      TokenEditsStart(tokens[1..], items[1..], pos);
    }
  }

  lemma {:induction false} CommaEditsStart(commas: seq<nat>, retained: set<nat>, pos: nat)
    requires forall i | 0 <= i < |commas| :: pos <= commas[i]
    ensures forall e | e in CommaEdits(commas, retained) :: pos <= e.start
  {
    if commas != [] {
      CommaEditsStart(commas[1..], retained, pos);
    }
  }

  /** The edits of all elements and then of all commas, sorted, are the edits lexeme by lexeme. */
  lemma {:induction false} EditsSorted(ls: seq<Lexeme>, pos: nat, depth: int, k: nat, items: seq<Item>, retained: set<nat>)
    requires k + TokenCount(ls, depth) == |items| && (forall i | 0 <= i < |ls| :: Text(ls[i]) != "")
    requires |Tokens(ls, pos, depth)| == |items| - k
    ensures Sorted(TokenEdits(Tokens(ls, pos, depth), items[k..]) + CommaEdits(Commas(ls, pos, depth), retained)) ==
            EditsOf(ls, pos, depth, k, items, retained)
  {
    if ls != [] {
      var l, rest := ls[0], ls[1..];
      var next, d := pos + |Text(l)|, DepthAfter(l, depth);
      var k' := if IsToken(l, depth) then k + 1 else k;
      assert Text(l) != "";
      PositionsFrom(rest, next, d);
      var tokens, commas := Tokens(rest, next, d), Commas(rest, next, d);
      assert Tokens(ls, pos, depth) == (if IsToken(l, depth) then [Span(pos, next)] else []) + tokens;
      assert Commas(ls, pos, depth) == (if IsComma(l, depth) then [pos] else []) + commas;
      EditsSorted(rest, next, d, k', items, retained);
      assert EditsOf(ls, pos, depth, k, items, retained) == OneMoreEdit(l, pos, next, depth, k, items, retained) + EditsOf(rest, next, d, k', items, retained);
      OneMoreSorted(l, pos, next, depth, k, items, retained, tokens, commas);
    }
  }

  // The edit of one lexeme, if any.
  function OneMoreEdit(l: Lexeme, pos: nat, next: nat, depth: int, k: nat, items: seq<Item>, retained: set<nat>): seq<Edit>
    requires IsToken(l, depth) ==> k < |items|
  {
    if IsToken(l, depth) then [Edit(pos, next, Replacement(items[k]))]
    else if IsComma(l, depth) && pos !in retained then [Edit(pos, next, "")]
    else []
  }

  lemma OneMoreSorted(l: Lexeme, pos: nat, next: nat, depth: int, k: nat, items: seq<Item>, retained: set<nat>,
                      tokens: seq<Span>, commas: seq<nat>)
    requires pos < next && (IsToken(l, depth) ==> k < |items|) && (IsComma(l, depth) ==> next == pos + 1)
    requires |tokens| == |items| - (if IsToken(l, depth) then k + 1 else k) && From(tokens, commas, next)
    ensures Sorted(TokenEdits((if IsToken(l, depth) then [Span(pos, next)] else []) + tokens, items[k..]) +
                   CommaEdits((if IsComma(l, depth) then [pos] else []) + commas, retained)) ==
            OneMoreEdit(l, pos, next, depth, k, items, retained) +
            Sorted(TokenEdits(tokens, items[if IsToken(l, depth) then k + 1 else k..]) + CommaEdits(commas, retained))
  {
    hide Sorted, TokenEdits, CommaEdits;
    var k' := if IsToken(l, depth) then k + 1 else k;
    TokenEditsStart(tokens, items[k'..], next);
    CommaEditsStart(commas, retained, next);
    var te, ce := TokenEdits(tokens, items[k'..]), CommaEdits(commas, retained);
    assert [] + tokens == tokens && [] + commas == commas && [] + Sorted(te + ce) == Sorted(te + ce);
    if IsToken(l, depth) {
      FrontToken(Span(pos, next), tokens, items, k);
      SortedFront(Edit(pos, next, Replacement(items[k])), te, ce);
    } else if IsComma(l, depth) {
      FrontComma(pos, commas, retained);
      if pos !in retained {
        SortedMiddle(te, Edit(pos, pos + 1, ""), ce);
      }
    }
  }

  lemma FrontToken(token: Span, tokens: seq<Span>, items: seq<Item>, k: nat)
    requires k < |items| && |tokens| == |items| - k - 1
    ensures TokenEdits([token] + tokens, items[k..]) ==
            [Edit(token.start, token.end, Replacement(items[k]))] + TokenEdits(tokens, items[k + 1..])
  {
    assert ([token] + tokens)[1..] == tokens && items[k..][1..] == items[k + 1..];
  }

  lemma FrontComma(comma: nat, commas: seq<nat>, retained: set<nat>)
    ensures CommaEdits([comma] + commas, retained) ==
            (if comma in retained then [] else [Edit(comma, comma + 1, "")]) + CommaEdits(commas, retained)
    ensures comma in retained ==> CommaEdits([comma] + commas, retained) == CommaEdits(commas, retained)
  {
    assert ([comma] + commas)[1..] == commas;
    assert [] + CommaEdits(commas, retained) == CommaEdits(commas, retained);
  }

  // -------------------------------------------------------------------------- the loops

  // All kept indexes below a bound, in order.
  ghost predicate KeptBelow(items: seq<Item>, n: nat, kept: seq<nat>)
    requires n <= |items|
  {
    && (forall x | 0 <= x < |kept| :: kept[x] < n && items[kept[x]].keep)
    && (forall x, y | 0 <= x < y < |kept| :: kept[x] < kept[y])
    && (forall i: nat | i < n && items[i].keep :: i in kept)
  }

  method KeptIndexes(items: seq<Item>) returns (kept: seq<nat>)
    ensures KeptBelow(items, |items|, kept)
  {
    kept := [];
    for i := 0 to |items|
      invariant KeptBelow(items, i, kept)
    {
      if items[i].keep {
        kept := kept + [i];
      }
    }
  }

  lemma KeptNeighbours(items: seq<Item>, kept: seq<nat>, p: nat, n: nat)
    requires KeptBelow(items, |items|, kept)
    ensures NextKept(items, p, n) <==> exists x: nat :: 0 < x < |kept| && kept[x - 1] == p && kept[x] == n
  {
    forall x: nat | 0 < x < |kept| && kept[x - 1] == p && kept[x] == n ensures NextKept(items, p, n) {
      assert forall y | 0 <= y < |kept| :: kept[y] <= p || n <= kept[y];
    }
    if NextKept(items, p, n) {
      var y :| 0 <= y < |kept| && kept[y] == p;
      var x :| 0 <= x < |kept| && kept[x] == n;
      assert y < x;
      var before := kept[x - 1];
      assert before <= p || n <= before;
      assert y == x - 1;
    }
  }

  lemma KeptLast(items: seq<Item>, kept: seq<nat>, p: nat)
    requires KeptBelow(items, |items|, kept)
    ensures LastKept(items, p) <==> kept != [] && kept[|kept| - 1] == p
  {
    if kept != [] {
      assert forall y | 0 <= y < |kept| :: kept[y] <= kept[|kept| - 1];
    }
    if LastKept(items, p) {
      assert p in kept && !(p < kept[|kept| - 1]);
    }
  }

  // The comma found between two neighbours of the kept indexes.
  ghost predicate FoundBetween(tokens: seq<Span>, commas: seq<nat>, kept: seq<nat>, x: nat, c: nat)
    requires forall y | 0 <= y < |kept| :: kept[y] < |tokens|
  {
    0 < x < |kept| && FirstIn(commas, tokens[kept[x - 1]].end, tokens[kept[x]].start) == Some(c)
  }

  lemma AllRetained(tokens: seq<Span>, commas: seq<nat>, items: seq<Item>, kept: seq<nat>, c: nat)
    requires |tokens| == |items| && KeptBelow(items, |items|, kept)
    ensures Retained(tokens, commas, items, c) <==>
      (exists x: nat :: FoundBetween(tokens, commas, kept, x, c)) ||
      (kept != [] && FirstBehind(commas, tokens[kept[|kept| - 1]].end) == Some(c))
  {
    assert forall y | 0 <= y < |kept| :: kept[y] < |tokens|;
    hide KeptBelow, FirstIn, FirstBehind, NextKept, LastKept;
    forall p: nat, n: nat | NextKept(items, p, n) && FirstIn(commas, tokens[p].end, tokens[n].start) == Some(c)
      ensures exists x: nat :: FoundBetween(tokens, commas, kept, x, c) {
      KeptNeighbours(items, kept, p, n);
      var x: nat :| 0 < x < |kept| && kept[x - 1] == p && kept[x] == n;
      assert FoundBetween(tokens, commas, kept, x, c);
    }
    forall x: nat | FoundBetween(tokens, commas, kept, x, c) ensures Retained(tokens, commas, items, c) {
      KeptNeighbours(items, kept, kept[x - 1], kept[x]);
    }
    forall p: nat { KeptLast(items, kept, p); }
  }

  // The commas between neighbours of the kept elements, or None when two have none.
  // Every one of the first kept neighbours has a comma between them, and these are the commas.
  ghost predicate FoundBelow(tokens: seq<Span>, commas: seq<nat>, kept: seq<nat>, index: nat, retained: set<nat>)
    requires forall y | 0 <= y < |kept| :: kept[y] < |tokens|
  {
    && (forall c: nat :: c in retained <==> exists x: nat :: x < index && FoundBetween(tokens, commas, kept, x, c))
    && (forall x | 0 < x < index && x < |kept| :: FirstIn(commas, tokens[kept[x - 1]].end, tokens[kept[x]].start).Some?)
  }

  lemma FoundNext(tokens: seq<Span>, commas: seq<nat>, kept: seq<nat>, index: nat, retained: set<nat>, comma: nat)
    requires (forall y | 0 <= y < |kept| :: kept[y] < |tokens|) && 0 < index < |kept|
    requires FoundBelow(tokens, commas, kept, index, retained)
    requires FirstIn(commas, tokens[kept[index - 1]].end, tokens[kept[index]].start) == Some(comma)
    ensures FoundBelow(tokens, commas, kept, index + 1, retained + {comma})
  {
    hide FirstIn;
    assert FoundBetween(tokens, commas, kept, index, comma);
  }

  lemma NoneFound(tokens: seq<Span>, commas: seq<nat>, items: seq<Item>, kept: seq<nat>, index: nat)
    requires |tokens| == |items| && KeptBelow(items, |items|, kept) && 0 < index < |kept|
    requires FirstIn(commas, tokens[kept[index - 1]].end, tokens[kept[index]].start).None?
    ensures !SeparatedFrom(tokens, commas, items, 0)
  {
    hide NextKept, FirstIn;
    KeptNeighbours(items, kept, kept[index - 1], kept[index]);
    assert !CommaBetweenKept(tokens, commas, items, kept[index - 1], kept[index]);
  }

  lemma AllFound(tokens: seq<Span>, commas: seq<nat>, items: seq<Item>, kept: seq<nat>, index: nat, retained: set<nat>)
    requires |tokens| == |items| && KeptBelow(items, |items|, kept) && index >= |kept|
    requires FoundBelow(tokens, commas, kept, index, retained)
    ensures SeparatedFrom(tokens, commas, items, 0)
    ensures forall c: nat :: c in retained <==> exists x: nat :: FoundBetween(tokens, commas, kept, x, c)
  {
    hide FirstIn;
    AllSeparated(tokens, commas, items, kept);
  }

  method CommasBetween(tokens: seq<Span>, commas: seq<nat>, items: seq<Item>, kept: seq<nat>) returns (found: Option<set<nat>>)
    requires |tokens| == |items| && KeptBelow(items, |items|, kept)
    ensures found.Some? <==> SeparatedFrom(tokens, commas, items, 0)
    ensures found.Some? ==> forall c: nat :: c in found.value <==> exists x: nat :: FoundBetween(tokens, commas, kept, x, c)
  {
    assert forall y | 0 <= y < |kept| :: kept[y] < |tokens|;
    assert FoundBelow(tokens, commas, kept, 1, {});
    hide *;
    var retained: set<nat> := {};
    var index := 1;
    while index < |kept|
      invariant 1 <= index && FoundBelow(tokens, commas, kept, index, retained)
    {
      var comma := FirstIn(commas, tokens[kept[index - 1]].end, tokens[kept[index]].start);
      if comma.None? {
        NoneFound(tokens, commas, items, kept, index);
        return None;
      }
      FoundNext(tokens, commas, kept, index, retained, comma.value);
      retained := retained + {comma.value};
      index := index + 1;
    }
    AllFound(tokens, commas, items, kept, index, retained);
    return Some(retained);
  }

  method RetainedCommas(tokens: seq<Span>, commas: seq<nat>, items: seq<Item>) returns (found: Option<set<nat>>)
    requires |tokens| == |items|
    ensures found.Some? <==> SeparatedFrom(tokens, commas, items, 0)
    ensures found.Some? ==> Agrees(tokens, commas, items, found.value)
  {
    var kept := KeptIndexes(items);
    found := CommasBetween(tokens, commas, items, kept);
    if found.None? {
      return;
    }
    hide Retained, FoundBetween, SeparatedFrom;
    var retained := found.value;
    if kept != [] {
      var trailing := FirstBehind(commas, tokens[kept[|kept| - 1]].end);
      if trailing.Some? {
        retained := retained + {trailing.value};
      }
    }
    forall c | c in commas ensures c in retained <==> Retained(tokens, commas, items, c) {
      AllRetained(tokens, commas, items, kept, c);
    }
    return Some(retained);
  }

  lemma AllSeparated(tokens: seq<Span>, commas: seq<nat>, items: seq<Item>, kept: seq<nat>)
    requires |tokens| == |items| && KeptBelow(items, |items|, kept)
    requires forall x | 0 < x < |kept| :: FirstIn(commas, tokens[kept[x - 1]].end, tokens[kept[x]].start).Some?
    ensures SeparatedFrom(tokens, commas, items, 0)
  {
    hide NextKept, FirstIn;
    forall p: nat, n: nat | n < |items| ensures CommaBetweenKept(tokens, commas, items, p, n) {
      KeptNeighbours(items, kept, p, n);
    }
  }

  lemma TokenEditsNext(tokens: seq<Span>, items: seq<Item>, i: nat, edits: seq<Edit>)
    requires |tokens| == |items| && i < |tokens|
    ensures edits + TokenEdits(tokens[i..], items[i..]) ==
            edits + [Edit(tokens[i].start, tokens[i].end, Replacement(items[i]))] + TokenEdits(tokens[i + 1..], items[i + 1..])
  {
    assert tokens[i..][1..] == tokens[i + 1..] && items[i..][1..] == items[i + 1..];
  }

  lemma CommaEditsNext(commas: seq<nat>, retained: set<nat>, i: nat, edits: seq<Edit>)
    requires i < |commas|
    ensures edits + CommaEdits(commas[i..], retained) ==
            edits + (if commas[i] in retained then [] else [Edit(commas[i], commas[i] + 1, "")]) + CommaEdits(commas[i + 1..], retained)
  {
    assert commas[i..][1..] == commas[i + 1..];
  }

  method EditList(tokens: seq<Span>, commas: seq<nat>, items: seq<Item>, retained: set<nat>) returns (edits: seq<Edit>)
    requires |tokens| == |items|
    ensures edits == TokenEdits(tokens, items) + CommaEdits(commas, retained)
  {
    hide CommaEdits;
    edits := [];
    assert tokens[0..] == tokens && items[0..] == items;
    for i := 0 to |tokens|
      invariant TokenEdits(tokens, items) == edits + TokenEdits(tokens[i..], items[i..])
    {
      hide TokenEdits;
      TokenEditsNext(tokens, items, i, edits);
      edits := edits + [Edit(tokens[i].start, tokens[i].end, if items[i].keep then Quoted(items[i].value) else "")];
    }
    assert edits == TokenEdits(tokens, items);
    edits := AddCommaEdits(edits, commas, retained);
  }

  method AddCommaEdits(before: seq<Edit>, commas: seq<nat>, retained: set<nat>) returns (edits: seq<Edit>)
    ensures edits == before + CommaEdits(commas, retained)
  {
    edits := before;
    assert commas[0..] == commas;
    for i := 0 to |commas|
      invariant before + CommaEdits(commas, retained) == edits + CommaEdits(commas[i..], retained)
    {
      hide CommaEdits;
      CommaEditsNext(commas, retained, i, edits);
      if commas[i] !in retained {
        edits := edits + [Edit(commas[i], commas[i] + 1, "")];
      } else {
        assert edits + [] == edits;
      }
    }
  }

  lemma SpliceNext(raw: string, cursor: nat, edits: seq<Edit>, i: nat, before: string)
    requires i < |edits| && Fits(edits[i..], cursor, |raw|)
    ensures cursor <= edits[i].start <= edits[i].end <= |raw| && Fits(edits[i + 1..], edits[i].end, |raw|)
    ensures before + Splice(raw, cursor, edits[i..]) ==
            before + raw[cursor..edits[i].start] + edits[i].replacement + Splice(raw, edits[i].end, edits[i + 1..])
  {
    assert edits[i..][1..] == edits[i + 1..];
    JoinFour(before, raw[cursor..edits[i].start], edits[i].replacement, Splice(raw, edits[i].end, edits[i + 1..]));
  }

  method SpliceAll(raw: string, edits: seq<Edit>) returns (result: string)
    requires Fits(edits, 0, |raw|)
    ensures result == Splice(raw, 0, edits)
  {
    result := "";
    var cursor: nat := 0;
    assert edits[0..] == edits;
    for i := 0 to |edits|
      invariant Fits(edits[i..], cursor, |raw|) && result + Splice(raw, cursor, edits[i..]) == Splice(raw, 0, edits)
    {
      hide Fits, Splice;
      SpliceNext(raw, cursor, edits, i, result);
      result := result + raw[cursor..edits[i].start] + edits[i].replacement;
      cursor := edits[i].end;
    }
    result := result + raw[cursor..];
  }

  lemma Scanned(raw: string, items: seq<Item>, retained: set<nat>)
    requires Lex(raw).Some?
    requires var ls := Lex(raw).value;
      |Tokens(ls, 0, 0)| == |items| && Agrees(Tokens(ls, 0, 0), Commas(ls, 0, 0), items, retained)
    ensures var ls := Lex(raw).value;
      && At(raw, ls, 0, 0, 0, 0, Tokens(ls, 0, 0), Commas(ls, 0, 0), items, retained)
      && GapAt(Tokens(ls, 0, 0), Commas(ls, 0, 0), items, 0, 0, 0) == NoneKept
      && Sorted(TokenEdits(Tokens(ls, 0, 0), items) + CommaEdits(Commas(ls, 0, 0), retained)) == EditsOf(ls, 0, 0, 0, items, retained)
  {
    hide Agrees, Sorted, EditsOf, TokenEdits, CommaEdits, Tokens, Commas;
    var ls := Lex(raw).value;
    LayoutAt(raw);
    PositionsFrom(ls, 0, 0);
    LexWritesBack(raw);
    EditsSorted(ls, 0, 0, 0, items, retained);
    assert raw[0..] == raw && items[0..] == items;
  }

  lemma RefusedUnseparated(raw: string, items: seq<Item>)
    requires Lex(raw).Some?
    requires var ls := Lex(raw).value;
      |Tokens(ls, 0, 0)| == |items| == TokenCount(ls, 0) && !SeparatedFrom(Tokens(ls, 0, 0), Commas(ls, 0, 0), items, 0)
    ensures Tidy(Lex(raw).value, 0, 0, NoneKept, items).None?
  {
    hide Tidy, SeparatedFrom, Sorted, EditsOf, TokenEdits, CommaEdits, Tokens, Commas, Retained, At;
    var ls := Lex(raw).value;
    var tokens, commas := Tokens(ls, 0, 0), Commas(ls, 0, 0);
    var retained := set c | c in commas && Retained(tokens, commas, items, c);
    Scanned(raw, items, retained);
    TidySplices(raw, ls, 0, 0, 0, 0, tokens, commas, items, retained);
  }

  /** The array with only the elements to keep. */
  method FilterArrayPreservingComments(raw: string, items: seq<Item>) returns (result: Result<string, Refusal>)
    ensures result == FilterArray(raw, items)
  {
    hide Lex, Tokens, Commas, EndDepth, TokenCount, Tidy, Agrees, SeparatedFrom, Sorted, EditsOf, TokenEdits, CommaEdits, At, GapAt, Splice, Fits;
    var lexical := ScanArrayLexical(raw);
    if lexical.None? {
      return Err(Malformed);
    }
    var (tokens, commas) := lexical.value;
    LayoutAt(raw);
    PositionsFrom(Lex(raw).value, 0, 0);
    if |tokens| != |items| {
      return Err(WrongTokenCount);
    }
    var retained := RetainedCommas(tokens, commas, items);
    if retained.None? {
      RefusedUnseparated(raw, items);
      return Err(NoSeparator);
    }
    Scanned(raw, items, retained.value);
    TidySplices(raw, Lex(raw).value, 0, 0, 0, 0, tokens, commas, items, retained.value);
    var edits := EditList(tokens, commas, items, retained.value);
    assert Matches(raw, 0, Tidy(Lex(raw).value, 0, 0, NoneKept, items), Sorted(edits), true);
    var spliced := SpliceAll(raw, Sorted(edits));
    return Ok(spliced);
  }
}
