/** When the comment-preserving array edit of SandboxAllow refuses, and when it leaves a comma behind the last element. */
module SandboxOutcomes {
  import opened Wrappers
  import opened TomlLexer
  import opened SandboxAllow

  // -------------------------------------------------------------------------- which edits are refused

  // The strings among the first n of the array's own lexemes.
  function Strings(skeleton: seq<Lexeme>, n: nat): nat
    requires n <= |skeleton|
  {
    if n == 0 then 0 else Strings(skeleton, n - 1) + if skeleton[n - 1].Str? then 1 else 0
  }

  predicate AllStrings(skeleton: seq<Lexeme>, i: nat, j: nat)
    requires i <= j < |skeleton|
  {
    forall x | i <= x <= j :: skeleton[x].Str?
  }

  predicate Kept(items: seq<Item>, k: int) { 0 <= k < |items| && items[k].keep }

  /** Two elements that stay, with elements that go but no comma between them. */
  ghost predicate Unparted(skeleton: seq<Lexeme>, items: seq<Item>, k: nat) {
    exists i: nat, j: nat :: i < j < |skeleton| && UnpartedAt(skeleton, items, k, i, j)
  }

  predicate UnpartedAt(skeleton: seq<Lexeme>, items: seq<Item>, k: nat, i: nat, j: nat)
    requires i < j < |skeleton|
  {
    AllStrings(skeleton, i, j) && Kept(items, k + Strings(skeleton, i)) && Kept(items, k + Strings(skeleton, i) + j - i)
  }

  // An element that stays comes before any comma.
  ghost predicate Leads(skeleton: seq<Lexeme>, items: seq<Item>, k: nat) {
    exists j: nat :: j < |skeleton| && LeadsAt(skeleton, items, k, j)
  }

  predicate LeadsAt(skeleton: seq<Lexeme>, items: seq<Item>, k: nat, j: nat)
    requires j < |skeleton|
  {
    AllStrings(skeleton, 0, j) && Kept(items, k + j)
  }

  predicate OpenGap(gap: Gap) { gap.Since? && !gap.separated }

  lemma {:induction false} StringsBehind(l: Lexeme, rest: seq<Lexeme>, n: nat)
    requires n <= |rest|
    ensures Strings([l] + rest, n + 1) == Strings(rest, n) + if l.Str? then 1 else 0
  {
    if n > 0 {
      StringsBehind(l, rest, n - 1);
      assert ([l] + rest)[n] == rest[n - 1];
    }
  }

  lemma ShiftUnparted(l: Lexeme, rest: seq<Lexeme>, items: seq<Item>, k: nat, i: nat, j: nat)
    requires i < j < |rest|
    ensures UnpartedAt([l] + rest, items, k, i + 1, j + 1) <==> UnpartedAt(rest, items, k + if l.Str? then 1 else 0, i, j)
  {
    var all := [l] + rest;
    StringsBehind(l, rest, i);
    assert AllStrings(all, i + 1, j + 1) <==> AllStrings(rest, i, j) by {
      assert forall x | i <= x <= j :: all[x + 1] == rest[x];
      assert forall x | i + 1 <= x <= j + 1 :: all[x] == rest[x - 1];
    }
    hide AllStrings;
  }

  lemma HeadUnparted(l: Lexeme, rest: seq<Lexeme>, items: seq<Item>, k: nat, j: nat)
    requires j < |rest|
    ensures UnpartedAt([l] + rest, items, k, 0, j + 1) <==> l.Str? && Kept(items, k) && LeadsAt(rest, items, k + 1, j)
  {
    StringsMore(l, rest, j);
    assert Strings([l] + rest, 0) == 0 && k + 0 + (j + 1) - 0 == k + 1 + j;
    hide AllStrings;
  }

  lemma StringsMore(l: Lexeme, rest: seq<Lexeme>, j: nat)
    requires j < |rest|
    ensures AllStrings([l] + rest, 0, j + 1) <==> l.Str? && AllStrings(rest, 0, j)
  {
    var all := [l] + rest;
    assert all[0] == l && forall x | 0 <= x <= j :: all[x + 1] == rest[x];
    if l.Str? && AllStrings(rest, 0, j) {
      forall x | 0 <= x <= j + 1 ensures all[x].Str? {
        assert x > 0 ==> all[x] == rest[x - 1];
      }
    }
  }

  // One more lexeme in front.
  lemma UnpartedMore(l: Lexeme, rest: seq<Lexeme>, items: seq<Item>, k: nat)
    ensures var k' := k + if l.Str? then 1 else 0;
      Unparted([l] + rest, items, k) <==> Unparted(rest, items, k') || (l.Str? && Kept(items, k) && Leads(rest, items, k + 1))
  {
    var all, k' := [l] + rest, k + if l.Str? then 1 else 0;
    if Unparted(all, items, k) {
      var i: nat, j: nat :| i < j < |all| && UnpartedAt(all, items, k, i, j);
      if i == 0 {
        HeadUnparted(l, rest, items, k, j - 1);
      } else {
        ShiftUnparted(l, rest, items, k, i - 1, j - 1);
      }
    }
    if i: nat, j: nat :| i < j < |rest| && UnpartedAt(rest, items, k', i, j) {
      ShiftUnparted(l, rest, items, k, i, j);
    }
    if l.Str? && Kept(items, k) && Leads(rest, items, k + 1) {
      var j: nat :| j < |rest| && LeadsAt(rest, items, k + 1, j);
      HeadUnparted(l, rest, items, k, j);
    }
    hide UnpartedAt, LeadsAt;
  }

  lemma LeadsMore(l: Lexeme, rest: seq<Lexeme>, items: seq<Item>, k: nat)
    ensures Leads([l] + rest, items, k) <==> l.Str? && (Kept(items, k) || Leads(rest, items, k + 1))
  {
    var all := [l] + rest;
    if Leads(all, items, k) {
      var j: nat :| j < |all| && LeadsAt(all, items, k, j);
      assert all[0] == l;
      if j > 0 {
        StringsMore(l, rest, j - 1);
        assert LeadsAt(rest, items, k + 1, j - 1);
      }
    }
    if l.Str? && Kept(items, k) {
      assert LeadsAt(all, items, k, 0);
    }
    if l.Str? && Leads(rest, items, k + 1) {
      var j: nat :| j < |rest| && LeadsAt(rest, items, k + 1, j);
      StringsMore(l, rest, j);
      assert LeadsAt(all, items, k, j + 1);
    }
  }

  lemma NoneLeft(skeleton: seq<Lexeme>, items: seq<Item>, k: nat)
    requires !MoreKept(items, k)
    ensures !Leads(skeleton, items, k)
  {}

  // The edit from a gap on goes through exactly if no two kept elements meet.
  lemma {:induction false} TidyIff(ls: seq<Lexeme>, depth: int, k: nat, gap: Gap, items: seq<Item>)
    requires k + TokenCount(ls, depth) == |items|
    ensures var sk := Skeleton(ls, depth);
      Tidy(ls, depth, k, gap, items).Some? <==> !Unparted(sk, items, k) && !(OpenGap(gap) && Leads(sk, items, k))
  {
    if ls != [] {
      hide Unparted, Leads, MoreKept;
      var l, rest := ls[0], ls[1..];
      var sk := Skeleton(rest, DepthAfter(l, depth));
      if IsToken(l, depth) {
        UnpartedMore(l, sk, items, k);
        LeadsMore(l, sk, items, k);
        TidyIff(rest, depth, k + 1, if items[k].keep then Since(0, false) else Farther(gap, |Text(l)|), items);
      } else if IsComma(l, depth) {
        UnpartedMore(l, sk, items, k);
        LeadsMore(l, sk, items, k);
        if !MoreKept(items, k) {
          NoneLeft(sk, items, k);
        }
        TidyIff(rest, depth, k, if KeepsComma(gap, MoreKept(items, k)) then Since(gap.distance + 1, true) else Farther(gap, 1), items);
      } else {
        TidyIff(rest, DepthAfter(l, depth), k, Farther(gap, |Text(l)|), items);
      }
    } else {
      assert !Unparted([], items, k) && !Leads([], items, k);
    }
  }

  /**
   The edit goes through exactly if the text can be read as an array with as many elements as expected and two
   elements that stay always have a comma somewhere between them.
   */
  lemma FilterAnswers(raw: string, items: seq<Item>)
    ensures FilterArray(raw, items).Ok? <==>
      && Lex(raw).Some? && EndDepth(Lex(raw).value, 0) == 0 && TokenCount(Lex(raw).value, 0) == |items|
      && !Unparted(Skeleton(Lex(raw).value, 0), items, 0)
  {
    hide Unparted, Leads, Lex;
    var ls := Lex(raw);
    if ls.Some? && TokenCount(ls.value, 0) == |items| {
      TidyIff(ls.value, 0, 0, NoneKept, items);
    }
  }

  // -------------------------------------------------------------------------- a comma behind the last element

  // What follows the last element that stays.
  function BehindLast(ls: seq<Lexeme>, depth: int, k: nat, items: seq<Item>): seq<Lexeme>
    requires k + TokenCount(ls, depth) == |items|
    decreases |ls|
  {
    if !MoreKept(items, k) || ls == [] then ls
    else BehindLast(ls[1..], DepthAfter(ls[0], depth), if IsToken(ls[0], depth) then k + 1 else k, items)
  }

  // A comma of the array itself, not among the first n lexemes.
  ghost predicate CommaFrom(ls: seq<Lexeme>, depth: int, n: nat) {
    exists c: nat :: n <= c < |ls| && IsComma(ls[c], EndDepth(ls[..c], depth))
  }

  predicate EndsWithComma(skeleton: seq<Lexeme>) { skeleton != [] && skeleton[|skeleton| - 1].Comma? }

  lemma CommaMore(l: Lexeme, rest: seq<Lexeme>, depth: int, n: nat)
    ensures CommaFrom([l] + rest, depth, n) <==>
      (n == 0 && IsComma(l, depth)) || CommaFrom(rest, DepthAfter(l, depth), if n == 0 then 0 else n - 1)
  {
    var all := [l] + rest;
    forall c: nat | c < |rest| ensures EndDepth(all[..c + 1], depth) == EndDepth(rest[..c], DepthAfter(l, depth)) && all[c + 1] == rest[c] {
      assert all[..c + 1][1..] == rest[..c];
    }
    if CommaFrom(all, depth, n) {
      var c: nat :| n <= c < |all| && IsComma(all[c], EndDepth(all[..c], depth));
      assert c > 0 ==> EndDepth(all[..c - 1 + 1], depth) == EndDepth(rest[..c - 1], DepthAfter(l, depth)) && all[c] == rest[c - 1];
      assert all[..0] == [];
    }
    if c: nat :| (if n == 0 then 0 else n - 1) <= c < |rest| && IsComma(rest[c], EndDepth(rest[..c], DepthAfter(l, depth))) {
      assert IsComma(all[c + 1], EndDepth(all[..c + 1], depth));
    }
    if n == 0 && IsComma(l, depth) {
      assert all[..0] == [] && IsComma(all[0], EndDepth(all[..0], depth));
    }
  }

  // Behind the last kept element a comma stays exactly if there is one that does not touch it.
  lemma {:induction false} RestKeepsComma(ls: seq<Lexeme>, depth: int, k: nat, gap: Gap, items: seq<Item>)
    requires k + TokenCount(ls, depth) == |items| && !MoreKept(items, k) && Tidy(ls, depth, k, gap, items).Some?
    requires forall i | 0 <= i < |ls| :: Text(ls[i]) != ""
    ensures var sk := Skeleton(Tidy(ls, depth, k, gap, items).value, depth);
      if OpenGap(gap) then EndsWithComma(sk) <==> CommaFrom(ls, depth, if gap.distance == 0 then 1 else 0) else sk == []
  {
    if ls == [] {
      assert !CommaFrom([], depth, 0) && !CommaFrom([], depth, 1);
    } else {
      hide CommaFrom, MoreKept;
      var l, rest := ls[0], ls[1..];
      var es := Tidy(ls, depth, k, gap, items).value;
      assert [l] + rest == ls && Text(l) != "";
      if gap.Since? {
        CommaMore(l, rest, depth, if gap.distance == 0 then 1 else 0);
      }
      if IsToken(l, depth) {
        NoneBehind(items, k);
        RestKeepsComma(rest, depth, k + 1, Farther(gap, |Text(l)|), items);
      } else if IsComma(l, depth) {
        var after := if KeepsComma(gap, MoreKept(items, k)) then Since(gap.distance + 1, true) else Farther(gap, 1);
        RestKeepsComma(rest, depth, k, after, items);
        if KeepsComma(gap, false) {
          assert es[1..] == Tidy(rest, depth, k, after, items).value && Skeleton(es, depth) == [Comma] + Skeleton(es[1..], depth);
        }
      } else {
        RestKeepsComma(rest, DepthAfter(l, depth), k, Farther(gap, |Text(l)|), items);
        assert es[1..] == Tidy(rest, DepthAfter(l, depth), k, Farther(gap, |Text(l)|), items).value;
      }
    }
  }

  lemma NoneBehind(items: seq<Item>, k: nat)
    requires k < |items| && !MoreKept(items, k)
    ensures !items[k].keep && !MoreKept(items, k + 1)
  {}

  // The gap behind the first lexeme, and the edit of the rest.
  function After(l: Lexeme, depth: int, k: nat, gap: Gap, items: seq<Item>): Gap
    requires IsToken(l, depth) ==> k < |items|
  {
    if IsToken(l, depth) then (if items[k].keep then Since(0, false) else Farther(gap, |Text(l)|))
    else if IsComma(l, depth) then (if KeepsComma(gap, MoreKept(items, k)) then Since(gap.distance + 1, true) else Farther(gap, 1))
    else Farther(gap, |Text(l)|)
  }

  lemma InFront(l: Lexeme, skeleton: seq<Lexeme>)
    ensures EndsWithComma([l] + skeleton) <==> if skeleton == [] then l.Comma? else EndsWithComma(skeleton)
  {}

  // While elements that stay follow, the first lexeme does not decide about the last comma.
  lemma TailDecides(ls: seq<Lexeme>, depth: int, k: nat, gap: Gap, items: seq<Item>)
    requires k + TokenCount(ls, depth) == |items| && ls != [] && Tidy(ls, depth, k, gap, items).Some?
    ensures var k', d := if IsToken(ls[0], depth) then k + 1 else k, DepthAfter(ls[0], depth);
      var tail := Tidy(ls[1..], d, k', After(ls[0], depth, k, gap, items), items);
      && tail.Some?
      && (MoreKept(items, k') ==>
            (EndsWithComma(Skeleton(Tidy(ls, depth, k, gap, items).value, depth)) <==> EndsWithComma(Skeleton(tail.value, d))))
      && (IsToken(ls[0], depth) && items[k].keep ==>
            (EndsWithComma(Skeleton(Tidy(ls, depth, k, gap, items).value, depth)) <==> EndsWithComma(Skeleton(tail.value, d))))
  {
    var l, rest, es := ls[0], ls[1..], Tidy(ls, depth, k, gap, items).value;
    var k', d, after := if IsToken(l, depth) then k + 1 else k, DepthAfter(l, depth), After(l, depth, k, gap, items);
    var tail := Tidy(rest, d, k', after, items).value;
    TidyLists(rest, d, k', after, items);
    NoMoreKept(items, k');
    assert es == tail || (es[1..] == tail && es == [es[0]] + tail);
    if es != tail {
      InFront(es[0], Skeleton(tail, d));
    }
    hide EndsWithComma, Tidy, MoreKept;
  }

  lemma {:induction false} KeptEndsWithComma(ls: seq<Lexeme>, depth: int, k: nat, gap: Gap, items: seq<Item>)
    requires k + TokenCount(ls, depth) == |items| && MoreKept(items, k) && Tidy(ls, depth, k, gap, items).Some?
    requires forall i | 0 <= i < |ls| :: Text(ls[i]) != ""
    ensures EndsWithComma(Skeleton(Tidy(ls, depth, k, gap, items).value, depth)) <==> CommaFrom(BehindLast(ls, depth, k, items), 1, 1)
  {
    hide CommaFrom, EndsWithComma, Tidy, Skeleton;
    if ls != [] {
      var l, rest := ls[0], ls[1..];
      var k', d, after := if IsToken(l, depth) then k + 1 else k, DepthAfter(l, depth), After(l, depth, k, gap, items);
      TailDecides(ls, depth, k, gap, items);
      if MoreKept(items, k') {
        KeptEndsWithComma(rest, d, k', after, items);
      } else {
        RestEnds(rest, k', items);
      }
    }
  }

  lemma RestEnds(rest: seq<Lexeme>, k: nat, items: seq<Item>)
    requires k + TokenCount(rest, 1) == |items| && !MoreKept(items, k) && Tidy(rest, 1, k, Since(0, false), items).Some?
    requires forall i | 0 <= i < |rest| :: Text(rest[i]) != ""
    ensures EndsWithComma(Skeleton(Tidy(rest, 1, k, Since(0, false), items).value, 1)) <==> CommaFrom(BehindLast(rest, 1, k, items), 1, 1)
  {
    RestKeepsComma(rest, 1, k, Since(0, false), items);
    hide CommaFrom, Tidy, MoreKept;
  }

  lemma {:induction false} TextsThere(ls: seq<Lexeme>)
    requires Separated(ls)
    ensures forall i | 0 <= i < |ls| :: Text(ls[i]) != ""
  {
    if ls != [] {
      TextsThere(ls[1..]);
      assert forall i | 1 <= i < |ls| :: ls[i] == ls[1..][i - 1];
    }
  }

  /**
   A comma stays behind the last element, if any stays, exactly if behind the last one in the text there is a comma
   of the array that does not touch it, be it that of an element that goes.
   */
  lemma LastCommaStays(raw: string, items: seq<Item>)
    requires FilterArray(raw, items).Ok? && MoreKept(items, 0)
    ensures var before, after := Lex(raw).value, Lex(FilterArray(raw, items).value);
      after.Some? && (EndsWithComma(Skeleton(after.value, 0)) <==> CommaFrom(BehindLast(before, 0, 0, items), 1, 1))
  {
    hide Lex, CommaFrom, Tidy, BehindLast;
    var ls := Lex(raw).value;
    LexSeparated(raw);
    TidySeparated(ls, 0, 0, NoneKept, items);
    SeparatedLex(Tidy(ls, 0, 0, NoneKept, items).value);
    TextsThere(ls);
    KeptEndsWithComma(ls, 0, 0, NoneKept, items);
  }
}
