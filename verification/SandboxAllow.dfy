/**
 The comment-preserving array edit of src/config/sandbox-allow.ts on lexemes: what is kept, what
 goes, and that the result reads back as exactly the kept strings.
 */
module SandboxAllow {
  import opened Wrappers
  import opened TomlLexer

  /** The value of one element of the array and whether it stays. */
  datatype Item = Item(value: string, keep: bool)

  // -------------------------------------------------------------------------- escaping

  const DELETE := '\U{007f}'

  function HexDigit(n: nat): char
    requires n < 16
  {
    "0123456789abcdef"[n]
  }

  // One character of `JSON.stringify`, without the quotes around.
  function EscapeChar(c: char): string {
    if c == QUOTE then "\\\""
    else if c == BACKSLASH then "\\\\"
    else if c == '\U{0008}' then "\\b"
    else if c == '\t' then "\\t"
    else if c == '\n' then "\\n"
    else if c == '\U{000c}' then "\\f"
    else if c == '\r' then "\\r"
    else if c < ' ' then "\\u00" + [HexDigit(c as int / 16), HexDigit(c as int % 16)]
    else [c]
  }

  function Escape(v: string): string { if v == "" then "" else EscapeChar(v[0]) + Escape(v[1..]) }

  function Quoted(v: string): string { "\"" + Escape(v) + "\"" }

  function HexValue(c: char): Option<nat> {
    if '0' <= c <= '9' then Some(c as int - '0' as int)
    else if 'a' <= c <= 'f' then Some(10 + c as int - 'a' as int)
    else if 'A' <= c <= 'F' then Some(10 + c as int - 'A' as int)
    else None
  }

  // The code of four hexadecimal digits.
  function HexCode(s: string): Option<nat>
    requires |s| == 4
  {
    var a, b, c, d := HexValue(s[0]), HexValue(s[1]), HexValue(s[2]), HexValue(s[3]);
    if a.Some? && b.Some? && c.Some? && d.Some? then Some(4096 * a.value + 256 * b.value + 16 * c.value + d.value) else None
  }

  predicate Forbidden(c: char) { (c < ' ' && c != '\t') || c == DELETE }

  function Prepend(c: char, s: Option<string>): Option<string> { if s.Some? then Some([c] + s.value) else None }

  // The character of four hexadecimal digits, unless they name a surrogate.
  function CodePoint(s: string): Option<char>
    requires |s| == 4
  {
    var code := HexCode(s);
    if code.None? || 0xD800 <= code.value < 0xE000 then None else Some(code.value as char)
  }

  // The characters with an escape of their own.
  function Shorthand(c: char): Option<char> {
    match c
    case 'b' => Some('\U{0008}')
    case 't' => Some('\t')
    case 'n' => Some('\n')
    case 'f' => Some('\U{000c}')
    case 'r' => Some('\r')
    case '"' => Some(QUOTE)
    case '\\' => Some(BACKSLASH)
    case _ => None
  }

  /** Reads the inside of a basic string by the "String" section of TOML v1.0.0 (eight-digit escapes aside). */
  function Unescape(s: string): Option<string> {
    if s == "" then Some("")
    else if s[0] != BACKSLASH then
      if s[0] == QUOTE || Forbidden(s[0]) then None else Prepend(s[0], Unescape(s[1..]))
    else if |s| < 2 then None
    else if s[1] == 'u' then
      if |s| < 6 then None
      else
        var code := CodePoint(s[2..6]);
        if code.None? then None else Prepend(code.value, Unescape(s[6..]))
    else
      var c := Shorthand(s[1]);
      if c.None? then None else Prepend(c.value, Unescape(s[2..]))
  }

  lemma UnescapePlain(c: char, rest: string)
    requires EscapeChar(c) == [c] && c != BACKSLASH && c != QUOTE
    ensures Unescape([c] + rest) == if Forbidden(c) then None else Prepend(c, Unescape(rest))
  {
    assert ([c] + rest)[1..] == rest;
  }

  lemma UnescapeShort(c: char, rest: string)
    requires |EscapeChar(c)| == 2
    ensures Unescape(EscapeChar(c) + rest) == Prepend(c, Unescape(rest))
  {
    assert (EscapeChar(c) + rest)[2..] == rest;
  }

  lemma UnescapeCode(c: char, rest: string)
    requires |EscapeChar(c)| == 6
    ensures Unescape(EscapeChar(c) + rest) == Prepend(c, Unescape(rest))
  {
    var n := c as int;
    var s := EscapeChar(c) + rest;
    CodeOf(n);
    hide HexCode;
    assert s[0] == BACKSLASH && s[1] == 'u' && s[6..] == rest;
    assert s[2..6] == ['0', '0', HexDigit(n / 16), HexDigit(n % 16)];
  }

  lemma CodeOf(n: nat)
    requires n < 32
    ensures HexCode(['0', '0', HexDigit(n / 16), HexDigit(n % 16)]) == Some(n)
  {
    HexRoundTrip(0);
    HexRoundTrip(n / 16);
    HexRoundTrip(n % 16);
    assert 16 * (n / 16) + n % 16 == n;
  }

  lemma UnescapeOne(c: char, rest: string)
    ensures Unescape(EscapeChar(c) + rest) == if c == DELETE then None else Prepend(c, Unescape(rest))
  {
    hide Unescape;
    if |EscapeChar(c)| == 1 {
      UnescapePlain(c, rest);
    } else if |EscapeChar(c)| == 2 {
      UnescapeShort(c, rest);
    } else {
      UnescapeCode(c, rest);
    }
  }

  lemma HexRoundTrip(n: nat)
    requires n < 16
    ensures HexValue(HexDigit(n)) == Some(n)
  {
    assert "0123456789abcdef"[n] == if n < 10 then ('0' as int + n) as char else ('a' as int + n - 10) as char;
  }

  /**
   An escaped value is read back as itself, exactly if it holds no DELETE character: JSON leaves that
   one as it is, and TOML forbids it.
   */
  lemma {:induction false} EscapeRoundTrip(v: string)
    ensures Unescape(Escape(v)) == if DELETE in v then None else Some(v)
  {
    if v != "" {
      UnescapeOne(v[0], Escape(v[1..]));
      EscapeRoundTrip(v[1..]);
      assert v == [v[0]] + v[1..];
    }
  }

  // -------------------------------------------------------------------------- a quoted value is one lexeme

  lemma EscapedCharBody(c: char, rest: string)
    ensures BodyLength(EscapeChar(c) + rest, QUOTE, false) == Plus(BodyLength(rest, QUOTE, false), |EscapeChar(c)|)
  {
    var e := EscapeChar(c);
    assert e[0] == BACKSLASH <==> |e| > 1;
    assert |e| == 1 ==> e[0] == c && c != QUOTE && c != NEWLINE;
    assert |e| > 2 ==> forall x | x in e[2..] :: x != QUOTE && x != BACKSLASH && x != NEWLINE;
    hide EscapeChar;
    if |e| == 1 {
      OneBody(c, e, rest);
    } else {
      PairBody(e, rest);
      PlainBody(e[2..], rest);
    }
  }

  lemma OneBody(c: char, e: string, rest: string)
    requires e == [c] && c != QUOTE && c != BACKSLASH && c != NEWLINE
    ensures BodyLength(e + rest, QUOTE, false) == Plus(BodyLength(rest, QUOTE, false), 1)
  {
    assert (e + rest)[0] == c && (e + rest)[1..] == rest;
  }

  // A backslash passes with the character behind it.
  lemma PairBody(e: string, rest: string)
    requires |e| >= 2 && e[0] == BACKSLASH
    ensures BodyLength(e + rest, QUOTE, false) == Plus(BodyLength(e[2..] + rest, QUOTE, false), 2)
  {
    assert (e + rest)[0] == BACKSLASH && (e + rest)[2..] == e[2..] + rest;
  }

  lemma {:induction false} PlainBody(plain: string, rest: string)
    requires forall c | c in plain :: c != QUOTE && c != BACKSLASH && c != NEWLINE
    ensures BodyLength(plain + rest, QUOTE, false) == Plus(BodyLength(rest, QUOTE, false), |plain|)
  {
    if plain == "" {
      assert plain + rest == rest;
    } else {
      assert plain[0] in plain && forall c | c in plain[1..] :: c in plain;
      PlainBody(plain[1..], rest);
      assert (plain + rest)[1..] == plain[1..] + rest;
    }
  }

  lemma {:induction false} EscapedBody(v: string)
    ensures BodyLength(Escape(v) + "\"", QUOTE, false) == Some(|Escape(v)| + 1)
  {
    if v == "" {
      assert Escape(v) + "\"" == "\"";
    } else {
      EscapedBody(v[1..]);
      EscapedCharBody(v[0], Escape(v[1..]) + "\"");
      assert Escape(v) + "\"" == EscapeChar(v[0]) + (Escape(v[1..]) + "\"");
    }
  }

  lemma QuotedWellFormed(v: string)
    ensures WellFormed(Str(Quoted(v))) && (|Quoted(v)| == 2 ==> v == "")
  {
    var t := Quoted(v);
    EscapedBody(v);
    assert v == "" ==> t == "\"\"";
    assert v != "" ==> |t| > 2 && t[1] != QUOTE by {
      if v != "" {
        EscapeStarts(v);
      }
    }
    hide BodyLength, Escape;
    assert t[1..] == Escape(v) + "\"";
  }

  lemma EscapeStarts(v: string)
    requires v != ""
    ensures Escape(v) != "" && Escape(v)[0] != QUOTE
  {}

  // -------------------------------------------------------------------------- tidying

  /** How the elements kept so far are followed: how far back the last one ended, and whether a comma has been kept since. */
  datatype Gap = NoneKept | Since(distance: nat, separated: bool)

  function Farther(gap: Gap, more: nat): Gap { if gap.NoneKept? then gap else gap.(distance := gap.distance + more) }

  predicate MoreKept(items: seq<Item>, k: nat) { exists i | k <= i < |items| :: items[i].keep }

  // The first comma after a kept element stays; behind the last one only if it does not touch it.
  predicate KeepsComma(gap: Gap, more: bool) { gap.Since? && !gap.separated && (more || gap.distance > 0) }

  function DepthAfter(l: Lexeme, depth: int): int { if l.Open? then depth + 1 else if l.Close? then depth - 1 else depth }

  predicate IsToken(l: Lexeme, depth: int) { l.Str? && depth == 1 }
  predicate IsComma(l: Lexeme, depth: int) { l.Comma? && depth == 1 }

  function TokenCount(ls: seq<Lexeme>, depth: int): nat {
    if ls == [] then 0 else (if IsToken(ls[0], depth) then 1 else 0) + TokenCount(ls[1..], DepthAfter(ls[0], depth))
  }

  function EndDepth(ls: seq<Lexeme>, depth: int): int { if ls == [] then depth else EndDepth(ls[1..], DepthAfter(ls[0], depth)) }

  /** The lexemes that stay, or None when two kept elements have no comma between them. */
  function Tidy(ls: seq<Lexeme>, depth: int, k: nat, gap: Gap, items: seq<Item>): Option<seq<Lexeme>>
    requires k + TokenCount(ls, depth) == |items|
  {
    if ls == [] then Some([])
    else
      var l, rest := ls[0], ls[1..];
      if IsToken(l, depth) then
        if !items[k].keep then Tidy(rest, depth, k + 1, Farther(gap, |Text(l)|), items)
        else if gap.Since? && !gap.separated then None
        else Onto(Str(Quoted(items[k].value)), Tidy(rest, depth, k + 1, Since(0, false), items))
      else if IsComma(l, depth) then
        if KeepsComma(gap, MoreKept(items, k)) then Onto(l, Tidy(rest, depth, k, Since(gap.distance + 1, true), items))
        else Tidy(rest, depth, k, Farther(gap, 1), items)
      else Onto(l, Tidy(rest, DepthAfter(l, depth), k, Farther(gap, |Text(l)|), items))
  }

  function Onto(l: Lexeme, ls: Option<seq<Lexeme>>): Option<seq<Lexeme>> {
    if ls.Some? then Some([l] + ls.value) else None
  }

  // Everything but the elements and commas of the array itself.
  function Remainder(ls: seq<Lexeme>, depth: int): seq<Lexeme> {
    if ls == [] then []
    else
      var rest := Remainder(ls[1..], DepthAfter(ls[0], depth));
      if IsToken(ls[0], depth) || IsComma(ls[0], depth) then rest else [ls[0]] + rest
  }

  // The elements and commas of the array itself.
  function Skeleton(ls: seq<Lexeme>, depth: int): seq<Lexeme> {
    if ls == [] then []
    else
      var rest := Skeleton(ls[1..], DepthAfter(ls[0], depth));
      if IsToken(ls[0], depth) || IsComma(ls[0], depth) then [ls[0]] + rest else rest
  }

  function KeptFrom(items: seq<Item>, k: nat): seq<string>
    requires k <= |items|
    decreases |items| - k
  {
    if k == |items| then []
    else (if items[k].keep then [items[k].value] else []) + KeptFrom(items, k + 1)
  }

  // The values in quotes with single commas between, and perhaps one behind the last.
  predicate Lists(skeleton: seq<Lexeme>, values: seq<string>) {
    if values == [] then skeleton == []
    else
      && skeleton != [] && skeleton[0] == Str(Quoted(values[0]))
      && (if |values| == 1 then skeleton[1..] == [] || skeleton[1..] == [Comma]
          else |skeleton| > 1 && skeleton[1] == Comma && Lists(skeleton[2..], values[1..]))
  }

  lemma {:induction false} NoMoreKept(items: seq<Item>, k: nat)
    requires k <= |items|
    ensures KeptFrom(items, k) == [] <==> !MoreKept(items, k)
    decreases |items| - k
  {
    if k < |items| {
      NoMoreKept(items, k + 1);
    }
  }

  lemma {:induction false} TidyRemainder(ls: seq<Lexeme>, depth: int, k: nat, gap: Gap, items: seq<Item>)
    requires k + TokenCount(ls, depth) == |items| && Tidy(ls, depth, k, gap, items).Some?
    ensures Remainder(Tidy(ls, depth, k, gap, items).value, depth) == Remainder(ls, depth)
  {
    if ls != [] {
      var l, rest := ls[0], ls[1..];
      if IsToken(l, depth) {
        TidyRemainder(rest, depth, k + 1, if items[k].keep then Since(0, false) else Farther(gap, |Text(l)|), items);
      } else if IsComma(l, depth) {
        TidyRemainder(rest, depth, k, if KeepsComma(gap, MoreKept(items, k)) then Since(gap.distance + 1, true) else Farther(gap, 1), items);
      } else {
        TidyRemainder(rest, DepthAfter(l, depth), k, Farther(gap, |Text(l)|), items);
      }
    }
  }

  // What the array's own lexemes look like from a given gap on.
  predicate ListsFrom(skeleton: seq<Lexeme>, values: seq<string>, gap: Gap) {
    if gap.Since? && !gap.separated then
      if values == [] then skeleton == [] || skeleton == [Comma]
      else skeleton != [] && skeleton[0] == Comma && Lists(skeleton[1..], values)
    else Lists(skeleton, values)
  }

  lemma {:induction false} TidyLists(ls: seq<Lexeme>, depth: int, k: nat, gap: Gap, items: seq<Item>)
    requires k + TokenCount(ls, depth) == |items| && Tidy(ls, depth, k, gap, items).Some?
    ensures ListsFrom(Skeleton(Tidy(ls, depth, k, gap, items).value, depth), KeptFrom(items, k), gap)
  {
    if ls != [] {
      var l, rest := ls[0], ls[1..];
      var es := Tidy(ls, depth, k, gap, items).value;
      if IsToken(l, depth) {
        TidyLists(rest, depth, k + 1, if items[k].keep then Since(0, false) else Farther(gap, |Text(l)|), items);
        if items[k].keep {
          assert es[1..] == Tidy(rest, depth, k + 1, Since(0, false), items).value;
          KeptStep(es, depth, items, k);
        } else {
          assert KeptFrom(items, k) == KeptFrom(items, k + 1);
        }
      } else if IsComma(l, depth) {
        NoMoreKept(items, k);
        if KeepsComma(gap, MoreKept(items, k)) {
          TidyLists(rest, depth, k, Since(gap.distance + 1, true), items);
          assert es[1..] == Tidy(rest, depth, k, Since(gap.distance + 1, true), items).value;
          assert Skeleton(es, depth) == [Comma] + Skeleton(es[1..], depth);
        } else {
          TidyLists(rest, depth, k, Farther(gap, 1), items);
        }
      } else {
        TidyLists(rest, DepthAfter(l, depth), k, Farther(gap, |Text(l)|), items);
        assert es[1..] == Tidy(rest, DepthAfter(l, depth), k, Farther(gap, |Text(l)|), items).value;
      }
    }
  }

  lemma KeptStep(es: seq<Lexeme>, depth: int, items: seq<Item>, k: nat)
    requires k < |items| && items[k].keep && depth == 1 && es != [] && es[0] == Str(Quoted(items[k].value))
    requires ListsFrom(Skeleton(es[1..], depth), KeptFrom(items, k + 1), Since(0, false))
    ensures Lists(Skeleton(es, depth), KeptFrom(items, k))
  {
    var sk, more := Skeleton(es, depth), KeptFrom(items, k + 1);
    assert sk == [es[0]] + Skeleton(es[1..], depth);
    assert sk[1..] == Skeleton(es[1..], depth);
    assert KeptFrom(items, k) == [items[k].value] + more;
    if more != [] {
      assert sk[2..] == Skeleton(es[1..], depth)[1..];
    }
  }

  // -------------------------------------------------------------------------- reading the result back

  predicate StartsWithQuote(ls: seq<Lexeme>) { ls != [] && ls[0].Str? }

  lemma FirstCharacter(ls: seq<Lexeme>)
    requires Separated(ls) && ls != []
    ensures Concat(ls) != "" && Concat(ls)[0] == Text(ls[0])[0] && (IsQuote(Concat(ls)[0]) <==> ls[0].Str?)
  {}

  // Behind a kept element, before its comma, nothing that stays is a string.
  lemma {:induction false} NoStringNext(ls: seq<Lexeme>, k: nat, distance: nat, items: seq<Item>)
    requires k + TokenCount(ls, 1) == |items| && Tidy(ls, 1, k, Since(distance, false), items).Some?
    ensures !StartsWithQuote(Tidy(ls, 1, k, Since(distance, false), items).value)
  {
    if ls != [] {
      if IsToken(ls[0], 1) {
        NoStringNext(ls[1..], k + 1, distance + |Text(ls[0])|, items);
      } else if IsComma(ls[0], 1) && !KeepsComma(Since(distance, false), MoreKept(items, k)) {
        NoStringNext(ls[1..], k, distance + 1, items);
      }
    }
  }

  // A lexeme that stays as it is may stand before what stays of the rest.
  lemma MayStay(l: Lexeme, rest: seq<Lexeme>, depth: int, k: nat, gap: Gap, items: seq<Item>)
    requires WellFormed(l) && Separated(rest) && May(l, Concat(rest)) && !IsToken(l, depth) && !IsComma(l, depth)
    requires k + TokenCount(rest, DepthAfter(l, depth)) == |items|
    requires Tidy(rest, DepthAfter(l, depth), k, gap, items).Some? && Separated(Tidy(rest, DepthAfter(l, depth), k, gap, items).value)
    ensures May(l, Concat(Tidy(rest, DepthAfter(l, depth), k, gap, items).value))
  {
    var es := Tidy(rest, DepthAfter(l, depth), k, gap, items).value;
    if rest != [] {
      FirstCharacter(rest);
      if l.Str? {
        assert es[0] == rest[0];
        FirstCharacter(es);
      }
    }
  }

  lemma MayQuote(v: string, es: seq<Lexeme>)
    requires Separated(es) && !StartsWithQuote(es)
    ensures WellFormed(Str(Quoted(v))) && May(Str(Quoted(v)), Concat(es))
  {
    QuotedWellFormed(v);
    if es != [] {
      FirstCharacter(es);
    }
  }

  lemma {:induction false} TidySeparated(ls: seq<Lexeme>, depth: int, k: nat, gap: Gap, items: seq<Item>)
    requires k + TokenCount(ls, depth) == |items| && Separated(ls) && Tidy(ls, depth, k, gap, items).Some?
    ensures Separated(Tidy(ls, depth, k, gap, items).value)
  {
    if ls != [] {
      var l, rest := ls[0], ls[1..];
      var es := Tidy(ls, depth, k, gap, items).value;
      if IsToken(l, depth) {
        TidySeparated(rest, depth, k + 1, if items[k].keep then Since(0, false) else Farther(gap, |Text(l)|), items);
        if items[k].keep {
          assert es[1..] == Tidy(rest, depth, k + 1, Since(0, false), items).value;
          NoStringNext(rest, k + 1, 0, items);
          MayQuote(items[k].value, es[1..]);
        }
      } else if IsComma(l, depth) {
        var next := if KeepsComma(gap, MoreKept(items, k)) then Since(gap.distance + 1, true) else Farther(gap, 1);
        TidySeparated(rest, depth, k, next, items);
        assert KeepsComma(gap, MoreKept(items, k)) ==> es[1..] == Tidy(rest, depth, k, next, items).value;
      } else {
        TidySeparated(rest, DepthAfter(l, depth), k, Farther(gap, |Text(l)|), items);
        assert es[1..] == Tidy(rest, DepthAfter(l, depth), k, Farther(gap, |Text(l)|), items).value;
        MayStay(l, rest, depth, k, Farther(gap, |Text(l)|), items);
      }
    }
  }

  // -------------------------------------------------------------------------- the edit

  datatype Refusal = Malformed | WrongTokenCount | NoSeparator

  /** What the filtered array reads. */
  function FilterArray(raw: string, items: seq<Item>): Result<string, Refusal> {
    var ls := Lex(raw);
    if ls.None? || EndDepth(ls.value, 0) != 0 then Err(Malformed)
    else if TokenCount(ls.value, 0) != |items| then Err(WrongTokenCount)
    else
      var tidied := Tidy(ls.value, 0, 0, NoneKept, items);
      if tidied.None? then Err(NoSeparator) else Ok(Concat(tidied.value))
  }

  /**
   Reading the filtered array again gives exactly the kept values in order, with one comma between
   neighbours and at most one behind the last; every comment and all other text around the elements
   and commas is as it was; and each value is read back as itself if TOML allows its characters.
   */
  lemma {:induction false} FilteredArrayReadsBack(raw: string, items: seq<Item>)
    requires FilterArray(raw, items).Ok?
    ensures var before, after := Lex(raw).value, Lex(FilterArray(raw, items).value);
      && after.Some? && EndDepth(after.value, 0) == 0
      && Lists(Skeleton(after.value, 0), KeptFrom(items, 0))
      && Remainder(after.value, 0) == Remainder(before, 0)
      && (forall v | v in KeptFrom(items, 0) :: Unescape(Escape(v)) == if DELETE in v then None else Some(v))
  {
    var ls := Lex(raw).value;
    var es := Tidy(ls, 0, 0, NoneKept, items).value;
    LexSeparated(raw);
    TidySeparated(ls, 0, 0, NoneKept, items);
    SeparatedLex(es);
    TidyLists(ls, 0, 0, NoneKept, items);
    TidyRemainder(ls, 0, 0, NoneKept, items);
    TidyDepth(ls, 0, 0, NoneKept, items);
    forall v | v in KeptFrom(items, 0) ensures Unescape(Escape(v)) == if DELETE in v then None else Some(v) {
      EscapeRoundTrip(v);
    }
  }

  lemma {:induction false} TidyDepth(ls: seq<Lexeme>, depth: int, k: nat, gap: Gap, items: seq<Item>)
    requires k + TokenCount(ls, depth) == |items| && Tidy(ls, depth, k, gap, items).Some?
    ensures EndDepth(Tidy(ls, depth, k, gap, items).value, depth) == EndDepth(ls, depth)
  {
    if ls != [] {
      var l, rest := ls[0], ls[1..];
      if IsToken(l, depth) {
        TidyDepth(rest, depth, k + 1, if items[k].keep then Since(0, false) else Farther(gap, |Text(l)|), items);
      } else if IsComma(l, depth) {
        TidyDepth(rest, depth, k, if KeepsComma(gap, MoreKept(items, k)) then Since(gap.distance + 1, true) else Farther(gap, 1), items);
      } else {
        TidyDepth(rest, DepthAfter(l, depth), k, Farther(gap, |Text(l)|), items);
      }
    }
  }
}
