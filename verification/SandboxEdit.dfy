/**
 The cursor loops of src/config/sandbox-allow.ts, over positions in the text, proved against the
 lexemes of TomlLexer and the edit of SandboxAllow.
 */
module SandboxEdit {
  import opened Wrappers
  import opened TomlLexer
  import opened SandboxAllow

  datatype Span = Span(start: nat, end: nat)

  datatype Edit = Edit(start: nat, end: nat, replacement: string)

  // -------------------------------------------------------------------------- scanning

  // The length of the run of backslashes that ends before an index.
  function Slashes(s: string, i: nat): nat
    requires i <= |s|
  {
    if i > 0 && s[i - 1] == BACKSLASH then 1 + Slashes(s, i - 1) else 0
  }

  method IsEscaped(s: string, i: nat) returns (escaped: bool)
    requires i <= |s|
    ensures escaped <==> Slashes(s, i) % 2 == 1
  {
    var count := 0;
    var cursor: int := i - 1;
    while cursor >= 0 && s[cursor] == BACKSLASH
      invariant -1 <= cursor < i
      invariant Slashes(s, i) == count + Slashes(s, cursor + 1)
    {
      count := count + 1;
      cursor := cursor - 1;
    }
    return count % 2 == 1;
  }

  predicate ClosesAt(s: string, i: nat, q: char, triple: bool)
    requires i < |s|
  {
    if triple then StartsTriple(s[i..], q) else s[i] == q
  }

  lemma BodyAt(s: string, i: nat, q: char, triple: bool)
    requires i < |s|
    ensures BodyLength(s[i..], q, triple) ==
      if ClosesAt(s, i, q, triple) then Some(if triple then 3 else 1)
      else if q == QUOTE && s[i] == BACKSLASH then (if i + 2 > |s| then None else Plus(BodyLength(s[i + 2..], q, triple), 2))
      else if !triple && s[i] == NEWLINE then None
      else Plus(BodyLength(s[i + 1..], q, triple), 1)
  {
    assert s[i..][1..] == s[i + 1..];
    if i + 2 <= |s| {
      assert s[i..][2..] == s[i + 2..];
    }
  }

  lemma SlashesBehind(s: string, i: nat)
    requires i < |s|
    ensures s[i] != BACKSLASH ==> Slashes(s, i + 1) == 0
    ensures s[i] == BACKSLASH && i + 2 <= |s| ==> Slashes(s, i + 2) == if s[i + 1] == BACKSLASH then Slashes(s, i) + 2 else 0
  {}

  lemma StringAt(s: string, start: nat)
    requires start < |s| && IsQuote(s[start])
    ensures var triple := StartsTriple(s[start..], s[start]);
      var body := start + if triple then 3 else 1;
      body <= |s| && StringLength(s[start..]) == Plus(BodyLength(s[body..], s[start], triple), body - start)
  {
    assert s[start..][1..] == s[start + 1..];
    if start + 3 <= |s| {
      assert s[start..][3..] == s[start + 3..];
    }
  }

  // What the scan of a string knows at its cursor.
  ghost predicate Scanning(s: string, start: nat, cursor: nat, q: char, triple: bool)
    requires start < |s| && IsQuote(s[start])
  {
    && start <= cursor
    && (if cursor > |s| then StringLength(s[start..]).None?
        else StringLength(s[start..]) == Plus(BodyLength(s[cursor..], q, triple), cursor - start))
    && (cursor <= |s| && q == QUOTE ==> Slashes(s, cursor) % 2 == 0)
  }

  lemma ScanningStarts(s: string, start: nat)
    requires start < |s| && IsQuote(s[start])
    ensures var triple := StartsTriple(s[start..], s[start]);
      Scanning(s, start, start + (if triple then 3 else 1), s[start], triple)
  {
    StringAt(s, start);
    if s[start] == QUOTE {
      QuotesAreNoSlashes(s, start, start + (if StartsTriple(s[start..], QUOTE) then 3 else 1));
    }
  }

  lemma ScanningStep(s: string, start: nat, cursor: nat, q: char, triple: bool)
    requires start < |s| && IsQuote(s[start]) && cursor < |s| && Scanning(s, start, cursor, q, triple)
    ensures q == QUOTE ==> Slashes(s, cursor) % 2 == 0
    ensures if ClosesAt(s, cursor, q, triple) then StringLength(s[start..]) == Some(cursor - start + if triple then 3 else 1)
            else if q == QUOTE && s[cursor] == BACKSLASH then Scanning(s, start, cursor + 2, q, triple)
            else if !triple && s[cursor] == NEWLINE then StringLength(s[start..]).None?
            else Scanning(s, start, cursor + 1, q, triple)
  {
    hide BodyLength, StringLength, StartsTriple;
    BodyAt(s, cursor, q, triple);
    SlashesBehind(s, cursor);
  }

  lemma ScanningEnds(s: string, start: nat, cursor: nat, q: char, triple: bool)
    requires start < |s| && IsQuote(s[start]) && cursor >= |s| && Scanning(s, start, cursor, q, triple)
    ensures StringLength(s[start..]).None?
  {
    if cursor == |s| {
      EmptyBody(q, triple);
      assert s[cursor..] == "";
    }
  }

  /**
   The position behind the string that starts here.  The scan skips a backslash together with the
   character behind it, so its test for an escaped quote never succeeds.
   */
  method ScanStringEnd(s: string, start: nat) returns (end: Option<nat>)
    requires start < |s| && IsQuote(s[start])
    ensures end == Plus(StringLength(s[start..]), start)
  {
    hide Scanning, BodyLength, StringLength, Slashes, StartsTriple;
    ScanningStarts(s, start);
    var q := s[start];
    var triple := StartsTriple(s[start..], q);
    var width := if triple then 3 else 1;
    var cursor := start + width;
    while cursor < |s|
      invariant Scanning(s, start, cursor, q, triple)
      decreases |s| - cursor
    {
      ScanningStep(s, start, cursor, q, triple);
      var escaped := IsEscaped(s, cursor);
      if ClosesAt(s, cursor, q, triple) && (q == APOSTROPHE || !escaped) {
        return Some(cursor + width);
      }
      if q == QUOTE && s[cursor] == BACKSLASH {
        cursor := cursor + 2;
      } else if !triple && s[cursor] == NEWLINE {
        return None;
      } else {
        cursor := cursor + 1;
      }
    }
    ScanningEnds(s, start, cursor, q, triple);
    return None;
  }

  lemma EmptyBody(q: char, triple: bool)
    ensures BodyLength("", q, triple).None?
  {}

  lemma QuotesAreNoSlashes(s: string, start: nat, cursor: nat)
    requires start < |s| && s[start] == QUOTE
    requires cursor == start + (if StartsTriple(s[start..], QUOTE) then 3 else 1) && cursor <= |s|
    ensures Slashes(s, cursor) == 0
  {}

  /** Where the elements of the array are, and its commas. */
  function Tokens(ls: seq<Lexeme>, pos: nat, depth: int): seq<Span> {
    if ls == [] then []
    else
      var next := pos + |Text(ls[0])|;
      (if IsToken(ls[0], depth) then [Span(pos, next)] else []) + Tokens(ls[1..], next, DepthAfter(ls[0], depth))
  }

  function Commas(ls: seq<Lexeme>, pos: nat, depth: int): seq<nat> {
    if ls == [] then []
    else
      (if IsComma(ls[0], depth) then [pos] else []) + Commas(ls[1..], pos + |Text(ls[0])|, DepthAfter(ls[0], depth))
  }

  // What a scan has still to find from a cursor on.
  ghost predicate Ahead(s: string, cursor: nat, depth: int, tokens: seq<Span>, commas: seq<nat>) {
    && cursor <= |s|
    && (Lex(s).Some? <==> Lex(s[cursor..]).Some?)
    && (Lex(s).Some? ==>
          var all, rest := Lex(s).value, Lex(s[cursor..]).value;
          && Tokens(all, 0, 0) == tokens + Tokens(rest, cursor, depth)
          && Commas(all, 0, 0) == commas + Commas(rest, cursor, depth)
          && EndDepth(all, 0) == EndDepth(rest, depth))
  }

  lemma LexFront(s: string, cursor: nat)
    requires cursor < |s| && Head(s[cursor..]).Some?
    ensures var l := Head(s[cursor..]).value;
      var rest := Lex(s[cursor + |Text(l)|..]);
      Lex(s[cursor..]) == if rest.None? then None else Some([l] + rest.value)
  {
    hide Head;
    var t := s[cursor..];
    var l := Head(t).value;
    assert t[|Text(l)|..] == s[cursor + |Text(l)|..];
  }

  lemma FrontPositions(l: Lexeme, rest: seq<Lexeme>, pos: nat, depth: int)
    ensures var next, d := pos + |Text(l)|, DepthAfter(l, depth);
      && Tokens([l] + rest, pos, depth) == (if IsToken(l, depth) then [Span(pos, next)] else []) + Tokens(rest, next, d)
      && Commas([l] + rest, pos, depth) == (if IsComma(l, depth) then [pos] else []) + Commas(rest, next, d)
      && EndDepth([l] + rest, depth) == EndDepth(rest, d)
  {
    assert ([l] + rest)[1..] == rest;
  }

  // Passing the lexeme at the cursor.
  lemma Passes(s: string, cursor: nat, depth: int, tokens: seq<Span>, commas: seq<nat>)
    requires Ahead(s, cursor, depth, tokens, commas) && cursor < |s| && Head(s[cursor..]).Some?
    ensures var l := Head(s[cursor..]).value;
      var next := cursor + |Text(l)|;
      Ahead(s, next, DepthAfter(l, depth), tokens + (if IsToken(l, depth) then [Span(cursor, next)] else []),
            commas + (if IsComma(l, depth) then [cursor] else []))
  {
    hide Lex, Head, Tokens, Commas, EndDepth;
    var l := Head(s[cursor..]).value;
    var next := cursor + |Text(l)|;
    LexFront(s, cursor);
    if Lex(s).Some? {
      FrontPositions(l, Lex(s[next..]).value, cursor, depth);
    }
  }

  // What the head of the text is, by its first character.
  lemma HeadAt(s: string, cursor: nat)
    requires cursor < |s|
    ensures IsQuote(s[cursor]) && StringLength(s[cursor..]).None? ==> Head(s[cursor..]).None?
    ensures IsQuote(s[cursor]) && StringLength(s[cursor..]).Some? ==>
      var n := StringLength(s[cursor..]).value;
      n <= |s[cursor..]| && Head(s[cursor..]) == Some(Str(s[cursor..][..n]))
    ensures s[cursor] == '#' ==> Head(s[cursor..]) == Some(Comment(s[cursor..][..CommentLength(s[cursor..])]))
    ensures !IsQuote(s[cursor]) && s[cursor] != '#' ==> Head(s[cursor..]) == Some(Single(s[cursor]))
  {
    if IsQuote(s[cursor]) {
      StringLengthBounds(s[cursor..]);
    }
  }

  /** What a scan of the whole text is to find: nothing when a string or the brackets are not closed. */
  function Scan(raw: string): Option<(seq<Span>, seq<nat>)> {
    var ls := Lex(raw);
    if ls.None? || EndDepth(ls.value, 0) != 0 then None else Some((Tokens(ls.value, 0, 0), Commas(ls.value, 0, 0)))
  }

  method ScanArrayLexical(raw: string) returns (found: Option<(seq<Span>, seq<nat>)>)
    ensures found == Scan(raw)
  {
    hide *;
    var tokens: seq<Span>, commas: seq<nat> := [], [];
    var depth: int, cursor: nat := 0, 0;
    AheadFromStart(raw);
    while cursor < |raw|
      invariant cursor <= |raw| && Ahead(raw, cursor, depth, tokens, commas)
      decreases |raw| - cursor
    {
      var c := raw[cursor];
      if IsQuote(c) {
        var end := ScanStringEnd(raw, cursor);
        PassesString(raw, cursor, depth, tokens, commas, end);
        if end.None? {
          return None;
        }
        tokens := if depth == 1 then tokens + [Span(cursor, end.value)] else tokens;
        cursor := end.value;
      } else if c == '#' {
        PassesComment(raw, cursor, depth, tokens, commas);
        cursor := FindNewline(raw, cursor);
      } else {
        PassesSingle(raw, cursor, depth, tokens, commas);
        commas := if c == ',' && depth == 1 then commas + [cursor] else commas;
        depth := if c == '[' then depth + 1 else if c == ']' then depth - 1 else depth;
        cursor := cursor + 1;
      }
    }
    AheadAtEnd(raw, depth, tokens, commas);
    return if depth != 0 then None else Some((tokens, commas));
  }

  lemma PassesString(s: string, cursor: nat, depth: int, tokens: seq<Span>, commas: seq<nat>, end: Option<nat>)
    requires Ahead(s, cursor, depth, tokens, commas) && cursor < |s| && IsQuote(s[cursor])
    requires end == Plus(StringLength(s[cursor..]), cursor)
    ensures if end.None? then Scan(s).None?
            else cursor < end.value <= |s| &&
                 Ahead(s, end.value, depth, if depth == 1 then tokens + [Span(cursor, end.value)] else tokens, commas)
  {
    hide Ahead, Lex, Head, StringLength;
    HeadAt(s, cursor);
    AddNothing(tokens, commas);
    StringLengthBounds(s[cursor..]);
    if StringLength(s[cursor..]).None? {
      NoHeadNoLex(s, cursor, depth, tokens, commas);
    } else {
      Passes(s, cursor, depth, tokens, commas);
    }
  }

  lemma PassesComment(s: string, cursor: nat, depth: int, tokens: seq<Span>, commas: seq<nat>)
    requires Ahead(s, cursor, depth, tokens, commas) && cursor < |s| && s[cursor] == '#'
    ensures Ahead(s, cursor + CommentLength(s[cursor..]), depth, tokens, commas)
  {
    hide Ahead, Head, CommentLength;
    HeadAt(s, cursor);
    AddNothing(tokens, commas);
    Passes(s, cursor, depth, tokens, commas);
  }

  lemma PassesSingle(s: string, cursor: nat, depth: int, tokens: seq<Span>, commas: seq<nat>)
    requires Ahead(s, cursor, depth, tokens, commas) && cursor < |s| && !IsQuote(s[cursor]) && s[cursor] != '#'
    ensures var c := s[cursor];
      Ahead(s, cursor + 1, if c == '[' then depth + 1 else if c == ']' then depth - 1 else depth, tokens,
            if c == ',' && depth == 1 then commas + [cursor] else commas)
  {
    hide Ahead, Head;
    HeadAt(s, cursor);
    AddNothing(tokens, commas);
    Passes(s, cursor, depth, tokens, commas);
  }

  lemma AddNothing(tokens: seq<Span>, commas: seq<nat>)
    ensures tokens + [] == tokens && commas + [] == commas
  {}

  lemma AheadFromStart(s: string)
    ensures Ahead(s, 0, 0, [], [])
  {
    assert s[0..] == s;
    if Lex(s).Some? {
      assert [] + Tokens(Lex(s).value, 0, 0) == Tokens(Lex(s).value, 0, 0);
      assert [] + Commas(Lex(s).value, 0, 0) == Commas(Lex(s).value, 0, 0);
    }
  }

  lemma AheadAtEnd(s: string, depth: int, tokens: seq<Span>, commas: seq<nat>)
    requires Ahead(s, |s|, depth, tokens, commas)
    ensures Scan(s) == if depth != 0 then None else Some((tokens, commas))
  {
    assert s[|s|..] == "";
    assert Lex("") == Some([]);
    AddNothing(tokens, commas);
  }

  lemma NoHeadNoLex(s: string, cursor: nat, depth: int, tokens: seq<Span>, commas: seq<nat>)
    requires Ahead(s, cursor, depth, tokens, commas) && cursor < |s| && Head(s[cursor..]).None?
    ensures Lex(s).None?
  {}

  /** The position behind the newline that ends a comment, or the end of the text. */
  method FindNewline(s: string, start: nat) returns (end: nat)
    requires start < |s|
    ensures end == start + CommentLength(s[start..])
  {
    end := start;
    while end < |s| && s[end] != NEWLINE
      invariant start <= end <= |s|
      invariant CommentLength(s[start..]) == end - start + CommentLength(s[end..])
    {
      assert s[end..][1..] == s[end + 1..];
      end := end + 1;
    }
    if end < |s| {
      end := end + 1;
    }
  }
}
