/**
 Where the strings of TomlLexer are those of the TOML v1.0.0 specification ("String" section): there
 a multi-line string may end in one or two quotes of its own in front of its closing three.
 */
module TomlStrings {
  import opened Wrappers
  import opened TomlLexer

  // How many of at most `limit` quotes a text starts with.
  function Quotes(s: string, q: char, limit: nat): nat {
    if limit == 0 || s == "" || s[0] != q then 0 else 1 + Quotes(s[1..], q, limit - 1)
  }

  // The body of a multi-line string with its closing quotes, up to two of the body's own in front of them.
  function TomlBodyLength(s: string, q: char): Option<nat> {
    if s == "" then None
    else if StartsTriple(s, q) then Some(3 + Quotes(s[3..], q, 2))
    else if q == QUOTE && s[0] == BACKSLASH then (if |s| < 2 then None else Plus(TomlBodyLength(s[2..], q), 2))
    else Plus(TomlBodyLength(s[1..], q), 1)
  }

  function TomlStringLength(s: string): Option<nat>
    requires s != "" && IsQuote(s[0])
  {
    if StartsTriple(s, s[0]) then Plus(TomlBodyLength(s[3..], s[0]), 3) else StringLength(s)
  }

  /** Behind the closing quotes of a multi-line string stands one more. */
  predicate Overruns(s: string)
    requires s != "" && IsQuote(s[0])
  {
    StartsTriple(s, s[0]) && StringLength(s).Some? && StringLength(s).value < |s| && s[StringLength(s).value] == s[0]
  }

  lemma {:induction false} QuotesFit(s: string, q: char, limit: nat)
    ensures Quotes(s, q, limit) <= |s|
  {
    if limit > 0 && s != "" {
      QuotesFit(s[1..], q, limit - 1);
    }
  }

  // The two end together but for the quotes behind the first three.
  lemma {:induction false} BodiesCompare(s: string, q: char)
    ensures var n := BodyLength(s, q, true);
      && (n.Some? ==> n.value <= |s| && TomlBodyLength(s, q) == Some(n.value + Quotes(s[n.value..], q, 2)))
      && (n.None? ==> TomlBodyLength(s, q).None?)
  {
    if s != "" && !StartsTriple(s, q) {
      var k := if q == QUOTE && s[0] == BACKSLASH then 2 else 1;
      if k <= |s| {
        BodiesCompare(s[k..], q);
        var n := BodyLength(s[k..], q, true);
        if n.Some? {
          assert s[k..][n.value..] == s[n.value + k..];
        }
      }
    }
  }

  lemma StringsCompare(s: string)
    requires s != "" && IsQuote(s[0])
    ensures var n := StringLength(s);
      && (n.None? <==> TomlStringLength(s).None?)
      && (n.Some? ==>
            && n.value <= |s|
            && TomlStringLength(s) == Some(n.value + if StartsTriple(s, s[0]) then Quotes(s[n.value..], s[0], 2) else 0))
    ensures TomlStringLength(s).Some? ==> 2 <= TomlStringLength(s).value <= |s|
  {
    StringLengthBounds(s);
    if StringLength(s).Some? {
      QuotesFit(s[StringLength(s).value..], s[0], 2);
    }
    if StartsTriple(s, s[0]) {
      BodiesCompare(s[3..], s[0]);
      var n := BodyLength(s[3..], s[0], true);
      if n.Some? {
        assert s[3..][n.value..] == s[n.value + 3..];
      }
    }
  }

  /** A string ends where the specification says exactly if it does not overrun. */
  lemma StringsAgreeIff(s: string)
    requires s != "" && IsQuote(s[0])
    ensures StringLength(s) == TomlStringLength(s) <==> !Overruns(s)
  {
    StringsCompare(s);
  }

  // -------------------------------------------------------------------------- whole texts

  function TomlHead(s: string): (l: Option<Lexeme>)
    requires s != ""
    ensures l.Some? ==> 1 <= |Text(l.value)| <= |s|
  {
    if IsQuote(s[0]) then
      StringsCompare(s);
      var n := TomlStringLength(s);
      if n.None? then None else Some(Str(s[..n.value]))
    else Head(s)
  }

  /** The lexemes of a text with the strings of the specification. */
  function TomlLex(s: string): Option<seq<Lexeme>>
    decreases |s|
  {
    if s == "" then Some([])
    else
      var l := TomlHead(s);
      if l.None? then None
      else
        var rest := TomlLex(s[|Text(l.value)|..]);
        if rest.None? then None else Some([l.value] + rest.value)
  }

  /** No multi-line string of the text is followed by one more of its own quotes. */
  predicate Clear(s: string)
    decreases |s|
  {
    s == "" || Head(s).None? || (!(IsQuote(s[0]) && Overruns(s)) && Clear(s[|Text(Head(s).value)|..]))
  }

  lemma HeadsAgreeIff(s: string)
    requires s != ""
    ensures Head(s).None? <==> TomlHead(s).None?
    ensures Head(s).Some? ==> (Head(s) == TomlHead(s) <==> !(IsQuote(s[0]) && Overruns(s)))
  {
    if IsQuote(s[0]) {
      StringsCompare(s);
      StringsAgreeIff(s);
      StringLengthBounds(s);
    }
  }

  lemma SameTails(l: Lexeme, a: Option<seq<Lexeme>>, b: Option<seq<Lexeme>>)
    ensures a.Some? && b.Some? ==> ([l] + a.value == [l] + b.value <==> a == b)
  {
    if a.Some? && b.Some? {
      assert ([l] + a.value)[1..] == a.value && ([l] + b.value)[1..] == b.value;
    }
  }

  /**
   Of a text that either reading accepts, both find the same lexemes exactly if no multi-line string is
   followed by one more of its own quotes.
   */
  lemma {:induction false} LexersAgreeIff(s: string)
    requires Lex(s).Some? || TomlLex(s).Some?
    ensures Lex(s) == TomlLex(s) <==> Clear(s)
    decreases |s|
  {
    if s != "" {
      HeadsAgreeIff(s);
      hide Head, TomlHead, Overruns;
      if Head(s) == TomlHead(s) {
        var rest := s[|Text(Head(s).value)|..];
        LexersAgreeIff(rest);
        SameTails(Head(s).value, Lex(rest), TomlLex(rest));
      } else if Lex(s).Some? && TomlLex(s).Some? {
        assert Lex(s).value[0] == Head(s).value && TomlLex(s).value[0] == TomlHead(s).value;
      }
    }
  }

  const QUOTED := "\"\"\"a\"\"\"\""

  /** A string of the specification that is refused here: an own quote in front of the closing ones. */
  lemma QuotedIsRefused()
    ensures TomlLex(QUOTED) == Some([Str(QUOTED)]) && Lex(QUOTED) == None
  {
    var body := "a\"\"\"\"";
    assert QUOTED[3..] == body && body[1..] == "\"\"\"\"" && body[1..][3..] == "\"" && "\""[1..] == "";
    assert BodyLength(body[1..], QUOTE, true) == Some(3) && BodyLength(body, QUOTE, true) == Some(4);
    assert Quotes("\"", QUOTE, 2) == 1;
    assert TomlBodyLength(body[1..], QUOTE) == Some(4) && TomlBodyLength(body, QUOTE) == Some(5);
    assert TomlStringLength(QUOTED) == Some(8) && StringLength(QUOTED) == Some(7) && StringLength("\"") == None;
    hide StringLength, TomlStringLength, BodyLength, TomlBodyLength;
    assert QUOTED[..8] == QUOTED && QUOTED[8..] == "" && QUOTED[7..] == "\"";
    assert TomlHead(QUOTED) == Some(Str(QUOTED)) && TomlLex(QUOTED[8..]) == Some([]);
    assert Head(QUOTED) == Some(Str(QUOTED[..7])) && Head("\"") == None && Lex(QUOTED[7..]) == None;
    assert [Str(QUOTED)] + [] == [Str(QUOTED)];
  }
}
