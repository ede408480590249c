/**
 The lexical level of TOML arrays as src/config/sandbox-allow.ts reads them: strings, comments,
 brackets, commas and single other characters.  Lexing a text and writing the lexemes back gives the
 text; lexing a list of separated lexemes gives the list.
 */
module TomlLexer {
  import opened Wrappers

  const QUOTE := '"'
  const APOSTROPHE := '\''
  const BACKSLASH := '\\'
  const NEWLINE := '\n'

  datatype Lexeme =
    | Str(text: string)
    | Comment(text: string)
    | Open
    | Close
    | Comma
    | Other(c: char)

  function Text(l: Lexeme): string {
    match l
    case Str(t) => t
    case Comment(t) => t
    case Open => "["
    case Close => "]"
    case Comma => ","
    case Other(c) => [c]
  }

  function Concat(ls: seq<Lexeme>): string { if ls == [] then "" else Text(ls[0]) + Concat(ls[1..]) }

  predicate IsQuote(c: char) { c == QUOTE || c == APOSTROPHE }

  predicate StartsTriple(s: string, q: char) { |s| >= 3 && s[0] == q && s[1] == q && s[2] == q }

  function Plus(n: Option<nat>, k: nat): Option<nat> { if n.Some? then Some(n.value + k) else None }

  // How many characters a string body takes up to and including its closing quotes.
  function BodyLength(s: string, q: char, triple: bool): Option<nat> {
    if s == "" then None
    else if (if triple then StartsTriple(s, q) else s[0] == q) then Some(if triple then 3 else 1)
    else if q == QUOTE && s[0] == BACKSLASH then (if |s| < 2 then None else Plus(BodyLength(s[2..], q, triple), 2))
    else if !triple && s[0] == NEWLINE then None
    else Plus(BodyLength(s[1..], q, triple), 1)
  }

  // The length of the string a text starts with.
  function StringLength(s: string): Option<nat>
    requires s != "" && IsQuote(s[0])
  {
    if StartsTriple(s, s[0]) then Plus(BodyLength(s[3..], s[0], true), 3)
    else Plus(BodyLength(s[1..], s[0], false), 1)
  }

  // A comment runs through its newline or to the end.
  function CommentLength(s: string): (n: nat)
    ensures n <= |s| && (s != "" ==> n >= 1)
  {
    if s == "" then 0 else if s[0] == NEWLINE then 1 else 1 + CommentLength(s[1..])
  }

  lemma {:induction false} BodyLengthBounds(s: string, q: char, triple: bool)
    ensures BodyLength(s, q, triple).Some? ==> 1 <= BodyLength(s, q, triple).value <= |s|
  {
    if s != "" {
      if |s| >= 2 {
        BodyLengthBounds(s[2..], q, triple);
      }
      BodyLengthBounds(s[1..], q, triple);
    }
  }

  lemma StringLengthBounds(s: string)
    requires s != "" && IsQuote(s[0])
    ensures StringLength(s).Some? ==> 2 <= StringLength(s).value <= |s|
  {
    if StartsTriple(s, s[0]) {
      BodyLengthBounds(s[3..], s[0], true);
    } else {
      BodyLengthBounds(s[1..], s[0], false);
    }
  }

  function Single(c: char): Lexeme {
    if c == '[' then Open else if c == ']' then Close else if c == ',' then Comma else Other(c)
  }

  // The first lexeme of a text.
  function Head(s: string): (l: Option<Lexeme>)
    requires s != ""
    ensures l.Some? ==> 1 <= |Text(l.value)| <= |s| && Text(l.value) == s[..|Text(l.value)|]
  {
    if IsQuote(s[0]) then
      StringLengthBounds(s);
      var n := StringLength(s);
      if n.None? then None else Some(Str(s[..n.value]))
    else if s[0] == '#' then Some(Comment(s[..CommentLength(s)]))
    else Some(Single(s[0]))
  }

  /** The lexemes of a text, or None when a string is malformed. */
  function Lex(s: string): Option<seq<Lexeme>>
    decreases |s|
  {
    if s == "" then Some([])
    else
      var l := Head(s);
      if l.None? then None
      else
        var rest := Lex(s[|Text(l.value)|..]);
        if rest.None? then None else Some([l.value] + rest.value)
  }

  lemma {:induction false} LexWritesBack(s: string)
    requires Lex(s).Some?
    ensures Concat(Lex(s).value) == s
    decreases |s|
  {
    if s != "" {
      var l := Head(s).value;
      LexWritesBack(s[|Text(l)|..]);
    }
  }

  // -------------------------------------------------------------------------- separated lexemes

  predicate WellFormed(l: Lexeme) {
    match l
    case Str(t) => t != "" && IsQuote(t[0]) && StringLength(t) == Some(|t|)
    case Comment(t) => t != "" && t[0] == '#' && CommentLength(t) == |t|
    case Other(c) => !IsQuote(c) && c !in "#[],"
    case _ => true
  }

  // Only an empty string and a comment without newline depend on what follows.
  predicate May(l: Lexeme, rest: string) {
    match l
    case Str(t) => |t| == 2 && rest != "" ==> rest[0] != t[0]
    case Comment(t) => t != "" && (t[|t| - 1] == NEWLINE || rest == "")
    case _ => true
  }

  predicate Separated(ls: seq<Lexeme>) {
    ls == [] || (WellFormed(ls[0]) && May(ls[0], Concat(ls[1..])) && Separated(ls[1..]))
  }

  lemma {:induction false} BodyLengthStable(s: string, q: char, triple: bool, n: nat, rest: string)
    requires BodyLength(s, q, triple) == Some(n)
    ensures n <= |s| && BodyLength(s[..n] + rest, q, triple) == Some(n)
  {
    BodyLengthBounds(s, q, triple);
    var u := s[..n] + rest;
    if !(if triple then StartsTriple(s, q) else s[0] == q) {
      var k := if q == QUOTE && s[0] == BACKSLASH then 2 else 1;
      BodyLengthStable(s[k..], q, triple, n - k, rest);
      BodyLengthBounds(s[k..], q, triple);
      assert u[k..] == s[k..][..n - k] + rest;
      if triple {
        BodyLongEnough(s[k..], q, n - k);
      }
    }
  }

  lemma BodyLongEnough(s: string, q: char, n: nat)
    requires BodyLength(s, q, true) == Some(n)
    ensures n >= 3
  {
    if !StartsTriple(s, q) {
      var k := if q == QUOTE && s[0] == BACKSLASH then 2 else 1;
      BodyLongEnough(s[k..], q, n - k);
    }
  }

  lemma StringLengthStable(s: string, n: nat, rest: string)
    requires s != "" && IsQuote(s[0]) && StringLength(s) == Some(n)
    requires n == 2 && rest != "" ==> rest[0] != s[0]
    ensures 2 <= n <= |s| && StringLength(s[..n] + rest) == Some(n)
  {
    StringLengthBounds(s);
    var u, q := s[..n] + rest, s[0];
    if StartsTriple(s, q) {
      BodyLengthStable(s[3..], q, true, n - 3, rest);
      BodyLengthBounds(s[3..], q, true);
      BodyLongEnough(s[3..], q, n - 3);
      assert u[3..] == s[3..][..n - 3] + rest;
    } else {
      BodyLengthStable(s[1..], q, false, n - 1, rest);
      assert u[1..] == s[1..][..n - 1] + rest;
    }
  }

  lemma {:induction false} CommentLengthStable(t: string, rest: string)
    requires t != "" && CommentLength(t) == |t| && (t[|t| - 1] == NEWLINE || rest == "")
    ensures CommentLength(t + rest) == |t|
  {
    if rest == "" {
      assert t + rest == t;
    } else if |t| > 1 && t[0] != NEWLINE {
      assert (t + rest)[1..] == t[1..] + rest;
      CommentLengthStable(t[1..], rest);
    }
  }

  lemma HeadStable(l: Lexeme, rest: string)
    requires WellFormed(l) && May(l, rest)
    ensures Text(l) + rest != "" && Head(Text(l) + rest) == Some(l)
  {
    var s := Text(l) + rest;
    match l
    case Str(t) =>
      StringLengthStable(t, |t|, rest);
      assert t[..|t|] == t;
    case Comment(t) => CommentLengthStable(t, rest);
    case _ =>
  }

  /** Lexing separated lexemes written one after another gives them back. */
  lemma {:induction false} SeparatedLex(ls: seq<Lexeme>)
    requires Separated(ls)
    ensures Lex(Concat(ls)) == Some(ls)
  {
    if ls != [] {
      var rest := Concat(ls[1..]);
      HeadStable(ls[0], rest);
      SeparatedLex(ls[1..]);
      assert Concat(ls)[|Text(ls[0])|..] == rest;
      assert [ls[0]] + ls[1..] == ls;
    }
  }

  lemma {:induction false} CommentEnds(s: string)
    requires s != ""
    ensures var n := CommentLength(s);
      CommentLength(s[..n]) == n && (s[n - 1] == NEWLINE || n == |s|)
  {
    var n := CommentLength(s);
    if s[0] != NEWLINE && |s| > 1 {
      CommentEnds(s[1..]);
      assert s[..n][1..] == s[1..][..n - 1];
    }
  }

  lemma HeadWellFormed(s: string)
    requires s != "" && Head(s).Some?
    ensures WellFormed(Head(s).value) && May(Head(s).value, s[|Text(Head(s).value)|..])
  {
    if IsQuote(s[0]) {
      var n := StringLength(s).value;
      StringLengthBounds(s);
      StringAlone(s, n);
    } else if s[0] == '#' {
      CommentEnds(s);
    }
  }

  lemma StringAlone(s: string, n: nat)
    requires s != "" && IsQuote(s[0]) && StringLength(s) == Some(n) && 2 <= n <= |s|
    ensures StringLength(s[..n]) == Some(n) && (n == 2 && |s| > 2 ==> s[2] != s[0])
  {
    if n == 2 {
      assert s[1..][1..] == s[2..];
      BodyLengthBounds(s[2..], s[0], false);
      if |s| > 2 {
        BodyLengthBounds(s[3..], s[0], true);
        BodyLengthBounds(s[3..], s[0], false);
        assert s[1..][2..] == s[3..];
      }
      assert !StartsTriple(s, s[0]) && s[1] == s[0];
    }
    if StartsTriple(s, s[0]) {
      BodyLengthStable(s[3..], s[0], true, n - 3, "");
      BodyLongEnough(s[3..], s[0], n - 3);
      assert s[..n][3..] == s[3..][..n - 3] + "";
    } else {
      BodyLengthStable(s[1..], s[0], false, n - 1, "");
      assert s[..n][1..] == s[1..][..n - 1] + "";
    }
  }

  /** The lexemes of a text are separated. */
  lemma {:induction false} LexSeparated(s: string)
    requires Lex(s).Some?
    ensures Separated(Lex(s).value)
    decreases |s|
  {
    if s != "" {
      var l := Head(s).value;
      HeadWellFormed(s);
      LexSeparated(s[|Text(l)|..]);
      LexWritesBack(s[|Text(l)|..]);
    }
  }
}
