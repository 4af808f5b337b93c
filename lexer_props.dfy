/** Properties of the tokenizer of pyTBasic/parser.py: the shape of every
    token it yields, first-match priorities between its alternatives, and
    the prefix of the line its tokens cover. */
module LexerProps {
  import opened Outcomes
  import opened Numerals
  import opened Lexer

  /** A NUM lexeme: digits, or optional digits, a dot and digits. */
  predicate IsNumLexeme(t: string) {
    IsDigits(t) || exists i :: 0 <= i < |t| && t[i] == '.' && AllDigits(t[..i]) && IsDigits(t[i + 1..])
  }

  /** The texts each group of the alternation can match. */
  predicate IsLexeme(k: Kind, t: string) {
    match k
    case Kword => t in Keywords
    case Strng => |t| >= 2 && t[0] == '"' && t[|t| - 1] == '"' && forall i :: 0 < i < |t| - 1 ==> t[i] != '"'
    case Var => |t| == 1 && IsUpper(t[0])
    case Num => IsNumLexeme(t)
    case Plus => t == "+"
    case Minus => t == "-"
    case Times => t == "*"
    case Divide => t == "/"
    case Lparen => t == "("
    case Rparen => t == ")"
    case Relop => t in Relops
    case Ws => |t| > 0 && forall i :: 0 <= i < |t| ==> IsSpace(t[i])
    case Com => t == ","
    case Semi => t == ";"
  }

  /** A token as generate_tokens yields it: never whitespace, a variable
      renamed to `V_` and one capital letter, any other a lexeme of its group. */
  predicate IsYielded(t: Token) {
    t.kind != Ws
    && (t.kind == Var ==> |t.text| == 3 && t.text[..2] == "V_" && IsUpper(t.text[2]))
    && (t.kind != Var ==> IsLexeme(t.kind, t.text))
  }

  lemma KeywordIsLexeme(s: string)
    requires KeywordLength(s, 0) > 0
    ensures s[..KeywordLength(s, 0)] in Keywords
  {
    KeywordLengthFinds(s, 0);
    var n := KeywordLength(s, 0);
    var j :| 0 <= j < |Keywords| && n == |Keywords[j]| && Keywords[j] <= s;
    assert s[..n] == Keywords[j];
  }

  lemma StringIsLexeme(s: string)
    requires |s| > 0 && s[0] == '"' && QuoteAt(s, 1).Some?
    ensures IsLexeme(Strng, s[..QuoteAt(s, 1).value + 1])
  {
    QuoteAtFinds(s, 1);
    var t := s[..QuoteAt(s, 1).value + 1];
    forall i | 0 < i < |t| - 1
      ensures t[i] != '"'
    {
      assert t[i] == s[i];
    }
  }

  lemma NumberIsLexeme(s: string)
    requires NumLength(s) > 0
    ensures IsNumLexeme(s[..NumLength(s)])
  {
    var n := NumLength(s);
    var t := s[..n];
    var d := DigitRun(s, 0);
    DigitRunIsGreedy(s, 0);
    if d + 1 < |s| && s[d] == '.' && IsDigit(s[d + 1]) {
      DigitRunIsGreedy(s, d + 1);
      assert t[d] == '.';
      assert t[..d] == s[..d];
      assert t[d + 1..] == s[d + 1..n];
    } else {
      assert IsDigits(t);
    }
  }

  lemma RelopIsLexeme(s: string)
    requires |s| > 0 && (s[0] == '<' || s[0] == '>' || s[0] == '=')
    ensures s[..RelopLength(s)] in Relops
  {
    if RelopLength(s) == 1 {
      assert s[..1] == [s[0]];
    }
  }

  /** The groups after NUM match one character, or a run of spaces, or a relational operator. */
  lemma OperatorIsLexeme(s: string)
    requires FirstMatch(s).Some? && KeywordLength(s, 0) == 0 && !IsUpper(s[0]) && NumLength(s) == 0
    requires !(s[0] == '"' && QuoteAt(s, 1).Some?)
    ensures IsLexeme(FirstMatch(s).value.0, s[..FirstMatch(s).value.1])
  {
    var c := s[0];
    if c in "+-*/()" {
      assert FirstMatch(s).value.1 == 1;
      assert s[..1] == [c];
    } else if c == '<' || c == '>' || c == '=' {
      RelopIsLexeme(s);
    } else if IsSpace(c) {
      SpaceRunIsGreedy(s, 0);
      assert FirstMatch(s) == Some((Ws, SpaceRun(s, 0)));
    } else {
      assert FirstMatch(s).value.1 == 1;
      assert s[..1] == [c];
    }
  }

  /** Whatever group wins at the start of s matches a lexeme of that group. */
  lemma FirstMatchIsLexeme(s: string)
    requires FirstMatch(s).Some?
    ensures IsLexeme(FirstMatch(s).value.0, s[..FirstMatch(s).value.1])
  {
    if KeywordLength(s, 0) > 0 {
      KeywordIsLexeme(s);
    } else if s[0] == '"' && QuoteAt(s, 1).Some? {
      StringIsLexeme(s);
    } else if IsUpper(s[0]) {
      assert s[..1] == [s[0]];
    } else if NumLength(s) > 0 {
      NumberIsLexeme(s);
    } else {
      OperatorIsLexeme(s);
    }
  }

  lemma {:induction false} ScanIsLexemes(s: string)
    ensures forall i :: 0 <= i < |Scan(s)| ==> IsLexeme(Scan(s)[i].kind, Scan(s)[i].text)
    decreases |s|
  {
    match FirstMatch(s)
    case None =>
    case Some(m) =>
      FirstMatchIsLexeme(s);
      ScanIsLexemes(s[m.1..]);
  }

  lemma {:induction false} EmitAllYields(ls: seq<Token>)
    requires forall i :: 0 <= i < |ls| ==> IsLexeme(ls[i].kind, ls[i].text)
    ensures forall i :: 0 <= i < |EmitAll(ls)| ==> IsYielded(EmitAll(ls)[i])
  {
    if ls != [] {
      EmitAllYields(ls[1..]);
      var head := Emit(ls[0]);
      assert forall i :: 0 <= i < |head| ==> IsYielded(head[i]) by {
        if ls[0].kind == Var {
          assert head[0].text[..2] == "V_";
        }
      }
      assert EmitAll(ls) == head + EmitAll(ls[1..]);
    }
  }

  /** generate_tokens never yields a WS token, every VAR token it yields is
      `V_` and one capital letter, and every other token is a lexeme of its
      group (a keyword, a quoted string without inner quotes, a number and
      so on). */
  lemma TokenizeYields(text: string)
    ensures forall i :: 0 <= i < |Tokenize(text)| ==> IsYielded(Tokenize(text)[i])
  {
    ScanIsLexemes(text);
    EmitAllYields(Scan(text));
  }

  /** No keyword is a prefix of another. */
  lemma KeywordsPrefixFree(a: string, b: string)
    requires a in Keywords && b in Keywords && a <= b
    ensures a == b
  {
    assert a[0] == b[0] && a[1] == b[1];
    if |a| >= 3 {
      assert a[2] == b[2];
    }
  }

  /** A keyword spelling at the start of the input is scanned as that
      keyword, never as a one-letter variable: KWORD is tried before VAR. */
  lemma KeywordWins(s: string, kw: string)
    requires kw in Keywords && kw <= s
    ensures FirstMatch(s) == Some((Kword, |kw|))
  {
    KeywordLengthFinds(s, 0);
    var n := KeywordLength(s, 0);
    var j0 :| 0 <= j0 < |Keywords| && Keywords[j0] == kw;
    assert n > 0;
    var j :| 0 <= j < |Keywords| && n == |Keywords[j]| && Keywords[j] <= s;
    if |Keywords[j]| <= |kw| {
      KeywordsPrefixFree(Keywords[j], kw);
    } else {
      KeywordsPrefixFree(kw, Keywords[j]);
    }
  }

  /** A variable token is scanned only where no keyword starts. */
  lemma VarOnlyOffKeywords(s: string)
    requires FirstMatch(s).Some? && FirstMatch(s).value.0 == Var
    ensures FirstMatch(s).value.1 == 1 && IsUpper(s[0])
    ensures forall kw :: kw in Keywords ==> !(kw <= s)
  {
    forall kw | kw in Keywords
      ensures !(kw <= s)
    {
      if kw <= s {
        KeywordWins(s, kw);
      }
    }
  }

  /** Every keyword starts with a capital letter, so none starts anywhere else. */
  lemma KeywordNeedsUpper(s: string)
    requires s != [] && !IsUpper(s[0])
    ensures KeywordLength(s, 0) == 0
  {
    forall j | 0 <= j < |Keywords|
      ensures !(Keywords[j] <= s)
    {
      assert IsUpper(Keywords[j][0]);
    }
    KeywordLengthFinds(s, 0);
  }

  /** The two-character relational operators win over `<` and `>` alone. */
  lemma RelopLongest(s: string, op: string)
    requires op in Relops[..4] && op <= s
    ensures FirstMatch(s) == Some((Relop, 2))
  {
    assert s[..2] == op;
    assert s[0] == '<' || s[0] == '>';
    KeywordNeedsUpper(s);
    assert DigitRun(s, 0) == 0;
  }

  /** The concatenated texts of a sequence of lexemes. */
  function Texts(ls: seq<Token>): string {
    if ls == [] then [] else ls[0].text + Texts(ls[1..])
  }

  lemma PrefixStep(s: string, n: nat, tail: string)
    requires n <= |s| && tail <= s[n..]
    ensures s[..n] + tail <= s
    ensures s[n..][|tail|..] == s[n + |tail|..]
  {
    assert s == s[..n] + s[n..];
  }

  /** The scanner's lexemes spell out a prefix of the input, and nothing
      matches where they end: the rest of the line is dropped silently. */
  lemma {:induction false} ScanCoversPrefix(s: string)
    ensures Texts(Scan(s)) <= s
    ensures FirstMatch(s[|Texts(Scan(s))|..]).None?
    decreases |s|
  {
    var m := FirstMatch(s);
    if m.None? {
      assert s[0..] == s;
    } else {
      var (k, n) := m.value;
      ScanCoversPrefix(s[n..]);
      var tail := Texts(Scan(s[n..]));
      assert Texts(Scan(s)) == s[..n] + tail;
      PrefixStep(s, n, tail);
      var rest := s[n..][|tail|..];
      assert FirstMatch(rest).None?;
      assert rest == s[|Texts(Scan(s))|..];
    }
  }

  /** try_int accepts a NUM lexeme exactly when it has no fractional part. */
  lemma TryIntOfNumLexeme(t: string)
    requires IsNumLexeme(t)
    ensures IsDigits(t) <==> '.' !in t
  {
    if !IsDigits(t) {
      var i :| 0 <= i < |t| && t[i] == '.' && AllDigits(t[..i]) && IsDigits(t[i + 1..]);
    }
  }
}
