/** The tokenizer of pyTBasic/parser.py: one ordered alternation of token
    patterns tried at the current position (the first alternative that
    matches wins, not the longest), whitespace dropped, variable names
    renamed to `V_<letter>`, and scanning that stops without an error at the
    first character no alternative matches. */
module Lexer {
  import opened Outcomes
  import opened Numerals

  /** The names of the alternation's groups, in the order they are tried. */
  datatype Kind =
    | Kword | Strng | Var | Num | Plus | Minus | Times | Divide
    | Lparen | Rparen | Relop | Ws | Com | Semi

  /** The group name, as the parser compares it and prints it in messages. */
  function KindName(k: Kind): string {
    match k
    case Kword => "KWORD"
    case Strng => "STRNG"
    case Var => "VAR"
    case Num => "NUM"
    case Plus => "PLUS"
    case Minus => "MINUS"
    case Times => "TIMES"
    case Divide => "DIVIDE"
    case Lparen => "LPAREN"
    case Rparen => "RPAREN"
    case Relop => "RELOP"
    case Ws => "WS"
    case Com => "COM"
    case Semi => "SEMI"
  }

  /** A token: its group name and the text it stands for. */
  datatype Token = Token(kind: Kind, text: string)

  /** The KWORD alternatives, in order. */
  const Keywords: seq<string> :=
    ["PRINT", "IF", "THEN", "GOTO", "INPUT", "LET", "GOSUB", "RETURN", "CLEAR", "LIST", "RUN", "END"]

  /** The RELOP alternatives, in order. */
  const Relops: seq<string> := ["<>", "><", "<=", ">=", "<", ">", "="]

  /** Characters matched by `\s` in a str pattern (those for which str.isspace() holds). */
  predicate IsSpace(ch: char) {
    ('\t' <= ch <= '\r') || ('\U{1C}' <= ch <= '\U{1F}') || ch == ' '
    || ch == '\U{85}' || ch == '\U{A0}' || ch == '\U{1680}' || ('\U{2000}' <= ch <= '\U{200A}')
    || ch == '\U{2028}' || ch == '\U{2029}' || ch == '\U{202F}' || ch == '\U{205F}' || ch == '\U{3000}'
  }

  predicate IsUpper(ch: char) {
    'A' <= ch <= 'Z'
  }

  /** Length of the first keyword, from index i of Keywords on, that s starts with; 0 if none. */
  function KeywordLength(s: string, i: nat): (n: nat)
    decreases |Keywords| - i
    ensures n <= |s|
  {
    if i >= |Keywords| then 0
    else if Keywords[i] <= s then |Keywords[i]|
    else KeywordLength(s, i + 1)
  }

  /** KeywordLength finds a keyword that s starts with, and the first one in order. */
  lemma {:induction false} KeywordLengthFinds(s: string, i: nat)
    decreases |Keywords| - i
    ensures KeywordLength(s, i) > 0 ==>
      exists j :: i <= j < |Keywords| && KeywordLength(s, i) == |Keywords[j]| && Keywords[j] <= s
    ensures KeywordLength(s, i) == 0 ==> forall j :: i <= j < |Keywords| ==> !(Keywords[j] <= s)
  {
    if i < |Keywords| && !(Keywords[i] <= s) {
      KeywordLengthFinds(s, i + 1);
    }
  }

  /** Index of the first double quote in s at or after j. */
  function QuoteAt(s: string, j: nat): (r: Option<nat>)
    decreases |s| - j
    ensures r.Some? ==> j <= r.value < |s|
  {
    if j >= |s| then None
    else if s[j] == '"' then Some(j)
    else QuoteAt(s, j + 1)
  }

  /** QuoteAt finds the first double quote at or after j, or there is none. */
  lemma {:induction false} QuoteAtFinds(s: string, j: nat)
    decreases |s| - j
    ensures QuoteAt(s, j).Some? ==> s[QuoteAt(s, j).value] == '"'
    ensures QuoteAt(s, j).Some? ==> forall k :: j <= k < QuoteAt(s, j).value ==> s[k] != '"'
    ensures QuoteAt(s, j).None? ==> forall k :: j <= k < |s| ==> s[k] != '"'
  {
    if j < |s| && s[j] != '"' {
      QuoteAtFinds(s, j + 1);
    }
  }

  /** Length of the run of digits in s that starts at j (greedy `\d*`). */
  function DigitRun(s: string, j: nat): (n: nat)
    requires j <= |s|
    decreases |s| - j
    ensures j + n <= |s|
  {
    if j < |s| && IsDigit(s[j]) then 1 + DigitRun(s, j + 1) else 0
  }

  /** DigitRun takes digits only, and all of them. */
  lemma {:induction false} DigitRunIsGreedy(s: string, j: nat)
    requires j <= |s|
    decreases |s| - j
    ensures forall k :: j <= k < j + DigitRun(s, j) ==> IsDigit(s[k])
    ensures j + DigitRun(s, j) < |s| ==> !IsDigit(s[j + DigitRun(s, j)])
  {
    if j < |s| && IsDigit(s[j]) {
      DigitRunIsGreedy(s, j + 1);
    }
  }

  /** Length of the run of whitespace in s that starts at j (greedy `\s*`). */
  function SpaceRun(s: string, j: nat): (n: nat)
    requires j <= |s|
    decreases |s| - j
    ensures j + n <= |s|
  {
    if j < |s| && IsSpace(s[j]) then 1 + SpaceRun(s, j + 1) else 0
  }

  /** SpaceRun takes whitespace only, and all of it. */
  lemma {:induction false} SpaceRunIsGreedy(s: string, j: nat)
    requires j <= |s|
    decreases |s| - j
    ensures forall k :: j <= k < j + SpaceRun(s, j) ==> IsSpace(s[k])
    ensures j + SpaceRun(s, j) < |s| ==> !IsSpace(s[j + SpaceRun(s, j)])
  {
    if j < |s| && IsSpace(s[j]) {
      SpaceRunIsGreedy(s, j + 1);
    }
  }

  /** Length of the NUM match at the start of s, 0 if none. The alternative
      `\d*\.\d+` is tried first: it matches when the leading digits are
      followed by a dot and a digit; otherwise `\d+` takes the leading digits. */
  function NumLength(s: string): (n: nat)
    ensures n <= |s|
  {
    var d := DigitRun(s, 0);
    if d + 1 < |s| && s[d] == '.' && IsDigit(s[d + 1]) then d + 1 + DigitRun(s, d + 1) else d
  }

  /** Length of the RELOP match at the start of s, whose first character is one of `<>=`. */
  function RelopLength(s: string): (n: nat)
    requires |s| > 0
    ensures 0 < n <= |s|
  {
    if |s| >= 2 && s[..2] in Relops[..4] then 2 else 1
  }

  /** The group and length of the match of the whole alternation at the start
      of s, trying the groups in order; None when no group matches there. */
  function FirstMatch(s: string): (m: Option<(Kind, nat)>)
    ensures m.Some? ==> 0 < m.value.1 <= |s|
  {
    if s == [] then None
    else if KeywordLength(s, 0) > 0 then Some((Kword, KeywordLength(s, 0)))
    else if s[0] == '"' && QuoteAt(s, 1).Some? then Some((Strng, QuoteAt(s, 1).value + 1))
    else if IsUpper(s[0]) then Some((Var, 1))
    else if NumLength(s) > 0 then Some((Num, NumLength(s)))
    else if s[0] == '+' then Some((Plus, 1))
    else if s[0] == '-' then Some((Minus, 1))
    else if s[0] == '*' then Some((Times, 1))
    else if s[0] == '/' then Some((Divide, 1))
    else if s[0] == '(' then Some((Lparen, 1))
    else if s[0] == ')' then Some((Rparen, 1))
    else if s[0] == '<' || s[0] == '>' || s[0] == '=' then Some((Relop, RelopLength(s)))
    else if IsSpace(s[0]) then Some((Ws, SpaceRun(s, 0)))
    else if s[0] == ',' then Some((Com, 1))
    else if s[0] == ';' then Some((Semi, 1))
    else None
  }

  /** The successive matches of the scanner over s, as raw lexemes (whitespace
      included, variables not yet renamed), up to the first position where
      nothing matches. */
  function Scan(s: string): seq<Token>
    decreases |s|
  {
    match FirstMatch(s)
    case None => []
    case Some(m) => [Token(m.0, s[..m.1])] + Scan(s[m.1..])
  }

  /** What generate_tokens yields for one lexeme. */
  function Emit(t: Token): seq<Token> {
    if t.kind == Ws then []
    else if t.kind == Var then [Token(Var, "V_" + t.text)]
    else [t]
  }

  function EmitAll(ls: seq<Token>): seq<Token> {
    if ls == [] then [] else Emit(ls[0]) + EmitAll(ls[1..])
  }

  /** The token sequence generate_tokens yields for a line of text. */
  function Tokenize(text: string): seq<Token> {
    EmitAll(Scan(text))
  }

  lemma EmitAllCons(t: Token, ls: seq<Token>)
    ensures EmitAll([t] + ls) == Emit(t) + EmitAll(ls)
  {
    assert ([t] + ls)[1..] == ls;
  }

  /** One step of the scanner over the input it has not consumed yet. */
  lemma ScanUnfold(rest: string, kind: Kind, len: nat)
    requires FirstMatch(rest) == Some((kind, len))
    ensures 0 < len <= |rest|
    ensures Scan(rest) == [Token(kind, rest[..len])] + Scan(rest[len..])
  {
  }

  /** scanner.match: whether the alternation matches at the start of the
      input the scanner has not consumed yet, and the group and length of
      the match. */
  method Match(rest: string) returns (found: bool, kind: Kind, len: nat)
    ensures found <==> FirstMatch(rest).Some?
    ensures found ==> FirstMatch(rest) == Some((kind, len))
  {
    var m := FirstMatch(rest);
    if m.None? {
      return false, Kword, 0;
    }
    found, kind, len := true, m.value.0, m.value.1;
  }

  /** The body of the loop for one match: whitespace yields nothing, a
      variable is yielded renamed, anything else as it is. */
  method EmitToken(lexeme: Token) returns (yielded: seq<Token>)
    ensures yielded == Emit(lexeme)
  {
    yielded := [];
    if lexeme.kind != Ws {
      if lexeme.kind == Var {
        yielded := [Token(Var, "V_" + lexeme.text)];
      } else {
        yielded := [lexeme];
      }
    }
  }

  /** generate_tokens: the scanning loop over the successive matches, rest
      being the input the scanner has not consumed yet. */
  method GenerateTokens(text: string) returns (tokens: seq<Token>)
    ensures tokens == Tokenize(text)
  {
    tokens := [];
    var rest := text;
    while true
      invariant tokens + EmitAll(Scan(rest)) == Tokenize(text)
      decreases |rest|
    {
      var found, kind, len := Match(rest);
      if !found {
        assert tokens + [] == tokens;
        break;
      }
      var yielded := EmitToken(Token(kind, rest[..len]));
      ScanUnfold(rest, kind, len);
      StepKeepsYield(tokens, Scan(rest), Token(kind, rest[..len]), Scan(rest[len..]));
      tokens := tokens + yielded;
      rest := rest[len..];
    }
  }

  /** Yielding the tokens of the first lexeme keeps the tokens yielded so
      far, followed by those still to come, equal to the whole yield. */
  lemma StepKeepsYield(before: seq<Token>, lexemes: seq<Token>, lexeme: Token, more: seq<Token>)
    requires lexemes == [lexeme] + more
    ensures before + EmitAll(lexemes) == (before + Emit(lexeme)) + EmitAll(more)
  {
    EmitAllCons(lexeme, more);
  }
}
