/**
 * The policy-rule evaluator: a lexer over characters and a recursive-descent parser that
 * evaluates while it reads.
 *
 * `Lex` and the `Or`/`And`/`Not`/`Value` functions are the lexer and the parser on values;
 * `tokenize` and the parser object are proved to compute them. Independently of both, syntax
 * trees are printed to tokens and given a meaning, and the two are connected in both directions.
 * Numbers are exact decimals; double rounding is not modelled, only overflow to infinity.
 */
module Expression {
  datatype Error =
    | EmptyExpression
    | TooLong
    | UnexpectedCharacter(c: char)
    | UnexpectedToken(t: Token)
    | InvalidNumber(text: string)
    | UndefinedVariable(name: string)

  datatype Result<+T> = Ok(value: T) | Err(error: Error)

  datatype Kind =
    | NUMBER | IDENT | AND | OR | NOT | GTE | LTE | GT | LT | EQ | NEQ | LPAREN | RPAREN | EOF

  datatype Token = Token(kind: Kind, text: string)

  const END := Token(EOF, "")
  const MAX_LENGTH: nat := 1024

  // ----- Characters ----------------------------------------------------------------------

  predicate IsSpace(c: char) {
    || c in {' ', '\t', '\n', '\r', '\U{0B}', '\U{0C}', '\U{A0}', '\U{1680}'}
    || '\U{2000}' <= c <= '\U{200A}'
    || c in {'\U{2028}', '\U{2029}', '\U{202F}', '\U{205F}', '\U{3000}', '\U{FEFF}'}
  }

  predicate IsDigit(c: char) {
    '0' <= c <= '9'
  }

  predicate IsNumberChar(c: char) {
    IsDigit(c) || c == '.'
  }

  predicate IsLetter(c: char) {
    'a' <= c <= 'z' || 'A' <= c <= 'Z' || c == '_'
  }

  predicate IsNameChar(c: char) {
    IsLetter(c) || IsDigit(c)
  }

  // ----- Lexing ----------------------------------------------------------------------------

  /** Length of the longest prefix of number characters, or of name characters. */
  function RunLength(s: string, number: bool): (n: nat)
    ensures n <= |s|
    ensures forall i :: 0 <= i < n ==> if number then IsNumberChar(s[i]) else IsNameChar(s[i])
    ensures n < |s| ==> if number then !IsNumberChar(s[n]) else !IsNameChar(s[n])
  {
    if s == "" || !(if number then IsNumberChar(s[0]) else IsNameChar(s[0])) then 0
    else 1 + RunLength(s[1..], number)
  }

  datatype Lexeme = Space | Tok(t: Token) | Bad(c: char)

  function Operator(s: string): (k: Kind)
    requires s != ""
    ensures k != NUMBER && k != IDENT
    ensures k != EOF ==> Spelling(k) <= s
  {
    var two := if |s| >= 2 then s[..2] else "";
    if two == "&&" then AND
    else if two == "||" then OR
    else if two == ">=" then GTE
    else if two == "<=" then LTE
    else if two == "==" then EQ
    else if two == "!=" then NEQ
    else if s[0] == '>' then GT
    else if s[0] == '<' then LT
    else if s[0] == '!' then NOT
    else if s[0] == '(' then LPAREN
    else if s[0] == ')' then RPAREN
    else EOF
  }

  function Spelling(k: Kind): string {
    match k
    case AND => "&&"
    case OR => "||"
    case NOT => "!"
    case GTE => ">="
    case LTE => "<="
    case GT => ">"
    case LT => "<"
    case EQ => "=="
    case NEQ => "!="
    case LPAREN => "("
    case RPAREN => ")"
    case _ => ""
  }

  function First(s: string): Lexeme
    requires s != ""
  {
    if IsSpace(s[0]) then Space
    else if Operator(s) != EOF then Tok(Token(Operator(s), Spelling(Operator(s))))
    else if IsDigit(s[0]) then Tok(Token(NUMBER, s[..RunLength(s, true)]))
    else if IsLetter(s[0]) then Tok(Token(IDENT, s[..RunLength(s, false)]))
    else Bad(s[0])
  }

  function Cons(t: Token, r: Result<seq<Token>>): Result<seq<Token>> {
    if r.Ok? then Ok([t] + r.value) else r
  }

  function Lex(s: string): Result<seq<Token>> {
    if s == "" then Ok([END])
    else
      match First(s)
      case Space => Lex(s[1..])
      case Tok(t) => FirstConsumes(s); Cons(t, Lex(s[|t.text|..]))
      case Bad(c) => Err(UnexpectedCharacter(c))
  }

  lemma FirstConsumes(s: string)
    requires s != ""
    ensures First(s).Tok? ==> 0 < |First(s).t.text| <= |s| && First(s).t.text == s[..|First(s).t.text|]
  {
    if First(s).Tok? && Operator(s) != EOF {
      var sp := Spelling(Operator(s));
      assert sp == s[..|sp|];
    }
  }

  lemma LexSkipsSpace(s: string)
    requires s != "" && IsSpace(s[0])
    ensures Lex(s) == Lex(s[1..])
  {
    assert First(s) == Space;
  }

  lemma LexTakesToken(s: string, t: Token)
    requires s != "" && First(s) == Tok(t)
    ensures 0 < |t.text| <= |s| && t.text == s[..|t.text|]
    ensures Lex(s) == Cons(t, Lex(s[|t.text|..]))
  {
    hide First;
    FirstConsumes(s);
  }

  /** The text of a token as the lexer can produce it. */
  predicate IsWellSpelled(t: Token) {
    match t.kind
    case NUMBER => t.text != "" && IsDigit(t.text[0]) && forall i :: 0 <= i < |t.text| ==> IsNumberChar(t.text[i])
    case IDENT => t.text != "" && IsLetter(t.text[0]) && forall i :: 0 <= i < |t.text| ==> IsNameChar(t.text[i])
    case EOF => false
    case k => t.text == Spelling(k)
  }

  predicate AllWellSpelled(ts: seq<Token>) {
    forall i :: 0 <= i < |ts| ==> IsWellSpelled(ts[i])
  }

  function Join(ts: seq<Token>): string {
    if ts == [] then ""
    else if |ts| == 1 then ts[0].text
    else ts[0].text + " " + Join(ts[1..])
  }

  lemma {:induction false} RunLengthOf(s: string, rest: string, number: bool)
    requires forall i :: 0 <= i < |s| ==> if number then IsNumberChar(s[i]) else IsNameChar(s[i])
    requires rest == "" || rest[0] == ' '
    ensures RunLength(s + rest, number) == |s|
  {
    if s != "" {
      assert (s + rest)[1..] == s[1..] + rest;
      RunLengthOf(s[1..], rest, number);
    } else {
      assert s + rest == rest;
    }
  }

  /** A token followed by a space or the end is lexed as itself. */
  lemma FirstOfToken(t: Token, rest: string)
    requires IsWellSpelled(t) && (rest == "" || rest[0] == ' ')
    ensures First(t.text + rest) == Tok(t)
  {
    if t.kind in {NUMBER, IDENT} {
      FirstOfWord(t, rest);
    } else {
      OperatorOf(t, rest);
      hide Operator;
    }
  }

  lemma FirstOfWord(t: Token, rest: string)
    requires IsWellSpelled(t) && t.kind in {NUMBER, IDENT} && (rest == "" || rest[0] == ' ')
    ensures First(t.text + rest) == Tok(t)
  {
    var s := t.text + rest;
    RunLengthOf(t.text, rest, t.kind == NUMBER);
    assert s[..|t.text|] == t.text && s[0] == t.text[0];
    assert Operator(s) == EOF by { assert |s| >= 2 ==> s[..2][0] == s[0]; }
    hide Operator;
  }

  lemma OperatorOf(t: Token, rest: string)
    requires IsWellSpelled(t) && t.kind !in {NUMBER, IDENT} && (rest == "" || rest[0] == ' ')
    ensures t.text != "" && Operator(t.text + rest) == t.kind && !IsSpace(t.text[0])
  {
    if |t.text| == 2 {
      LongOperator(t, rest);
    } else {
      ShortOperator(t, rest);
    }
  }

  lemma LongOperator(t: Token, rest: string)
    requires IsWellSpelled(t) && t.kind !in {NUMBER, IDENT} && |t.text| == 2
    ensures Operator(t.text + rest) == t.kind && !IsSpace(t.text[0])
  {
    assert (t.text + rest)[..2] == t.text;
  }

  lemma ShortOperator(t: Token, rest: string)
    requires IsWellSpelled(t) && t.kind !in {NUMBER, IDENT} && |t.text| != 2 && (rest == "" || rest[0] == ' ')
    ensures t.text != "" && Operator(t.text + rest) == t.kind && !IsSpace(t.text[0])
  {
    var s := t.text + rest;
    assert |s| >= 2 ==> s[..2] == [t.text[0], ' '];
  }

  /** Lexing space-joined tokens gives the tokens back. */
  lemma {:induction false} LexOfJoin(ts: seq<Token>)
    requires AllWellSpelled(ts)
    ensures Lex(Join(ts)) == Ok(ts + [END])
  {
    hide First, IsSpace, IsWellSpelled;
    if ts == [] {
      assert ts + [END] == [END];
    } else if |ts| == 1 {
      LexOfLast(ts[0]);
      assert ts + [END] == [ts[0], END];
    } else {
      var rest := ts[1..];
      LexOfJoin(rest);
      LexOfMore(ts[0], Join(rest));
      assert [ts[0]] + (rest + [END]) == ts + [END];
    }
  }

  lemma LexOfLast(t: Token)
    requires IsWellSpelled(t)
    ensures Lex(t.text) == Ok([t, END])
  {
    hide First;
    FirstOfToken(t, "");
    assert t.text + "" == t.text;
    assert t.text != "";
    LexTakesToken(t.text, t);
    assert [t] + [END] == [t, END];
  }

  lemma LexOfMore(t: Token, rest: string)
    requires IsWellSpelled(t)
    ensures Lex(t.text + " " + rest) == Cons(t, Lex(rest))
  {
    hide First;
    var tail := " " + rest;
    FirstOfToken(t, tail);
    var s := t.text + tail;
    assert s == t.text + " " + rest;
    assert t.text != "";
    LexTakesToken(s, t);
    assert s[|t.text|..] == tail;
    LexSkipsSpace(tail);
    assert tail[1..] == rest;
  }

  function WithoutSpaces(s: string): string {
    if s == "" then "" else (if IsSpace(s[0]) then "" else [s[0]]) + WithoutSpaces(s[1..])
  }

  function Texts(ts: seq<Token>): string {
    if ts == [] then "" else ts[0].text + Texts(ts[1..])
  }

  lemma {:induction false} WithoutSpacesConcat(a: string, b: string)
    requires forall i :: 0 <= i < |a| ==> !IsSpace(a[i])
    ensures WithoutSpaces(a + b) == a + WithoutSpaces(b)
  {
    if a == "" {
      assert a + b == b;
    } else {
      assert (a + b)[1..] == a[1..] + b;
      WithoutSpacesConcat(a[1..], b);
    }
  }

  lemma TokenHasNoSpace(t: Token)
    requires IsWellSpelled(t)
    ensures forall i :: 0 <= i < |t.text| ==> !IsSpace(t.text[i])
  {
  }

  lemma FirstIsWellSpelled(s: string)
    requires s != "" && First(s).Tok?
    ensures IsWellSpelled(First(s).t)
  {
  }

  /** What is lexed is the input without its white space, cut into well-spelled tokens and one end mark. */
  lemma {:induction false} LexKeepsText(s: string)
    ensures Lex(s).Ok? ==>
      var ts := Lex(s).value;
      && |ts| > 0 && ts[|ts| - 1] == END && AllWellSpelled(ts[..|ts| - 1])
      && Texts(ts) == WithoutSpaces(s)
  {
    hide First, IsSpace, IsWellSpelled;
    if s == "" || Lex(s).Err? {
    } else if First(s) == Space {
      SpaceIsSpace(s);
      LexSkipsSpace(s);
      LexKeepsText(s[1..]);
    } else {
      var t := First(s).t;
      LexTakesToken(s, t);
      FirstIsWellSpelled(s);
      TokenHasNoSpace(t);
      var rest := s[|t.text|..];
      LexKeepsText(rest);
      assert s == t.text + rest;
      WithoutSpacesConcat(t.text, rest);
      var ts := Lex(rest).value;
      assert ([t] + ts)[1..] == ts;
      assert ([t] + ts)[..|ts|] == [t] + ts[..|ts| - 1];
    }
  }

  lemma SpaceIsSpace(s: string)
    requires s != ""
    ensures First(s) == Space <==> IsSpace(s[0])
  {
  }

  // ----- Numbers -----------------------------------------------------------------------------

  /** Two to the 1024th less two to the 970th: decimals from here up read as infinity. */
  const OVERFLOW: real := 179769313486231580793728971405303415079934132710037826936173778980444968292764750946649017977587207096330286416692887910946555547851940402630657488671505820681908902000708383676273854845817711531764475730270069855571366959622842914819860834936475292719074168444365510704342711559699508093042880.0

  function Dots(s: string): nat {
    if s == "" then 0 else (if s[0] == '.' then 1 else 0) + Dots(s[1..])
  }

  function Tens(n: nat): (t: real)
    ensures t > 0.0
  {
    if n == 0 then 1.0 else 10.0 * Tens(n - 1)
  }

  /** The decimal read so far; `place` is the next place after the point. */
  function Decimal(s: string, sofar: real, fraction: bool, place: nat): real {
    if s == "" then sofar
    else if s[0] == '.' then Decimal(s[1..], sofar, true, 1)
    else
      var d := if IsDigit(s[0]) then (s[0] as int - '0' as int) as real else 0.0;
      if fraction then Decimal(s[1..], sofar + d / Tens(place), true, place + 1)
      else Decimal(s[1..], sofar * 10.0 + d, false, place)
  }

  function NumberOf(text: string): Result<real> {
    if Dots(text) > 1 || Decimal(text, 0.0, false, 0) >= OVERFLOW then Err(InvalidNumber(text))
    else Ok(Decimal(text, 0.0, false, 0))
  }

  /** A run of digits read as a whole number, last digit in the ones place. */
  function Whole(s: string): nat {
    if s == "" then 0
    else
      var last := s[|s| - 1];
      10 * Whole(s[..|s| - 1]) + if IsDigit(last) then last as int - '0' as int else 0
  }

  predicate AllDigits(s: string) {
    forall i :: 0 <= i < |s| ==> IsDigit(s[i])
  }

  lemma {:induction false} DecimalSplit(a: string, b: string, sofar: real, fraction: bool, place: nat)
    requires AllDigits(a)
    ensures Decimal(a + b, sofar, fraction, place) ==
      Decimal(b, Decimal(a, sofar, fraction, place), fraction, if fraction then place + |a| else place)
    decreases |a|
  {
    hide Tens;
    if a == "" {
      assert a + b == b;
    } else {
      assert (a + b)[1..] == a[1..] + b;
      var d := (a[0] as int - '0' as int) as real;
      if fraction {
        DecimalSplit(a[1..], b, sofar + d / Tens(place), true, place + 1);
      } else {
        DecimalSplit(a[1..], b, sofar * 10.0 + d, false, place);
      }
    }
  }

  lemma {:induction false} WholePart(a: string)
    requires AllDigits(a)
    ensures Decimal(a, 0.0, false, 0) == Whole(a) as real
  {
    if a != "" {
      var n := |a| - 1;
      WholePart(a[..n]);
      assert a == a[..n] + [a[n]];
      DecimalSplit(a[..n], [a[n]], 0.0, false, 0);
      assert [a[n]][1..] == "";
    }
  }

  lemma {:induction false} FractionPart(b: string, sofar: real)
    requires AllDigits(b)
    ensures Decimal(b, sofar, true, 1) == sofar + Whole(b) as real / Tens(|b|)
  {
    if b != "" {
      var n := |b| - 1;
      FractionPart(b[..n], sofar);
      assert b == b[..n] + [b[n]];
      DecimalSplit(b[..n], [b[n]], sofar, true, 1);
      OneDigit(b[n], sofar + Whole(b[..n]) as real / Tens(n), n + 1);
      LastPlace(Whole(b[..n]) as real, (b[n] as int - '0' as int) as real, Tens(n));
    }
  }

  lemma OneDigit(c: char, sofar: real, place: nat)
    requires IsDigit(c)
    ensures Decimal([c], sofar, true, place) == sofar + (c as int - '0' as int) as real / Tens(place)
  {
    hide Tens;
    assert [c][1..] == "";
  }

  lemma LastPlace(w: real, d: real, t: real)
    requires t > 0.0
    ensures w / t + d / (10.0 * t) == (10.0 * w + d) / (10.0 * t)
  {
    assert w / t == 10.0 * w / (10.0 * t);
  }

  lemma PointedValue(a: string, b: string)
    requires AllDigits(a) && AllDigits(b)
    ensures Decimal(a + "." + b, 0.0, false, 0) == Whole(a) as real + Whole(b) as real / Tens(|b|)
  {
    var rest := "." + b;
    WholePart(a);
    DecimalSplit(a, rest, 0.0, false, 0);
    FractionPart(b, Whole(a) as real);
    assert a + "." + b == a + rest && rest[1..] == b;
    hide Whole, Tens;
  }

  lemma PointedDots(a: string, b: string)
    requires AllDigits(a) && AllDigits(b)
    ensures Dots(a) == 0 && Dots(a + "." + b) == 1
  {
    NoDots(a);
    NoDots(b);
    var rest := "." + b;
    assert a + "." + b == a + rest && rest[1..] == b;
    DotsAdd(a, rest);
  }

  /** A number is its whole part plus its fraction over a power of ten, unless that is too large. */
  lemma NumberValue(a: string, b: string)
    requires AllDigits(a) && AllDigits(b)
    ensures var v := Whole(a) as real + Whole(b) as real / Tens(|b|);
      NumberOf(a + "." + b) == if v >= OVERFLOW then Err(InvalidNumber(a + "." + b)) else Ok(v)
    ensures NumberOf(a) == if Whole(a) as real >= OVERFLOW then Err(InvalidNumber(a)) else Ok(Whole(a) as real)
  {
    hide Whole, Tens, Decimal, Dots;
    WholePart(a);
    PointedValue(a, b);
    PointedDots(a, b);
  }

  lemma {:induction false} NoDots(s: string)
    requires AllDigits(s)
    ensures Dots(s) == 0
  {
    if s != "" {
      NoDots(s[1..]);
    }
  }

  lemma {:induction false} DotsAdd(a: string, b: string)
    ensures Dots(a + b) == Dots(a) + Dots(b)
  {
    if a == "" {
      assert a + b == b;
    } else {
      assert (a + b)[1..] == a[1..] + b;
      DotsAdd(a[1..], b);
    }
  }

  lemma TwoPointsFail(a: string, b: string, c: string)
    ensures NumberOf(a + "." + b + "." + c).Err?
  {
    DotsAdd(a + "." + b + ".", c);
    DotsAdd(a + "." + b, ".");
    DotsAdd(a + ".", b);
    DotsAdd(a, ".");
    assert "."[1..] == "";
  }

  function Lookup(vars: map<string, real>, name: string): Result<real> {
    if name in vars then Ok(vars[name]) else Err(UndefinedVariable(name))
  }

  // ----- Parsing and evaluating in one pass -----------------------------------------------------

  /** A token list as the lexer ends it: the end mark is last and nowhere else. */
  predicate Terminated(ts: seq<Token>) {
    && |ts| > 0 && ts[|ts| - 1].kind == EOF
    && forall i :: 0 <= i < |ts| - 1 ==> ts[i].kind != EOF
  }

  datatype Parse<+T> = Yes(value: T, next: nat) | No(error: Error)

  predicate IsComparison(k: Kind) {
    k in {GT, LT, GTE, LTE, EQ, NEQ}
  }

  function Compare(k: Kind, l: real, r: real): bool
    requires IsComparison(k)
  {
    match k
    case GT => l > r
    case LT => l < r
    case GTE => l >= r
    case LTE => l <= r
    case EQ => l == r
    case NEQ => l != r
  }

  /** The six comparisons are those of the order on numbers. */
  lemma CompareLaws(l: real, r: real, d: real)
    requires d > 0.0
    ensures Compare(GT, r + d, r) && !Compare(GT, r, r + d) && !Compare(GT, r, r)
    ensures Compare(LT, l, r) <==> Compare(GT, r, l)
    ensures Compare(GTE, l, r) <==> !Compare(LT, l, r)
    ensures Compare(LTE, l, r) <==> !Compare(GT, l, r)
    ensures Compare(EQ, l, r) <==> Compare(GTE, l, r) && Compare(LTE, l, r)
    ensures Compare(NEQ, l, r) <==> !Compare(EQ, l, r)
  {
  }

  /** Progress, and never past the end mark. */
  predicate Within<T>(r: Parse<T>, pos: nat, ts: seq<Token>) {
    r.Yes? ==> pos < r.next < |ts|
  }

  function Or(ts: seq<Token>, pos: nat, vars: map<string, real>): (r: Parse<bool>)
    requires Terminated(ts) && pos < |ts|
    ensures Within(r, pos, ts)
    decreases |ts| - pos, 5
  {
    match And(ts, pos, vars)
    case No(e) => No(e)
    case Yes(left, next) => OrTail(ts, next, left, vars)
  }

  function OrTail(ts: seq<Token>, pos: nat, left: bool, vars: map<string, real>): (r: Parse<bool>)
    requires Terminated(ts) && pos < |ts|
    ensures r.Yes? ==> pos <= r.next < |ts|
    decreases |ts| - pos, 4
  {
    if ts[pos].kind != OR then Yes(left, pos)
    else
      match And(ts, pos + 1, vars)
      case No(e) => No(e)
      case Yes(right, next) => OrTail(ts, next, left || right, vars)
  }

  function And(ts: seq<Token>, pos: nat, vars: map<string, real>): (r: Parse<bool>)
    requires Terminated(ts) && pos < |ts|
    ensures Within(r, pos, ts)
    decreases |ts| - pos, 3
  {
    match Not(ts, pos, vars)
    case No(e) => No(e)
    case Yes(left, next) => AndTail(ts, next, left, vars)
  }

  function AndTail(ts: seq<Token>, pos: nat, left: bool, vars: map<string, real>): (r: Parse<bool>)
    requires Terminated(ts) && pos < |ts|
    ensures r.Yes? ==> pos <= r.next < |ts|
    decreases |ts| - pos, 2
  {
    if ts[pos].kind != AND then Yes(left, pos)
    else
      match Not(ts, pos + 1, vars)
      case No(e) => No(e)
      case Yes(right, next) => AndTail(ts, next, left && right, vars)
  }

  function Not(ts: seq<Token>, pos: nat, vars: map<string, real>): (r: Parse<bool>)
    requires Terminated(ts) && pos < |ts|
    ensures Within(r, pos, ts)
    decreases |ts| - pos, 1
  {
    if ts[pos].kind == NOT then
      match Not(ts, pos + 1, vars)
      case No(e) => No(e)
      case Yes(v, next) => Yes(!v, next)
    else
      match Value(ts, pos, vars)
      case No(e) => No(e)
      case Yes(left, next) =>
        var op := ts[next].kind;
        if !IsComparison(op) then Yes(left != 0.0, next)
        else
          match Value(ts, next + 1, vars)
          case No(e) => No(e)
          case Yes(right, end) => Yes(Compare(op, left, right), end)
  }

  function Value(ts: seq<Token>, pos: nat, vars: map<string, real>): (r: Parse<real>)
    requires Terminated(ts) && pos < |ts|
    ensures Within(r, pos, ts)
    decreases |ts| - pos, 0
  {
    var tok := ts[pos];
    match tok.kind
    case NUMBER => (match NumberOf(tok.text) case Ok(v) => Yes(v, pos + 1) case Err(e) => No(e))
    case IDENT => (match Lookup(vars, tok.text) case Ok(v) => Yes(v, pos + 1) case Err(e) => No(e))
    case LPAREN =>
      (match Or(ts, pos + 1, vars)
       case No(e) => No(e)
       case Yes(v, next) =>
         if ts[next].kind != RPAREN then No(UnexpectedToken(ts[next]))
         else Yes(if v then 1.0 else 0.0, next + 1))
    case _ => No(UnexpectedToken(tok))
  }

  function Evaluate(ts: seq<Token>, vars: map<string, real>): Result<bool>
    requires Terminated(ts)
  {
    match Or(ts, 0, vars)
    case No(e) => Err(e)
    case Yes(v, next) => if ts[next].kind != EOF then Err(UnexpectedToken(ts[next])) else Ok(v)
  }

  predicate IsBlank(s: string) {
    forall i :: 0 <= i < |s| ==> IsSpace(s[i])
  }

  function EvaluateText(expr: string, vars: map<string, real>): Result<bool> {
    if IsBlank(expr) then Err(EmptyExpression)
    else if |expr| > MAX_LENGTH then Err(TooLong)
    else
      match Lex(expr)
      case Err(e) => Err(e)
      case Ok(ts) => LexTerminates(expr); Evaluate(ts, vars)
  }

  lemma LexTerminates(s: string)
    ensures Lex(s).Ok? ==> Terminated(Lex(s).value)
  {
    LexKeepsText(s);
    if Lex(s).Ok? {
      var ts := Lex(s).value;
      assert forall i :: 0 <= i < |ts| - 1 ==> ts[i] == ts[..|ts| - 1][i];
    }
  }

  // ----- Syntax trees ----------------------------------------------------------------------------

  datatype OrTree = OneAnd(a: AndTree) | MoreOr(l: OrTree, r: AndTree)
  datatype AndTree = OneNot(n: NotTree) | MoreAnd(left: AndTree, right: NotTree)
  datatype NotTree = Negated(n: NotTree) | Plain(v: ValueTree) | Comparison(vl: ValueTree, op: Kind, vr: ValueTree)
  datatype ValueTree = Number(text: string) | Variable(name: string) | Paren(e: OrTree)

  function PrintOr(e: OrTree): seq<Token> {
    match e
    case OneAnd(a) => PrintAnd(a)
    case MoreOr(l, r) => PrintOr(l) + [Token(OR, "||")] + PrintAnd(r)
  }

  function PrintAnd(e: AndTree): seq<Token> {
    match e
    case OneNot(n) => PrintNot(n)
    case MoreAnd(l, r) => PrintAnd(l) + [Token(AND, "&&")] + PrintNot(r)
  }

  function PrintNot(e: NotTree): seq<Token> {
    match e
    case Negated(n) => [Token(NOT, "!")] + PrintNot(n)
    case Plain(v) => PrintValue(v)
    case Comparison(l, op, r) => PrintValue(l) + [Token(op, Spelling(op))] + PrintValue(r)
  }

  function PrintValue(e: ValueTree): seq<Token> {
    match e
    case Number(text) => [Token(NUMBER, text)]
    case Variable(name) => [Token(IDENT, name)]
    case Paren(o) => [Token(LPAREN, "(")] + PrintOr(o) + [Token(RPAREN, ")")]
  }

  /** Both sides are always evaluated, left to right; the first error wins. */
  function Strict<A, B, C>(l: Result<A>, r: Result<B>, f: (A, B) -> C): Result<C> {
    match l
    case Err(e) => Err(e)
    case Ok(a) => match r case Err(e) => Err(e) case Ok(b) => Ok(f(a, b))
  }

  function MeaningOr(e: OrTree, vars: map<string, real>): Result<bool> {
    match e
    case OneAnd(a) => MeaningAnd(a, vars)
    case MoreOr(l, r) => Strict(MeaningOr(l, vars), MeaningAnd(r, vars), (a, b) => a || b)
  }

  function MeaningAnd(e: AndTree, vars: map<string, real>): Result<bool> {
    match e
    case OneNot(n) => MeaningNot(n, vars)
    case MoreAnd(l, r) => Strict(MeaningAnd(l, vars), MeaningNot(r, vars), (a, b) => a && b)
  }

  function MeaningNot(e: NotTree, vars: map<string, real>): Result<bool> {
    match e
    case Negated(n) => (match MeaningNot(n, vars) case Ok(b) => Ok(!b) case Err(x) => Err(x))
    case Plain(v) => (match MeaningValue(v, vars) case Ok(x) => Ok(x != 0.0) case Err(x) => Err(x))
    case Comparison(l, op, r) =>
      Strict(MeaningValue(l, vars), MeaningValue(r, vars),
             (a: real, b: real) => if IsComparison(op) then Compare(op, a, b) else false)
  }

  function MeaningValue(e: ValueTree, vars: map<string, real>): Result<real> {
    match e
    case Number(text) => NumberOf(text)
    case Variable(name) => Lookup(vars, name)
    case Paren(o) => (match MeaningOr(o, vars) case Ok(b) => Ok(if b then 1.0 else 0.0) case Err(x) => Err(x))
  }

  /** Comparison nodes hold comparison operators. */
  predicate GoodOr(e: OrTree) {
    match e
    case OneAnd(a) => GoodAnd(a)
    case MoreOr(l, r) => GoodOr(l) && GoodAnd(r)
  }

  predicate GoodAnd(e: AndTree) {
    match e
    case OneNot(n) => GoodNot(n)
    case MoreAnd(l, r) => GoodAnd(l) && GoodNot(r)
  }

  predicate GoodNot(e: NotTree) {
    match e
    case Negated(n) => GoodNot(n)
    case Plain(v) => GoodValue(v)
    case Comparison(l, op, r) => GoodValue(l) && IsComparison(op) && GoodValue(r)
  }

  predicate GoodValue(e: ValueTree) {
    match e
    case Paren(o) => GoodOr(o)
    case _ => true
  }

  // ----- Printed trees parse to their meaning ------------------------------------------------------

  /** The tokens stand at this position, with at least the end mark after them. */
  ghost predicate Stands(ts: seq<Token>, pos: nat, toks: seq<Token>) {
    pos + |toks| < |ts| && ts[pos..pos + |toks|] == toks
  }

  lemma StandsSplit(ts: seq<Token>, pos: nat, a: seq<Token>, b: seq<Token>)
    requires Stands(ts, pos, a + b)
    ensures Stands(ts, pos, a) && Stands(ts, pos + |a|, b)
    ensures b != [] ==> ts[pos + |a|] == b[0]
  {
    assert ts[pos..pos + |a|] == (a + b)[..|a|];
    assert ts[pos + |a|..pos + |a| + |b|] == (a + b)[|a|..];
    if b != [] {
      assert ts[pos + |a|] == ts[pos..pos + |a + b|][|a|];
    }
  }

  lemma StandsWithin(ts: seq<Token>, pos: nat, toks: seq<Token>)
    requires Stands(ts, pos, toks)
    ensures pos + |toks| < |ts|
  {
  }

  lemma StandsThree(ts: seq<Token>, pos: nat, a: seq<Token>, op: Token, b: seq<Token>)
    requires Stands(ts, pos, a + [op] + b)
    ensures Stands(ts, pos, a) && Stands(ts, pos + |a| + 1, b)
    ensures pos + |a| + 1 + |b| < |ts| && ts[pos + |a|] == op
  {
    StandsSplit(ts, pos, a + [op], b);
    StandsSplit(ts, pos, a, [op]);
  }

  lemma {:induction false} ValueOfPrinted(ts: seq<Token>, pos: nat, e: ValueTree, vars: map<string, real>)
    requires Terminated(ts) && GoodValue(e) && Stands(ts, pos, PrintValue(e))
    ensures Value(ts, pos, vars) ==
      match MeaningValue(e, vars) case Ok(v) => Yes(v, pos + |PrintValue(e)|) case Err(x) => No(x)
    decreases e
  {
    assert ts[pos] == ts[pos..pos + |PrintValue(e)|][0];
    match e
    case Number(_) =>
    case Variable(_) =>
    case Paren(o) =>
      var open, close := [Token(LPAREN, "(")], [Token(RPAREN, ")")];
      StandsSplit(ts, pos, open + PrintOr(o), close);
      StandsSplit(ts, pos, open, PrintOr(o));
      OrOfPrinted(ts, pos + 1, o, vars);
  }

  lemma {:induction false} NotOfPrinted(ts: seq<Token>, pos: nat, e: NotTree, vars: map<string, real>)
    requires Terminated(ts) && GoodNot(e) && Stands(ts, pos, PrintNot(e))
    requires !IsComparison(ts[pos + |PrintNot(e)|].kind)
    ensures Not(ts, pos, vars) ==
      match MeaningNot(e, vars) case Ok(v) => Yes(v, pos + |PrintNot(e)|) case Err(x) => No(x)
    decreases e, 1
  {
    hide Value, MeaningValue, GoodValue, PrintValue, Stands;
    match e
    case Negated(n) =>
      assert PrintNot(e) == [] + [Token(NOT, "!")] + PrintNot(n);
      StandsThree(ts, pos, [], Token(NOT, "!"), PrintNot(n));
      NotOfPrinted(ts, pos + 1, n, vars);
    case Plain(v) =>
      ValueStarts(ts, pos, v);
      ValueOfPrinted(ts, pos, v, vars);
    case Comparison(l, op, r) =>
      ComparisonOfPrinted(ts, pos, l, op, r, vars);
  }

  lemma {:induction false} ComparisonOfPrinted(
      ts: seq<Token>, pos: nat, l: ValueTree, op: Kind, r: ValueTree, vars: map<string, real>)
    requires Terminated(ts) && GoodValue(l) && GoodValue(r) && IsComparison(op)
    requires Stands(ts, pos, PrintNot(Comparison(l, op, r)))
    ensures Not(ts, pos, vars) ==
      match MeaningNot(Comparison(l, op, r), vars)
      case Ok(v) => Yes(v, pos + |PrintNot(Comparison(l, op, r))|)
      case Err(x) => No(x)
    decreases Comparison(l, op, r), 0
  {
    hide Value, MeaningValue, GoodValue, PrintValue, Stands;
    StandsThree(ts, pos, PrintValue(l), Token(op, Spelling(op)), PrintValue(r));
    ValueStarts(ts, pos, l);
    ValueOfPrinted(ts, pos, l, vars);
    ValueOfPrinted(ts, pos + |PrintValue(l)| + 1, r, vars);
  }

  lemma AndTailStops(ts: seq<Token>, pos: nat, v: bool, vars: map<string, real>)
    requires Terminated(ts) && pos < |ts| && ts[pos].kind != AND
    ensures AndTail(ts, pos, v, vars) == Yes(v, pos)
  {
  }

  lemma ValueStarts(ts: seq<Token>, pos: nat, e: ValueTree)
    requires Stands(ts, pos, PrintValue(e))
    ensures pos + |PrintValue(e)| < |ts| && ts[pos].kind in {NUMBER, IDENT, LPAREN}
  {
    assert ts[pos] == ts[pos..pos + |PrintValue(e)|][0];
  }

  lemma {:induction false} AndOfPrinted(ts: seq<Token>, pos: nat, e: AndTree, vars: map<string, real>)
    requires Terminated(ts) && GoodAnd(e) && Stands(ts, pos, PrintAnd(e))
    requires !IsComparison(ts[pos + |PrintAnd(e)|].kind)
    ensures And(ts, pos, vars) ==
      match MeaningAnd(e, vars) case Ok(v) => AndTail(ts, pos + |PrintAnd(e)|, v, vars) case Err(x) => No(x)
    decreases e
  {
    hide Not, MeaningNot, GoodNot, PrintNot, Stands;
    match e
    case OneNot(n) => NotOfPrinted(ts, pos, n, vars);
    case MoreAnd(l, r) =>
      StandsThree(ts, pos, PrintAnd(l), Token(AND, "&&"), PrintNot(r));
      AndOfPrinted(ts, pos, l, vars);
      NotOfPrinted(ts, pos + |PrintAnd(l)| + 1, r, vars);
  }

  lemma {:induction false} OrOfPrintedTail(ts: seq<Token>, pos: nat, e: OrTree, vars: map<string, real>)
    requires Terminated(ts) && GoodOr(e) && Stands(ts, pos, PrintOr(e))
    requires !IsComparison(ts[pos + |PrintOr(e)|].kind) && ts[pos + |PrintOr(e)|].kind != AND
    ensures Or(ts, pos, vars) ==
      match MeaningOr(e, vars) case Ok(v) => OrTail(ts, pos + |PrintOr(e)|, v, vars) case Err(x) => No(x)
    decreases e, 0
  {
    hide And, AndTail, MeaningAnd, GoodAnd, PrintAnd, Stands;
    match e
    case OneAnd(a) =>
      StandsWithin(ts, pos, PrintAnd(a));
      AndOfPrinted(ts, pos, a, vars);
      if MeaningAnd(a, vars).Ok? {
        AndTailStops(ts, pos + |PrintOr(e)|, MeaningAnd(a, vars).value, vars);
      }
    case MoreOr(l, r) =>
      StandsThree(ts, pos, PrintOr(l), Token(OR, "||"), PrintAnd(r));
      OrOfPrintedTail(ts, pos, l, vars);
      AndOfPrinted(ts, pos + |PrintOr(l)| + 1, r, vars);
      if MeaningAnd(r, vars).Ok? {
        AndTailStops(ts, pos + |PrintOr(e)|, MeaningAnd(r, vars).value, vars);
      }
  }

  lemma OrOfPrinted(ts: seq<Token>, pos: nat, e: OrTree, vars: map<string, real>)
    requires Terminated(ts) && GoodOr(e) && Stands(ts, pos, PrintOr(e))
    requires ts[pos + |PrintOr(e)|].kind in {EOF, RPAREN}
    ensures Or(ts, pos, vars) ==
      match MeaningOr(e, vars) case Ok(v) => Yes(v, pos + |PrintOr(e)|) case Err(x) => No(x)
    decreases e, 1
  {
    OrOfPrintedTail(ts, pos, e, vars);
  }

  // ----- Every successful parse is a printed tree -----------------------------------------------------

  /** Two stretches around one token. */
  lemma StandsAround(ts: seq<Token>, pos: nat, a: seq<Token>, op: Token, b: seq<Token>)
    requires Stands(ts, pos, a) && Stands(ts, pos + |a| + 1, b) && ts[pos + |a|] == op
    ensures Stands(ts, pos, a + [op] + b)
  {
    var mid, end := pos + |a|, pos + |a| + 1 + |b|;
    assert ts[pos..end] == ts[pos..mid] + [ts[mid]] + ts[mid + 1..end];
  }

  lemma StandsOne(ts: seq<Token>, pos: nat)
    requires pos + 1 < |ts|
    ensures Stands(ts, pos, [ts[pos]])
  {
  }

  lemma StandsNone(ts: seq<Token>, pos: nat)
    requires pos < |ts|
    ensures Stands(ts, pos, [])
  {
  }

  ghost predicate CanonicalSpelling(ts: seq<Token>) {
    forall i :: 0 <= i < |ts| && ts[i].kind !in {NUMBER, IDENT} ==> ts[i].text == Spelling(ts[i].kind)
  }

  lemma CanonicalToken(ts: seq<Token>, i: nat)
    requires CanonicalSpelling(ts) && i < |ts| && ts[i].kind !in {NUMBER, IDENT}
    ensures ts[i] == Token(ts[i].kind, Spelling(ts[i].kind))
  {
  }

  lemma ParenStands(ts: seq<Token>, pos: nat, o: OrTree)
    requires CanonicalSpelling(ts) && pos < |ts| && ts[pos].kind == LPAREN && Stands(ts, pos + 1, PrintOr(o))
    requires pos + |PrintOr(o)| + 2 < |ts| && ts[pos + 1 + |PrintOr(o)|].kind == RPAREN
    ensures Stands(ts, pos, PrintValue(Paren(o)))
  {
    hide Stands, PrintOr;
    var toks, open, close := PrintOr(o), ts[pos], ts[pos + 1 + |PrintOr(o)|];
    CanonicalToken(ts, pos);
    CanonicalToken(ts, pos + 1 + |toks|);
    StandsNone(ts, pos);
    StandsAround(ts, pos, [], open, toks);
    assert [] + [open] + toks == [open] + toks;
    StandsNone(ts, pos + 2 + |toks|);
    StandsAround(ts, pos, [open] + toks, close, []);
    assert [open] + toks + [close] + [] == [open] + toks + [close];
  }

  lemma {:induction false} ValueHasTree(ts: seq<Token>, pos: nat, vars: map<string, real>) returns (e: ValueTree)
    requires Terminated(ts) && CanonicalSpelling(ts) && pos < |ts| && Value(ts, pos, vars).Yes?
    ensures GoodValue(e) && Stands(ts, pos, PrintValue(e)) && Value(ts, pos, vars).next == pos + |PrintValue(e)|
    ensures MeaningValue(e, vars) == Ok(Value(ts, pos, vars).value)
    decreases |ts| - pos, 0
  {
    hide Or, MeaningOr, GoodOr, PrintOr, NumberOf, Lookup, Stands, CanonicalSpelling;
    var tok := ts[pos];
    match tok.kind
    case NUMBER =>
      e := Number(tok.text);
      StandsOne(ts, pos);
    case IDENT =>
      e := Variable(tok.text);
      StandsOne(ts, pos);
    case LPAREN =>
      var o := OrHasTree(ts, pos + 1, vars);
      e := Paren(o);
      ParenStands(ts, pos, o);
  }

  lemma {:induction false} NotHasTree(ts: seq<Token>, pos: nat, vars: map<string, real>) returns (e: NotTree)
    requires Terminated(ts) && CanonicalSpelling(ts) && pos < |ts| && Not(ts, pos, vars).Yes?
    ensures GoodNot(e) && Stands(ts, pos, PrintNot(e)) && Not(ts, pos, vars).next == pos + |PrintNot(e)|
    ensures MeaningNot(e, vars) == Ok(Not(ts, pos, vars).value)
    decreases |ts| - pos, 1
  {
    hide Value, MeaningValue, GoodValue, PrintValue, Stands, CanonicalSpelling;
    if ts[pos].kind == NOT {
      var n := NotHasTree(ts, pos + 1, vars);
      e := Negated(n);
      CanonicalToken(ts, pos);
      StandsNone(ts, pos);
      StandsAround(ts, pos, [], ts[pos], PrintNot(n));
      assert [] + [ts[pos]] + PrintNot(n) == [ts[pos]] + PrintNot(n);
    } else {
      var l := ValueHasTree(ts, pos, vars);
      var next := Value(ts, pos, vars).next;
      if IsComparison(ts[next].kind) {
        var r := ValueHasTree(ts, next + 1, vars);
        e := Comparison(l, ts[next].kind, r);
        CanonicalToken(ts, next);
        StandsAround(ts, pos, PrintValue(l), ts[next], PrintValue(r));
      } else {
        e := Plain(l);
      }
    }
  }

  lemma {:induction false} AndTailHasTree(ts: seq<Token>, start: nat, pos: nat, left: AndTree, v: bool, vars: map<string, real>)
    returns (e: AndTree)
    requires Terminated(ts) && CanonicalSpelling(ts) && pos < |ts| && AndTail(ts, pos, v, vars).Yes?
    requires GoodAnd(left) && Stands(ts, start, PrintAnd(left)) && pos == start + |PrintAnd(left)|
    requires MeaningAnd(left, vars) == Ok(v)
    ensures GoodAnd(e) && Stands(ts, start, PrintAnd(e)) && AndTail(ts, pos, v, vars).next == start + |PrintAnd(e)|
    ensures MeaningAnd(e, vars) == Ok(AndTail(ts, pos, v, vars).value)
    decreases |ts| - pos, 2
  {
    hide Not, MeaningNot, GoodNot, PrintNot, Stands, CanonicalSpelling;
    if ts[pos].kind != AND { return left; }
    var r := NotHasTree(ts, pos + 1, vars);
    CanonicalToken(ts, pos);
    StandsAround(ts, start, PrintAnd(left), ts[pos], PrintNot(r));
    var step := Not(ts, pos + 1, vars);
    e := AndTailHasTree(ts, start, step.next, MoreAnd(left, r), v && step.value, vars);
  }

  lemma {:induction false} AndHasTree(ts: seq<Token>, pos: nat, vars: map<string, real>) returns (e: AndTree)
    requires Terminated(ts) && CanonicalSpelling(ts) && pos < |ts| && And(ts, pos, vars).Yes?
    ensures GoodAnd(e) && Stands(ts, pos, PrintAnd(e)) && And(ts, pos, vars).next == pos + |PrintAnd(e)|
    ensures MeaningAnd(e, vars) == Ok(And(ts, pos, vars).value)
    decreases |ts| - pos, 3
  {
    var n := NotHasTree(ts, pos, vars);
    var step := Not(ts, pos, vars);
    e := AndTailHasTree(ts, pos, step.next, OneNot(n), step.value, vars);
  }

  lemma {:induction false} OrTailHasTree(ts: seq<Token>, start: nat, pos: nat, left: OrTree, v: bool, vars: map<string, real>)
    returns (e: OrTree)
    requires Terminated(ts) && CanonicalSpelling(ts) && pos < |ts| && OrTail(ts, pos, v, vars).Yes?
    requires GoodOr(left) && Stands(ts, start, PrintOr(left)) && pos == start + |PrintOr(left)|
    requires MeaningOr(left, vars) == Ok(v)
    ensures GoodOr(e) && Stands(ts, start, PrintOr(e)) && OrTail(ts, pos, v, vars).next == start + |PrintOr(e)|
    ensures MeaningOr(e, vars) == Ok(OrTail(ts, pos, v, vars).value)
    decreases |ts| - pos, 4
  {
    hide And, MeaningAnd, GoodAnd, PrintAnd, Stands, CanonicalSpelling;
    if ts[pos].kind != OR { return left; }
    var r := AndHasTree(ts, pos + 1, vars);
    CanonicalToken(ts, pos);
    StandsAround(ts, start, PrintOr(left), ts[pos], PrintAnd(r));
    var step := And(ts, pos + 1, vars);
    e := OrTailHasTree(ts, start, step.next, MoreOr(left, r), v || step.value, vars);
  }

  lemma {:induction false} OrHasTree(ts: seq<Token>, pos: nat, vars: map<string, real>) returns (e: OrTree)
    requires Terminated(ts) && CanonicalSpelling(ts) && pos < |ts| && Or(ts, pos, vars).Yes?
    ensures GoodOr(e) && Stands(ts, pos, PrintOr(e)) && Or(ts, pos, vars).next == pos + |PrintOr(e)|
    ensures MeaningOr(e, vars) == Ok(Or(ts, pos, vars).value)
    decreases |ts| - pos, 5
  {
    var a := AndHasTree(ts, pos, vars);
    var step := And(ts, pos, vars);
    e := OrTailHasTree(ts, pos, step.next, OneAnd(a), step.value, vars);
  }

  /**
   * A token list evaluates to a truth value exactly when it is the printed form of a syntax tree
   * with that meaning; the grammar has no other derivation for it to disagree with.
   */
  lemma EvaluatesIffDerived(ts: seq<Token>, vars: map<string, real>, v: bool)
    requires Terminated(ts) && CanonicalSpelling(ts)
    ensures Evaluate(ts, vars) == Ok(v) <==>
      exists e :: GoodOr(e) && PrintOr(e) + [END] == ts && MeaningOr(e, vars) == Ok(v)
  {
    if Evaluate(ts, vars) == Ok(v) {
      var e := OrHasTree(ts, 0, vars);
      assert ts == ts[0..|PrintOr(e)|] + [ts[|PrintOr(e)|]];
      assert PrintOr(e) + [END] == ts;
    }
    forall e | GoodOr(e) && PrintOr(e) + [END] == ts && MeaningOr(e, vars) == Ok(v)
      ensures Evaluate(ts, vars) == Ok(v)
    {
      assert ts[0..|PrintOr(e)|] == PrintOr(e);
      OrOfPrinted(ts, 0, e, vars);
    }
  }

  /** The tree is a reading of the text. */
  ghost predicate Reads(expr: string, e: OrTree) {
    GoodOr(e) && Lex(expr) == Ok(PrintOr(e) + [END])
  }

  /** A text has a truth value exactly when it is short enough and some reading of it has that value. */
  lemma EvaluatesIffRead(expr: string, vars: map<string, real>, v: bool)
    ensures EvaluateText(expr, vars) == Ok(v) <==>
      |expr| <= MAX_LENGTH && exists e :: Reads(expr, e) && MeaningOr(e, vars) == Ok(v)
  {
    LexTerminates(expr);
    LexIsCanonical(expr);
    if Lex(expr).Ok? {
      EvaluatesIffDerived(Lex(expr).value, vars, v);
      assert forall e :: Reads(expr, e) <==> GoodOr(e) && PrintOr(e) + [END] == Lex(expr).value;
    }
    if IsBlank(expr) {
      BlankHasNoReading(expr);
    }
  }

  // ----- The grammar is unambiguous --------------------------------------------------------------------

  /** The operands of a chain, from left to right. */
  function Nots(e: AndTree): (ns: seq<NotTree>)
    ensures ns != []
  {
    match e
    case OneNot(n) => [n]
    case MoreAnd(l, r) => Nots(l) + [r]
  }

  function Ands(e: OrTree): (ns: seq<AndTree>)
    ensures ns != []
  {
    match e
    case OneAnd(a) => [a]
    case MoreOr(l, r) => Ands(l) + [r]
  }

  function PrintNots(ns: seq<NotTree>): seq<Token>
    requires ns != []
  {
    if |ns| == 1 then PrintNot(ns[0]) else PrintNot(ns[0]) + [Token(AND, "&&")] + PrintNots(ns[1..])
  }

  function PrintAnds(ns: seq<AndTree>): seq<Token>
    requires ns != []
  {
    if |ns| == 1 then PrintAnd(ns[0]) else PrintAnd(ns[0]) + [Token(OR, "||")] + PrintAnds(ns[1..])
  }

  lemma {:induction false} PrintNotsLast(ns: seq<NotTree>, n: NotTree)
    requires ns != []
    ensures PrintNots(ns + [n]) == PrintNots(ns) + [Token(AND, "&&")] + PrintNot(n)
  {
    hide PrintNot;
    if |ns| == 1 {
      assert (ns + [n])[1..] == [n];
    } else {
      assert (ns + [n])[1..] == ns[1..] + [n];
      PrintNotsLast(ns[1..], n);
    }
  }

  lemma {:induction false} PrintAndsLast(ns: seq<AndTree>, n: AndTree)
    requires ns != []
    ensures PrintAnds(ns + [n]) == PrintAnds(ns) + [Token(OR, "||")] + PrintAnd(n)
  {
    hide PrintAnd;
    if |ns| == 1 {
      assert (ns + [n])[1..] == [n];
    } else {
      assert (ns + [n])[1..] == ns[1..] + [n];
      PrintAndsLast(ns[1..], n);
    }
  }

  ghost predicate AllGoodNots(ns: seq<NotTree>) {
    forall n :: n in ns ==> GoodNot(n)
  }

  ghost predicate AllGoodAnds(ns: seq<AndTree>) {
    forall n :: n in ns ==> GoodAnd(n)
  }

  lemma {:induction false} AndAsChain(e: AndTree)
    ensures PrintAnd(e) == PrintNots(Nots(e)) && (GoodAnd(e) ==> AllGoodNots(Nots(e)))
  {
    match e
    case OneNot(_) =>
    case MoreAnd(l, r) =>
      AndAsChain(l);
      PrintNotsLast(Nots(l), r);
  }

  lemma {:induction false} OrAsChain(e: OrTree)
    ensures PrintOr(e) == PrintAnds(Ands(e)) && (GoodOr(e) ==> AllGoodAnds(Ands(e)))
  {
    match e
    case OneAnd(_) =>
    case MoreOr(l, r) =>
      OrAsChain(l);
      PrintAndsLast(Ands(l), r);
  }

  /** A tree is determined by its chain. */
  lemma {:induction false} SameNots(e1: AndTree, e2: AndTree)
    requires Nots(e1) == Nots(e2)
    ensures e1 == e2
  {
    match e1
    case OneNot(_) =>
    case MoreAnd(l, r) =>
      assert e2.MoreAnd?;
      assert Nots(e1)[..|Nots(l)|] == Nots(l) && Nots(e2)[..|Nots(e2.left)|] == Nots(e2.left);
      SameNots(l, e2.left);
  }

  lemma {:induction false} SameAnds(e1: OrTree, e2: OrTree)
    requires Ands(e1) == Ands(e2)
    ensures e1 == e2
  {
    match e1
    case OneAnd(_) =>
    case MoreOr(l, r) =>
      assert e2.MoreOr?;
      assert Ands(e1)[..|Ands(l)|] == Ands(l) && Ands(e2)[..|Ands(e2.l)|] == Ands(e2.l);
      SameAnds(l, e2.l);
  }

  lemma {:induction false} ValueUnique(ts: seq<Token>, pos: nat, e1: ValueTree, e2: ValueTree)
    requires GoodValue(e1) && GoodValue(e2) && Stands(ts, pos, PrintValue(e1)) && Stands(ts, pos, PrintValue(e2))
    ensures e1 == e2
    decreases |ts| - pos, 0
  {
    assert ts[pos] == ts[pos..pos + |PrintValue(e1)|][0] == PrintValue(e1)[0];
    assert ts[pos] == ts[pos..pos + |PrintValue(e2)|][0] == PrintValue(e2)[0];
    if e1.Paren? {
      assert e2.Paren?;
      var open, close := [Token(LPAREN, "(")], [Token(RPAREN, ")")];
      StandsSplit(ts, pos, open + PrintOr(e1.e), close);
      StandsSplit(ts, pos, open, PrintOr(e1.e));
      StandsSplit(ts, pos, open + PrintOr(e2.e), close);
      StandsSplit(ts, pos, open, PrintOr(e2.e));
      OrUnique(ts, pos + 1, e1.e, e2.e);
    }
  }

  lemma {:induction false} NotUnique(ts: seq<Token>, pos: nat, e1: NotTree, e2: NotTree)
    requires GoodNot(e1) && GoodNot(e2) && Stands(ts, pos, PrintNot(e1)) && Stands(ts, pos, PrintNot(e2))
    requires !IsComparison(ts[pos + |PrintNot(e1)|].kind) && !IsComparison(ts[pos + |PrintNot(e2)|].kind)
    ensures e1 == e2
    decreases |ts| - pos, 2
  {
    hide GoodNot, PrintNot, PrintValue, Stands;
    NotStarts(ts, pos, e1);
    NotStarts(ts, pos, e2);
    if e1.Negated? {
      NegatedSplit(ts, pos, e1);
      NegatedSplit(ts, pos, e2);
      NotUnique(ts, pos + 1, e1.n, e2.n);
    } else {
      ValueUnique(ts, pos, Left(e1), Left(e2));
      PlainPrint(e1);
      PlainPrint(e2);
      if e1.Comparison? {
        ComparisonUnique(ts, pos, e1, e2);
      }
    }
  }

  lemma PlainPrint(e: NotTree)
    ensures e.Plain? ==> PrintNot(e) == PrintValue(e.v)
  {
  }

  lemma NegatedSplit(ts: seq<Token>, pos: nat, e: NotTree)
    requires e.Negated? && GoodNot(e) && Stands(ts, pos, PrintNot(e))
    ensures GoodNot(e.n) && Stands(ts, pos + 1, PrintNot(e.n)) && |PrintNot(e)| == 1 + |PrintNot(e.n)|
  {
    hide Stands;
    assert PrintNot(e) == [] + [Token(NOT, "!")] + PrintNot(e.n);
    StandsThree(ts, pos, [], Token(NOT, "!"), PrintNot(e.n));
  }

  lemma {:induction false} ComparisonUnique(ts: seq<Token>, pos: nat, e1: NotTree, e2: NotTree)
    requires e1.Comparison? && e2.Comparison? && e1.vl == e2.vl && GoodNot(e1) && GoodNot(e2)
    requires Stands(ts, pos, PrintNot(e1)) && Stands(ts, pos, PrintNot(e2))
    ensures e1 == e2
    decreases |ts| - pos, 1
  {
    hide Stands, PrintValue, GoodValue;
    StandsThree(ts, pos, PrintValue(e1.vl), Token(e1.op, Spelling(e1.op)), PrintValue(e1.vr));
    StandsThree(ts, pos, PrintValue(e2.vl), Token(e2.op, Spelling(e2.op)), PrintValue(e2.vr));
    ValueUnique(ts, pos + |PrintValue(e1.vl)| + 1, e1.vr, e2.vr);
  }

  function Left(e: NotTree): ValueTree
    requires !e.Negated?
  {
    if e.Plain? then e.v else e.vl
  }

  /** A negation starts with its sign, anything else with its left value; an operator follows in a comparison. */
  lemma NotStarts(ts: seq<Token>, pos: nat, e: NotTree)
    requires GoodNot(e) && Stands(ts, pos, PrintNot(e))
    ensures pos + |PrintNot(e)| < |ts| && (ts[pos].kind == NOT <==> e.Negated?)
    ensures !e.Negated? ==> Stands(ts, pos, PrintValue(Left(e))) && GoodValue(Left(e)) && pos + |PrintValue(Left(e))| < |ts|
    ensures e.Comparison? ==> IsComparison(ts[pos + |PrintValue(e.vl)|].kind)
  {
    match e
    case Negated(n) => assert ts[pos] == ts[pos..pos + |PrintNot(e)|][0];
    case Plain(v) => ValueStarts(ts, pos, v);
    case Comparison(l, op, r) =>
      StandsThree(ts, pos, PrintValue(l), Token(op, Spelling(op)), PrintValue(r));
      ValueStarts(ts, pos, l);
  }

  /** The first operand of a chain, and what follows it. */
  lemma NotsSplit(ts: seq<Token>, pos: nat, ns: seq<NotTree>)
    requires ns != [] && Stands(ts, pos, PrintNots(ns))
    ensures pos + |PrintNots(ns)| < |ts| && Stands(ts, pos, PrintNot(ns[0])) && pos + |PrintNot(ns[0])| < |ts|
    ensures |ns| == 1 ==> |PrintNots(ns)| == |PrintNot(ns[0])|
    ensures |ns| > 1 ==>
      && ts[pos + |PrintNot(ns[0])|].kind == AND
      && Stands(ts, pos + |PrintNot(ns[0])| + 1, PrintNots(ns[1..]))
      && |PrintNots(ns)| == |PrintNot(ns[0])| + 1 + |PrintNots(ns[1..])|
  {
    if |ns| > 1 {
      StandsThree(ts, pos, PrintNot(ns[0]), Token(AND, "&&"), PrintNots(ns[1..]));
    }
  }

  lemma AndsSplit(ts: seq<Token>, pos: nat, ns: seq<AndTree>)
    requires ns != [] && Stands(ts, pos, PrintAnds(ns))
    ensures pos + |PrintAnds(ns)| < |ts| && Stands(ts, pos, PrintAnd(ns[0])) && pos + |PrintAnd(ns[0])| < |ts|
    ensures |ns| == 1 ==> |PrintAnds(ns)| == |PrintAnd(ns[0])|
    ensures |ns| > 1 ==>
      && ts[pos + |PrintAnd(ns[0])|].kind == OR
      && Stands(ts, pos + |PrintAnd(ns[0])| + 1, PrintAnds(ns[1..]))
      && |PrintAnds(ns)| == |PrintAnd(ns[0])| + 1 + |PrintAnds(ns[1..])|
  {
    if |ns| > 1 {
      StandsThree(ts, pos, PrintAnd(ns[0]), Token(OR, "||"), PrintAnds(ns[1..]));
    }
  }

  lemma {:induction false} NotsUnique(ts: seq<Token>, pos: nat, x: seq<NotTree>, y: seq<NotTree>)
    requires x != [] && y != [] && AllGoodNots(x) && AllGoodNots(y)
    requires Stands(ts, pos, PrintNots(x)) && Stands(ts, pos, PrintNots(y))
    requires ts[pos + |PrintNots(x)|].kind in {OR, EOF, RPAREN} && ts[pos + |PrintNots(y)|].kind in {OR, EOF, RPAREN}
    ensures x == y
    decreases |ts| - pos, 3
  {
    hide Stands, PrintNot, PrintNots, GoodNot;
    NotsSplit(ts, pos, x);
    NotsSplit(ts, pos, y);
    NotUnique(ts, pos, x[0], y[0]);
    if |x| > 1 && |y| > 1 {
      NotsUnique(ts, pos + |PrintNot(x[0])| + 1, x[1..], y[1..]);
      assert x == [x[0]] + x[1..] && y == [y[0]] + y[1..];
    }
  }

  lemma {:induction false} AndUnique(ts: seq<Token>, pos: nat, e1: AndTree, e2: AndTree)
    requires GoodAnd(e1) && GoodAnd(e2) && Stands(ts, pos, PrintAnd(e1)) && Stands(ts, pos, PrintAnd(e2))
    requires ts[pos + |PrintAnd(e1)|].kind in {OR, EOF, RPAREN} && ts[pos + |PrintAnd(e2)|].kind in {OR, EOF, RPAREN}
    ensures e1 == e2
    decreases |ts| - pos, 4
  {
    hide Stands, PrintAnd, PrintNots;
    AndAsChain(e1);
    AndAsChain(e2);
    NotsUnique(ts, pos, Nots(e1), Nots(e2));
    SameNots(e1, e2);
  }

  lemma {:induction false} AndsUnique(ts: seq<Token>, pos: nat, x: seq<AndTree>, y: seq<AndTree>)
    requires x != [] && y != [] && AllGoodAnds(x) && AllGoodAnds(y)
    requires Stands(ts, pos, PrintAnds(x)) && Stands(ts, pos, PrintAnds(y))
    requires ts[pos + |PrintAnds(x)|].kind in {EOF, RPAREN} && ts[pos + |PrintAnds(y)|].kind in {EOF, RPAREN}
    ensures x == y
    decreases |ts| - pos, 5
  {
    hide Stands, PrintAnd, PrintAnds, GoodAnd;
    AndsSplit(ts, pos, x);
    AndsSplit(ts, pos, y);
    AndUnique(ts, pos, x[0], y[0]);
    if |x| > 1 && |y| > 1 {
      AndsUnique(ts, pos + |PrintAnd(x[0])| + 1, x[1..], y[1..]);
      assert x == [x[0]] + x[1..] && y == [y[0]] + y[1..];
    }
  }

  /** At most one tree stands at a place where an expression ends. */
  lemma {:induction false} OrUnique(ts: seq<Token>, pos: nat, e1: OrTree, e2: OrTree)
    requires GoodOr(e1) && GoodOr(e2) && Stands(ts, pos, PrintOr(e1)) && Stands(ts, pos, PrintOr(e2))
    requires ts[pos + |PrintOr(e1)|].kind in {EOF, RPAREN} && ts[pos + |PrintOr(e2)|].kind in {EOF, RPAREN}
    ensures e1 == e2
    decreases |ts| - pos, 6
  {
    hide Stands, PrintOr, PrintAnds;
    OrAsChain(e1);
    OrAsChain(e2);
    AndsUnique(ts, pos, Ands(e1), Ands(e2));
    SameAnds(e1, e2);
  }

  /** The grammar is unambiguous: a text has at most one reading. */
  lemma OneReading(expr: string, e1: OrTree, e2: OrTree)
    requires Reads(expr, e1) && Reads(expr, e2)
    ensures e1 == e2
  {
    var ts := Lex(expr).value;
    assert ts[0..|PrintOr(e1)|] == PrintOr(e1) && ts[0..|PrintOr(e2)|] == PrintOr(e2);
    hide Lex;
    OrUnique(ts, 0, e1, e2);
  }

  lemma LexIsCanonical(s: string)
    ensures Lex(s).Ok? ==> CanonicalSpelling(Lex(s).value)
  {
    hide Lex, WithoutSpaces, Texts, IsWellSpelled;
    LexKeepsText(s);
    if Lex(s).Ok? {
      var ts := Lex(s).value;
      forall i | 0 <= i < |ts| && ts[i].kind !in {NUMBER, IDENT} ensures ts[i].text == Spelling(ts[i].kind) {
        if i < |ts| - 1 {
          assert ts[i] == ts[..|ts| - 1][i];
          WellSpelledIsCanonical(ts[i]);
        }
      }
    }
  }

  lemma WellSpelledIsCanonical(t: Token)
    requires IsWellSpelled(t) && t.kind !in {NUMBER, IDENT}
    ensures t.text == Spelling(t.kind)
  {
  }

  lemma {:induction false} BlankHasNoReading(s: string)
    requires IsBlank(s)
    ensures Lex(s) == Ok([END]) && forall e :: !Reads(s, e)
  {
    if s != "" {
      LexSkipsSpace(s);
      BlankHasNoReading(s[1..]);
    }
    forall e ensures !Reads(s, e) {
      PrintIsNotEmpty(e);
    }
  }

  lemma {:induction false} PrintIsNotEmpty(e: OrTree)
    ensures |PrintOr(e)| > 0
  {
    match e
    case OneAnd(a) => AndPrintIsNotEmpty(a);
    case MoreOr(_, _) =>
  }

  lemma {:induction false} AndPrintIsNotEmpty(e: AndTree)
    ensures |PrintAnd(e)| > 0
  {
    match e
    case OneNot(n) =>
      match n {
        case Negated(_) =>
        case Plain(v) => assert |PrintValue(v)| > 0;
        case Comparison(_, _, _) =>
      }
    case MoreAnd(_, _) =>
  }

  // ----- Conditions as users think of them ----------------------------------------------------------

  /** Expression trees without grouping marks; printing adds the parentheses. */
  datatype Cond =
    | Any(l: Cond, r: Cond)
    | Both(l: Cond, r: Cond)
    | Neg(c: Cond)
    | Test(a: Term, op: Kind, b: Term)
    | Truthy(a: Term)
  datatype Term = Literal(text: string) | Ref(name: string) | AsNumber(c: Cond)

  function Truth(c: Cond, vars: map<string, real>): Result<bool> {
    match c
    case Any(l, r) => Strict(Truth(l, vars), Truth(r, vars), (a, b) => a || b)
    case Both(l, r) => Strict(Truth(l, vars), Truth(r, vars), (a, b) => a && b)
    case Neg(n) => (match Truth(n, vars) case Ok(b) => Ok(!b) case Err(x) => Err(x))
    case Test(a, op, b) =>
      Strict(TermValue(a, vars), TermValue(b, vars), (x: real, y: real) => if IsComparison(op) then Compare(op, x, y) else false)
    case Truthy(a) => (match TermValue(a, vars) case Ok(x) => Ok(x != 0.0) case Err(x) => Err(x))
  }

  function TermValue(t: Term, vars: map<string, real>): Result<real> {
    match t
    case Literal(text) => NumberOf(text)
    case Ref(name) => Lookup(vars, name)
    case AsNumber(c) => (match Truth(c, vars) case Ok(b) => Ok(if b then 1.0 else 0.0) case Err(x) => Err(x))
  }

  /** Names, numbers and operators are ones the lexer knows. */
  predicate Printable(c: Cond) {
    match c
    case Any(l, r) => Printable(l) && Printable(r)
    case Both(l, r) => Printable(l) && Printable(r)
    case Neg(n) => Printable(n)
    case Test(a, op, b) => PrintableTerm(a) && IsComparison(op) && PrintableTerm(b)
    case Truthy(a) => PrintableTerm(a)
  }

  predicate PrintableTerm(t: Term) {
    match t
    case Literal(text) => IsWellSpelled(Token(NUMBER, text))
    case Ref(name) => IsWellSpelled(Token(IDENT, name))
    case AsNumber(c) => Printable(c)
  }

  function Tree(c: Cond): OrTree
    decreases c, 0
  {
    match c
    case Any(l, r) => MoreOr(OneAnd(OneNot(Wrapped(l))), OneNot(Wrapped(r)))
    case Both(l, r) => OneAnd(MoreAnd(OneNot(Wrapped(l)), Wrapped(r)))
    case Neg(n) => OneAnd(OneNot(Negated(Wrapped(n))))
    case Test(a, op, b) => OneAnd(OneNot(Comparison(TermTree(a), op, TermTree(b))))
    case Truthy(a) => OneAnd(OneNot(Plain(TermTree(a))))
  }

  function Wrapped(c: Cond): NotTree
    decreases c, 1
  {
    Plain(Paren(Tree(c)))
  }

  function TermTree(t: Term): ValueTree
    decreases t, 0
  {
    match t
    case Literal(text) => Number(text)
    case Ref(name) => Variable(name)
    case AsNumber(c) => Paren(Tree(c))
  }

  /** Grouping marks do not change a meaning. */
  lemma ParenKeepsMeaning(e: OrTree, vars: map<string, real>)
    requires GoodOr(e) && AllWellSpelled(PrintOr(e))
    ensures MeaningNot(Plain(Paren(e)), vars) == MeaningOr(e, vars) && GoodNot(Plain(Paren(e)))
    ensures AllWellSpelled(PrintNot(Plain(Paren(e)))) && PrintNot(Plain(Paren(e))) != []
  {
    hide MeaningOr, GoodOr, PrintOr;
    assert PrintValue(Paren(e)) == [Token(LPAREN, "(")] + PrintOr(e) + [Token(RPAREN, ")")];
  }

  lemma NegationMeans(n: NotTree, vars: map<string, real>)
    requires GoodNot(n) && AllWellSpelled(PrintNot(n))
    ensures MeaningOr(OneAnd(OneNot(Negated(n))), vars) ==
      match MeaningNot(n, vars) case Ok(b) => Ok(!b) case Err(x) => Err(x)
    ensures GoodOr(OneAnd(OneNot(Negated(n))))
    ensures AllWellSpelled(PrintOr(OneAnd(OneNot(Negated(n))))) && PrintOr(OneAnd(OneNot(Negated(n)))) != []
  {
    var a := OneNot(Negated(n));
    assert PrintOr(OneAnd(a)) == PrintAnd(a) == PrintNot(Negated(n));
    assert MeaningOr(OneAnd(a), vars) == MeaningAnd(a, vars) == MeaningNot(Negated(n), vars);
    assert GoodAnd(a);
  }

  lemma DisjunctionMeans(l: NotTree, r: NotTree, vars: map<string, real>)
    requires GoodNot(l) && GoodNot(r) && AllWellSpelled(PrintNot(l)) && AllWellSpelled(PrintNot(r))
    ensures var e := MoreOr(OneAnd(OneNot(l)), OneNot(r));
      && MeaningOr(e, vars) == Strict(MeaningNot(l, vars), MeaningNot(r, vars), (a, b) => a || b)
      && GoodOr(e) && AllWellSpelled(PrintOr(e)) && PrintOr(e) != []
  {
    hide MeaningNot, GoodNot, PrintNot;
    assert MeaningOr(OneAnd(OneNot(l)), vars) == MeaningAnd(OneNot(l), vars) == MeaningNot(l, vars);
    assert PrintOr(OneAnd(OneNot(l))) == PrintAnd(OneNot(l)) == PrintNot(l);
    assert GoodOr(OneAnd(OneNot(l))) && GoodAnd(OneNot(r)) by { assert GoodAnd(OneNot(l)); }
  }

  lemma ConjunctionMeans(l: NotTree, r: NotTree, vars: map<string, real>)
    requires GoodNot(l) && GoodNot(r) && AllWellSpelled(PrintNot(l)) && AllWellSpelled(PrintNot(r))
    ensures var e := OneAnd(MoreAnd(OneNot(l), r));
      && MeaningOr(e, vars) == Strict(MeaningNot(l, vars), MeaningNot(r, vars), (a, b) => a && b)
      && GoodOr(e) && AllWellSpelled(PrintOr(e)) && PrintOr(e) != []
  {
    hide MeaningNot, GoodNot, PrintNot;
    var a := MoreAnd(OneNot(l), r);
    assert PrintOr(OneAnd(a)) == PrintAnd(a) == PrintAnd(OneNot(l)) + [Token(AND, "&&")] + PrintNot(r);
    assert MeaningAnd(OneNot(l), vars) == MeaningNot(l, vars);
    assert MeaningOr(OneAnd(a), vars) == MeaningAnd(a, vars);
    assert GoodAnd(OneNot(l)) && GoodAnd(a);
  }

  lemma LeafMeans(n: NotTree, vars: map<string, real>)
    requires GoodNot(n) && AllWellSpelled(PrintNot(n))
    ensures MeaningOr(OneAnd(OneNot(n)), vars) == MeaningNot(n, vars) && GoodOr(OneAnd(OneNot(n)))
    ensures AllWellSpelled(PrintOr(OneAnd(OneNot(n)))) && PrintOr(OneAnd(OneNot(n))) == PrintNot(n)
  {
    hide MeaningNot, GoodNot, PrintNot;
    assert MeaningOr(OneAnd(OneNot(n)), vars) == MeaningAnd(OneNot(n), vars);
    assert PrintOr(OneAnd(OneNot(n))) == PrintAnd(OneNot(n));
    assert GoodAnd(OneNot(n));
  }

  /** The tree of a condition means what the condition means. */
  lemma {:induction false} TreeMeansTruth(c: Cond, vars: map<string, real>)
    requires Printable(c)
    ensures MeaningOr(Tree(c), vars) == Truth(c, vars) && GoodOr(Tree(c))
    ensures AllWellSpelled(PrintOr(Tree(c))) && PrintOr(Tree(c)) != []
    decreases c, 1
  {
    hide MeaningOr, GoodOr, PrintOr, AllWellSpelled;
    match c
    case Any(l, r) =>
      WrappedMeansTruth(l, vars);
      WrappedMeansTruth(r, vars);
      DisjunctionMeans(Wrapped(l), Wrapped(r), vars);
    case Both(l, r) =>
      WrappedMeansTruth(l, vars);
      WrappedMeansTruth(r, vars);
      ConjunctionMeans(Wrapped(l), Wrapped(r), vars);
    case Neg(n) =>
      WrappedMeansTruth(n, vars);
      NegationMeans(Wrapped(n), vars);
    case Test(a, op, b) =>
      TestMeans(a, op, b, vars);
      LeafMeans(Comparison(TermTree(a), op, TermTree(b)), vars);
    case Truthy(a) =>
      TermTreeMeansValue(a, vars);
      LeafMeans(Plain(TermTree(a)), vars);
  }

  lemma {:induction false} WrappedMeansTruth(c: Cond, vars: map<string, real>)
    requires Printable(c)
    ensures MeaningNot(Wrapped(c), vars) == Truth(c, vars) && GoodNot(Wrapped(c))
    ensures AllWellSpelled(PrintNot(Wrapped(c)))
    decreases c, 2
  {
    TreeMeansTruth(c, vars);
    ParenKeepsMeaning(Tree(c), vars);
  }

  lemma {:induction false} TestMeans(a: Term, op: Kind, b: Term, vars: map<string, real>)
    requires Printable(Test(a, op, b))
    ensures var n := Comparison(TermTree(a), op, TermTree(b));
      && MeaningNot(n, vars) == Truth(Test(a, op, b), vars) && GoodNot(n)
      && AllWellSpelled(PrintNot(n)) && PrintNot(n) != []
    decreases Test(a, op, b), 0
  {
    hide MeaningValue, GoodValue, PrintValue;
    TermTreeMeansValue(a, vars);
    TermTreeMeansValue(b, vars);
  }

  lemma {:induction false} TermTreeMeansValue(t: Term, vars: map<string, real>)
    requires PrintableTerm(t)
    ensures MeaningValue(TermTree(t), vars) == TermValue(t, vars) && GoodValue(TermTree(t))
    ensures AllWellSpelled(PrintValue(TermTree(t))) && PrintValue(TermTree(t)) != []
    decreases t, 0
  {
    match t
    case Literal(_) =>
    case Ref(_) =>
    case AsNumber(c) => TreeMeansTruth(c, vars);
  }

  function Show(c: Cond): string {
    Join(PrintOr(Tree(c)))
  }

  /** Evaluating the printed text of any condition gives its truth value, or its first error. */
  lemma EvaluateShown(c: Cond, vars: map<string, real>)
    requires Printable(c) && |Show(c)| <= MAX_LENGTH
    ensures EvaluateText(Show(c), vars) == Truth(c, vars)
  {
    TreeMeansTruth(c, vars);
    var toks := PrintOr(Tree(c));
    LexOfJoin(toks);
    var ts := toks + [END];
    LexTerminates(Show(c));
    assert ts[0..|toks|] == toks;
    OrOfPrinted(ts, 0, Tree(c), vars);
    JoinIsNotBlank(toks);
  }

  lemma JoinIsNotBlank(ts: seq<Token>)
    requires ts != [] && AllWellSpelled(ts)
    ensures !IsBlank(Join(ts))
  {
    TokenHasNoSpace(ts[0]);
    assert ts[0].text != "";
    assert Join(ts)[0] == ts[0].text[0];
  }

  // The text of a condition

  lemma {:induction false} JoinSplit(x: seq<Token>, y: seq<Token>)
    requires x != [] && y != []
    ensures Join(x + y) == Join(x) + " " + Join(y)
  {
    var all := x + y;
    if |x| == 1 {
      assert all[0] == x[0] && all[1..] == y;
    } else {
      JoinSplit(x[1..], y);
      assert all[0] == x[0] && all[1..] == x[1..] + y;
      assert Join(all) == x[0].text + " " + (Join(x[1..]) + " " + Join(y));
      assert Join(x) == x[0].text + " " + Join(x[1..]);
    }
  }

  lemma JoinOne(t: Token)
    ensures Join([t]) == t.text
  {
  }

  /** Three parts with an operator in the middle. */
  lemma JoinInfix(x: seq<Token>, op: Token, y: seq<Token>)
    requires x != [] && y != []
    ensures Join(x + [op] + y) == Join(x) + " " + op.text + " " + Join(y)
  {
    hide Join;
    JoinSplit(x + [op], y);
    JoinSplit(x, [op]);
    JoinOne(op);
  }

  lemma GroupText(c: Cond)
    requires Printable(c)
    ensures PrintNot(Wrapped(c)) != [] && Join(PrintNot(Wrapped(c))) == "( " + Show(c) + " )"
  {
    TreeMeansTruth(c, map[]);
    var open, toks, close := Token(LPAREN, "("), PrintOr(Tree(c)), Token(RPAREN, ")");
    assert PrintNot(Wrapped(c)) == PrintValue(Paren(Tree(c))) == [open] + toks + [close];
    hide Join, PrintOr, PrintNot, PrintValue, Tree, Printable;
    JoinAround(open, toks, close);
  }

  lemma JoinAround(open: Token, toks: seq<Token>, close: Token)
    requires toks != []
    ensures Join([open] + toks + [close]) == open.text + " " + Join(toks) + " " + close.text
  {
    hide Join;
    JoinSplit([open] + toks, [close]);
    JoinSplit([open], toks);
    JoinOne(open);
    JoinOne(close);
  }

  function TermText(t: Term): string {
    Join(PrintValue(TermTree(t)))
  }

  function Symbol(op: Kind): string
    requires IsComparison(op)
  {
    if op == GT then ">" else if op == LT then "<" else if op == GTE then ">="
    else if op == LTE then "<=" else if op == EQ then "==" else "!="
  }

  lemma SinglePrint(n: NotTree)
    ensures PrintAnd(OneNot(n)) == PrintNot(n) && PrintOr(OneAnd(OneNot(n))) == PrintNot(n)
  {
    hide PrintNot;
    assert PrintOr(OneAnd(OneNot(n))) == PrintAnd(OneNot(n));
  }

  lemma AnyText(l: Cond, r: Cond)
    requires Printable(l) && Printable(r)
    ensures Show(Any(l, r)) == "( " + Show(l) + " )" + " || " + "( " + Show(r) + " )"
  {
    hide Join, PrintNot, Wrapped, PrintAnd;
    GroupText(l);
    GroupText(r);
    var x, y := PrintNot(Wrapped(l)), PrintNot(Wrapped(r));
    SinglePrint(Wrapped(l));
    SinglePrint(Wrapped(r));
    assert PrintOr(Tree(Any(l, r))) == x + [Token(OR, "||")] + y;
    JoinInfix(x, Token(OR, "||"), y);
  }

  lemma BothText(l: Cond, r: Cond)
    requires Printable(l) && Printable(r)
    ensures Show(Both(l, r)) == "( " + Show(l) + " )" + " && " + "( " + Show(r) + " )"
  {
    GroupText(l);
    GroupText(r);
    var x, y := PrintNot(Wrapped(l)), PrintNot(Wrapped(r));
    var both := MoreAnd(OneNot(Wrapped(l)), Wrapped(r));
    assert PrintAnd(OneNot(Wrapped(l))) == x && PrintOr(OneAnd(both)) == PrintAnd(both) == x + [Token(AND, "&&")] + y;
    hide Join, PrintNot, Wrapped;
    JoinInfix(x, Token(AND, "&&"), y);
  }

  lemma NegText(c: Cond)
    requires Printable(c)
    ensures Show(Neg(c)) == "! " + "( " + Show(c) + " )"
  {
    GroupText(c);
    var x, not := PrintNot(Wrapped(c)), Token(NOT, "!");
    var n := OneNot(Negated(Wrapped(c)));
    assert PrintOr(OneAnd(n)) == PrintAnd(n) == PrintNot(Negated(Wrapped(c))) == [not] + x;
    hide Join, PrintNot, Wrapped;
    JoinSplit([not], x);
    JoinOne(not);
  }

  lemma TestText(a: Term, op: Kind, b: Term)
    requires Printable(Test(a, op, b))
    ensures Show(Test(a, op, b)) == TermText(a) + " " + Symbol(op) + " " + TermText(b)
  {
    TermTreeMeansValue(a, map[]);
    TermTreeMeansValue(b, map[]);
    var x, y, o := PrintValue(TermTree(a)), PrintValue(TermTree(b)), Token(op, Spelling(op));
    var n := Comparison(TermTree(a), op, TermTree(b));
    assert PrintOr(OneAnd(OneNot(n))) == PrintAnd(OneNot(n)) == PrintNot(n) == x + [o] + y;
    assert Spelling(op) == Symbol(op);
    hide Join, PrintValue, TermTree;
    JoinInfix(x, o, y);
  }

  // ----- No short circuit ------------------------------------------------------------------------------

  /** Every variable mentioned is bound and every number is finite, on both sides of every operator. */
  predicate Defined(c: Cond, vars: map<string, real>) {
    match c
    case Any(l, r) => Defined(l, vars) && Defined(r, vars)
    case Both(l, r) => Defined(l, vars) && Defined(r, vars)
    case Neg(n) => Defined(n, vars)
    case Test(a, _, b) => DefinedTerm(a, vars) && DefinedTerm(b, vars)
    case Truthy(a) => DefinedTerm(a, vars)
  }

  predicate DefinedTerm(t: Term, vars: map<string, real>) {
    match t
    case Literal(text) => NumberOf(text).Ok?
    case Ref(name) => name in vars
    case AsNumber(c) => Defined(c, vars)
  }

  lemma {:induction false} TruthIffDefined(c: Cond, vars: map<string, real>)
    ensures Truth(c, vars).Ok? <==> Defined(c, vars)
    decreases c
  {
    match c
    case Any(l, r) => TruthIffDefined(l, vars); TruthIffDefined(r, vars);
    case Both(l, r) => TruthIffDefined(l, vars); TruthIffDefined(r, vars);
    case Neg(n) => TruthIffDefined(n, vars);
    case Test(a, op, b) => ValueIffDefined(a, vars); ValueIffDefined(b, vars);
    case Truthy(a) => ValueIffDefined(a, vars);
  }

  lemma {:induction false} ValueIffDefined(t: Term, vars: map<string, real>)
    ensures TermValue(t, vars).Ok? <==> DefinedTerm(t, vars)
    decreases t
  {
    match t
    case Literal(_) =>
    case Ref(_) =>
    case AsNumber(c) => TruthIffDefined(c, vars);
  }

  /** An undefined variable is an error wherever it stands, also on the side that decides nothing. */
  lemma EvaluatesIffDefined(c: Cond, vars: map<string, real>)
    requires Printable(c) && |Show(c)| <= MAX_LENGTH
    ensures EvaluateText(Show(c), vars).Ok? <==> Defined(c, vars)
  {
    EvaluateShown(c, vars);
    TruthIffDefined(c, vars);
  }

  // ----- The program's own loops ---------------------------------------------------------------------------

  /** Prepends tokens already read. */
  function Prepend(ts: seq<Token>, r: Result<seq<Token>>): Result<seq<Token>> {
    if r.Ok? then Ok(ts + r.value) else r
  }

  method Tokenize(expr: string) returns (r: Result<seq<Token>>)
    ensures r == Lex(expr)
  {
    hide First, IsSpace;
    var tokens: seq<Token> := [];
    var i := 0;
    assert expr[0..] == expr;
    PrependNothing(Lex(expr));
    while i < |expr|
      invariant 0 <= i <= |expr|
      invariant Lex(expr) == Prepend(tokens, Lex(expr[i..]))
    {
      ghost var s := expr[i..];
      SpaceIsSpace(s);
      var lexeme := NextLexeme(expr, i);
      match lexeme {
        case Space =>
          LexSkipsSpace(s);
          assert s[1..] == expr[i + 1..];
          i := i + 1;
        case Tok(t) =>
          LexTakesToken(s, t);
          assert s[|t.text|..] == expr[i + |t.text|..];
          PrependOne(tokens, t, Lex(expr[i + |t.text|..]));
          tokens := tokens + [t];
          i := i + |t.text|;
        case Bad(c) =>
          return Err(UnexpectedCharacter(c));
      }
    }
    assert expr[i..] == "";
    return Ok(tokens + [END]);
  }

  lemma PrependNothing(r: Result<seq<Token>>)
    ensures Prepend([], r) == r
  {
    if r.Ok? {
      assert [] + r.value == r.value;
    }
  }

  lemma PrependOne(ts: seq<Token>, t: Token, r: Result<seq<Token>>)
    ensures Prepend(ts, Cons(t, r)) == Prepend(ts + [t], r)
  {
    if r.Ok? {
      assert ts + ([t] + r.value) == (ts + [t]) + r.value;
    }
  }

  /** What stands at a position of the text. */
  method NextLexeme(expr: string, i: nat) returns (lexeme: Lexeme)
    requires i < |expr|
    ensures lexeme == First(expr[i..])
  {
    var s := expr[i..];
    if IsSpace(s[0]) { return Space; }
    var op := Operator(s);
    if op != EOF { return Tok(Token(op, Spelling(op))); }
    if IsDigit(s[0]) {
      var n := Scan(expr, i, true);
      assert expr[i..n] == s[..n - i];
      return Tok(Token(NUMBER, expr[i..n]));
    }
    if IsLetter(s[0]) {
      var n := Scan(expr, i, false);
      assert expr[i..n] == s[..n - i];
      return Tok(Token(IDENT, expr[i..n]));
    }
    return Bad(s[0]);
  }

  /** Advances over a run of number or name characters. */
  method Scan(expr: string, start: nat, number: bool) returns (i: nat)
    requires start < |expr|
    ensures start <= i <= |expr| && i - start == RunLength(expr[start..], number)
  {
    i := start;
    while i < |expr| && (if number then IsNumberChar(expr[i]) else IsNameChar(expr[i]))
      invariant start <= i <= |expr|
      invariant RunLength(expr[start..], number) == (i - start) + RunLength(expr[i..], number)
    {
      assert expr[i..][1..] == expr[i + 1..];
      i := i + 1;
    }
  }

  class Parser {
    const tokens: seq<Token>
    const vars: map<string, real>
    var pos: nat

    ghost predicate Valid()
      reads this
    {
      Terminated(tokens) && pos < |tokens|
    }

    constructor (tokens: seq<Token>, vars: map<string, real>)
      requires Terminated(tokens)
      ensures Valid() && this.tokens == tokens && this.vars == vars && pos == 0
    {
      this.tokens := tokens;
      this.vars := vars;
      pos := 0;
    }

    /** The call did what the function says, moving the position to where it stopped. */
    ghost predicate Did<T>(p: Parse<T>, r: Result<T>)
      reads this
    {
      match p
      case Yes(v, next) => r == Ok(v) && pos == next
      case No(e) => r == Err(e)
    }

    method ParseAll() returns (r: Result<bool>)
      requires Valid() && pos == 0
      modifies this
      ensures Valid() && r == Evaluate(tokens, vars)
    {
      r := ParseOr();
      if r.Ok? && tokens[pos].kind != EOF {
        r := Err(UnexpectedToken(tokens[pos]));
      }
    }

    method ParseOr() returns (r: Result<bool>)
      requires Valid()
      modifies this
      ensures Valid() && old(pos) <= pos && Did(Or(tokens, old(pos), vars), r)
      decreases |tokens| - pos, 3
    {
      r := ParseAnd();
      while r.Ok? && tokens[pos].kind == OR
        invariant Valid() && old(pos) <= pos && (r.Ok? ==> old(pos) < pos)
        invariant Or(tokens, old(pos), vars) ==
          match r case Ok(v) => OrTail(tokens, pos, v, vars) case Err(e) => No(e)
        decreases r.Ok?, |tokens| - pos
      {
        var left := r.value;
        pos := pos + 1;
        var right := ParseAnd();
        r := match right case Ok(v) => Ok(left || v) case Err(e) => Err(e);
      }
    }

    method ParseAnd() returns (r: Result<bool>)
      requires Valid()
      modifies this
      ensures Valid() && old(pos) <= pos && Did(And(tokens, old(pos), vars), r)
      decreases |tokens| - pos, 2
    {
      r := ParseNot();
      while r.Ok? && tokens[pos].kind == AND
        invariant Valid() && old(pos) <= pos && (r.Ok? ==> old(pos) < pos)
        invariant And(tokens, old(pos), vars) ==
          match r case Ok(v) => AndTail(tokens, pos, v, vars) case Err(e) => No(e)
        decreases r.Ok?, |tokens| - pos
      {
        var left := r.value;
        pos := pos + 1;
        var right := ParseNot();
        r := match right case Ok(v) => Ok(left && v) case Err(e) => Err(e);
      }
    }

    method ParseNot() returns (r: Result<bool>)
      requires Valid()
      modifies this
      ensures Valid() && old(pos) <= pos && Did(Not(tokens, old(pos), vars), r)
      decreases |tokens| - pos, 1
    {
      if tokens[pos].kind == NOT {
        pos := pos + 1;
        r := ParseNot();
        return match r case Ok(v) => Ok(!v) case Err(e) => Err(e);
      }
      var left := ParseValue();
      if left.Err? { return Err(left.error); }
      var op := tokens[pos].kind;
      if IsComparison(op) {
        pos := pos + 1;
        var right := ParseValue();
        return match right case Ok(v) => Ok(Compare(op, left.value, v)) case Err(e) => Err(e);
      }
      return Ok(left.value != 0.0);
    }

    method ParseValue() returns (r: Result<real>)
      requires Valid()
      modifies this
      ensures Valid() && old(pos) <= pos && Did(Value(tokens, old(pos), vars), r)
      decreases |tokens| - pos, 0
    {
      var tok := tokens[pos];
      if tok.kind == NUMBER {
        pos := pos + 1;
        return NumberOf(tok.text);
      }
      if tok.kind == IDENT {
        pos := pos + 1;
        return Lookup(vars, tok.text);
      }
      if tok.kind == LPAREN {
        pos := pos + 1;
        var inner := ParseOr();
        if inner.Err? { return Err(inner.error); }
        if tokens[pos].kind != RPAREN { return Err(UnexpectedToken(tokens[pos])); }
        pos := pos + 1;
        return Ok(if inner.value then 1.0 else 0.0);
      }
      return Err(UnexpectedToken(tok));
    }
  }

  method EvaluateCondition(expr: string, vars: map<string, real>) returns (r: Result<bool>)
    ensures r == EvaluateText(expr, vars)
  {
    if IsBlank(expr) { return Err(EmptyExpression); }
    if |expr| > MAX_LENGTH { return Err(TooLong); }
    var lexed := Tokenize(expr);
    if lexed.Err? { return Err(lexed.error); }
    LexTerminates(expr);
    var parser := new Parser(lexed.value, vars);
    r := parser.ParseAll();
  }
}
