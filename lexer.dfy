/*
 * The hand-written tokenizer of src/lexer.rs.
 *
 * `Tokenizer` keeps the Rust struct's fields and methods; each method is
 * proved against a pure function of the characters (how far a run of
 * digits reaches, whether an operator text matches at a position, ...),
 * and `Tokenize` against `Lex`, the whole scan as a recursive function.
 * Rust panics are outcomes: `ToToken` returns None, `MatchPartial` returns
 * OutOfRange (the unchecked `chars[index + i]` read), and `Lex` returns
 * Panic. A float literal keeps its source text; its `f64` value is not
 * modelled.
 */
module Lexer {

  import opened Wrappers
  import opened Decimal

  datatype Operator =
    | Plus | Minus | Multiply | Divide | BitShiftLeft | BitShiftRight
    | Not | Equals | NotEquals | OpenParen | CloseParen

  datatype Token =
    | LiteralFloat(text: string)
    | LiteralInteger(value: int)
    | Op(op: Operator)
    | Identifier(name: string)
    | Assign
    | NoneKeyword
    | Comma

  datatype PartialToken =
    | UndefinedOrWhitespace
    | LiteralFloatText(text: string)
    | OperatorText(text: string)
    | IdentifierText(text: string)
    | CommaPartial

  // ---------------------------------------------------------------------
  // Character classes
  // ---------------------------------------------------------------------

  /** `char::is_numeric`, restricted to ASCII digits. */
  predicate IsNumeric(c: char)
  {
    IsDigit(c)
  }

  /** `char::is_whitespace`: the Unicode White_Space property. */
  predicate IsWhitespace(c: char)
  {
    var n := c as int;
    (9 <= n <= 13) || n == 32 || n == 0x85 || n == 0xA0 || n == 0x1680 ||
    (0x2000 <= n <= 0x200A) || n == 0x2028 || n == 0x2029 || n == 0x202F ||
    n == 0x205F || n == 0x3000
  }

  predicate IsAsciiAlpha(c: char)
  {
    ('a' <= c <= 'z') || ('A' <= c <= 'Z')
  }

  predicate IsIdentStart(c: char)
  {
    IsAsciiAlpha(c) || c == '_'
  }

  predicate IsIdentChar(c: char)
  {
    IsAsciiAlpha(c) || IsDigit(c) || c == '_'
  }

  // ---------------------------------------------------------------------
  // PartialToken::to_token (None where the Rust code panics)
  // ---------------------------------------------------------------------

  /** The operator arm of `to_token`, compared character by character. */
  function OperatorOf(s: string): Option<Token>
  {
    if |s| == 1 then
      match s[0]
      case '+' => Some(Op(Plus))
      case '-' => Some(Op(Minus))
      case '*' => Some(Op(Multiply))
      case '/' => Some(Op(Divide))
      case '!' => Some(Op(Not))
      case '=' => Some(Assign)
      case '(' => Some(Op(OpenParen))
      case ')' => Some(Op(CloseParen))
      case _ => None
    else if |s| == 2 then
      if s[0] == '<' && s[1] == '<' then Some(Op(BitShiftLeft))
      else if s[0] == '>' && s[1] == '>' then Some(Op(BitShiftRight))
      else if s[0] == '=' && s[1] == '=' then Some(Op(Equals))
      else if s[0] == '!' && s[1] == '=' then Some(Op(NotEquals))
      else None
    else None
  }

  function StripSign(s: string): string
  {
    if |s| > 0 && (s[0] == '+' || s[0] == '-') then s[1..] else s
  }

  /** The first index of `c` in `s`, or -1. */
  function IndexOf(s: string, c: char): (r: int)
    ensures -1 <= r < |s|
  {
    if s == [] then -1
    else if s[0] == c then 0
    else
      var k := IndexOf(s[1..], c);
      if k < 0 then -1 else k + 1
  }

  lemma {:induction false} IndexOfSpec(s: string, c: char)
    ensures var r := IndexOf(s, c);
            (r >= 0 ==> s[r] == c && c !in s[..r]) && (r < 0 ==> c !in s)
  {
    if s != [] && s[0] != c {
      IndexOfSpec(s[1..], c);
      assert s == [s[0]] + s[1..];
      var k := IndexOf(s[1..], c);
      if k >= 0 {
        assert s[..k + 1] == [s[0]] + s[1..][..k];
      }
    }
  }

  function LowerAscii(s: string): string
  {
    if s == [] then []
    else [if 'A' <= s[0] <= 'Z' then (s[0] as int + 32) as char else s[0]] + LowerAscii(s[1..])
  }

  /** Digits with at most one '.', and at least one digit. */
  predicate ValidMantissa(m: string)
  {
    var d := IndexOf(m, '.');
    if d < 0 then |m| > 0 && AllDigits(m)
    else AllDigits(m[..d]) && AllDigits(m[d + 1..]) && |m| > 1
  }

  /** The syntax `str::parse::<f64>()` accepts: an optional sign, then
      `inf`, `infinity` or `nan` in any case, or a mantissa with an
      optional exponent `e`/`E`, optional sign, and digits. */
  predicate ValidFloatText(s: string)
  {
    var t := StripSign(s);
    if LowerAscii(t) in {"inf", "infinity", "nan"} then true
    else
      var e := if IndexOf(t, 'e') >= 0 then IndexOf(t, 'e') else IndexOf(t, 'E');
      if e < 0 then ValidMantissa(t)
      else
        var x := StripSign(t[e + 1..]);
        ValidMantissa(t[..e]) && |x| > 0 && AllDigits(x)
  }

  function ToToken(p: PartialToken): Option<Token>
  {
    match p
    case UndefinedOrWhitespace => None
    case IdentifierText(s) => Some(if s == "None" then NoneKeyword else Identifier(s))
    case CommaPartial => Some(Comma)
    case LiteralFloatText(s) =>
      if '.' in s || 'e' in s then
        if ValidFloatText(s) then Some(LiteralFloat(s)) else None
      else
        (match ParseI128(s)
         case Some(v) => Some(LiteralInteger(v))
         case None => None)
    case OperatorText(s) => OperatorOf(s)
  }

  // ---------------------------------------------------------------------
  // The scanning steps as functions of the characters
  // ---------------------------------------------------------------------

  /** Where a maximal run of digits starting at `i` ends. */
  function DigitsEnd(chars: seq<char>, i: nat): (j: nat)
    requires i <= |chars|
    ensures i <= j <= |chars|
    decreases |chars| - i
  {
    if i < |chars| && IsNumeric(chars[i]) then DigitsEnd(chars, i + 1) else i
  }

  /** The run is maximal: digits up to the end, then no digit. */
  lemma {:induction false} DigitsEndSpec(chars: seq<char>, i: nat)
    requires i <= |chars|
    ensures var j := DigitsEnd(chars, i);
            (forall k :: i <= k < j ==> IsNumeric(chars[k])) && (j == |chars| || !IsNumeric(chars[j]))
    decreases |chars| - i
  {
    if i < |chars| && IsNumeric(chars[i]) {
      DigitsEndSpec(chars, i + 1);
    }
  }

  /** Where a maximal run of identifier characters starting at `i` ends. */
  function IdentCharsEnd(chars: seq<char>, i: nat): (j: nat)
    requires i <= |chars|
    ensures i <= j <= |chars|
    decreases |chars| - i
  {
    if i < |chars| && IsIdentChar(chars[i]) then IdentCharsEnd(chars, i + 1) else i
  }

  /** The run is maximal: identifier characters up to the end, then none. */
  lemma {:induction false} IdentCharsEndSpec(chars: seq<char>, i: nat)
    requires i <= |chars|
    ensures var j := IdentCharsEnd(chars, i);
            (forall k :: i <= k < j ==> IsIdentChar(chars[k])) && (j == |chars| || !IsIdentChar(chars[j]))
    decreases |chars| - i
  {
    if i < |chars| && IsIdentChar(chars[i]) {
      IdentCharsEndSpec(chars, i + 1);
    }
  }

  /** Past one optional `c` at `i`. */
  function CharEnd(chars: seq<char>, i: nat, c: char): (j: nat)
    requires i <= |chars|
    ensures j <= |chars|
    ensures j == if i < |chars| && chars[i] == c then i + 1 else i
  {
    if i < |chars| && chars[i] == c then i + 1 else i
  }

  /** The end of a numeric literal: digits, '.', digits, 'e', '-', digits,
      each part optional after the first digit. */
  function NumberEnd(chars: seq<char>, i: nat): (j: nat)
    requires i < |chars| && IsNumeric(chars[i])
    ensures i < j <= |chars|
  {
    var j1 := DigitsEnd(chars, i);
    var j2 := CharEnd(chars, j1, '.');
    var j3 := DigitsEnd(chars, j2);
    var j4 := CharEnd(chars, j3, 'e');
    var j5 := CharEnd(chars, j4, '-');
    DigitsEnd(chars, j5)
  }

  /** The end of an identifier that starts at `i`. */
  function IdentEnd(chars: seq<char>, i: nat): (j: nat)
    requires i < |chars| && IsIdentStart(chars[i])
    ensures i < j <= |chars|
  {
    IdentCharsEnd(chars, i + 1)
  }

  datatype MatchResult = Matched | Mismatch | OutOfRange

  /** `match_partial` from the `k`-th query character on: it compares
      `chars[i + k]` with `query[k]` with no bounds check, so running off
      the input is OutOfRange (a panic), even when an earlier character
      already decided nothing. */
  function MatchPartialFrom(chars: seq<char>, i: nat, query: string, k: nat): (r: MatchResult)
    requires k <= |query| && i + k <= |chars|
    ensures r == Matched ==> i + |query| <= |chars|
    decreases |query| - k
  {
    if k == |query| then Matched
    else if i + k >= |chars| then OutOfRange
    else if chars[i + k] != query[k] then Mismatch
    else MatchPartialFrom(chars, i, query, k + 1)
  }

  /** A match is exactly the query's remaining characters at `i + k`. */
  lemma {:induction false} MatchPartialFromSpec(chars: seq<char>, i: nat, query: string, k: nat)
    requires k <= |query| && i + k <= |chars|
    ensures MatchPartialFrom(chars, i, query, k) == Matched <==>
            i + |query| <= |chars| && chars[i + k..i + |query|] == query[k..]
    decreases |query| - k
  {
    if k < |query| && i + k < |chars| {
      assert i + |query| <= |chars| ==>
               chars[i + k..i + |query|] == [chars[i + k]] + chars[i + k + 1..i + |query|];
      assert query[k..] == [query[k]] + query[k + 1..];
      if chars[i + k] == query[k] {
        MatchPartialFromSpec(chars, i, query, k + 1);
      }
    }
  }

  datatype FirstMatch = Found(q: string) | NoneMatched | Overrun

  /** `match_first_and_advance`: the first query that matches at `i`. */
  function MatchFirst(chars: seq<char>, i: nat, queries: seq<string>): (r: FirstMatch)
    requires i <= |chars|
    requires forall k :: 0 <= k < |queries| ==> |queries[k]| > 0
    ensures r.Found? ==> 0 < |r.q| && i + |r.q| <= |chars|
  {
    if queries == [] then NoneMatched
    else match MatchPartialFrom(chars, i, queries[0], 0)
      case Matched => Found(queries[0])
      case OutOfRange => Overrun
      case Mismatch => MatchFirst(chars, i, queries[1..])
  }

  /** What is found is one of the queries, and the input holds it at `i`. */
  lemma {:induction false} MatchFirstSpec(chars: seq<char>, i: nat, queries: seq<string>)
    requires i <= |chars|
    requires forall k :: 0 <= k < |queries| ==> |queries[k]| > 0
    ensures var r := MatchFirst(chars, i, queries);
            r.Found? ==> r.q in queries && chars[i..i + |r.q|] == r.q
    decreases |queries|
  {
    if queries != [] {
      MatchPartialFromSpec(chars, i, queries[0], 0);
      if MatchPartialFrom(chars, i, queries[0], 0) == Mismatch {
        MatchFirstSpec(chars, i, queries[1..]);
      }
    }
  }

  const Operators: seq<string> := ["+", "-", "*", "/", "<<", ">>", "!=", "==", "=", "!", "(", ")"]

  /** `match_first_and_advance` over the operator texts. */
  function MatchOperator(chars: seq<char>, i: nat): (r: FirstMatch)
    requires i <= |chars|
    ensures r.Found? ==> 0 < |r.q| && i + |r.q| <= |chars|
  {
    OperatorsNonEmpty();
    MatchFirst(chars, i, Operators)
  }

  lemma OperatorsNonEmpty()
    ensures forall k :: 0 <= k < |Operators| ==> |Operators[k]| > 0
  {
  }

  // ---------------------------------------------------------------------
  // The whole scan
  // ---------------------------------------------------------------------

  datatype LexResult = Lexed(tokens: seq<Token>) | Unrecognized(message: string) | Panic

  /** `commit_current_token`: None when `to_token` panics. */
  function Commit(pending: PartialToken, acc: seq<Token>): Option<seq<Token>>
  {
    if pending.UndefinedOrWhitespace? then Some(acc)
    else match ToToken(pending)
      case None => None
      case Some(t) => Some(acc + [t])
  }

  /** What one pass of the `while can_go()` loop leads to: the end of the
      scan, or the next position with the pending token and the tokens so
      far. */
  datatype Step = Done(result: LexResult) | Next(next: nat, pending: PartialToken, acc: seq<Token>)

  /** One pass of the loop: commit the pending token, then read at `i`;
      after the last character the final commit ends the scan. */
  function StepAt(chars: seq<char>, i: nat, pending: PartialToken, acc: seq<Token>): (s: Step)
    requires i <= |chars|
    ensures s.Next? ==> i < s.next <= |chars|
  {
    match Commit(pending, acc)
    case None => Done(Panic)
    case Some(acc1) =>
      if i == |chars| then Done(Lexed(acc1)) else Scan(chars, i, acc1)
  }

  /** The branches of the loop body at `chars[i]`, nothing pending. */
  function Scan(chars: seq<char>, i: nat, acc: seq<Token>): (s: Step)
    requires i < |chars|
    ensures s.Next? ==> i < s.next <= |chars|
  {
    var c := chars[i];
    if IsNumeric(c) then
      var j := NumberEnd(chars, i);
      Next(j, LiteralFloatText(chars[i..j]), acc)
    else if c == ',' then
      match Commit(CommaPartial, acc)
      case None => Done(Panic)
      case Some(acc2) => Next(i + 1, UndefinedOrWhitespace, acc2)
    else if IsWhitespace(c) then
      Next(i + 1, UndefinedOrWhitespace, acc)
    else
      ScanWordAt(chars, i, acc)
  }

  /** An operator, else an identifier, else the `Unrecognized token` error. */
  function ScanWordAt(chars: seq<char>, i: nat, acc: seq<Token>): (s: Step)
    requires i < |chars|
    ensures s.Next? ==> i < s.next <= |chars|
  {
    match MatchOperator(chars, i)
    case Overrun => Done(Panic)
    case Found(q) =>
      (match Commit(OperatorText(q), acc)
       case None => Done(Panic)
       case Some(acc2) => Next(i + |q|, UndefinedOrWhitespace, acc2))
    case NoneMatched =>
      if IsIdentStart(chars[i]) then
        var j := IdentEnd(chars, i);
        Next(j, IdentifierText(chars[i..j]), acc)
      else Done(Unrecognized("Unrecognized token " + [chars[i]]))
  }

  /** The loop of `tokenize` from position `i`, with `pending` the not yet
      committed token and `acc` the tokens so far. */
  function LexFrom(chars: seq<char>, i: nat, pending: PartialToken, acc: seq<Token>): LexResult
    requires i <= |chars|
    decreases |chars| - i
  {
    match StepAt(chars, i, pending, acc)
    case Done(r) => r
    case Next(j, p, a) => LexFrom(chars, j, p, a)
  }

  /** `tokenize(source)`. */
  function Lex(source: string): LexResult
  {
    LexFrom(source, 0, UndefinedOrWhitespace, [])
  }

  lemma SliceJoin(s: seq<char>, a: nat, b: nat, c: nat)
    requires a <= b <= c <= |s|
    ensures s[a..b] + s[b..c] == s[a..c]
  {
  }

  // ---------------------------------------------------------------------
  // The Tokenizer struct
  // ---------------------------------------------------------------------

  class Tokenizer {
    var index: nat
    var chars: seq<char>
    var curPartialToken: PartialToken
    var finalResult: seq<Token>
    var eaterBuf: string

    constructor (source: string)
      ensures index == 0 && chars == source && curPartialToken == UndefinedOrWhitespace
      ensures finalResult == [] && eaterBuf == []
    {
      index := 0;
      chars := source;
      curPartialToken := UndefinedOrWhitespace;
      finalResult := [];
      eaterBuf := [];
    }

    method EatNumbers() returns (ate: bool)
      requires index <= |chars|
      modifies this`index, this`eaterBuf
      ensures index == DigitsEnd(chars, old(index))
      ensures eaterBuf == old(eaterBuf) + chars[old(index)..index]
      ensures ate == (index > old(index))
    {
      ate := false;
      while index < |chars| && IsNumeric(chars[index])
        invariant old(index) <= index <= |chars|
        invariant DigitsEnd(chars, index) == DigitsEnd(chars, old(index))
        invariant eaterBuf == old(eaterBuf) + chars[old(index)..index]
        invariant ate == (index > old(index))
        decreases |chars| - index
      {
        assert chars[old(index)..index + 1] == chars[old(index)..index] + [chars[index]];
        eaterBuf := eaterBuf + [chars[index]];
        index := index + 1;
        ate := true;
      }
    }

    /** None is the panic of reading `cur()` at the end of the input: the
        first-character test is `(can_go && alphabetic) || cur == '_'`. */
    method EatIdentifier() returns (r: Option<bool>)
      requires index <= |chars|
      modifies this`index, this`eaterBuf
      ensures r == None <==> old(index) == |chars|
      ensures r == Some(false) ==> index == old(index) && eaterBuf == old(eaterBuf)
      ensures r == Some(true) <==> old(index) < |chars| && IsIdentStart(chars[old(index)])
      ensures r == Some(true) ==>
                index == IdentEnd(chars, old(index)) &&
                eaterBuf == old(eaterBuf) + chars[old(index)..index]
    {
      if index == |chars| {
        r := None;
        return;
      }
      if !(IsAsciiAlpha(chars[index]) || chars[index] == '_') {
        r := Some(false);
        return;
      }
      eaterBuf := eaterBuf + [chars[index]];
      index := index + 1;
      while index < |chars| && IsIdentChar(chars[index])
        invariant old(index) < index <= |chars|
        invariant IdentCharsEnd(chars, index) == IdentEnd(chars, old(index))
        invariant eaterBuf == old(eaterBuf) + chars[old(index)..index]
        decreases |chars| - index
      {
        assert chars[old(index)..index + 1] == chars[old(index)..index] + [chars[index]];
        eaterBuf := eaterBuf + [chars[index]];
        index := index + 1;
      }
      r := Some(true);
    }

    method EatChar(charToEat: char) returns (ate: bool)
      requires index <= |chars|
      modifies this`index, this`eaterBuf
      ensures index == CharEnd(chars, old(index), charToEat)
      ensures eaterBuf == old(eaterBuf) + chars[old(index)..index]
      ensures ate == (index > old(index))
    {
      if index < |chars| && chars[index] == charToEat {
        eaterBuf := eaterBuf + [chars[index]];
        index := index + 1;
        ate := true;
      } else {
        ate := false;
      }
    }

    /** False is the panic inside `to_token`. */
    method CommitCurrentToken() returns (ok: bool)
      modifies this`curPartialToken, this`finalResult
      ensures ok <==> Commit(old(curPartialToken), old(finalResult)).Some?
      ensures ok ==> finalResult == Commit(old(curPartialToken), old(finalResult)).value
      ensures ok ==> curPartialToken == UndefinedOrWhitespace
    {
      if curPartialToken.UndefinedOrWhitespace? {
        ok := true;
        return;
      }
      var cur := curPartialToken;
      curPartialToken := UndefinedOrWhitespace;
      var t := ToToken(cur);
      if t.None? {
        ok := false;
        return;
      }
      finalResult := finalResult + [t.value];
      ok := true;
    }

    method MatchPartial(query: string) returns (r: MatchResult)
      requires index <= |chars|
      ensures r == MatchPartialFrom(chars, index, query, 0)
    {
      var i := 0;
      while i < |query|
        invariant 0 <= i <= |query| && index + i <= |chars|
        invariant MatchPartialFrom(chars, index, query, i) == MatchPartialFrom(chars, index, query, 0)
        decreases |query| - i
      {
        if index + i >= |chars| {
          r := OutOfRange;
          return;
        }
        if chars[index + i] != query[i] {
          r := Mismatch;
          return;
        }
        i := i + 1;
      }
      r := Matched;
    }

    method MatchFirstAndAdvance(queries: seq<string>) returns (r: FirstMatch)
      requires index <= |chars|
      requires forall k :: 0 <= k < |queries| ==> |queries[k]| > 0
      modifies this`index
      ensures r == MatchFirst(chars, old(index), queries)
      ensures index == if r.Found? then old(index) + |r.q| else old(index)
    {
      var k := 0;
      while k < |queries|
        invariant 0 <= k <= |queries| && index == old(index)
        invariant MatchFirst(chars, index, queries[k..]) == MatchFirst(chars, index, queries)
        decreases |queries| - k
      {
        assert queries[k..][1..] == queries[k + 1..];
        var m := MatchPartial(queries[k]);
        if m == Matched {
          index := index + |queries[k]|;
          r := Found(queries[k]);
          return;
        } else if m == OutOfRange {
          r := Overrun;
          return;
        }
        k := k + 1;
      }
      r := NoneMatched;
    }

    /** The body of the `tokenize` loop after the pending token has been
        committed: None when the loop goes on, Some(outcome) when the scan
        ends here. */
    method ScanToken() returns (stop: Option<LexResult>)
      requires index < |chars| && curPartialToken == UndefinedOrWhitespace && eaterBuf == []
      modifies this`index, this`eaterBuf, this`curPartialToken, this`finalResult
      ensures eaterBuf == []
      ensures Scan(chars, old(index), old(finalResult)) ==
                if stop.Some? then Done(stop.value) else Next(index, curPartialToken, finalResult)
    {
      var c := chars[index];
      stop := None;
      if IsNumeric(c) {
        EatLiteral();
      } else if c == ',' {
        curPartialToken := CommaPartial;
        var ok := CommitCurrentToken();
        index := index + 1;
      } else if IsWhitespace(c) {
        index := index + 1;
      } else {
        stop := ScanWord();
      }
    }

    /** The numeric branch of the `tokenize` loop. */
    method EatLiteral()
      requires index < |chars| && IsNumeric(chars[index]) && eaterBuf == []
      modifies this`index, this`eaterBuf, this`curPartialToken
      ensures index == NumberEnd(chars, old(index)) && eaterBuf == []
      ensures curPartialToken == LiteralFloatText(chars[old(index)..index])
    {
      ghost var cs, start := chars, index;
      var ate := EatNumbers();
      ghost var j1 := index;
      assert eaterBuf == cs[start..j1];
      ate := EatChar('.');
      ghost var j2 := index;
      SliceJoin(cs, start, j1, j2);
      ate := EatNumbers();
      ghost var j3 := index;
      SliceJoin(cs, start, j2, j3);
      ate := EatChar('e');
      ghost var j4 := index;
      SliceJoin(cs, start, j3, j4);
      ate := EatChar('-');
      ghost var j5 := index;
      SliceJoin(cs, start, j4, j5);
      ate := EatNumbers();
      SliceJoin(cs, start, j5, index);
      assert eaterBuf == cs[start..index];
      curPartialToken := LiteralFloatText(eaterBuf);
      eaterBuf := [];
    }

    /** The operator-or-identifier branch of the `tokenize` loop. */
    method ScanWord() returns (stop: Option<LexResult>)
      requires index < |chars| && curPartialToken == UndefinedOrWhitespace && eaterBuf == []
      modifies this`index, this`eaterBuf, this`curPartialToken, this`finalResult
      ensures eaterBuf == []
      ensures ScanWordAt(chars, old(index), old(finalResult)) ==
                if stop.Some? then Done(stop.value) else Next(index, curPartialToken, finalResult)
    {
      var c := chars[index];
      stop := None;
      OperatorsNonEmpty();
      var m := MatchFirstAndAdvance(Operators);
      if m.Overrun? {
        stop := Some(Panic);
      } else if m.Found? {
        curPartialToken := OperatorText(m.q);
        var ok := CommitCurrentToken();
        if !ok {
          stop := Some(Panic);
        }
      } else if IsIdentStart(c) {
        ghost var start := index;
        var ate := EatIdentifier();
        assert eaterBuf == chars[start..index];
        curPartialToken := IdentifierText(eaterBuf);
        eaterBuf := [];
      } else {
        stop := Some(Unrecognized("Unrecognized token " + [c]));
      }
    }

    /** `tokenize`, run on a fresh tokenizer. */
    method Tokenize() returns (r: LexResult)
      requires index == 0 && curPartialToken == UndefinedOrWhitespace
      requires finalResult == [] && eaterBuf == []
      modifies this
      ensures r == Lex(chars)
    {
      while index < |chars|
        invariant index <= |chars| && eaterBuf == []
        invariant LexFrom(chars, index, curPartialToken, finalResult) == Lex(chars)
        decreases |chars| - index
      {
        ghost var i0, p0, acc0 := index, curPartialToken, finalResult;
        var ok := CommitCurrentToken();
        if !ok {
          r := Panic;
          return;
        }
        assert StepAt(chars, i0, p0, acc0) == Scan(chars, i0, finalResult);
        var stop := ScanToken();
        if stop.Some? {
          r := stop.value;
          return;
        }
      }
      var ok := CommitCurrentToken();
      r := if ok then Lexed(finalResult) else Panic;
    }
  }

  // ---------------------------------------------------------------------
  // Writing tokens back as text, and reading them again
  // ---------------------------------------------------------------------

  function OpText(o: Operator): string
  {
    match o
    case Plus => "+"
    case Minus => "-"
    case Multiply => "*"
    case Divide => "/"
    case BitShiftLeft => "<<"
    case BitShiftRight => ">>"
    case Not => "!"
    case Equals => "=="
    case NotEquals => "!="
    case OpenParen => "("
    case CloseParen => ")"
  }

  /** The source text of one token. */
  function TokenText(t: Token): string
  {
    match t
    case LiteralFloat(s) => s
    case LiteralInteger(v) => IntText(v)
    case Op(o) => OpText(o)
    case Identifier(n) => n
    case Assign => "="
    case NoneKeyword => "None"
    case Comma => ","
  }

  /** Tokens written out with one space between neighbours. */
  function Render(ts: seq<Token>): string
  {
    if ts == [] then ""
    else if |ts| == 1 then TokenText(ts[0])
    else TokenText(ts[0]) + " " + Render(ts[1..])
  }

  predicate IsIdentifierText(n: string)
  {
    |n| > 0 && IsIdentStart(n[0]) && forall k :: 0 < k < |n| ==> IsIdentChar(n[k])
  }

  /** A token whose text reads back as that token: integers in the
      non-negative `i128` range (a minus sign reads as an operator), and
      identifiers other than the keyword. Float literals are left out. */
  predicate Renderable(t: Token)
  {
    && !t.LiteralFloat?
    && (t.LiteralInteger? ==> 0 <= t.value <= I128Max)
    && (t.Identifier? ==> IsIdentifierText(t.name) && t.name != "None")
  }

  /** Every token is renderable, and the last one is not `=` or `!`: the
      scan tries `!=` and `==` first and reads past the end of the input
      after a trailing `=` or `!` (see TrailingAssignPanics). */
  predicate RenderableSeq(ts: seq<Token>)
  {
    (forall k :: 0 <= k < |ts| ==> Renderable(ts[k])) &&
    (|ts| > 0 ==> ts[|ts| - 1] != Assign && ts[|ts| - 1] != Op(Not))
  }

  lemma DigitsEndAt(chars: seq<char>, i: nat, j: nat)
    requires i <= j <= |chars|
    requires forall k :: i <= k < j ==> IsNumeric(chars[k])
    requires j == |chars| || !IsNumeric(chars[j])
    ensures DigitsEnd(chars, i) == j
  {
    DigitsEndSpec(chars, i);
    var d := DigitsEnd(chars, i);
    assert d <= j;
  }

  lemma IdentCharsEndAt(chars: seq<char>, i: nat, j: nat)
    requires i <= j <= |chars|
    requires forall k :: i <= k < j ==> IsIdentChar(chars[k])
    requires j == |chars| || !IsIdentChar(chars[j])
    ensures IdentCharsEnd(chars, i) == j
  {
    IdentCharsEndSpec(chars, i);
    var d := IdentCharsEnd(chars, i);
    assert d <= j;
  }

  /** No query starts with the character at `i`: nothing matches. */
  lemma {:induction false} MatchFirstNone(chars: seq<char>, i: nat, queries: seq<string>)
    requires i < |chars|
    requires forall k :: 0 <= k < |queries| ==> |queries[k]| > 0 && queries[k][0] != chars[i]
    ensures MatchFirst(chars, i, queries) == NoneMatched
    decreases |queries|
  {
    if queries != [] {
      assert MatchPartialFrom(chars, i, queries[0], 0) == Mismatch;
      MatchFirstNone(chars, i, queries[1..]);
    }
  }

  /** The `k`-th query matches and every earlier one mismatches. */
  lemma {:induction false} MatchFirstAt(chars: seq<char>, i: nat, queries: seq<string>, k: nat)
    requires i <= |chars| && k < |queries|
    requires forall j :: 0 <= j < |queries| ==> |queries[j]| > 0
    requires forall j :: 0 <= j < k ==> MatchPartialFrom(chars, i, queries[j], 0) == Mismatch
    requires MatchPartialFrom(chars, i, queries[k], 0) == Matched
    ensures MatchFirst(chars, i, queries) == Found(queries[k])
    decreases k
  {
    if k > 0 {
      assert MatchPartialFrom(chars, i, queries[0], 0) == Mismatch;
      MatchFirstAt(chars, i, queries[1..], k - 1);
    }
  }

  /** The `k`-th query runs off the input and every earlier one mismatches. */
  lemma {:induction false} MatchFirstOverrun(chars: seq<char>, i: nat, queries: seq<string>, k: nat)
    requires i <= |chars| && k < |queries|
    requires forall j :: 0 <= j < |queries| ==> |queries[j]| > 0
    requires forall j :: 0 <= j < k ==> MatchPartialFrom(chars, i, queries[j], 0) == Mismatch
    requires MatchPartialFrom(chars, i, queries[k], 0) == OutOfRange
    ensures MatchFirst(chars, i, queries) == Overrun
    decreases k
  {
    if k > 0 {
      assert MatchPartialFrom(chars, i, queries[0], 0) == Mismatch;
      MatchFirstOverrun(chars, i, queries[1..], k - 1);
    }
  }

  /** A query whose first character differs mismatches. */
  lemma FirstCharMismatch(chars: seq<char>, i: nat, query: string)
    requires i < |chars| && |query| > 0 && query[0] != chars[i]
    ensures MatchPartialFrom(chars, i, query, 0) == Mismatch
  {
  }

  /** A two-character query whose second character differs mismatches. */
  lemma SecondCharMismatch(chars: seq<char>, i: nat, query: string)
    requires i + 1 < |chars| && |query| == 2 && query[0] == chars[i] && query[1] != chars[i + 1]
    ensures MatchPartialFrom(chars, i, query, 0) == Mismatch
  {
    assert MatchPartialFrom(chars, i, query, 1) == Mismatch;
  }

  /** Where the text follows a token: the end, or a space. */
  predicate FollowedBySpace(chars: seq<char>, j: nat)
  {
    j <= |chars| && (j == |chars| || chars[j] == ' ')
  }

  /** An operator or `=` followed by a space (or, except for `=` and `!`,
      by the end) is found by the operator scan. */
  lemma OperatorFound(chars: seq<char>, i: nat, t: Token)
    requires t.Op? || t == Assign
    requires i + |TokenText(t)| <= |chars| && chars[i..i + |TokenText(t)|] == TokenText(t)
    requires FollowedBySpace(chars, i + |TokenText(t)|)
    requires i + |TokenText(t)| == |chars| ==> t != Assign && t != Op(Not)
    ensures MatchOperator(chars, i) == Found(TokenText(t))
  {
    var text := TokenText(t);
    OperatorsNonEmpty();
    assert chars[i] == text[0];
    assert |text| == 2 ==> chars[i + 1] == text[1];
    var ops := Operators;
    // The position of the text in the operator list, and a mismatch
    // for every query before it.
    var k: nat;
    match t {
      case Assign =>
        k := 8;
        FirstCharMismatch(chars, i, ops[6]);
        SecondCharMismatch(chars, i, ops[7]);
      case Op(o) =>
        match o {
          case Plus => k := 0;
          case Minus => k := 1;
          case Multiply => k := 2;
          case Divide => k := 3;
          case BitShiftLeft => k := 4;
          case BitShiftRight => k := 5;
          case NotEquals => k := 6;
          case Equals =>
            k := 7;
            FirstCharMismatch(chars, i, ops[6]);
          case Not =>
            k := 9;
            SecondCharMismatch(chars, i, ops[6]);
            FirstCharMismatch(chars, i, ops[7]);
            FirstCharMismatch(chars, i, ops[8]);
          case OpenParen => k := 10;
          case CloseParen => k := 11;
        }
    }
    assert ops[k] == text;
    forall j | 0 <= j < k && j != 6 && j != 7 && j != 8
      ensures MatchPartialFrom(chars, i, ops[j], 0) == Mismatch
    {
      FirstCharMismatch(chars, i, ops[j]);
    }
    assert MatchPartialFrom(chars, i, ops[k], 0) == Matched;
    MatchFirstAt(chars, i, ops, k);
  }

  /** Nothing pending, and a space or the end at `j`. */
  lemma AfterSpace(chars: seq<char>, j: nat, acc: seq<Token>)
    requires FollowedBySpace(chars, j)
    ensures LexFrom(chars, j, UndefinedOrWhitespace, acc) ==
            if j == |chars| then Lexed(acc) else LexFrom(chars, j + 1, UndefinedOrWhitespace, acc)
  {
    if j < |chars| {
      assert IsWhitespace(chars[j]);
      assert StepAt(chars, j, UndefinedOrWhitespace, acc) == Next(j + 1, UndefinedOrWhitespace, acc);
    }
  }

  /** A pending token that commits to `t`, then a space or the end. */
  lemma AfterPending(chars: seq<char>, j: nat, p: PartialToken, acc: seq<Token>, t: Token)
    requires !p.UndefinedOrWhitespace? && ToToken(p) == Some(t)
    requires FollowedBySpace(chars, j)
    ensures LexFrom(chars, j, p, acc) ==
            if j == |chars| then Lexed(acc + [t])
            else LexFrom(chars, j + 1, UndefinedOrWhitespace, acc + [t])
  {
    assert Commit(p, acc) == Some(acc + [t]);
    if j < |chars| {
      assert IsWhitespace(chars[j]);
      assert StepAt(chars, j, p, acc) == Next(j + 1, UndefinedOrWhitespace, acc + [t]);
    }
  }

  /** The outcome of reading one token at `i` and the space after it. */
  function Continue(chars: seq<char>, j: nat, acc: seq<Token>): LexResult
    requires j <= |chars|
  {
    if j == |chars| then Lexed(acc) else LexFrom(chars, j + 1, UndefinedOrWhitespace, acc)
  }

  /** A pass that leaves a token pending, then a space or the end. */
  lemma ThenPending(chars: seq<char>, i: nat, j: nat, p: PartialToken, acc: seq<Token>, t: Token)
    requires i < j <= |chars| && StepAt(chars, i, UndefinedOrWhitespace, acc) == Next(j, p, acc)
    requires !p.UndefinedOrWhitespace? && ToToken(p) == Some(t) && FollowedBySpace(chars, j)
    ensures LexFrom(chars, i, UndefinedOrWhitespace, acc) == Continue(chars, j, acc + [t])
  {
    AfterPending(chars, j, p, acc, t);
  }

  /** A pass that emits its token itself, then a space or the end. */
  lemma ThenSpace(chars: seq<char>, i: nat, j: nat, acc: seq<Token>, acc2: seq<Token>)
    requires i < j <= |chars| && StepAt(chars, i, UndefinedOrWhitespace, acc) == Next(j, UndefinedOrWhitespace, acc2)
    requires FollowedBySpace(chars, j)
    ensures LexFrom(chars, i, UndefinedOrWhitespace, acc) == Continue(chars, j, acc2)
  {
    AfterSpace(chars, j, acc2);
  }

  /** The decimal text of an `i128` that is not negative reads as that
      integer. */
  lemma IntegerText(v: int)
    requires 0 <= v <= I128Max
    ensures ToToken(LiteralFloatText(NatText(v))) == Some(LiteralInteger(v))
  {
    var text := NatText(v);
    NatTextSpec(v);
    ParseIntText(v);
    assert '.' !in text && 'e' !in text;
  }

  /** The digits of an integer, then a space or the end: one pass reads
      them all into a pending literal. */
  lemma IntegerScan(chars: seq<char>, i: nat, j: nat, acc: seq<Token>, v: nat)
    requires j == i + |NatText(v)| && j <= |chars| && chars[i..j] == NatText(v)
    requires FollowedBySpace(chars, j)
    ensures i < j && StepAt(chars, i, UndefinedOrWhitespace, acc) == Next(j, LiteralFloatText(NatText(v)), acc)
  {
    var text := NatText(v);
    NatTextSpec(v);
    assert IsNumeric(chars[i]) by { assert chars[i] == text[0]; }
    assert forall k :: i <= k < j ==> chars[k] == text[k - i];
    DigitsEndAt(chars, i, j);
    assert NumberEnd(chars, i) == j;
  }

  /** An identifier, then a space or the end: one pass reads it into a
      pending identifier. */
  lemma IdentifierScan(chars: seq<char>, i: nat, j: nat, acc: seq<Token>, n: string)
    requires IsIdentifierText(n) && j == i + |n|
    requires j <= |chars| && chars[i..j] == n && FollowedBySpace(chars, j)
    ensures i < j && StepAt(chars, i, UndefinedOrWhitespace, acc) == Next(j, IdentifierText(n), acc)
  {
    assert forall k :: i <= k < j ==> chars[k] == n[k - i];
    OperatorsNonEmpty();
    MatchFirstNone(chars, i, Operators);
    IdentCharsEndAt(chars, i + 1, j);
    assert StepAt(chars, i, UndefinedOrWhitespace, acc) == ScanWordAt(chars, i, acc);
  }

  lemma CommaScan(chars: seq<char>, i: nat, acc: seq<Token>)
    requires i < |chars| && chars[i] == ','
    ensures StepAt(chars, i, UndefinedOrWhitespace, acc) == Next(i + 1, UndefinedOrWhitespace, acc + [Comma])
  {
  }

  /** Each operator text reads as its operator, and starts with none of
      the characters the scan tests before operators. */
  lemma OperatorOfText(t: Token)
    requires t.Op? || t == Assign
    ensures OperatorOf(TokenText(t)) == Some(t)
    ensures |TokenText(t)| > 0
    ensures var c := TokenText(t)[0]; !IsNumeric(c) && c != ',' && !IsWhitespace(c)
  {
    match t {
      case Assign =>
      case Op(o) =>
        match o {
          case Plus =>
          case Minus =>
          case Multiply =>
          case Divide =>
          case BitShiftLeft =>
          case BitShiftRight =>
          case Not =>
          case Equals =>
          case NotEquals =>
          case OpenParen =>
          case CloseParen =>
        }
    }
  }

  /** An operator or `=`, then a space (or the end, except after `=`
      and `!`): one pass emits it. */
  lemma OperatorScan(chars: seq<char>, i: nat, j: nat, acc: seq<Token>, t: Token)
    requires t.Op? || t == Assign
    requires j == i + |TokenText(t)| && j <= |chars| && chars[i..j] == TokenText(t)
    requires FollowedBySpace(chars, j)
    requires j == |chars| ==> t != Assign && t != Op(Not)
    ensures i < j && StepAt(chars, i, UndefinedOrWhitespace, acc) == Next(j, UndefinedOrWhitespace, acc + [t])
  {
    var text := TokenText(t);
    OperatorOfText(t);
    assert chars[i] == text[0];
    OperatorFound(chars, i, t);
    assert Commit(OperatorText(text), acc) == Some(acc + [t]);
    assert StepAt(chars, i, UndefinedOrWhitespace, acc) == ScanWordAt(chars, i, acc);
  }

  /** One renderable token at `i`, then a space or the end: the scan
      emits exactly that token and goes on after the space. */
  lemma TokenStep(chars: seq<char>, i: nat, j: nat, acc: seq<Token>, t: Token)
    requires Renderable(t) && j == i + |TokenText(t)|
    requires j <= |chars| && chars[i..j] == TokenText(t) && FollowedBySpace(chars, j)
    requires j == |chars| ==> t != Assign && t != Op(Not)
    ensures LexFrom(chars, i, UndefinedOrWhitespace, acc) == Continue(chars, j, acc + [t])
  {
    match t {
      case LiteralInteger(v) =>
        IntegerScan(chars, i, j, acc, v);
        IntegerText(v);
        ThenPending(chars, i, j, LiteralFloatText(NatText(v)), acc, t);
      case Identifier(n) =>
        IdentifierScan(chars, i, j, acc, n);
        ThenPending(chars, i, j, IdentifierText(n), acc, t);
      case NoneKeyword =>
        IdentifierScan(chars, i, j, acc, "None");
        ThenPending(chars, i, j, IdentifierText("None"), acc, t);
      case Comma =>
        CommaScan(chars, i, acc);
        ThenSpace(chars, i, j, acc, acc + [t]);
      case _ =>
        OperatorScan(chars, i, j, acc, t);
        ThenSpace(chars, i, j, acc, acc + [t]);
    }
  }

  /** The tokens' texts lie at `i`, one space apart, up to the end, and
      each reads back as itself: renderable, and not a final `=` or `!`. */
  predicate Readable(chars: seq<char>, i: nat, ts: seq<Token>)
    decreases |ts|
  {
    if ts == [] then i == |chars|
    else
      var t := ts[0];
      var j := i + |TokenText(t)|;
      Renderable(t) && TextAt(chars, i, TokenText(t)) &&
      if |ts| == 1 then j == |chars| && t != Assign && t != Op(Not)
      else j < |chars| && chars[j] == ' ' && Readable(chars, j + 1, ts[1..])
  }

  /** `s` is written in `chars` from `i` on. */
  predicate TextAt(chars: seq<char>, i: nat, s: string)
    decreases |s|
  {
    if s == [] then i <= |chars|
    else i < |chars| && chars[i] == s[0] && TextAt(chars, i + 1, s[1..])
  }

  lemma {:induction false} TextAtSlice(chars: seq<char>, i: nat, s: string)
    ensures TextAt(chars, i, s) <==> i + |s| <= |chars| && chars[i..i + |s|] == s
    decreases |s|
  {
    if s != [] {
      TextAtSlice(chars, i + 1, s[1..]);
      if i + |s| <= |chars| {
        assert chars[i..i + |s|] == [chars[i]] + chars[i + 1..i + |s|];
        assert s == [s[0]] + s[1..];
      }
    }
  }

  lemma SplitAtSpace(chars: seq<char>, i: nat, j: nat, a: string, b: string)
    requires i <= |chars| && chars[i..] == a + " " + b && j == i + |a|
    ensures j < |chars| && chars[i..j] == a && chars[j] == ' ' && chars[j + 1..] == b
  {
    assert chars[i..j] == chars[i..][..j - i];
    assert chars[j] == chars[i..][j - i];
    assert chars[j + 1..] == chars[i..][j + 1 - i..];
  }

  lemma RenderableTail(ts: seq<Token>)
    requires |ts| > 0 && RenderableSeq(ts)
    ensures Renderable(ts[0]) && RenderableSeq(ts[1..])
    ensures |ts| == 1 ==> ts[0] != Assign && ts[0] != Op(Not)
  {
    assert ts[0] == ts[|ts| - 1] || ts[1..][|ts| - 2] == ts[|ts| - 1];
  }

  lemma {:induction false} ReadableRender(chars: seq<char>, i: nat, ts: seq<Token>)
    requires i <= |chars| && chars[i..] == Render(ts) && RenderableSeq(ts)
    ensures Readable(chars, i, ts)
    decreases |ts|
  {
    if |ts| > 1 {
      var j := RenderTail(chars, i, ts);
      ReadableRender(chars, j + 1, ts[1..]);
    }
    ReadableHead(chars, i, ts);
  }

  /** After the first token's text and its space comes the rendering of
      the rest. */
  lemma RenderTail(chars: seq<char>, i: nat, ts: seq<Token>) returns (j: nat)
    requires |ts| > 1 && i <= |chars| && chars[i..] == Render(ts) && RenderableSeq(ts)
    ensures j == i + |TokenText(ts[0])| && j < |chars|
    ensures chars[j + 1..] == Render(ts[1..]) && RenderableSeq(ts[1..])
  {
    j := i + |TokenText(ts[0])|;
    RenderableTail(ts);
    SplitAtSpace(chars, i, j, TokenText(ts[0]), Render(ts[1..]));
  }

  /** A rendering is readable once the rest after its first token is. */
  lemma ReadableHead(chars: seq<char>, i: nat, ts: seq<Token>)
    requires i <= |chars| && chars[i..] == Render(ts) && RenderableSeq(ts)
    requires |ts| > 1 ==> i + |TokenText(ts[0])| < |chars| && Readable(chars, i + |TokenText(ts[0])| + 1, ts[1..])
    ensures Readable(chars, i, ts)
  {
    if ts != [] {
      var j := i + |TokenText(ts[0])|;
      RenderableTail(ts);
      TextAtSlice(chars, i, TokenText(ts[0]));
      if |ts| == 1 {
        assert chars[i..j] == chars[i..];
      } else {
        SplitAtSpace(chars, i, j, TokenText(ts[0]), Render(ts[1..]));
      }
    }
  }

  lemma ConsJoin(acc: seq<Token>, ts: seq<Token>)
    requires |ts| > 0
    ensures acc + [ts[0]] + ts[1..] == acc + ts
    ensures |ts| == 1 ==> acc + ts == acc + [ts[0]]
  {
  }

  /** Scanning from `i` with nothing pending and `acc` read succeeds with
      `out`. */
  predicate LexesTo(chars: seq<char>, i: nat, acc: seq<Token>, out: seq<Token>)
    requires i <= |chars|
  {
    LexFrom(chars, i, UndefinedOrWhitespace, acc) == Lexed(out)
  }

  /** Reading readable text gives its tokens after those already read
      (`out` is `acc + ts`). */
  lemma {:induction false} LexReadable(chars: seq<char>, i: nat, acc: seq<Token>, ts: seq<Token>, out: seq<Token>)
    requires Readable(chars, i, ts) && out == acc + ts
    ensures LexesTo(chars, i, acc, out)
    decreases |ts|
  {
    if |ts| > 1 {
      var j := ReadableTail(chars, i, acc, ts, out);
      LexReadable(chars, j + 1, acc + [ts[0]], ts[1..], out);
    }
    LexReadableHead(chars, i, acc, ts, out);
  }

  /** The rest after the first token and its space is readable too. */
  lemma ReadableTail(chars: seq<char>, i: nat, acc: seq<Token>, ts: seq<Token>, out: seq<Token>) returns (j: nat)
    requires |ts| > 1 && Readable(chars, i, ts) && out == acc + ts
    ensures j == i + |TokenText(ts[0])| && j < |chars|
    ensures Readable(chars, j + 1, ts[1..]) && out == acc + [ts[0]] + ts[1..]
  {
    j := i + |TokenText(ts[0])|;
    ConsJoin(acc, ts);
  }

  /** Readable text reads as its tokens once the rest after the first
      token does. */
  lemma LexReadableHead(chars: seq<char>, i: nat, acc: seq<Token>, ts: seq<Token>, out: seq<Token>)
    requires Readable(chars, i, ts) && out == acc + ts
    requires |ts| > 1 ==> i + |TokenText(ts[0])| < |chars| &&
                          LexesTo(chars, i + |TokenText(ts[0])| + 1, acc + [ts[0]], out)
    ensures LexesTo(chars, i, acc, out)
  {
    if ts == [] {
      LexRenderEmpty(chars, i, acc, out);
    } else {
      ConsJoin(acc, ts);
      if |ts| == 1 {
        LexRenderLast(chars, i, acc, ts[0], out);
      } else {
        LexRenderStep(chars, i, i + |TokenText(ts[0])|, acc, ts[0], out);
      }
    }
  }

  lemma LexRenderEmpty(chars: seq<char>, i: nat, acc: seq<Token>, out: seq<Token>)
    requires i == |chars| && out == acc + []
    ensures LexesTo(chars, i, acc, out)
  {
    assert out == acc;
  }

  lemma LexRenderLast(chars: seq<char>, i: nat, acc: seq<Token>, t: Token, out: seq<Token>)
    requires Renderable(t) && t != Assign && t != Op(Not) && out == acc + [t]
    requires i + |TokenText(t)| == |chars| && TextAt(chars, i, TokenText(t))
    ensures LexesTo(chars, i, acc, out)
  {
    TextAtSlice(chars, i, TokenText(t));
    TokenStep(chars, i, |chars|, acc, t);
  }

  lemma LexRenderStep(chars: seq<char>, i: nat, j: nat, acc: seq<Token>, t: Token, out: seq<Token>)
    requires Renderable(t) && j == i + |TokenText(t)|
    requires j < |chars| && TextAt(chars, i, TokenText(t)) && chars[j] == ' '
    requires j + 1 <= |chars| && LexesTo(chars, j + 1, acc + [t], out)
    ensures LexesTo(chars, i, acc, out)
  {
    assert chars[i..j] == TokenText(t) by {
      TextAtSlice(chars, i, TokenText(t));
    }
    assert FollowedBySpace(chars, j) && j != |chars|;
    TokenStep(chars, i, j, acc, t);
    assert Continue(chars, j, acc + [t]) == LexFrom(chars, j + 1, UndefinedOrWhitespace, acc + [t]);
  }

  /** `tokenize` reads back what `Render` writes. */
  lemma LexRender(ts: seq<Token>)
    requires RenderableSeq(ts)
    ensures Lex(Render(ts)) == Lexed(ts)
  {
    ReadableRender(Render(ts), 0, ts);
    LexReadable(Render(ts), 0, [], ts, ts);
    assert LexesTo(Render(ts), 0, [], ts);
  }

  // ---------------------------------------------------------------------
  // The unit tests of src/lexer.rs, and the trailing `=`
  // ---------------------------------------------------------------------

  lemma SixPlusSix()
    ensures Lex("6 + 6") == Lexed([LiteralInteger(6), Op(Plus), LiteralInteger(6)])
  {
    var ts := [LiteralInteger(6), Op(Plus), LiteralInteger(6)];
    assert Render(ts) == "6 + 6";
    LexRender(ts);
  }

  lemma TenNotEqualsTwelve()
    ensures Lex("10 != 12") == Lexed([LiteralInteger(10), Op(NotEquals), LiteralInteger(12)])
  {
    var ts := [LiteralInteger(10), Op(NotEquals), LiteralInteger(12)];
    assert Render(ts) == "10 != 12";
    LexRender(ts);
  }

  lemma AssignOne()
    ensures Lex("x = 1") == Lexed([Identifier("x"), Assign, LiteralInteger(1)])
  {
    var ts := [Identifier("x"), Assign, LiteralInteger(1)];
    assert Render(ts) == "x = 1";
    LexRender(ts);
  }

  lemma NoneIsKeyword()
    ensures Lex("None") == Lexed([NoneKeyword])
  {
    assert Render([NoneKeyword]) == "None";
    LexRender([NoneKeyword]);
  }

  /** A literal with a '.' reads as a float literal with its text. */
  lemma DecimalNumber(chars: string)
    requires chars == "22.321"
    ensures Lex(chars) == Lexed([LiteralFloat(chars)])
  {
    assert AllDigits(chars[..2]) && AllDigits(chars[3..6]);
    ValidDecimalText(chars, 2, 6);
    FloatLiteralIn(chars, 2, 6);
  }

  /** A literal with a '.' and an exponent reads as one float literal. */
  lemma DecimalExponentNumber(chars: string)
    requires chars == "22.22e2"
    ensures Lex(chars) == Lexed([LiteralFloat(chars)])
  {
    assert AllDigits(chars[..2]) && AllDigits(chars[3..5]) && AllDigits(chars[6..]);
    ValidDecimalText(chars, 2, 5);
    FloatLiteralIn(chars, 2, 5);
  }

  /** The first occurrence is at `i` when `s[i]` is `c` and nothing
      before it is. */
  lemma IndexOfAt(s: string, c: char, i: nat)
    requires i < |s| && s[i] == c && c !in s[..i]
    ensures IndexOf(s, c) == i
  {
    IndexOfSpec(s, c);
  }

  /** Digits, '.', digits: a mantissa. */
  lemma ValidDecimalMantissa(m: string, dot: nat)
    requires 0 < dot < |m| && m[dot] == '.'
    requires AllDigits(m[..dot]) && AllDigits(m[dot + 1..])
    ensures ValidMantissa(m) && '.' in m && IsDigit(m[0])
  {
    assert m[..dot][0] == m[0];
    IndexOfAt(m, '.', dot);
  }

  /** Digits, '.', digits, then an exponent `e` and digits or nothing:
      text `str::parse::<f64>` accepts. */
  lemma ValidDecimalText(chars: string, dot: nat, e: nat)
    requires dot < e <= |chars| && chars[dot] == '.'
    requires 0 < dot && AllDigits(chars[..dot]) && AllDigits(chars[dot + 1..e])
    requires e == |chars| || (e + 1 < |chars| && chars[e] == 'e' && AllDigits(chars[e + 1..]))
    ensures ValidFloatText(chars)
  {
    var m := chars[..e];
    assert m[..dot] == chars[..dot] && m[dot + 1..] == chars[dot + 1..e];
    ValidDecimalMantissa(m, dot);
    assert StripSign(chars) == chars by { assert chars[0] == m[0]; }
    assert LowerAscii(chars)[0] == chars[0];
    assert LowerAscii(chars) !in {"inf", "infinity", "nan"};
    if e < |chars| {
      assert 'e' !in m by { assert forall k :: 0 <= k < |m| ==> m[k] == '.' || IsDigit(m[k]); }
      IndexOfAt(chars, 'e', e);
      var x := chars[e + 1..];
      assert StripSign(x) == x by { assert IsDigit(x[0]); }
    } else {
      assert m == chars;
      assert 'e' !in chars && 'E' !in chars by {
        assert forall k :: 0 <= k < |m| ==> m[k] == '.' || IsDigit(m[k]);
      }
      IndexOfSpec(chars, 'e');
      IndexOfSpec(chars, 'E');
    }
  }

  /** Digits, '.', digits, then an exponent `e` and digits or nothing:
      the literal scan reaches the end. */
  lemma FloatTextEnd(chars: string, dot: nat, e: nat)
    requires dot < e <= |chars| && chars[dot] == '.'
    requires 0 < dot && AllDigits(chars[..dot]) && AllDigits(chars[dot + 1..e])
    requires e == |chars| || (e + 1 < |chars| && chars[e] == 'e' && AllDigits(chars[e + 1..]))
    ensures IsNumeric(chars[0]) && NumberEnd(chars, 0) == |chars|
  {
    assert forall k :: 0 <= k < dot ==> chars[..dot][k] == chars[k];
    DigitsEndAt(chars, 0, dot);
    assert forall k :: dot + 1 <= k < e ==> chars[dot + 1..e][k - dot - 1] == chars[k];
    DigitsEndAt(chars, dot + 1, e);
    if e < |chars| {
      assert forall k :: e + 1 <= k < |chars| ==> chars[e + 1..][k - e - 1] == chars[k];
      DigitsEndAt(chars, e + 1, |chars|);
    } else {
      DigitsEndAt(chars, e, e);
    }
  }

  /** Such a literal, when `str::parse::<f64>` accepts it, is one float
      literal token. */
  lemma FloatLiteralIn(chars: string, dot: nat, e: nat)
    requires dot < e <= |chars| && chars[dot] == '.'
    requires 0 < dot && AllDigits(chars[..dot]) && AllDigits(chars[dot + 1..e])
    requires e == |chars| || (e + 1 < |chars| && chars[e] == 'e' && AllDigits(chars[e + 1..]))
    requires ValidFloatText(chars)
    ensures Lex(chars) == Lexed([LiteralFloat(chars)])
  {
    FloatTextEnd(chars, dot, e);
    assert chars[0..|chars|] == chars;
    assert StepAt(chars, 0, UndefinedOrWhitespace, []) == Next(|chars|, LiteralFloatText(chars), []);
    assert '.' in chars;
    assert ToToken(LiteralFloatText(chars)) == Some(LiteralFloat(chars));
    var none: seq<Token> := [];
    assert none + [LiteralFloat(chars)] == [LiteralFloat(chars)];
    assert StepAt(chars, |chars|, LiteralFloatText(chars), []) == Done(Lexed([LiteralFloat(chars)]));
    assert LexFrom(chars, |chars|, LiteralFloatText(chars), []) == Lexed([LiteralFloat(chars)]);
  }

  /** The `-` after the digits of a literal is eaten unconditionally, so
      `a-b` written without spaces is one literal text, which is no
      integer: the scan panics in `to_token`. */
  lemma {:induction false} MinusAbsorbed(a: nat, b: nat)
    ensures Lex(NatText(a) + "-" + NatText(b)) == Panic
  {
    var ta, tb := NatText(a), NatText(b);
    NatTextSpec(a);
    NatTextSpec(b);
    var chars := ta + "-" + tb;
    var j1 := |ta|;
    assert chars[j1] == '-';
    DigitsEndAt(chars, 0, j1);
    assert CharEnd(chars, j1, '.') == j1;
    DigitsEndAt(chars, j1, j1);
    assert CharEnd(chars, j1, 'e') == j1;
    assert CharEnd(chars, j1, '-') == j1 + 1;
    assert forall k :: j1 + 1 <= k < |chars| ==> chars[k] == tb[k - j1 - 1];
    DigitsEndAt(chars, j1 + 1, |chars|);
    assert NumberEnd(chars, 0) == |chars|;
    assert chars[0..|chars|] == chars;
    assert IsNumeric(chars[0]) by { assert chars[0] == ta[0]; }
    assert StepAt(chars, 0, UndefinedOrWhitespace, []) == Next(|chars|, LiteralFloatText(chars), []);
    assert '.' !in chars && 'e' !in chars by {
      assert forall k :: 0 <= k < |chars| ==> chars[k] == '-' || IsDigit(chars[k]);
    }
    assert !AllDigits(chars);
    assert ParseI128(chars) == None;
    assert StepAt(chars, |chars|, LiteralFloatText(chars), []) == Done(Panic);
    assert LexFrom(chars, |chars|, LiteralFloatText(chars), []) == Panic;
  }

  /** `6-6` panics where `6+6` and `6 - 6` read as three tokens. */
  lemma SixMinusSix()
    ensures Lex("6-6") == Panic
  {
    assert NatText(6) + "-" + NatText(6) == "6-6";
    MinusAbsorbed(6, 6);
  }

  /** `^` is no operator: the scan stops with an error. */
  lemma CaretUnrecognized()
    ensures Lex("10 ^ 12") == Unrecognized("Unrecognized token ^")
  {
    CaretUnrecognizedIn("10 ^ 12");
  }

  lemma CaretUnrecognizedIn(chars: string)
    requires chars == "10 ^ 12"
    ensures Lex(chars) == Unrecognized("Unrecognized token ^")
  {
    assert NatText(10) == "10";
    assert chars[0..2] == NatText(10) && chars[2] == ' ' && chars[3] == '^';
    OperatorsNonEmpty();
    IntegerThenUnrecognized(chars, 10);
  }

  /** An integer, a space, then a character that starts no token. */
  lemma IntegerThenUnrecognized(chars: string, v: nat)
    requires v <= I128Max
    requires var j := |NatText(v)|; j + 1 < |chars| && chars[0..j] == NatText(v) && chars[j] == ' '
    requires var c := chars[|NatText(v)| + 1];
      !IsNumeric(c) && c != ',' && !IsWhitespace(c) && !IsIdentStart(c) &&
      forall k :: 0 <= k < |Operators| ==> |Operators[k]| > 0 && Operators[k][0] != c
    ensures Lex(chars) == Unrecognized("Unrecognized token " + [chars[|NatText(v)| + 1]])
  {
    var j := |NatText(v)|;
    IntegerScan(chars, 0, j, [], v);
    IntegerText(v);
    ThenPending(chars, 0, j, LiteralFloatText(NatText(v)), [], LiteralInteger(v));
    UnrecognizedAt(chars, j + 1, [] + [LiteralInteger(v)]);
  }

  /** A character that starts no token stops the scan with its message. */
  lemma UnrecognizedAt(chars: seq<char>, i: nat, acc: seq<Token>)
    requires i < |chars|
    requires var c := chars[i]; !IsNumeric(c) && c != ',' && !IsWhitespace(c) && !IsIdentStart(c)
    requires forall k :: 0 <= k < |Operators| ==> |Operators[k]| > 0 && Operators[k][0] != chars[i]
    ensures LexFrom(chars, i, UndefinedOrWhitespace, acc) == Unrecognized("Unrecognized token " + [chars[i]])
  {
    MatchFirstNone(chars, i, Operators);
    assert StepAt(chars, i, UndefinedOrWhitespace, acc) == ScanWordAt(chars, i, acc);
  }

  /** No operator text holds a whitespace character. */
  lemma OperatorsHaveNoSpace()
    ensures forall k, m :: 0 <= k < |Operators| && 0 <= m < |Operators[k]| ==> !IsWhitespace(Operators[k][m])
  {
  }

  lemma NumberEndBefore(chars: seq<char>, i: nat, p: nat)
    requires i < p < |chars| && IsNumeric(chars[i]) && IsWhitespace(chars[p])
    ensures NumberEnd(chars, i) <= p
  {
    assert !IsNumeric(chars[p]);
    DigitsEndSpec(chars, i);
    var j1 := DigitsEnd(chars, i);
    assert j1 <= p;
    var j2 := CharEnd(chars, j1, '.');
    DigitsEndSpec(chars, j2);
    var j3 := DigitsEnd(chars, j2);
    assert j3 <= p;
    var j4 := CharEnd(chars, j3, 'e');
    var j5 := CharEnd(chars, j4, '-');
    DigitsEndSpec(chars, j5);
    var j6 := DigitsEnd(chars, j5);
    assert j6 <= p;
  }

  lemma IdentEndBefore(chars: seq<char>, i: nat, p: nat)
    requires i < p < |chars| && IsIdentStart(chars[i]) && IsWhitespace(chars[p])
    ensures IdentEnd(chars, i) <= p
  {
    IdentCharsEndSpec(chars, i + 1);
    var j := IdentCharsEnd(chars, i + 1);
    assert !IsIdentChar(chars[p]);
  }

  lemma OperatorEndBefore(chars: seq<char>, i: nat, p: nat, q: string)
    requires i < p < |chars| && IsWhitespace(chars[p])
    requires MatchOperator(chars, i) == Found(q)
    ensures i + |q| <= p
  {
    OperatorsNonEmpty();
    OperatorsHaveNoSpace();
    MatchFirstSpec(chars, i, Operators);
    assert q in Operators;
    assert chars[i..i + |q|] == q;
    assert forall m :: i <= m < i + |q| ==> chars[m] == q[m - i];
    assert forall m :: i <= m < i + |q| ==> !IsWhitespace(chars[m]);
  }

  /** `r` is the outcome of scanning from `p + 1` with `acc` done. */
  predicate ResumesAfter(chars: seq<char>, p: nat, acc: seq<Token>, r: LexResult)
  {
    p < |chars| && r == LexFrom(chars, p + 1, UndefinedOrWhitespace, acc)
  }

  /** A pass of the loop that starts before a whitespace character ends
      at or before it. */
  lemma StepBeforeSpace(chars: seq<char>, i: nat, pending: PartialToken, acc: seq<Token>, p: nat)
    requires i < p < |chars| && IsWhitespace(chars[p])
    ensures StepAt(chars, i, pending, acc).Next? ==> StepAt(chars, i, pending, acc).next <= p
  {
    match Commit(pending, acc)
    case None =>
    case Some(acc1) =>
      assert StepAt(chars, i, pending, acc) == Scan(chars, i, acc1);
      var c := chars[i];
      if IsNumeric(c) {
        NumberEndBefore(chars, i, p);
      } else if c != ',' && !IsWhitespace(c) {
        match MatchOperator(chars, i)
        case Overrun =>
        case Found(q) =>
          OperatorEndBefore(chars, i, p, q);
        case NoneMatched =>
          if IsIdentStart(c) {
            IdentEndBefore(chars, i, p);
          }
      }
  }

  /** No token spans a whitespace character: a scan that succeeds passes
      through the position after it with nothing pending. */
  lemma {:induction false} ScanPassesSpace(chars: seq<char>, i: nat, pending: PartialToken, acc: seq<Token>, p: nat)
    requires i <= p < |chars| && IsWhitespace(chars[p])
    ensures LexFrom(chars, i, pending, acc).Lexed? ==>
              exists acc' :: ResumesAfter(chars, p, acc', LexFrom(chars, i, pending, acc))
    decreases p - i
  {
    var s := StepAt(chars, i, pending, acc);
    if s.Next? {
      if i == p {
        var acc1 := Commit(pending, acc).value;
        assert s == Next(p + 1, UndefinedOrWhitespace, acc1);
        assert ResumesAfter(chars, p, acc1, LexFrom(chars, i, pending, acc));
      } else {
        StepBeforeSpace(chars, i, pending, acc, p);
        ScanPassesSpace(chars, s.next, s.pending, s.acc, p);
      }
    } else {
      assert !s.result.Lexed?;
    }
  }

  /** A scan that reaches a last character `=` or `!` panics: the
      two-character queries `!=` or `==` read past the end. */
  lemma LastAssignPanics(chars: seq<char>, q: nat, acc: seq<Token>)
    requires q + 1 == |chars| && (chars[q] == '=' || chars[q] == '!')
    ensures LexFrom(chars, q, UndefinedOrWhitespace, acc) == Panic
  {
    OperatorsNonEmpty();
    forall k | 0 <= k < 6
      ensures MatchPartialFrom(chars, q, Operators[k], 0) == Mismatch
    {
      FirstCharMismatch(chars, q, Operators[k]);
    }
    if chars[q] == '=' {
      FirstCharMismatch(chars, q, Operators[6]);
      assert MatchPartialFrom(chars, q, Operators[7], 0) == OutOfRange;
      MatchFirstOverrun(chars, q, Operators, 7);
    } else {
      assert MatchPartialFrom(chars, q, Operators[6], 0) == OutOfRange;
      MatchFirstOverrun(chars, q, Operators, 6);
    }
    assert StepAt(chars, q, UndefinedOrWhitespace, acc) == Done(Panic);
  }

  /** A trailing `=` or `!` after a space never tokenizes: `match_partial`
      tries `!=` or `==` first and reads the character after the end. */
  lemma TrailingAssignPanics(prefix: string, c: char)
    requires c == '=' || c == '!'
    ensures !Lex(prefix + [' ', c]).Lexed?
  {
    var chars := prefix + [' ', c];
    var p := |prefix|;
    assert chars[p] == ' ' && chars[p + 1] == c;
    ScanPassesSpace(chars, 0, UndefinedOrWhitespace, [], p);
    if Lex(chars).Lexed? {
      var acc' :| ResumesAfter(chars, p, acc', Lex(chars));
      LastAssignPanics(chars, p + 1, acc');
    }
  }
}
