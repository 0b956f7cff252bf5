// The bytecode compiler of src/bytecode/compiler.rs: expressions become
// straight-line stack code, statements are laid out one after another
// with absolute jump targets for `if`, `else`, `while` and `break`.
//
// Two offset computations in `compile_ast` are off (the jump past an
// `else`, and the body offset of a `while` that does not start at 0).
// The statement compiler therefore takes a `Layout`: `AsWritten` is the
// code as it stands, `Corrected` is the evidently intended layout, and
// the properties below are proved about `Corrected`.

module Compiler {
  import opened Wrappers

  /** The operators of this compiler's generation of the lexer. */
  datatype Operator =
    | Plus | Minus | Multiply | Divide
    | BitShiftLeft | BitShiftRight
    | Not | Equals | NotEquals | OpenParen | CloseParen
    | And | Or | Xor
    | Greater | GreaterEquals | Less | LessEquals

  /** The expression tree `compile_expr` receives. Floats are kept as
      their literal text. */
  datatype Expr =
    | IntegerValue(i: int)
    | FloatValue(f: string)
    | BooleanValue(b: bool)
    | StringValue(s: string)
    | BinaryOperation(lhs: Expr, op: Operator, rhs: Expr)
    | UnaryExpression(uop: Operator, operand: Expr)
    | FunctionCall(fname: string, params: seq<Expr>)
    | Variable(name: string)
    | Parenthesized(inner: Expr)

  datatype Const = Integer(i: int) | Float(f: string) | Boolean(b: bool) | String(s: string)

  datatype Instruction =
    | LoadConst(c: Const)
    | LoadMethod(methodName: string)
    | CallMethod(methodArgs: nat)
    | LoadFunction(functionName: string)
    | CallFunction(functionArgs: nat)
    | LoadName(name: string)
    | StoreName(storeName: string)
    | JumpIfFalseAndPopStack(ifTarget: nat)
    | JumpUnconditional(target: nat)
    /** A `break` whose loop is not yet known. */
    | UnresolvedBreak

  datatype IfBranch = IfBranch(expression: Expr, statements: seq<AST>)

  /** The `Option<Vec<AST>>` of an `else`. */
  datatype FinalElse = NoElse | Else(statements: seq<AST>)

  datatype AST =
    | Assign(variableName: string, expression: Expr)
    | StandaloneExpr(expr: Expr)
    | IfStatement(trueBranch: IfBranch, elifs: seq<IfBranch>, finalElse: FinalElse)
    | WhileStatement(condition: Expr, body: seq<AST>)
    | Break

  // ---------------------------------------------------------------------
  // Expressions
  // ---------------------------------------------------------------------

  /** The method a binary operator is dispatched to; `None` for the
      operators `compile_expr` panics on. */
  function BinaryDunder(op: Operator): Option<string>
  {
    match op
    case And => Some("__and__")
    case Or => Some("__or__")
    case Xor => Some("__xor__")
    case Plus => Some("__add__")
    case Minus => Some("__sub__")
    case Multiply => Some("__mul__")
    case Divide => Some("__truediv__")
    case Equals => Some("__eq__")
    case NotEquals => Some("__ne__")
    case Greater => Some("__gt__")
    case GreaterEquals => Some("__ge__")
    case Less => Some("__lt__")
    case LessEquals => Some("__le__")
    case _ => None
  }

  /** The method a unary operator is dispatched to. */
  function UnaryDunder(op: Operator): Option<string>
  {
    match op
    case Plus => Some("__pos__")
    case Not => Some("__not__")
    case Minus => Some("__neg__")
    case _ => None
  }

  /** `compile_expr`; `None` is its panic. */
  function CompileExpr(e: Expr): Option<seq<Instruction>>
    decreases e, 1
  {
    match e
    case IntegerValue(i) => Some([LoadConst(Integer(i))])
    case FloatValue(f) => Some([LoadConst(Float(f))])
    case BooleanValue(b) => Some([LoadConst(Boolean(b))])
    case StringValue(s) => Some([LoadConst(String(s))])
    case BinaryOperation(lhs, op, rhs) =>
      var l := CompileExpr(lhs);
      var r := CompileExpr(rhs);
      if BinaryDunder(op).None? || l.None? || r.None? then None
      else Some(l.value + [LoadMethod(BinaryDunder(op).value)] + r.value + [CallMethod(1)])
    case UnaryExpression(op, operand) =>
      var c := CompileExpr(operand);
      if UnaryDunder(op).None? || c.None? then None
      else Some(c.value + [LoadMethod(UnaryDunder(op).value)] + [CallMethod(0)])
    case FunctionCall(fname, params) =>
      var args := CompileArgs(params);
      if args.None? then None
      else Some([LoadFunction(fname)] + args.value + [CallFunction(|params|)])
    case Variable(name) => Some([LoadName(name)])
    case Parenthesized(_) => None
  }

  /** The argument loop of a call: each argument's code in order. */
  function CompileArgs(params: seq<Expr>): Option<seq<Instruction>>
    decreases params, 0
  {
    if params == [] then Some([])
    else
      var first := CompileExpr(params[0]);
      var rest := CompileArgs(params[1..]);
      if first.None? || rest.None? then None else Some(first.value + rest.value)
  }

  /** An expression `compile_expr` accepts: no parenthesized node (the
      parser removes those) and no operator without a dunder method. */
  predicate Compilable(e: Expr)
    decreases e, 1
  {
    match e
    case BinaryOperation(lhs, op, rhs) => BinaryDunder(op).Some? && Compilable(lhs) && Compilable(rhs)
    case UnaryExpression(op, operand) => UnaryDunder(op).Some? && Compilable(operand)
    case FunctionCall(_, params) => AllCompilable(params)
    case Parenthesized(_) => false
    case _ => true
  }

  predicate AllCompilable(params: seq<Expr>)
    decreases params, 0
  {
    params == [] || (Compilable(params[0]) && AllCompilable(params[1..]))
  }

  /** `compile_expr` panics exactly on the expressions that are not
      compilable. */
  lemma {:induction false} CompileExprDefined(e: Expr)
    ensures CompileExpr(e).Some? <==> Compilable(e)
    decreases e, 1
  {
    match e
    case BinaryOperation(lhs, op, rhs) =>
      CompileExprDefined(lhs);
      CompileExprDefined(rhs);
    case UnaryExpression(op, operand) =>
      CompileExprDefined(operand);
    case FunctionCall(_, params) =>
      CompileArgsDefined(params);
    case _ =>
  }

  lemma {:induction false} CompileArgsDefined(params: seq<Expr>)
    ensures CompileArgs(params).Some? <==> AllCompilable(params)
    decreases params, 0
  {
    if params != [] {
      CompileExprDefined(params[0]);
      CompileArgsDefined(params[1..]);
    }
  }

  // ---------------------------------------------------------------------
  // Stack discipline of compiled expressions
  // ---------------------------------------------------------------------

  /** How many values an instruction takes off the operand stack. A
      method call takes its arguments, the method and the receiver; a
      function call its arguments and the function; `LoadMethod` looks
      at the receiver and puts it back. */
  function Pops(i: Instruction): nat
  {
    match i
    case LoadMethod(_) => 1
    case CallMethod(n) => n + 2
    case CallFunction(n) => n + 1
    case StoreName(_) => 1
    case JumpIfFalseAndPopStack(_) => 1
    case _ => 0
  }

  /** How many values it then puts on the stack. */
  function Pushes(i: Instruction): nat
  {
    match i
    case LoadConst(_) => 1
    case LoadMethod(_) => 2
    case CallMethod(_) => 1
    case LoadFunction(_) => 1
    case CallFunction(_) => 1
    case LoadName(_) => 1
    case _ => 0
  }

  /** The stack depth after running straight-line code from depth `d`,
      or `None` when some instruction finds too few values. */
  function Depth(code: seq<Instruction>, d: nat): Option<nat>
  {
    if code == [] then Some(d)
    else if d < Pops(code[0]) then None
    else Depth(code[1..], d - Pops(code[0]) + Pushes(code[0]))
  }

  lemma {:induction false} DepthAppend(a: seq<Instruction>, b: seq<Instruction>, d: nat)
    ensures Depth(a + b, d) == if Depth(a, d).None? then None else Depth(b, Depth(a, d).value)
  {
    if a != [] {
      assert (a + b)[0] == a[0];
      assert (a + b)[1..] == a[1..] + b;
      if d >= Pops(a[0]) {
        DepthAppend(a[1..], b, d - Pops(a[0]) + Pushes(a[0]));
      }
    } else {
      assert a + b == b;
    }
  }

  /** Compiled code for an expression never underflows the stack and
      leaves exactly one more value on it: the expression's value. */
  lemma {:induction false} ExprPushesOne(e: Expr, d: nat)
    requires CompileExpr(e).Some?
    ensures Depth(CompileExpr(e).value, d) == Some(d + 1)
    decreases e, 1
  {
    match e
    case BinaryOperation(lhs, op, rhs) =>
      ExprPushesOne(lhs, d);
      ExprPushesOne(rhs, d + 2);
      BinaryCodeDepth(CompileExpr(lhs).value, BinaryDunder(op).value, CompileExpr(rhs).value, d);
    case UnaryExpression(op, operand) =>
      ExprPushesOne(operand, d);
      UnaryCodeDepth(CompileExpr(operand).value, UnaryDunder(op).value, d);
    case FunctionCall(fname, params) =>
      ArgsPushEach(params, d + 1);
      CallCodeDepth(fname, CompileArgs(params).value, |params|, d);
    case _ =>
  }

  lemma BinaryCodeDepth(l: seq<Instruction>, name: string, r: seq<Instruction>, d: nat)
    requires Depth(l, d) == Some(d + 1) && Depth(r, d + 2) == Some(d + 3)
    ensures Depth(l + [LoadMethod(name)] + r + [CallMethod(1)], d) == Some(d + 1)
  {
    var m := LoadMethod(name);
    DepthAppend(l, [m], d);
    DepthAppend(l + [m], r, d);
    DepthAppend(l + [m] + r, [CallMethod(1)], d);
  }

  lemma UnaryCodeDepth(c: seq<Instruction>, name: string, d: nat)
    requires Depth(c, d) == Some(d + 1)
    ensures Depth(c + [LoadMethod(name)] + [CallMethod(0)], d) == Some(d + 1)
  {
    var m := LoadMethod(name);
    DepthAppend(c, [m], d);
    DepthAppend(c + [m], [CallMethod(0)], d);
  }

  lemma CallCodeDepth(fname: string, a: seq<Instruction>, n: nat, d: nat)
    requires Depth(a, d + 1) == Some(d + 1 + n)
    ensures Depth([LoadFunction(fname)] + a + [CallFunction(n)], d) == Some(d + 1)
  {
    DepthAppend([LoadFunction(fname)], a, d);
    DepthAppend([LoadFunction(fname)] + a, [CallFunction(n)], d);
  }

  /** The argument code pushes one value per argument. */
  lemma {:induction false} ArgsPushEach(params: seq<Expr>, d: nat)
    requires CompileArgs(params).Some?
    ensures Depth(CompileArgs(params).value, d) == Some(d + |params|)
    decreases params, 0
  {
    if params != [] {
      ExprPushesOne(params[0], d);
      ArgsPushEach(params[1..], d + 1);
      DepthAppend(CompileExpr(params[0]).value, CompileArgs(params[1..]).value, d);
    }
  }

  // ---------------------------------------------------------------------
  // Statements
  // ---------------------------------------------------------------------

  datatype Layout = AsWritten | Corrected

  /** The target of the jump that ends a true branch followed by an
      `else`: the first position after the else code. As written it is
      one position further. */
  function ElseExit(layout: Layout, afterTrue: nat, elseLen: nat): nat
  {
    match layout
    case AsWritten => afterTrue + elseLen + 1
    case Corrected => afterTrue + elseLen
  }

  /** The absolute position of a loop body, for a `while` preceded by `p`
      instructions of a block placed at `offset`, whose condition code
      has `exprLen` instructions. As written the block's own `offset` is
      left out. */
  function BodyStart(layout: Layout, offset: nat, p: nat, exprLen: nat): nat
  {
    match layout
    case AsWritten => p + exprLen + 1
    case Corrected => offset + p + exprLen + 1
  }

  /** The `map` over a loop body that turns its breaks into jumps to the
      loop exit. */
  function ResolveBreaks(code: seq<Instruction>, exit: nat): (r: seq<Instruction>)
    ensures |r| == |code|
    ensures UnresolvedBreak !in r
  {
    if code == [] then []
    else [if code[0] == UnresolvedBreak then JumpUnconditional(exit) else code[0]]
         + ResolveBreaks(code[1..], exit)
  }

  /** A body without breaks passes through unchanged. */
  lemma {:induction false} ResolveBreaksNoBreak(code: seq<Instruction>, exit: nat)
    requires UnresolvedBreak !in code
    ensures ResolveBreaks(code, exit) == code
  {
    if code != [] {
      assert code[0] != UnresolvedBreak;
      assert UnresolvedBreak !in code[1..];
      ResolveBreaksNoBreak(code[1..], exit);
      assert [code[0]] + code[1..] == code;
    }
  }

  /** The code `compile_ast` appends for one statement `s` when `p`
      instructions precede it in a block placed at absolute `offset`;
      `None` is a panic. */
  function StmtCode(s: AST, offset: nat, p: nat, layout: Layout): Option<seq<Instruction>>
    decreases s, 0
  {
    match s
    case Assign(name, e) =>
      var c := CompileExpr(e);
      if c.None? then None else Some(c.value + [StoreName(name)])
    case StandaloneExpr(e) => CompileExpr(e)
    case IfStatement(trueBranch, _, finalElse) =>
      var cond := CompileExpr(trueBranch.expression);
      if cond.None? then None
      else
        var beforeIf := offset + p + |cond.value| + 1;
        var t := BlockCode(trueBranch.statements, beforeIf, 0, layout);
        if t.None? then None
        else if finalElse.NoElse? then
          Some(cond.value + [JumpIfFalseAndPopStack(beforeIf + |t.value|)] + t.value)
        else
          var afterTrue := beforeIf + |t.value| + 1;
          var f := BlockCode(finalElse.statements, afterTrue, 0, layout);
          if f.None? then None
          else
            Some(cond.value + [JumpIfFalseAndPopStack(afterTrue)] + t.value
                 + [JumpUnconditional(ElseExit(layout, afterTrue, |f.value|))] + f.value)
    case WhileStatement(condition, body) =>
      var beforeWhile := p + offset;
      var cond := CompileExpr(condition);
      if cond.None? then None
      else
        var bodyStart := BodyStart(layout, offset, p, |cond.value|);
        var b := BlockCode(body, bodyStart, 0, layout);
        if b.None? then None
        else
          var afterBody := bodyStart + |b.value| + 1;
          Some(cond.value + [JumpIfFalseAndPopStack(afterBody)]
               + ResolveBreaks(b.value, afterBody) + [JumpUnconditional(beforeWhile)])
    case Break => Some([UnresolvedBreak])
  }

  /** The code `compile_ast` appends for the statements `ast` when `p`
      instructions precede them in a block placed at `offset`. */
  function BlockCode(ast: seq<AST>, offset: nat, p: nat, layout: Layout): Option<seq<Instruction>>
    decreases ast, 1
  {
    if ast == [] then Some([])
    else
      var first := StmtCode(ast[0], offset, p, layout);
      if first.None? then None
      else
        var rest := BlockCode(ast[1..], offset, p + |first.value|, layout);
        if rest.None? then None else Some(first.value + rest.value)
  }

  /** `compile_ast(ast, offset)`. */
  function Compile(ast: seq<AST>, offset: nat, layout: Layout): Option<seq<Instruction>>
  {
    BlockCode(ast, offset, 0, layout)
  }

  /** Appending the code of a whole block to what precedes it. */
  function Then(prior: seq<Instruction>, rest: Option<seq<Instruction>>): Option<seq<Instruction>>
  {
    if rest.None? then None else Some(prior + rest.value)
  }

  lemma ThenAppend(a: seq<Instruction>, b: seq<Instruction>, rest: Option<seq<Instruction>>)
    ensures Then(a, Then(b, rest)) == Then(a + b, rest)
  {
    if rest.Some? {
      assert a + (b + rest.value) == (a + b) + rest.value;
    }
  }

  /** `compile_ast`: the loop over the statements, appending each
      statement's code to `allInstructions`. */
  method CompileAst(ast: seq<AST>, offset: nat, layout: Layout) returns (r: Option<seq<Instruction>>)
    ensures r == Compile(ast, offset, layout)
    decreases ast, 1
  {
    var allInstructions: seq<Instruction> := [];
    var k := 0;
    assert ast[k..] == ast;
    ghost var whole := BlockCode(ast, offset, 0, layout);
    assert whole.Some? ==> [] + whole.value == whole.value;
    while k < |ast|
      invariant 0 <= k <= |ast|
      invariant Compile(ast, offset, layout)
                == Then(allInstructions, BlockCode(ast[k..], offset, |allInstructions|, layout))
    {
      assert ast[k..][0] == ast[k] && ast[k..][1..] == ast[k + 1..];
      var code := CompileStatement(ast[k], offset, |allInstructions|, layout);
      if code.None? {
        return None;
      }
      ThenAppend(allInstructions, code.value,
                 BlockCode(ast[k + 1..], offset, |allInstructions| + |code.value|, layout));
      allInstructions := allInstructions + code.value;
      k := k + 1;
    }
    assert ast[k..] == [] && allInstructions + [] == allInstructions;
    r := Some(allInstructions);
  }

  /** The body of that loop for one statement `s`, preceded by `p`
      instructions of the block: the code appended, or `None` for a
      panic. */
  method CompileStatement(s: AST, offset: nat, p: nat, layout: Layout) returns (r: Option<seq<Instruction>>)
    ensures r == StmtCode(s, offset, p, layout)
    decreases s, 0
  {
    match s {
      case Assign(name, e) =>
        var c := CompileExpr(e);
        if c.None? {
          return None;
        }
        r := Some(c.value + [StoreName(name)]);
      case StandaloneExpr(e) =>
        r := CompileExpr(e);
      case IfStatement(trueBranch, _, finalElse) =>
        var cond := CompileExpr(trueBranch.expression);
        if cond.None? {
          return None;
        }
        var code := cond.value;
        var beforeIf := offset + p + |code| + 1;
        var t := CompileAst(trueBranch.statements, beforeIf, layout);
        if t.None? {
          return None;
        }
        match finalElse {
          case Else(elseAst) =>
            var afterTrue := beforeIf + |t.value| + 1;
            code := code + [JumpIfFalseAndPopStack(afterTrue)] + t.value;
            var f := CompileAst(elseAst, afterTrue, layout);
            if f.None? {
              return None;
            }
            var afterElse := ElseExit(layout, afterTrue, |f.value|);
            code := code + [JumpUnconditional(afterElse)] + f.value;
          case NoElse =>
            var afterTrue := beforeIf + |t.value|;
            code := code + [JumpIfFalseAndPopStack(afterTrue)] + t.value;
        }
        r := Some(code);
      case WhileStatement(condition, body) =>
        var beforeWhile := p + offset;
        var cond := CompileExpr(condition);
        if cond.None? {
          return None;
        }
        var bodyStart := BodyStart(layout, offset, p, |cond.value|);
        var b := CompileAst(body, bodyStart, layout);
        if b.None? {
          return None;
        }
        var afterBody := bodyStart + |b.value| + 1;
        var code := cond.value + [JumpIfFalseAndPopStack(afterBody)];
        code := code + ResolveBreaks(b.value, afterBody);
        code := code + [JumpUnconditional(beforeWhile)];
        r := Some(code);
      case Break =>
        r := Some([UnresolvedBreak]);
    }
  }

  // ---------------------------------------------------------------------
  // Jump targets
  // ---------------------------------------------------------------------

  /** A jump instruction's target lies in `[lo, hi]`. */
  predicate TargetWithin(ins: Instruction, lo: nat, hi: nat)
  {
    && (ins.JumpIfFalseAndPopStack? ==> lo <= ins.ifTarget <= hi)
    && (ins.JumpUnconditional? ==> lo <= ins.target <= hi)
  }

  /** Every jump of `code` lands in `[lo, hi]`. */
  predicate JumpsWithin(code: seq<Instruction>, lo: nat, hi: nat)
  {
    forall i :: 0 <= i < |code| ==> TargetWithin(code[i], lo, hi)
  }

  lemma JumpsWithinAppend(a: seq<Instruction>, b: seq<Instruction>, lo: nat, hi: nat)
    requires JumpsWithin(a, lo, hi) && JumpsWithin(b, lo, hi)
    ensures JumpsWithin(a + b, lo, hi)
  {
    forall i | 0 <= i < |a + b|
      ensures TargetWithin((a + b)[i], lo, hi)
    {
      if i >= |a| {
        assert (a + b)[i] == b[i - |a|];
      }
    }
  }

  lemma JumpsWithinWiden(code: seq<Instruction>, lo: nat, hi: nat, lo': nat, hi': nat)
    requires JumpsWithin(code, lo, hi) && lo' <= lo && hi <= hi'
    ensures JumpsWithin(code, lo', hi')
  {
  }

  lemma {:induction false} ResolveBreaksWithin(code: seq<Instruction>, exit: nat, lo: nat, hi: nat)
    requires JumpsWithin(code, lo, hi) && lo <= exit <= hi
    ensures JumpsWithin(ResolveBreaks(code, exit), lo, hi)
  {
    if code != [] {
      assert TargetWithin(code[0], lo, hi);
      assert JumpsWithin(code[1..], lo, hi) by {
        forall i | 0 <= i < |code[1..]|
          ensures TargetWithin(code[1..][i], lo, hi)
        {
          assert code[1..][i] == code[i + 1];
        }
      }
      ResolveBreaksWithin(code[1..], exit, lo, hi);
      var head := if code[0] == UnresolvedBreak then JumpUnconditional(exit) else code[0];
      assert JumpsWithin([head], lo, hi);
      JumpsWithinAppend([head], ResolveBreaks(code[1..], exit), lo, hi);
    }
  }

  /** Compiled expressions contain no jumps. */
  lemma {:induction false} ExprNoJumps(e: Expr, lo: nat, hi: nat)
    requires CompileExpr(e).Some?
    ensures JumpsWithin(CompileExpr(e).value, lo, hi)
    decreases e, 1
  {
    match e
    case BinaryOperation(lhs, op, rhs) =>
      ExprNoJumps(lhs, lo, hi);
      ExprNoJumps(rhs, lo, hi);
      var l := CompileExpr(lhs).value;
      JumpsWithinAppend(l, [LoadMethod(BinaryDunder(op).value)], lo, hi);
      JumpsWithinAppend(l + [LoadMethod(BinaryDunder(op).value)], CompileExpr(rhs).value, lo, hi);
      JumpsWithinAppend(l + [LoadMethod(BinaryDunder(op).value)] + CompileExpr(rhs).value,
                        [CallMethod(1)], lo, hi);
    case UnaryExpression(op, operand) =>
      ExprNoJumps(operand, lo, hi);
      var c := CompileExpr(operand).value;
      JumpsWithinAppend(c, [LoadMethod(UnaryDunder(op).value)], lo, hi);
      JumpsWithinAppend(c + [LoadMethod(UnaryDunder(op).value)], [CallMethod(0)], lo, hi);
    case FunctionCall(fname, params) =>
      ArgsNoJumps(params, lo, hi);
      JumpsWithinAppend([LoadFunction(fname)], CompileArgs(params).value, lo, hi);
      JumpsWithinAppend([LoadFunction(fname)] + CompileArgs(params).value,
                        [CallFunction(|params|)], lo, hi);
    case _ =>
  }

  lemma {:induction false} ArgsNoJumps(params: seq<Expr>, lo: nat, hi: nat)
    requires CompileArgs(params).Some?
    ensures JumpsWithin(CompileArgs(params).value, lo, hi)
    decreases params, 0
  {
    if params != [] {
      ExprNoJumps(params[0], lo, hi);
      ArgsNoJumps(params[1..], lo, hi);
      JumpsWithinAppend(CompileExpr(params[0]).value, CompileArgs(params[1..]).value, lo, hi);
    }
  }

  /** With the corrected layout, every jump a statement compiles to lands
      inside the statement's own code or on the first position after it:
      control never leaves a statement except by falling off its end. */
  lemma {:induction false} StmtJumpsWithin(s: AST, offset: nat, p: nat)
    requires StmtCode(s, offset, p, Corrected).Some?
    ensures var c := StmtCode(s, offset, p, Corrected).value;
            JumpsWithin(c, offset + p, offset + p + |c|)
    decreases s, 1
  {
    var c := StmtCode(s, offset, p, Corrected).value;
    var lo, hi := offset + p, offset + p + |c|;
    match s
    case Assign(name, e) =>
      ExprNoJumps(e, lo, hi);
      JumpsWithinAppend(CompileExpr(e).value, [StoreName(name)], lo, hi);
    case StandaloneExpr(e) =>
      ExprNoJumps(e, lo, hi);
    case IfStatement(_, _, _) =>
      IfJumpsWithin(s, offset, p);
    case WhileStatement(_, _) =>
      WhileJumpsWithin(s, offset, p);
    case Break =>
  }

  lemma {:induction false} IfJumpsWithin(s: AST, offset: nat, p: nat)
    requires s.IfStatement? && StmtCode(s, offset, p, Corrected).Some?
    ensures var c := StmtCode(s, offset, p, Corrected).value;
            JumpsWithin(c, offset + p, offset + p + |c|)
    decreases s, 0
  {
    var c := StmtCode(s, offset, p, Corrected).value;
    var lo, hi := offset + p, offset + p + |c|;
    var cond := CompileExpr(s.trueBranch.expression).value;
    ExprNoJumps(s.trueBranch.expression, lo, hi);
    var beforeIf := offset + p + |cond| + 1;
    var t := BlockCode(s.trueBranch.statements, beforeIf, 0, Corrected).value;
    BlockJumpsWithin(s.trueBranch.statements, beforeIf, 0);
    JumpsWithinWiden(t, beforeIf, beforeIf + |t|, lo, hi);
    if s.finalElse.NoElse? {
      JumpsWithinAppend(cond, [JumpIfFalseAndPopStack(beforeIf + |t|)], lo, hi);
      JumpsWithinAppend(cond + [JumpIfFalseAndPopStack(beforeIf + |t|)], t, lo, hi);
    } else {
      var afterTrue := beforeIf + |t| + 1;
      var f := BlockCode(s.finalElse.statements, afterTrue, 0, Corrected).value;
      BlockJumpsWithin(s.finalElse.statements, afterTrue, 0);
      JumpsWithinWiden(f, afterTrue, afterTrue + |f|, lo, hi);
      var jif := [JumpIfFalseAndPopStack(afterTrue)];
      var ju := [JumpUnconditional(afterTrue + |f|)];
      JumpsWithinAppend(cond, jif, lo, hi);
      JumpsWithinAppend(cond + jif, t, lo, hi);
      JumpsWithinAppend(cond + jif + t, ju, lo, hi);
      JumpsWithinAppend(cond + jif + t + ju, f, lo, hi);
    }
  }

  lemma {:induction false} WhileJumpsWithin(s: AST, offset: nat, p: nat)
    requires s.WhileStatement? && StmtCode(s, offset, p, Corrected).Some?
    ensures var c := StmtCode(s, offset, p, Corrected).value;
            JumpsWithin(c, offset + p, offset + p + |c|)
    decreases s, 0
  {
    var c := StmtCode(s, offset, p, Corrected).value;
    var lo, hi := offset + p, offset + p + |c|;
    var cond := CompileExpr(s.condition).value;
    ExprNoJumps(s.condition, lo, hi);
    var bodyStart := offset + p + |cond| + 1;
    var b := BlockCode(s.body, bodyStart, 0, Corrected).value;
    BlockJumpsWithin(s.body, bodyStart, 0);
    JumpsWithinWiden(b, bodyStart, bodyStart + |b|, lo, hi);
    var afterBody := bodyStart + |b| + 1;
    ResolveBreaksWithin(b, afterBody, lo, hi);
    var jif := [JumpIfFalseAndPopStack(afterBody)];
    JumpsWithinAppend(cond, jif, lo, hi);
    JumpsWithinAppend(cond + jif, ResolveBreaks(b, afterBody), lo, hi);
    JumpsWithinAppend(cond + jif + ResolveBreaks(b, afterBody), [JumpUnconditional(offset + p)], lo, hi);
  }

  /** The same for a block of statements. */
  lemma {:induction false} BlockJumpsWithin(ast: seq<AST>, offset: nat, p: nat)
    requires BlockCode(ast, offset, p, Corrected).Some?
    ensures var c := BlockCode(ast, offset, p, Corrected).value;
            JumpsWithin(c, offset + p, offset + p + |c|)
    decreases ast, 2
  {
    if ast != [] {
      var c := BlockCode(ast, offset, p, Corrected).value;
      var first := StmtCode(ast[0], offset, p, Corrected).value;
      var rest := BlockCode(ast[1..], offset, p + |first|, Corrected).value;
      StmtJumpsWithin(ast[0], offset, p);
      BlockJumpsWithin(ast[1..], offset, p + |first|);
      JumpsWithinWiden(first, offset + p, offset + p + |first|, offset + p, offset + p + |c|);
      JumpsWithinWiden(rest, offset + p + |first|, offset + p + |first| + |rest|,
                       offset + p, offset + p + |c|);
      JumpsWithinAppend(first, rest, offset + p, offset + p + |c|);
    }
  }

  /** A whole compiled program jumps only within itself or to its end. */
  lemma CompileJumpsWithin(ast: seq<AST>, offset: nat)
    requires Compile(ast, offset, Corrected).Some?
    ensures var c := Compile(ast, offset, Corrected).value;
            JumpsWithin(c, offset, offset + |c|)
  {
    BlockJumpsWithin(ast, offset, 0);
  }

  // ---------------------------------------------------------------------
  // Break resolution
  // ---------------------------------------------------------------------

  /** A `break` of `s` that no loop inside `s` encloses. */
  predicate LooseBreak(s: AST)
    decreases s, 0
  {
    match s
    case Break => true
    case IfStatement(trueBranch, _, finalElse) =>
      AnyLooseBreak(trueBranch.statements) || (finalElse.Else? && AnyLooseBreak(finalElse.statements))
    case _ => false
  }

  predicate AnyLooseBreak(ast: seq<AST>)
    decreases ast, 1
  {
    ast != [] && (LooseBreak(ast[0]) || AnyLooseBreak(ast[1..]))
  }

  lemma {:induction false} ExprNoBreak(e: Expr)
    requires CompileExpr(e).Some?
    ensures UnresolvedBreak !in CompileExpr(e).value
    decreases e, 1
  {
    match e
    case BinaryOperation(lhs, op, rhs) =>
      ExprNoBreak(lhs);
      ExprNoBreak(rhs);
    case UnaryExpression(op, operand) =>
      ExprNoBreak(operand);
    case FunctionCall(fname, params) =>
      ArgsNoBreak(params);
    case _ =>
  }

  lemma {:induction false} ArgsNoBreak(params: seq<Expr>)
    requires CompileArgs(params).Some?
    ensures UnresolvedBreak !in CompileArgs(params).value
    decreases params, 0
  {
    if params != [] {
      ExprNoBreak(params[0]);
      ArgsNoBreak(params[1..]);
    }
  }

  /** A statement's code keeps an unresolved break exactly when the
      statement has a `break` outside every loop: a loop resolves all
      the breaks of its body, including those nested in an `if`. */
  lemma {:induction false} StmtBreaks(s: AST, offset: nat, p: nat, layout: Layout)
    requires StmtCode(s, offset, p, layout).Some?
    ensures UnresolvedBreak in StmtCode(s, offset, p, layout).value <==> LooseBreak(s)
    decreases s, 0
  {
    match s
    case Assign(_, e) =>
      ExprNoBreak(e);
    case StandaloneExpr(e) =>
      ExprNoBreak(e);
    case IfStatement(trueBranch, _, finalElse) =>
      var cond := CompileExpr(trueBranch.expression).value;
      ExprNoBreak(trueBranch.expression);
      var beforeIf := offset + p + |cond| + 1;
      var t := BlockCode(trueBranch.statements, beforeIf, 0, layout).value;
      BlockBreaks(trueBranch.statements, beforeIf, 0, layout);
      if finalElse.Else? {
        BlockBreaks(finalElse.statements, beforeIf + |t| + 1, 0, layout);
      }
    case WhileStatement(condition, body) =>
      ExprNoBreak(condition);
    case Break =>
  }

  lemma {:induction false} BlockBreaks(ast: seq<AST>, offset: nat, p: nat, layout: Layout)
    requires BlockCode(ast, offset, p, layout).Some?
    ensures UnresolvedBreak in BlockCode(ast, offset, p, layout).value <==> AnyLooseBreak(ast)
    decreases ast, 1
  {
    if ast != [] {
      var first := StmtCode(ast[0], offset, p, layout).value;
      StmtBreaks(ast[0], offset, p, layout);
      BlockBreaks(ast[1..], offset, p + |first|, layout);
    }
  }

  // ---------------------------------------------------------------------
  // The layout of each statement
  // ---------------------------------------------------------------------

  /** An assignment leaves the stack as it found it: the value is pushed,
      then stored. */
  lemma AssignBalanced(name: string, e: Expr, offset: nat, p: nat, layout: Layout, d: nat)
    requires StmtCode(Assign(name, e), offset, p, layout).Some?
    ensures Depth(StmtCode(Assign(name, e), offset, p, layout).value, d) == Some(d)
  {
    ExprPushesOne(e, d);
    DepthAppend(CompileExpr(e).value, [StoreName(name)], d);
  }

  /** An `if` without `else`: the condition, a conditional jump to the end
      of the statement, the true branch compiled for the position right
      after that jump. `elif` branches are dropped. */
  lemma IfLayout(trueBranch: IfBranch, elifs: seq<IfBranch>, offset: nat, p: nat, layout: Layout)
    requires StmtCode(IfStatement(trueBranch, elifs, NoElse), offset, p, layout).Some?
    ensures var c := StmtCode(IfStatement(trueBranch, elifs, NoElse), offset, p, layout).value;
            var n := |CompileExpr(trueBranch.expression).value|;
            && n < |c|
            && c[..n] == CompileExpr(trueBranch.expression).value
            && c[n] == JumpIfFalseAndPopStack(offset + p + |c|)
            && Compile(trueBranch.statements, offset + p + n + 1, layout) == Some(c[n + 1..])
            && c == StmtCode(IfStatement(trueBranch, [], NoElse), offset, p, layout).value
  {
    var c := StmtCode(IfStatement(trueBranch, elifs, NoElse), offset, p, layout).value;
    var cond := CompileExpr(trueBranch.expression).value;
    assert c[..|cond|] == cond;
    assert c[|cond| + 1..] == BlockCode(trueBranch.statements, offset + p + |cond| + 1, 0, layout).value;
  }

  /** An `if` with `else`, corrected layout: the conditional jump lands on
      the first instruction of the else code, which is compiled for that
      position, and the jump closing the true branch lands on the first
      position after the statement. */
  lemma IfElseLayout(trueBranch: IfBranch, elifs: seq<IfBranch>, els: seq<AST>, offset: nat, p: nat)
    requires StmtCode(IfStatement(trueBranch, elifs, Else(els)), offset, p, Corrected).Some?
    ensures var c := StmtCode(IfStatement(trueBranch, elifs, Else(els)), offset, p, Corrected).value;
            var n := |CompileExpr(trueBranch.expression).value|;
            var j := n + 1 + |Compile(trueBranch.statements, offset + p + n + 1, Corrected).value|;
            && j < |c|
            && c[n] == JumpIfFalseAndPopStack(offset + p + j + 1)
            && c[j] == JumpUnconditional(offset + p + |c|)
            && Compile(els, offset + p + j + 1, Corrected) == Some(c[j + 1..])
  {
    var c := StmtCode(IfStatement(trueBranch, elifs, Else(els)), offset, p, Corrected).value;
    var n := |CompileExpr(trueBranch.expression).value|;
    var j := n + 1 + |Compile(trueBranch.statements, offset + p + n + 1, Corrected).value|;
    assert c[j + 1..] == BlockCode(els, offset + p + j + 1, 0, Corrected).value;
  }

  /** As written, the jump closing the true branch lands one position past
      the end of the `if` statement: on the second instruction of what
      follows, or past the end of the code. */
  lemma IfElseOvershoots(trueBranch: IfBranch, elifs: seq<IfBranch>, els: seq<AST>, offset: nat, p: nat)
    requires StmtCode(IfStatement(trueBranch, elifs, Else(els)), offset, p, AsWritten).Some?
    ensures var c := StmtCode(IfStatement(trueBranch, elifs, Else(els)), offset, p, AsWritten).value;
            var n := |CompileExpr(trueBranch.expression).value|;
            var j := n + 1 + |Compile(trueBranch.statements, offset + p + n + 1, AsWritten).value|;
            && j < |c|
            && c[j] == JumpUnconditional(offset + p + |c| + 1)
            && !JumpsWithin(c, offset + p, offset + p + |c|)
  {
    var c := StmtCode(IfStatement(trueBranch, elifs, Else(els)), offset, p, AsWritten).value;
    var n := |CompileExpr(trueBranch.expression).value|;
    var j := n + 1 + |Compile(trueBranch.statements, offset + p + n + 1, AsWritten).value|;
    assert !TargetWithin(c[j], offset + p, offset + p + |c|);
  }

  /** A `while`, corrected layout: the condition, a conditional jump to
      the first position after the loop, the body compiled for its own
      position with its breaks turned into jumps to that same exit, and a
      jump back to the condition. */
  lemma WhileLayout(condition: Expr, body: seq<AST>, offset: nat, p: nat)
    requires StmtCode(WhileStatement(condition, body), offset, p, Corrected).Some?
    ensures var c := StmtCode(WhileStatement(condition, body), offset, p, Corrected).value;
            var n := |CompileExpr(condition).value|;
            && n + 2 <= |c|
            && c[..n] == CompileExpr(condition).value
            && c[n] == JumpIfFalseAndPopStack(offset + p + |c|)
            && c[|c| - 1] == JumpUnconditional(offset + p)
            && Compile(body, offset + p + n + 1, Corrected).Some?
            && c[n + 1..|c| - 1]
               == ResolveBreaks(Compile(body, offset + p + n + 1, Corrected).value, offset + p + |c|)
  {
    var c := StmtCode(WhileStatement(condition, body), offset, p, Corrected).value;
    var n := |CompileExpr(condition).value|;
    assert c[..n] == CompileExpr(condition).value;
    assert c[n + 1..|c| - 1]
        == ResolveBreaks(Compile(body, offset + p + n + 1, Corrected).value, offset + p + |c|);
  }

  /** As written, the loop's exit jump and its breaks target a position
      `offset` too small: only a loop in a block placed at 0 (the top
      level) exits where it should. */
  lemma WhileExitAsWritten(condition: Expr, body: seq<AST>, offset: nat, p: nat)
    requires StmtCode(WhileStatement(condition, body), offset, p, AsWritten).Some?
    ensures var c := StmtCode(WhileStatement(condition, body), offset, p, AsWritten).value;
            var n := |CompileExpr(condition).value|;
            && n < |c|
            && c[n] == JumpIfFalseAndPopStack(offset + p + |c| - offset)
  {
  }

  // ---------------------------------------------------------------------
  // Two programs the layout as written gets wrong
  // ---------------------------------------------------------------------

  /** `if x: y = 2 else: y = 3` followed by `z = 4`. The nine
      instructions are the condition (0), the conditional jump (1), the
      true branch (2-3), the jump closing it (4), the else branch (5-6)
      and `z = 4` (7-8). As written the jump at 4 lands on index 8, the
      `StoreName("z")`, skipping the `LoadConst(4)` that starts the next
      statement; corrected, it lands on index 7. */
  lemma IfElseSkipsNextInstruction(layout: Layout, x: string, y: string, z: string, v2: int, v3: int, v4: int)
    ensures var prog := [IfStatement(IfBranch(Variable(x), [Assign(y, IntegerValue(v2))]), [],
                                     Else([Assign(y, IntegerValue(v3))])),
                         Assign(z, IntegerValue(v4))];
            && Compile(prog, 0, layout).Some?
            && var c := Compile(prog, 0, layout).value;
               && |c| == 9
               && c[1] == JumpIfFalseAndPopStack(5)
               && c[4] == JumpUnconditional(if layout == AsWritten then 8 else 7)
               && c[7] == LoadConst(Integer(v4))
               && c[8] == StoreName(z)
  {
    var yes := [Assign(y, IntegerValue(v2))];
    var no := [Assign(y, IntegerValue(v3))];
    var next := [Assign(z, IntegerValue(v4))];
    var ifs := IfStatement(IfBranch(Variable(x), yes), [], Else(no));
    assert yes[1..] == [] && no[1..] == [] && next[1..] == [] && ([ifs] + next)[1..] == next;
    var c2 := [LoadConst(Integer(v2)), StoreName(y)];
    var c3 := [LoadConst(Integer(v3)), StoreName(y)];
    var c4 := [LoadConst(Integer(v4)), StoreName(z)];
    assert [LoadConst(Integer(v2))] + [StoreName(y)] == c2;
    assert [LoadConst(Integer(v3))] + [StoreName(y)] == c3;
    assert [LoadConst(Integer(v4))] + [StoreName(z)] == c4;
    assert StmtCode(yes[0], 2, 0, layout) == Some(c2);
    assert StmtCode(no[0], 5, 0, layout) == Some(c3);
    assert StmtCode(next[0], 0, 7, layout) == Some(c4);
    assert BlockCode([], 2, 2, layout) == BlockCode([], 5, 2, layout) == BlockCode([], 0, 9, layout) == Some([]);
    assert BlockCode(yes, 2, 0, layout) == Some(c2 + []);
    assert BlockCode(no, 5, 0, layout) == Some(c3 + []);
    assert BlockCode(next, 0, 7, layout) == Some(c4 + []);
    assert c2 + [] == c2 && c3 + [] == c3 && c4 + [] == c4;
    var exit := if layout == AsWritten then 8 else 7;
    var c1 := [LoadName(x)] + [JumpIfFalseAndPopStack(5)] + c2 + [JumpUnconditional(exit)] + c3;
    assert StmtCode(ifs, 0, 0, layout) == Some(c1);
    assert Compile([ifs] + next, 0, layout) == Some(c1 + c4);
  }

  /** `while a:` around `while b:` with an empty inner body. The inner
      loop occupies indices 2-4; as written its exit jump at index 3
      targets index 3, itself, where the corrected layout targets
      index 5, the outer loop's jump back. */
  lemma NestedWhileExitsIntoItself(layout: Layout, a: string, b: string)
    ensures Compile([WhileStatement(Variable(a), [WhileStatement(Variable(b), [])])], 0, layout)
            == Some([LoadName(a), JumpIfFalseAndPopStack(6),
                     LoadName(b), JumpIfFalseAndPopStack(if layout == AsWritten then 3 else 5),
                     JumpUnconditional(2), JumpUnconditional(0)])
  {
    var innerLoop := WhileStatement(Variable(b), []);
    var prog := [WhileStatement(Variable(a), [innerLoop])];
    assert [innerLoop][1..] == [] && prog[1..] == [];
    var exit := if layout == AsWritten then 3 else 5;
    var inner := [LoadName(b), JumpIfFalseAndPopStack(exit), JumpUnconditional(2)];
    assert BlockCode([], BodyStart(layout, 2, 0, 1), 0, layout) == Some([]);
    assert ResolveBreaks([], exit) == [];
    assert StmtCode(innerLoop, 2, 0, layout)
        == Some([LoadName(b)] + [JumpIfFalseAndPopStack(exit)] + [] + [JumpUnconditional(2)]);
    assert [LoadName(b)] + [JumpIfFalseAndPopStack(exit)] + [] + [JumpUnconditional(2)] == inner;
    assert BlockCode([innerLoop][1..], 2, 3, layout) == Some([]);
    assert BlockCode([innerLoop], 2, 0, layout) == Some(inner + []);
    assert inner + [] == inner;
    ResolveBreaksNoBreak(inner, 6);
    var outer := [LoadName(a)] + [JumpIfFalseAndPopStack(6)] + inner + [JumpUnconditional(0)];
    assert StmtCode(prog[0], 0, 0, layout) == Some(outer);
    assert BlockCode(prog[1..], 0, 6, layout) == Some([]);
    assert Compile(prog, 0, layout) == Some(outer + []);
    assert outer + [] == [LoadName(a), JumpIfFalseAndPopStack(6),
                          LoadName(b), JumpIfFalseAndPopStack(exit), JumpUnconditional(2),
                          JumpUnconditional(0)];
  }
}
