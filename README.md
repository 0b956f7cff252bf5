# horse, modelled in Dafny

horse is a small Python interpreter written in Rust, with a few builtins written in
Python. This project models its core in Dafny and proves properties of the model:

- **The lazy iteration protocol** of the Python builtins `range`, `list_iterator`, `map`
  and `filter` (`iterators.dfy`). Each is a class with mutable fields whose `Next`
  returns `None` for StopIteration. A ghost `Remaining()` sequence gives the
  materialisation, sticky-exhaustion, order and composition laws.
- **The front end**:
  - the index-driven tokenizer with its pending-token buffer (`lexer.dfy`);
  - the two-stack operator-precedence parser with its tree rotation (`parser.dfy`);
  - the tree-walking evaluator with int/float coercion (`tree_interpreter.dfy`);
  - the bytecode compiler with its absolute jump layout for `if`/`else`/`while`/`break`
    (`compiler.dfy`, with instruction and code-object declarations in `program.dfy`).
- **The older index-based runtime**: the `Memory` free list and the `Interpreter` stack
  machine of `src/runtime.rs` (`index_runtime.dfy`), and the handlers of
  `src/bytecode/instructions.rs` (`old_instructions.dfy`).
- **The address-based runtime**:
  - payloads and accessors of both data-model generations (`runtime_datamodel.dfy`,
    `old_datamodel.dfy`);
  - the `UnsafeMemory` free-list allocator (`unsafe_memory.dfy`), with addresses as
    naturals (0 is the null address) and the heap as a map;
  - stack frames and local slots (`frames.dfy`);
  - refcounts, type-chain method lookup and module namespaces (`object_space.dfy`);
  - the `VM` of `src/runtime/vm.rs` (`vm.dfy`) and the `Runtime` of
    `src/runtime/runtime.rs` (`runtime_object.dfy`);
  - the instruction handlers shared by both interpreters (`handlers.dfy`);
  - the two interpreters, `src/runtime/interpreter.rs` (`runtime_interpreter.dfy`) and
    `src/bytecode/interpreter.rs` (`bytecode_interpreter.dfy`).
- **The builtin types** `int`, `bool`, `str` and `list`: their native methods as
  functions on a heap, their registration tables and the registration itself
  (`natives.dfy`, `int_type.dfy`, `boolean_type.dfy`, `string_type.dfy`, `list_type.dfy`).
  Shared helpers: `i128` bounds and truncating division (`int128.dfy`), decimal
  rendering and parsing (`decimal.dfy`), `Option`/`Result` (`wrappers.dfy`), sequence reversal (`sequences.dfy`).

**Shape of the model.** Code that changes state in place is a class:

- `Range`, `Tokenizer`, `Memory`, `Interpreter`, `UnsafeMemory`, `VM` and `Runtime`.

Each of their methods is proved against a function on a value snapshot of the state.
The snapshot functions are the `...In` functions on `MemState` and `Machine`. The
properties of the source are proved as lemmas about those functions.

**Callees.** Code the model cannot see is a function parameter:

- running a user function (`run_function`), a `Runner`;
- a native callable's body, a `NativeRunner` (a `Native` in the index-based runtime);
- float arithmetic.

A callee is given the heap and returns the heap it leaves, so its allocations,
frees and count changes reach the caller. Its type promises only what the memory
operations themselves keep: a well-formed heap stays well formed (an exact free
list in the index-based runtime).

**Unbounded loops.** The two unbounded loops of the source carry a fuel bound:

- the supertype walk;
- the fetch-execute loop.

**Source versus intent.** The model follows the code as written, also where the code
evidently means something else. Examples:

- `>=` on ints is bound to `<=`;
- `str` and `list` register `__neq__` where `!=` looks up `__ne__`;
- the bytecode interpreter generates `>=` and `<=` from `>`.

Each such discrepancy is listed under "## Findings". There, the model gives both the
code as written and the corrected behaviour.

## Model

| member | source | states |
|---|---|---|
| Sequences.Reverse | src/runtime/vm.rs:33-34 | reversal keeps the length |
| Sequences.ReverseSpec | src/runtime/vm.rs:33-34 | entry `i` of the reversal is entry `len - 1 - i` of the input |
| Sequences.ReverseInvolution | src/runtime/vm.rs:33-34 | reversing twice gives the input back |
| Sequences.ReverseSnoc | src/bytecode/instructions.rs:21-25 | reversing after a push puts the pushed value first, so the values popped into the temporary stack come back in push order |
| Iterators.SourceNext | stdlib/__builtins__/map.py:7 | `__next__` on any of the four iterator classes pops the head of what remains, or answers StopIteration exactly when nothing remains |
| Iterators.CallIter | stdlib/__builtins__/map.py:4 | `iterable.__iter__()`: `range`, `map` and `filter` return themselves; `list_iterator` has no `__iter__`, so the call fails; a list gives a fresh `list_iterator` at index 0 |
| Iterators.CallIterAsWritten | src/builtin_types/list_type.rs:150-165 | as the builtins bind `__iter__`, a list and a `list_iterator` have none, so the call fails on them; `range`, `map` and `filter` return themselves |
| Iterators.Range.constructor | stdlib/__builtins__/range.py:2-4 | a new range has `current = 0` and the given `max`; what remains is 0, 1, …, max-1 |
| Iterators.Range.Next | stdlib/__builtins__/range.py:6-12 | returns `current` and adds exactly 1 when `current < max`; otherwise raises StopIteration and leaves `current` unchanged, so exhaustion is sticky |
| Iterators.Range.Iter | stdlib/__builtins__/range.py:14-15 | `__iter__` returns the same object, with its progress |
| Iterators.ListIterator.constructor | stdlib/__builtins__/list_iterator.py:2-4 | stores the list and `index_cur = 0`; what remains is the whole list |
| Iterators.ListIterator.Next | stdlib/__builtins__/list_iterator.py:6-12 | bounds check before the index: returns `list[index_cur]` and advances by 1, or raises StopIteration exactly when `index_cur >= len(list)`, changing nothing |
| Iterators.Map.constructor | stdlib/__builtins__/map.py:2-4 | stores the function and the inner iterator; what remains is the function applied to what the inner iterator has left |
| Iterators.Map.Next | stdlib/__builtins__/map.py:6-8 | calls the inner `__next__` exactly once: the inner iterator's remainder loses exactly its head (and stays empty when it was empty); returns the function of that head; the inner StopIteration passes through, and the function is not applied after it |
| Iterators.Map.Iter | stdlib/__builtins__/map.py:10-11 | `__iter__` returns the same object |
| Iterators.NewMap | stdlib/__builtins__/map.py:2-4 | `map(f, it)` calls `it.__iter__()` once; it fails exactly when that call does, and otherwise the map yields `f` over the inner elements |
| Iterators.Filter.constructor | stdlib/__builtins__/filter.py:2-4 | stores the predicate in `mapping_function` and the inner iterator; what remains is the inner remainder filtered by the predicate |
| Iterators.Filter.Next | stdlib/__builtins__/filter.py:6-10 | every value returned satisfies the predicate and is the head of what the filter had left; the inner iterator is left just past that value, having consumed a prefix in which it is the only accepted element and the last one; on inner exhaustion StopIteration propagates and the inner iterator is left empty; the loop ends because each turn consumes one inner element |
| Iterators.Filter.Iter | stdlib/__builtins__/filter.py:12-13 | `__iter__` returns the same object |
| Iterators.NewFilter | stdlib/__builtins__/filter.py:2-4 | `filter(p, it)` calls `it.__iter__()` once; it fails exactly when that call does, and otherwise yields the inner elements that satisfy `p` |
| Iterators.Drain | src/runtime/interpreter.rs:721-740 | calling `__next__` until StopIteration, as `ForIter` does, collects exactly what the iterator had left, in order, and leaves it exhausted |
| Iterators.IntervalSpec | stdlib/__builtins__/range.py:3-12 | the values of a range count up by one from the start and are none when the bound is not above the start |
| Iterators.MapSeqSpec | stdlib/__builtins__/map.py:7-8 | mapping keeps the length, and element k of the result is `f` of element k |
| Iterators.FilterSeqSpec | stdlib/__builtins__/filter.py:7-10 | every value kept satisfies the predicate; each satisfying value is kept as often as it occurs, and nothing else is kept |
| Iterators.FilterSeqAppend | stdlib/__builtins__/filter.py:7-10 | filtering keeps input order: filtering a concatenation gives the concatenation of the filtered parts |
| Iterators.FilterOfMap | stdlib/__builtins__/filter.py:6-10 | `filter(p, map(f, s))` yields what `map(f, filter(p∘f, s))` yields |
| Iterators.MaterialiseRange | stdlib/__builtins__/range.py:1-15 | `list(range(b))` is `[0, 1, …, b-1]` in ascending order, and empty when `b <= 0` |
| Iterators.MaterialiseMap | stdlib/__builtins__/map.py:1-11 | `list(map(f, items))` is `f` applied to every item, in order |
| Iterators.MaterialiseFilterOfMap | stdlib/__builtins__/filter.py:1-13 | a filter over a map over a list yields the composed sequence |
| Iterators.SharedRangeUnderMap | stdlib/__builtins__/range.py:14-15 | a caller that keeps the range it handed to `map` sees the map's progress: after `next(map(f, r))` returns `f(0)`, `next(r)` returns 1 |
| Iterators.SharedRangeUnderFilter | stdlib/__builtins__/filter.py:7-10 | a caller that keeps the range it handed to `filter(is_even, ·)` sees what the filter consumed: after the filter returns 0 and 2, `next(r)` returns 3 |
| Iterators.ForLoopFilter | pytests/for_loop_filter.py:8-10 | `list(filter(is_even, [1..9]))` is `[2, 4, 6, 8]` |
| Iterators.EvensUpToNine | pytests/for_loop_filter.py:1-4 | the even numbers among 1..9 are 2, 4, 6, 8 |
| Lexer.DigitsEndSpec | src/lexer.rs:144-152 | the run `eat_numbers` consumes is maximal: every character in it is a digit, and it stops at the end or at a non-digit |
| Lexer.IdentCharsEndSpec | src/lexer.rs:163-167 | the tail `eat_identifier` consumes is maximal: alphanumerics and `_` up to the end or to the first other character |
| Lexer.CharEnd | src/lexer.rs:172-180 | `eat_char(c)` advances by one exactly when the next character is `c` |
| Lexer.NumberEnd | src/lexer.rs:226-234 | a numeric literal covers at least its first digit and stays inside the input |
| Lexer.IdentEnd | src/lexer.rs:154-170 | an identifier covers at least its first character and stays inside the input |
| Lexer.MatchPartialFrom | src/lexer.rs:199-209 | a match never lies past the end of the input |
| Lexer.MatchPartialFromSpec | src/lexer.rs:199-209 | `match_partial` reports a match exactly when the query text lies in the input at the position; running off the end is a panic, not a mismatch |
| Lexer.MatchFirst | src/lexer.rs:211-220 | what `match_first_and_advance` finds is non-empty and lies inside the input |
| Lexer.MatchFirstSpec | src/lexer.rs:211-220 | what is found is one of the queries, and the input holds it at the position |
| Lexer.MatchFirstAt | src/lexer.rs:211-220 | the first query that matches wins once every earlier one has mismatched |
| Lexer.MatchFirstOverrun | src/lexer.rs:199-220 | an earlier query that runs off the input panics before any later query is tried |
| Lexer.MatchFirstNone | src/lexer.rs:211-220 | when no query starts with the current character, nothing is found and the index does not move |
| Lexer.MatchOperator | src/lexer.rs:223 | an operator found by the scan is non-empty and lies inside the input |
| Lexer.StepAt | src/lexer.rs:224-257 | each pass of the `while can_go()` loop that goes on moves the index strictly forward, so the loop ends |
| Lexer.Scan | src/lexer.rs:225-255 | the branches of the loop body at the current character move the index strictly forward |
| Lexer.ScanWordAt | src/lexer.rs:245-255 | an operator or identifier read moves the index strictly forward |
| Lexer.Tokenizer.constructor | src/lexer.rs:110-118 | a new tokenizer is at index 0 with the characters of the source, nothing pending, no tokens and an empty buffer |
| Lexer.Tokenizer.EatNumbers | src/lexer.rs:144-152 | advances to the end of the maximal digit run, appends exactly the characters passed to the buffer, and reports whether it ate any |
| Lexer.Tokenizer.EatIdentifier | src/lexer.rs:154-170 | panics exactly at the end of the input (the unguarded `cur() == '_'`); eats nothing unless the first character is a letter or `_`; otherwise eats the whole identifier into the buffer |
| Lexer.Tokenizer.EatChar | src/lexer.rs:172-180 | eats one character exactly when it is the one asked for, appending it to the buffer |
| Lexer.Tokenizer.CommitCurrentToken | src/lexer.rs:182-193 | with nothing pending changes nothing; otherwise clears the pending token and appends its `to_token`, which may panic |
| Lexer.Tokenizer.MatchPartial | src/lexer.rs:199-209 | agrees with `MatchPartialFrom`: match, mismatch, or the out-of-range read |
| Lexer.Tokenizer.MatchFirstAndAdvance | src/lexer.rs:211-220 | agrees with `MatchFirst` and advances by the length of what it found, and only then |
| Lexer.Tokenizer.ScanToken | src/lexer.rs:225-255 | one pass of the loop body agrees with `Scan`: the same next index, pending token and tokens, or the same end of the scan |
| Lexer.Tokenizer.EatLiteral | src/lexer.rs:226-235 | the numeric branch ends at `NumberEnd` and leaves the literal's exact text pending |
| Lexer.Tokenizer.ScanWord | src/lexer.rs:245-255 | the operator-or-identifier branch agrees with `ScanWordAt` |
| Lexer.Tokenizer.Tokenize | src/lexer.rs:222-259 | `tokenize` returns what `Lex` defines: the tokens, the `Unrecognized token` error, or a panic |
| Lexer.OperatorFound | src/lexer.rs:211-223 | the operator order makes `!=` and `==` win over `!` and `=`, and every operator or `=` followed by a space is read as itself |
| Lexer.OperatorOfText | src/lexer.rs:80-94 | `to_token` maps each operator text back to its operator, and no operator text starts with a digit, `,` or whitespace |
| Lexer.OperatorsHaveNoSpace | src/lexer.rs:223 | no operator text contains whitespace |
| Lexer.IntegerText | src/lexer.rs:66-77 | decimal digits without `.` or `e` that fit an `i128` become an integer literal of that value |
| Lexer.IntegerScan | src/lexer.rs:226-235 | the digits of an integer followed by a space or the end are read in one pass into a pending literal |
| Lexer.IdentifierScan | src/lexer.rs:249-253 | an identifier followed by a space or the end is read in one pass into a pending identifier |
| Lexer.CommaScan | src/lexer.rs:241-245 | `,` commits a Comma token at once and moves past it |
| Lexer.OperatorScan | src/lexer.rs:245-248 | an operator followed by a space (or the end, except `=` and `!`) is emitted at once |
| Lexer.AfterSpace | src/lexer.rs:237-240 | whitespace with nothing pending yields no token |
| Lexer.AfterPending | src/lexer.rs:225-257 | a pending token is committed exactly once, by the next pass or by the final commit |
| Lexer.TokenStep | src/lexer.rs:222-257 | one renderable token followed by a space or the end is emitted exactly once, in order |
| Lexer.ScanPassesSpace | src/lexer.rs:237-240 | no token spans whitespace: a scan that succeeds passes the position after each space with nothing pending |
| Lexer.LexRender | src/lexer.rs:222-259 | `tokenize` reads back what is written out with single spaces, for every sequence of renderable tokens: the tokens come out in input order |
| Lexer.LastAssignPanics | src/lexer.rs:199-209 | a last character `=` or `!` makes `match_partial` read past the end, a panic rather than a token or an error |
| Lexer.TrailingAssignPanics | src/lexer.rs:199-223 | no text ending in a space and `=` or `!` tokenizes |
| Lexer.UnrecognizedAt | src/lexer.rs:253-255 | a character that starts no token ends the scan with `Unrecognized token` and that character |
| Lexer.IntegerThenUnrecognized | src/lexer.rs:253-255 | an integer, a space, then a character that starts no token gives the error for that character |
| Lexer.CaretUnrecognized | src/lexer.rs:343-349 | `10 ^ 12` is an error |
| Lexer.SixPlusSix | src/lexer.rs:375-388 | `6 + 6` reads as integer, plus, integer |
| Lexer.TenNotEqualsTwelve | src/lexer.rs:329-340 | `10 != 12` reads as integer, not-equals, integer |
| Lexer.AssignOne | src/lexer.rs:487-495 | `x = 1` reads as identifier, assign, integer |
| Lexer.NoneIsKeyword | src/lexer.rs:498-504 | `None` reads as the keyword, not as an identifier |
| Lexer.DecimalNumber | src/lexer.rs:282-286 | `22.321` reads as one float literal |
| Lexer.DecimalExponentNumber | src/lexer.rs:289-293 | `22.22e2` reads as one float literal |
| Lexer.ValidDecimalText | src/lexer.rs:66-72 | digits, `.`, digits and an optional `e` exponent are text `parse::<f64>` accepts, so `to_token` does not panic on them |
| Lexer.FloatLiteralIn | src/lexer.rs:66-235 | such a literal is a whole-input float literal token |
| Lexer.MinusAbsorbed | src/lexer.rs:66-232 | a `-` right after digits is eaten into the literal, so `a-b` without spaces makes `to_token` panic |
| Lexer.SixMinusSix | src/lexer.rs:232 | `6-6` panics, although `6+6` reads as three tokens |
| Parser.Precedence | src/parser.rs:32-38 | `*` and `/` have precedence 100 and every other operator has precedence 1 |
| Parser.ParseTokens | src/parser.rs:40-127 | the two-stack loop returns what `Parse` defines: the single operand left, or a panic (operators left, several operands, none) |
| Parser.FeedToken | src/parser.rs:45-111 | one pass of the loop body changes the two stacks exactly as `Feed` does: push the token, then combine when it was an operand with another operand and an operator beneath |
| Parser.CombineRoots | src/parser.rs:68-107 | the combine step with both rotations as written equals `Combine` |
| Parser.CombineLeafRight | src/parser.rs:91-107 | when the right operand is a leaf, the second rotation does nothing |
| Parser.FeedUsesLeftRotationOnly | src/parser.rs:61-111 | a combine happens only right after an operand is pushed, so its right operand is that leaf and only the left rotation can apply |
| Parser.StackBalance | src/parser.rs:45-111 | each operand pushes one operand, each operator one operator, and each combine pops two operands and one operator and pushes one operand |
| Parser.ParsedBalance | src/parser.rs:114-126 | a successful parse read exactly one more operand than operators |
| Parser.EmptyPanics | src/parser.rs:122-124 | no tokens: the `Empty operand stack` panic |
| Parser.TrailingOperatorPanics | src/parser.rs:114-116 | a trailing operator is never popped: the `Unparsed operators` panic |
| Parser.Tokens | src/parser.rs:45 | an infix token list with n operators has 2n + 1 tokens |
| Parser.LastLow | src/parser.rs:73-78 | the index found is the last low-precedence operator: there is none after it |
| Parser.RefTermRoot | src/parser.rs:73-78 | with no low operator, the tree's root is a leaf or a `*` or `/` |
| Parser.RefSnoc | src/parser.rs:64-89 | appending `op x` to the input changes the two-level grammar tree exactly as one combine step, with its rotation, changes the operand on the stack |
| Parser.RefSnocTerm | src/parser.rs:68-71 | a high operator with no low one before it extends the product to the left-associated term |
| Parser.RefSnocRotate | src/parser.rs:73-88 | a high operator after a low one rotates: it binds the low operation's right child |
| Parser.FedInfix | src/parser.rs:45-112 | reading infix input leaves exactly the grammar tree on the operand stack and no operator |
| Parser.ParseInfix | src/parser.rs:40-127 | for every infix token list, `parse` gives the tree of the usual two-level grammar: `*` and `/` bind tighter, and equal precedence associates to the left |
| Parser.MulBindsRight | src/parser.rs:231-250 | `1 + 2 * 3` gives `1 + (2 * 3)` |
| Parser.MulBindsLeft | src/parser.rs:275-294 | `1 * 2 + 3` gives `(1 * 2) + 3` |
| Parser.PlusAssociatesLeft | src/parser.rs:170-190 | `1 + 2 + 3` gives `(1 + 2) + 3` |
| Parser.PrefixAccepted | src/parser.rs:45-111 | the loop never checks that operands and operators alternate: `+ 1 2` parses as `1 + 2` |
| TreeInterpreter.FromDynToDyn | src/interpreter.rs:18-26 | `from_dyn` reads back exactly the number that was boxed |
| TreeInterpreter.FromDynFails | src/interpreter.rs:18-26 | `from_dyn` fails with the conversion error exactly on a box that holds neither an `i128` nor an `f64`; otherwise it returns what the box holds |
| TreeInterpreter.CoerceTypesSpec | src/interpreter.rs:28-34 | after coercion both operands are of one kind: both float when exactly one was, and both unchanged otherwise |
| TreeInterpreter.IntegerOpArith | src/interpreter.rs:74-82 | on `+`, `-` and `*` the integer operation is the arithmetic result while it fits `i128`, and the overflow panic otherwise |
| TreeInterpreter.DivideIsFloat | src/interpreter.rs:41-48 | `/` of two integers is the float division of their conversions |
| TreeInterpreter.CoercedOperands | src/interpreter.rs:36-95 | once coerced, the operands never meet the uncoerced-types error |
| TreeInterpreter.EvalIntArith | src/interpreter.rs:85-96 | for every tree of `i128` literals under `+`, `-` and `*`, `eval` computes its value, and panics exactly when some subtree's value leaves `i128` |
| TreeInterpreter.OnePlusTwoTimesThree | src/interpreter.rs:85-96 | `1 + 2 * 3`, parsed and evaluated, is 7 |
| TreeInterpreter.ParenthesizedUnimplemented | src/interpreter.rs:97-99 | a parenthesized expression hits `unimplemented!()` |
| Compiler.CompileExprDefined | src/bytecode/compiler.rs:7-84 | `compile_expr` panics exactly on an expression that holds a parenthesized node or an operator with no method name |
| Compiler.CompileArgsDefined | src/bytecode/compiler.rs:65-77 | the argument loop succeeds exactly when every argument compiles |
| Compiler.DepthAppend | src/bytecode/compiler.rs:37-41 | running appended code is running the first part, then the second from the depth the first leaves |
| Compiler.ExprPushesOne | src/bytecode/compiler.rs:7-84 | compiled expression code never underflows the operand stack and leaves exactly one more value on it: receiver, method, argument and call balance out |
| Compiler.ArgsPushEach | src/bytecode/compiler.rs:70-72 | argument code pushes one value per argument |
| Compiler.ResolveBreaks | src/bytecode/compiler.rs:152-158 | resolving keeps the body's length and leaves no unresolved break |
| Compiler.ResolveBreaksNoBreak | src/bytecode/compiler.rs:152-158 | a body without breaks passes through unchanged |
| Compiler.ThenAppend | src/bytecode/compiler.rs:91-168 | appending two pieces of code one after the other is appending their concatenation |
| Compiler.CompileAst | src/bytecode/compiler.rs:91-168 | the loop over the statements returns what `Compile` defines, or the panic of a statement that does not compile |
| Compiler.CompileStatement | src/bytecode/compiler.rs:93-165 | the code the loop body appends for one statement is `StmtCode` for its position: assignment, expression, `if` with or without `else`, `while`, `break` |
| Compiler.JumpsWithinAppend | src/bytecode/compiler.rs:91-168 | jumps that land in a range still do after concatenation |
| Compiler.JumpsWithinWiden | src/bytecode/compiler.rs:91-168 | jumps that land in a range land in any wider range |
| Compiler.ResolveBreaksWithin | src/bytecode/compiler.rs:152-158 | after resolution to an exit inside the range, the body's jumps stay inside the range |
| Compiler.ExprNoJumps | src/bytecode/compiler.rs:7-84 | compiled expressions contain no jumps |
| Compiler.ArgsNoJumps | src/bytecode/compiler.rs:70-72 | compiled arguments contain no jumps |
| Compiler.StmtJumpsWithin | src/bytecode/compiler.rs:93-165 | with the corrected layout, every jump of a statement's code lands inside the statement or on the first position after it |
| Compiler.IfJumpsWithin | src/bytecode/compiler.rs:103-140 | the same for an `if`, with or without `else`, corrected |
| Compiler.WhileJumpsWithin | src/bytecode/compiler.rs:142-162 | the same for a `while`, its breaks included, corrected |
| Compiler.BlockJumpsWithin | src/bytecode/compiler.rs:91-168 | the same for a block of statements, corrected |
| Compiler.CompileJumpsWithin | src/bytecode/compiler.rs:87-89 | a whole program compiled with the corrected layout jumps only within itself or to its end |
| Compiler.ExprNoBreak | src/bytecode/compiler.rs:7-84 | expression code holds no unresolved break |
| Compiler.ArgsNoBreak | src/bytecode/compiler.rs:70-72 | argument code holds no unresolved break |
| Compiler.StmtBreaks | src/bytecode/compiler.rs:142-165 | a statement's code still holds an unresolved break exactly when it has a `break` outside any loop, including one nested in an `if` or `else` |
| Compiler.BlockBreaks | src/bytecode/compiler.rs:91-168 | the same for a block of statements |
| Compiler.AssignBalanced | src/bytecode/compiler.rs:95-98 | an assignment leaves the operand stack as it found it: the value is pushed, then stored |
| Compiler.IfLayout | src/bytecode/compiler.rs:106-139 | an `if` without `else` is the condition, then a conditional jump to the first position after the statement, then the true branch compiled for its own position; `elif` branches are dropped |
| Compiler.IfElseLayout | src/bytecode/compiler.rs:118-133 | corrected: the conditional jump lands on the first instruction of the else code, which is compiled for that position, and the jump closing the true branch lands on the first position after the statement |
| Compiler.IfElseOvershoots | src/bytecode/compiler.rs:131-132 | as written, the jump closing the true branch lands one past the end of the statement, outside its code |
| Compiler.WhileLayout | src/bytecode/compiler.rs:142-162 | corrected: the condition, a conditional jump past the loop, the body compiled for its position with its breaks turned into jumps to that exit, and a jump back to the condition |
| Compiler.WhileExitAsWritten | src/bytecode/compiler.rs:146-150 | as written, the exit jump of a loop in a block placed at `offset` lands `offset` positions too early |
| Compiler.IfElseSkipsNextInstruction | src/bytecode/compiler.rs:131-132 | in `if x: y = 2 else: y = 3` then `z = 4`, as written the true branch jumps to the `StoreName` of `z`, skipping its `LoadConst`; corrected, it jumps to the `LoadConst` |
| Compiler.NestedWhileExitsIntoItself | src/bytecode/compiler.rs:146-150 | in `while a: while b: pass`, as written the inner loop's exit jump targets itself; corrected, it targets the outer loop's jump back |
| IndexRuntime.Memory.constructor | src/runtime.rs:59-62 | a new memory has no cells and nothing freed, and satisfies the free-list invariant |
| IndexRuntime.Memory.Get | src/runtime.rs:67-83 | `get` succeeds exactly on a live cell (in range and valid), and otherwise panics |
| IndexRuntime.Memory.Write | src/runtime.rs:85-102 | `write` succeeds exactly where `get` would, replaces that one cell's data so that `get` reads it back, and keeps the free list and its invariant |
| IndexRuntime.Memory.Deallocate | src/runtime.rs:104-123 | `deallocate` invalidates a live cell and pushes its index on the free list; an invalid cell is the double-free panic and changes nothing |
| IndexRuntime.Memory.Allocate | src/runtime.rs:125-155 | with nothing freed, a new valid cell is appended and its index returned; otherwise the most recently freed index is reused (LIFO), and a reused cell that is already valid panics; under the invariant it never panics |
| IndexRuntime.Memory.AllocateAndWrite | src/runtime.rs:157-161 | the address returned was not live before and now reads back the data; no other address changes; fresh cells are appended and freed ones reused in LIFO order |
| IndexRuntime.PopAfterPush | src/runtime.rs:703-712 | `push_stack` fails exactly without a frame and grows only the last frame's operand stack, by the value; `pop_stack` undoes it |
| IndexRuntime.PushAfterPop | src/runtime.rs:703-712 | `pop_stack` fails exactly without a frame or on an empty operand stack; it returns the top, and pushing it back restores the frames |
| IndexRuntime.LocalAfterBind | src/runtime.rs:723-735 | a name bound in the last frame reads back as bound, and every other name keeps its binding |
| IndexRuntime.CheckBuiltinFuncParams | src/runtime.rs:757-764 | panics exactly when the received argument count differs from the expected one, with both counts |
| IndexRuntime.Interpreter.constructor | src/runtime.rs:189-286 | one empty frame, pc 0, the builtin objects in cells 0 to 7 with the special values pointing at them, and the builtin module registered at cell 7 |
| IndexRuntime.Interpreter.GetPyObjByAddr | src/runtime.rs:390-392 | panics exactly on a dead address, and is `None` exactly when the live cell holds something other than a Python object |
| IndexRuntime.Interpreter.FindInModuleObjects | src/runtime.rs:381-388 | where a module's namespace is readable, `find_in_module` is a lookup in it |
| IndexRuntime.Interpreter.GetTypeMethodAddrByName | src/runtime.rs:404-424 | a method is found only among the type's own bounded functions, with the address registered there; a dead type address panics |
| IndexRuntime.Interpreter.BoundedFunctionCallByAddr | src/runtime.rs:608-656 | a successful call ran the method's native code on the current heap with the receiver bound, its own address, its name and the arguments, and gives the heap and the address that code left |
| IndexRuntime.Interpreter.UnboundedFunctionCallByAddr | src/runtime.rs:658-687 | succeeds exactly on a callable, and then runs its native code on the current heap with nothing bound, giving the heap and the address that code left |
| IndexRuntime.Interpreter.AddToModule | src/runtime.rs:337-373 | succeeds exactly when the module is readable and the name is new; the module's namespace then gains the name and nothing else changes |
| IndexRuntime.Interpreter.CreateType | src/runtime.rs:288-335 | on success the type object is freshly allocated, registered under its name, and its methods, and only they, are found by `get_type_method_addr_byname` |
| IndexRuntime.Interpreter.AllocateTypeByNameRaw | src/runtime.rs:474-504 | fails exactly when the builtin type is missing; otherwise a fresh object of that type whose raw payload reads back, with every live cell unchanged |
| IndexRuntime.Interpreter.NewStackFrame | src/runtime.rs:689-696 | pushes one empty frame and changes nothing else |
| IndexRuntime.Interpreter.PopStackFrame | src/runtime.rs:714-721 | returns and removes the last frame; with no frame it is the panic and changes nothing |
| IndexRuntime.Interpreter.PushStack | src/runtime.rs:710-712 | the frames become what `PushOn` gives, and only the frames change |
| IndexRuntime.Interpreter.PopStack | src/runtime.rs:703-708 | returns the top of the last operand stack and the frames without it, or panics and changes nothing |
| IndexRuntime.Interpreter.BindLocal | src/runtime.rs:723-728 | binds the name in the last frame, failing only with no frame |
| IndexRuntime.Interpreter.GetLocal | src/runtime.rs:730-735 | the binding in the last frame, or the panic of `unwrap` on an unbound name |
| IndexRuntime.Interpreter.JumpPc | src/runtime.rs:751-755 | adds the delta to the pc and returns the new pc; nothing else changes |
| OldInstructions.DepthSnoc | src/bytecode/instructions.rs:111-129 | the depth after one more instruction is that instruction's pops and pushes applied to the depth before |
| OldInstructions.MethodCallPushesOne | src/bytecode/instructions.rs:20-88 | `recv.m(a, b)` laid out as receiver, method, arguments and call leaves exactly one value: the receiver, method and arguments are consumed |
| OldInstructions.PopArguments | src/bytecode/instructions.rs:21-25 | popping `n` values one at a time and reversing gives the top `n` values in push order and removes exactly them; it panics exactly when the operand stack holds fewer |
| OldInstructions.HandleMethodCall | src/bytecode/instructions.rs:20-39 | succeeds exactly when the call does; the arguments keep their push order, the method sits below them and the receiver below that, and all `n + 2` are replaced by the address the native code returns; the heap becomes the one the native code left, still with an exact free list, and a panic leaves the heap as it was |
| OldInstructions.PopMethodCallOperands | src/bytecode/instructions.rs:20-28 | succeeds exactly when there is a frame with at least `n + 2` values; gives the arguments in push order, then the method and the receiver beneath them, and leaves the stack below all three, with nothing else changed |
| OldInstructions.HandleFunctionCall | src/bytecode/instructions.rs:41-58 | the same without a receiver: the function and its `n` arguments are replaced by the address the native code returns, and the heap becomes the one it left |
| OldInstructions.HandleLoadConst | src/bytecode/instructions.rs:60-71 | a fresh object of the builtin `int` or `float` type holding the constant is pushed; it fails exactly when that type is missing or there is no frame; other live cells are untouched |
| OldInstructions.HandleLoadMethod | src/bytecode/instructions.rs:73-88 | the receiver stays on the stack and its type's method is pushed above it; a missing method is the `type has no method` panic |
| OldInstructions.HandleLoadFunction | src/bytecode/instructions.rs:90-99 | the builtin module's entry of that name is pushed; a missing one is the `module has no object/function` panic |
| OldInstructions.Dispatch | src/bytecode/instructions.rs:116-127 | each instruction changes the operand stack by its own pops and pushes and leaves the pc alone |
| OldInstructions.ExecuteInstructions | src/bytecode/instructions.rs:102-130 | the loop runs from the current pc to the end, advancing by one after each instruction; a run without panic leaves the pc at the end and the operand stack at the depth `Depth` computes, the frames below untouched |
| OldDataModel.TakeInt | src/datamodel.rs:42-47 | succeeds exactly on an `Int` payload and gives back the integer it holds; any other payload is the panic |
| OldDataModel.TakeFloat | src/datamodel.rs:35-40 | succeeds exactly on a `Float` payload and gives back its value; any other payload panics |
| OldDataModel.TakeString | src/datamodel.rs:49-54 | succeeds exactly on a `String` payload and gives back its text; any other payload panics |
| OldDataModel.TakeList | src/datamodel.rs:56-61 | succeeds exactly on a `List` payload and gives back its element addresses; any other payload panics |
| OldDataModel.UpdateList | src/datamodel.rs:63-68 | a change through `take_list_mut` succeeds exactly on a list, and `take_list` then reads the new items |
| OldDataModel.TryGetBuiltin | src/datamodel.rs:117-129 | there is a payload exactly when the object is a plain `Object`, and it is that object's raw data |
| OldDataModel.Upgrade | src/datamodel.rs:13-19 | an older payload never becomes a `ClassInstance` in the newer data model |
| OldDataModel.UpgradeAgrees | src/datamodel.rs:21-68 | the older and newer data models render and read (int, float, string, list) every common payload alike |
| RuntimeDataModel.ToStringSpec | src/runtime/datamodel.rs:23-34 | a 128-bit integer's rendering parses back to it; a string renders as its text inside `String "…"`; a list is `a list`; a class instance is `class instance` |
| RuntimeDataModel.TakeInt | src/runtime/datamodel.rs:44-49 | succeeds exactly on an `Int` payload and gives back its integer; any other payload panics |
| RuntimeDataModel.TakeFloat | src/runtime/datamodel.rs:37-42 | succeeds exactly on a `Float` payload and gives back its value; any other payload panics |
| RuntimeDataModel.TakeString | src/runtime/datamodel.rs:51-56 | succeeds exactly on a `String` payload and gives back its text; any other payload panics |
| RuntimeDataModel.TakeList | src/runtime/datamodel.rs:58-63 | succeeds exactly on a `List` payload and gives back its element addresses; any other payload panics |
| RuntimeDataModel.UpdateList | src/runtime/datamodel.rs:65-70 | a change through `take_list_mut` succeeds exactly on a list payload |
| RuntimeDataModel.UpdateListSeen | src/runtime/datamodel.rs:58-70 | what is written through `take_list_mut` is what `take_list` reads next, and writing back the same items changes nothing |
| RuntimeDataModel.TryGetBuiltin | src/runtime/datamodel.rs:125-135 | there is a payload exactly when the object is a plain `Object`, and it is that object's raw data |
| RuntimeDataModel.BuiltinObject | src/runtime/memory.rs:279-287 | the object `allocate_and_write_builtin` writes carries the given payload and type, is not const and has no properties |
| RuntimeDataModel.EmptyType | src/runtime/runtime.rs:284-293 | the type object `create_type` writes has empty method and function tables and no builtin payload |
| UnsafeMemory.CheckMem | src/runtime/memory.rs:202-206 | passes exactly when the address is not on the recently-deallocated list |
| UnsafeMemory.GetIn | src/runtime/memory.rs:213-227 | a read succeeds exactly on a live, non-null, allocated address; a freed address panics first, then a null one |
| UnsafeMemory.WriteIn | src/runtime/memory.rs:221-227 | a write through `get_mut` succeeds exactly where a read would |
| UnsafeMemory.MakeConstIn | src/runtime/memory.rs:229-232 | `make_const` succeeds exactly on an allocated address that is not on the free list (it has no null check) |
| UnsafeMemory.DeallocateIn | src/runtime/memory.rs:234-246 | `deallocate` succeeds exactly where a read would |
| UnsafeMemory.AllocateSpec | src/runtime/memory.rs:248-264 | the address handed out was not readable before, is non-null and reads back the object written; every other readable address keeps its object, nothing else becomes readable, and the heap stays well formed |
| UnsafeMemory.DeallocateThenAllocate | src/runtime/memory.rs:245-256 | freeing a non-const object and allocating again hands back the same address and leaves the free list as it was |
| UnsafeMemory.DoubleDeallocate | src/runtime/memory.rs:202-246 | after a deallocation, a second deallocation and every read of that address panic as recently deallocated |
| UnsafeMemory.DeallocateConst | src/runtime/memory.rs:239-243 | deallocating a const object changes nothing and the object stays readable |
| UnsafeMemory.DeallocatePreserves | src/runtime/memory.rs:234-246 | a successful deallocation keeps the heap well formed: the free list holds distinct, non-const, allocated objects |
| UnsafeMemory.MakeConstPreserves | src/runtime/memory.rs:229-232 | `make_const` keeps the heap well formed, marks that object const and changes no other address |
| UnsafeMemory.WritePreserves | src/runtime/memory.rs:221-227 | a write keeps the heap well formed, the address reads back what was written, and every other address reads as before |
| UnsafeMemory.AllocateBuiltinSpec | src/runtime/memory.rs:266-300 | on a well-formed heap the debug assertion against reusing a const object never fires, and the address holds the builtin payload with refcount 0 |
| UnsafeMemory.UnsafeMemory.constructor | src/runtime/memory.rs:196-200 | a new heap is empty with an empty free list, and is well formed |
| UnsafeMemory.UnsafeMemory.Get | src/runtime/memory.rs:213-219 | a read succeeds exactly on a readable address and gives back the object stored there |
| UnsafeMemory.UnsafeMemory.Write | src/runtime/memory.rs:221-227 | an assignment through `get_mut` succeeds exactly on a readable address, replaces only that object, leaves the state unchanged on a panic and keeps the heap well formed |
| UnsafeMemory.UnsafeMemory.MakeConst | src/runtime/memory.rs:229-232 | marks the object const when the address is allocated and not freed, leaves the state unchanged on a panic and keeps the heap well formed |
| UnsafeMemory.UnsafeMemory.Deallocate | src/runtime/memory.rs:234-246 | panics exactly as `DeallocateIn` does, otherwise pushes a non-const address onto the free list, and keeps the heap well formed |
| UnsafeMemory.UnsafeMemory.AllocateAndWrite | src/runtime/memory.rs:248-264 | reuses the most recently freed address or a fresh one; the object reads back, no other readable address changes, and the heap stays well formed |
| UnsafeMemory.UnsafeMemory.AllocateAndWriteBuiltin | src/runtime/memory.rs:266-300 | on a well-formed heap it always succeeds and the new address reads back the builtin object for the payload and type |
| Frames.NewFrame | src/runtime/vm.rs:810-818 | a new frame has no locals, an empty operand stack, no exception and program counter 0 |
| Frames.AsUsize | src/runtime/vm.rs:918 | the `as usize` cast always lands below 2^64 |
| Frames.AsUsizeSpec | src/runtime/vm.rs:914-919 | a non-negative program counter survives the cast unchanged and a negative one wraps around by 2^64 |
| Frames.Nulls | src/runtime/vm.rs:892-894 | the padding is `n` null addresses |
| Frames.BindIn | src/runtime/vm.rs:882-898 | after `bind_local(name, addr)` slot `name` holds `addr`, the slots grow to `name + 1` only when shorter, the gap holds null and every other slot is unchanged |
| Frames.GetLocalIn | src/runtime/vm.rs:900-904 | a slot is found exactly when its index is inside the slots, and it is that slot's address |
| Frames.GetAfterBind | src/runtime/vm.rs:882-904 | reading any slot after a bind gives the bound address, the old value, a null from the padding, or nothing past the end |
| Frames.PadAndBind | src/runtime/vm.rs:882-898 | the three-way push, overwrite or pad-then-push loop computes exactly the slots of `BindIn` |
| Frames.StackOffsetIn | src/runtime/vm.rs:849-857 | `get_stack_offset` succeeds exactly for offsets from `1 - len` to 0 and reads the entry `len - 1 + offset`; others panic |
| Frames.PushOn | src/runtime/vm.rs:859-867 | a push succeeds exactly when there is a frame, and leaves the number of frames and every frame below the top unchanged |
| Frames.PopFrom | src/runtime/vm.rs:820-825 | a pop succeeds exactly when there is a frame with a non-empty operand stack, and leaves every frame below the top unchanged |
| Frames.PopAfterPush | src/runtime/vm.rs:820-867 | popping right after a push gives back the pushed value and the frames as they were |
| Frames.PushAfterPop | src/runtime/vm.rs:820-867 | pushing the popped value back restores the frames |
| Frames.PoppedOrderSpec | src/runtime/vm.rs:820-825 | `n` successive pops take the top `n` entries of the stack, the topmost first |
| ObjectSpace.RefcountIn | src/runtime/vm.rs:410-417 | `get_refcount` succeeds exactly on a readable address (the count of an object, -1 for any other structure) |
| ObjectSpace.IncreaseIn | src/runtime/vm.rs:441-450 | `increase_refcount` succeeds exactly on a readable address |
| ObjectSpace.DecreaseIn | src/runtime/vm.rs:452-463 | `decrease_refcount` succeeds exactly on a readable address |
| ObjectSpace.IncreaseSpec | src/runtime/vm.rs:441-450 | on a well-formed heap an increase adds exactly one to an object's count, keeps the heap well formed and leaves every other address as it was |
| ObjectSpace.DecreaseSpec | src/runtime/vm.rs:452-463 | a count of two or more drops by one; a count of one or zero frees a non-const object (reads of it then panic) and leaves a const one at 0; a non-object is untouched; no other address changes and the heap stays well formed |
| ObjectSpace.IncreaseThenDecrease | src/runtime/vm.rs:441-463 | a decrease right after an increase restores the heap exactly, for any count of at least one |
| ObjectSpace.DecreaseAllAppend | src/runtime/vm.rs:869-880 | decreasing the values of `xs + ys` in order is decreasing `xs` and then `ys`, a panic included |
| ObjectSpace.DecreaseAllPreserves | src/runtime/vm.rs:869-880 | decreasing distinct readable addresses one by one never panics and keeps the heap well formed |
| ObjectSpace.IncreaseAllPreserves | src/runtime/vm.rs:441-450 | increasing readable addresses one by one never panics, frees nothing, keeps the heap well formed, makes nothing readable or unreadable, and leaves every address outside the list as it was |
| ObjectSpace.MethodLookup | src/runtime/vm.rs:465-485 | an unreadable type panics, a non-type finds nothing, and a type that has the name in its own table answers that entry |
| ObjectSpace.MethodLookupFuel | src/runtime/vm.rs:465-485 | more fuel for the supertype chain never changes an answer that did not run out of fuel |
| ObjectSpace.MethodLookupInherits | src/runtime/vm.rs:475-480 | a type without the name answers exactly what its supertype answers |
| ObjectSpace.MethodLookupFoundOnChain | src/runtime/vm.rs:465-485 | any address found is the entry for that name in the table of some readable type |
| ObjectSpace.WithEntry | src/runtime/vm.rs:647-649 | the type's table in the given namespace gains the binding, the other namespace, the name and the supertype stay the same |
| ObjectSpace.RegisterIn | src/runtime/vm.rs:640-653 | a registration succeeds exactly on a readable type object; anything else panics |
| ObjectSpace.RegisterSpec | src/runtime/vm.rs:640-653 | after a registration the lookup of the name on that type finds the callable, the other namespace and every other object are untouched, and the heap stays well formed |
| ObjectSpace.FindInModuleAddrIn | src/runtime/vm.rs:383-395 | a lookup in a module succeeds exactly when the address reads as a module; anything else panics |
| ObjectSpace.FindInModuleIn | src/runtime/vm.rs:378-381 | an unregistered module panics on the `unwrap`; otherwise the lookup is the one in that module's global namespace |
| ObjectSpace.AddToModuleSpec | src/runtime/vm.rs:351-372 | adding succeeds exactly when the module exists and does not yet bind the name, panics when the name is taken; afterwards the name is found, every other name of every module and every other object reads as before, and the heap stays well formed |
| ObjectSpace.AllocateKeepsModules | src/runtime/vm.rs:906-908 | an allocation leaves every name that could be looked up in every module as it was |
| ObjectSpace.MakeConstKeepsModules | src/runtime/vm.rs:512-514 | `make_const` leaves every name of every module as it was |
| ObjectSpace.CreateTypeSpec | src/runtime/vm.rs:311-349 | `create_type` succeeds exactly when the name is free in the module; the new type was not readable before, reads back as an empty type with the given supertype, is found under its name, nothing else readable changes apart from the module, and the heap stays well formed |
| ObjectSpace.IncreaseRefcount | src/runtime/vm.rs:441-450 | performs `IncreaseIn` on the heap object in place, succeeding exactly on a readable address, changing nothing on a panic and keeping the heap well formed |
| ObjectSpace.DecreaseRefcount | src/runtime/vm.rs:452-463 | performs `DecreaseIn` on the heap object in place, succeeding exactly on a readable address, changing nothing on a panic and keeping the heap well formed |
| ObjectSpace.IncreaseEach | src/runtime/vm.rs:441-450 | the loop over the arguments performs the increases of `IncreaseAll`, in order, and keeps the heap well formed |
| ObjectSpace.Register | src/runtime/vm.rs:640-653 | performs `RegisterIn` in place, changing nothing on a panic and keeping the heap well formed |
| ObjectSpace.DecreaseEach | src/runtime/vm.rs:869-880 | the loop of `pop_stack_frame` performs the decreases of `DecreaseAll`, in order, and keeps the heap well formed |
| ObjectSpace.GetMethodAddrByName | src/runtime/vm.rs:465-485 | any address found is the entry for the name in the table of some readable type on the heap |
| ObjectSpace.AddToModule | src/runtime/vm.rs:351-372 | performs `AddToModuleIn` in place, changing nothing on a panic and keeping the heap well formed |
| ObjectSpace.CreateType | src/runtime/vm.rs:311-349 | performs `CreateTypeIn` in place and keeps the heap well formed |
| Vm.FromStackPoppedSpec | src/runtime/vm.rs:32-38 | the parameters made from `n` values popped off a stack are the top `n` entries in push order, deepest first |
| Vm.SingleParameter | src/runtime/vm.rs:50-54 | exactly the one given address |
| Vm.AsMethod | src/runtime/vm.rs:74-81 | succeeds exactly when there is at least one parameter; the bound object followed by the rest is the parameter list |
| Vm.AsFunction | src/runtime/vm.rs:83-88 | every parameter is an argument, in order |
| Vm.InsertEachAtFrontSpec | src/runtime/vm.rs:757-759 | inserting each default at index 0 in turn puts them reversed in front of the arguments |
| Vm.ArgumentsCorrectedSpec | src/runtime/vm.rs:738-760 | the corrected binding accepts exactly the counts between the non-default count and the parameter count, and binds the given arguments first, then the last defaults, filling every parameter |
| Vm.ArgumentsAgreeWithoutDefaults | src/runtime/vm.rs:744-747 | without defaults the code as written and the corrected binding agree on every input |
| Vm.ArgumentsAsWrittenMisplacesDefaults | src/runtime/vm.rs:754-759 | as written, `def f(a, b=d1, c=d2)` called as `f(x)` binds `[d2, x]` where `[x, d1, d2]` is meant |
| Vm.EntryLocals | src/runtime/vm.rs:763-772 | the fresh frame of a user function has one slot per argument, plus slot 0 for the bound object |
| Vm.CallMethodIn | src/runtime/vm.rs:791-802 | an unreadable receiver panics; the result is nothing exactly when the lookup on the receiver's type finds nothing, and otherwise the heap, result and exception of running the found method on the current heap with the receiver bound |
| Vm.VM.constructor | src/runtime/vm.rs:138-296 | a fresh VM has one `__main__` frame, null builtin type addresses, exactly the builtin and main modules, every special value recorded, and `None`, `NotImplemented` and `StopIteration` bound in the builtin module to their types |
| Vm.VM.InstallModules | src/runtime/vm.rs:160-208 | the type of types is the only special value, the builtin and main modules are registered and the builtin module binds nothing yet |
| Vm.VM.InstallSingletons | src/runtime/vm.rs:211-246 | `None`, `NotImplemented` and `StopIteration` are bound in the builtin module to the types created for them |
| Vm.VM.CreateBuiltinSingleton | src/runtime/vm.rs:211-235 | the new type is bound under its name in the builtin module, no other name of any module changes, and its single value has that type and the given structure |
| Vm.VM.MakeConst | src/runtime/vm.rs:512-514 | performs `make_const` on the heap in place, succeeding exactly on an allocated, unfreed address and keeping the heap well formed |
| Vm.VM.MakeConstants | src/runtime/vm.rs:249-257 | the run of `make_const` calls keeps the heap well formed and changes no name of any module |
| Vm.VM.NewStackFrame | src/runtime/vm.rs:810-818 | a new empty frame is pushed onto the frame stack and nothing else changes |
| Vm.VM.PopStack | src/runtime/vm.rs:820-825 | succeeds exactly when the current frame's operand stack is non-empty, and takes its top entry off it |
| Vm.VM.PushOntoStack | src/runtime/vm.rs:859-867 | succeeds exactly when there is a frame, and pushes onto the current frame's operand stack |
| Vm.VM.GetStackOffset | src/runtime/vm.rs:849-853 | with no frame it panics; otherwise it reads the current operand stack at `len - 1 + offset` as `StackOffsetIn` does |
| Vm.VM.TopStack | src/runtime/vm.rs:855-857 | succeeds exactly on a non-empty current operand stack and gives back the value a pop would take |
| Vm.VM.PopStackFrame | src/runtime/vm.rs:869-880 | removes the current frame and returns it after decreasing the count of every value left on its stack, in order; no frame panics |
| Vm.VM.ClearStacks | src/runtime/vm.rs:298-309 | pops every frame, decreasing every value left on the frames, topmost frame first, and leaves one fresh `__main__` frame |
| Vm.VM.BindLocal | src/runtime/vm.rs:882-898 | succeeds exactly when there is a frame, and the current frame's slots become `BindIn` of the old ones |
| Vm.VM.GetLocal | src/runtime/vm.rs:900-904 | succeeds exactly when there is a frame, and reads the current frame's slot as `GetLocalIn` does |
| Vm.VM.GetPc | src/runtime/vm.rs:910-912 | the current frame's program counter; no frame panics |
| Vm.VM.SetPc | src/runtime/vm.rs:921-923 | sets the current frame's program counter, which `get_pc` then reads; no frame panics |
| Vm.VM.JumpPc | src/runtime/vm.rs:914-919 | adds the signed delta to the current program counter, wrapped to `usize`; no frame panics |
| Vm.VM.RaiseException | src/runtime/vm.rs:804-808 | records the exception on the current frame only; no frame panics |
| Vm.VM.CurrentException | src/runtime/interpreter.rs:746 | the exception recorded on the current frame; no frame panics |
| Vm.VM.EnterUserFunction | src/runtime/vm.rs:762-772 | pushes one new frame whose slots are the bound object, if any, followed by the arguments in order |
| Vm.VM.AppendLocal | src/runtime/vm.rs:764-771 | binding the next slot of the fresh frame appends the argument to its locals and leaves the frames below it and the registry as they were |
| Vm.VM.ReturnFromCall | src/runtime/vm.rs:777-780 | the result is the top of the callee's stack, its count is increased, then the callee's frame is popped and every value on it decreased; an empty stack or no frame panics |
| Vm.VM.GetRefcount | src/runtime/vm.rs:410-417 | the count `RefcountIn` gives for the VM's heap |
| Vm.VM.GetMethodAddrByName | src/runtime/vm.rs:465-485 | the lookup along the supertype chain over `functions`, with the heap size as the bound on the chain |
| Vm.VM.CallMethod | src/runtime/vm.rs:791-802 | `call_method` on the VM's heap, as `CallMethodIn` states it; after a call the VM's heap is the one the callee left, still well formed, and without one the heap is unchanged |
| Vm.VM.FindModule | src/runtime/vm.rs:374-376 | finds a module exactly when it is registered, and gives its address |
| Vm.VM.FindInModule | src/runtime/vm.rs:378-381 | `find_in_module` on the VM's heap and module table |
| Vm.VM.CreateType | src/runtime/vm.rs:311-349 | with the type of types known, performs `CreateTypeIn` in place; without it, panics and changes nothing |
| Vm.VM.AddToModule | src/runtime/vm.rs:351-372 | performs `AddToModuleIn` in place, changing nothing on a panic |
| Vm.VM.RegisterMethodAddrOnType | src/runtime/vm.rs:640-653 | succeeds exactly on a type object, after which the method lookup of that name on the type finds the callable; a non-type panics and changes nothing |
| Handlers.Pop | src/runtime/vm.rs:820-825 | a pop succeeds exactly when the current frame's operand stack is non-empty, and leaves the frame count and the pc as they were |
| Handlers.Push | src/runtime/vm.rs:859-867 | a push succeeds exactly when there is a frame, and leaves the frame count and the pc as they were |
| Handlers.PopN | src/runtime/interpreter.rs:12-14 | a run of pops leaves the frame count and the pc as they were |
| Handlers.Increase | src/runtime/vm.rs:441-450 | an increase leaves the frames' count and pc as they were |
| Handlers.Decrease | src/runtime/vm.rs:452-463 | a decrease leaves the frames' count and pc as they were |
| Handlers.RaiseIn | src/runtime/vm.rs:804-808 | recording an exception leaves the frame count and the pc as they were |
| Handlers.BindLocalIn | src/runtime/vm.rs:882-898 | binding a local leaves the frame count and the pc as they were |
| Handlers.RawDataIn | src/runtime/vm.rs:655-665 | the payload is found exactly on a readable plain object; anything else panics |
| Handlers.SetAttributeIn | src/runtime/vm.rs:436-439 | setting a property succeeds exactly on a readable object |
| Handlers.AllocatePush | src/runtime/interpreter.rs:273-285 | allocating and pushing a builtin object leaves the frame count and the pc as they were |
| Handlers.PopNSpec | src/runtime/interpreter.rs:10-16 | `n` pops from a stack of at least `n` values succeed, take the top `n` entries topmost first, and leave the current stack without them and everything else unchanged |
| Handlers.PoppedOrderFromBelow | src/runtime/interpreter.rs:12-14 | the `n`th pop takes the entry `n - 1` places below the top |
| Handlers.PopNTooMany | src/runtime/interpreter.rs:12-14 | `n` pops on a stack with fewer than `n` values panic |
| Handlers.PopNStopsAt | src/runtime/interpreter.rs:12-14 | once one pop fails, every longer run of pops fails |
| Handlers.LoadConstIn | src/runtime/interpreter.rs:43-46 | loading a constant leaves the frame count and the pc as they were |
| Handlers.StoreNameAsWritten | src/runtime/interpreter.rs:518-525 | the store as written leaves the frame count and the pc as they were |
| Handlers.StoreNameIn | src/runtime/interpreter.rs:518-525 | the corrected store leaves the frame count and the pc as they were |
| Handlers.BuildListIn | src/runtime/interpreter.rs:555-569 | building a list leaves the frame count and the pc as they were |
| Handlers.IndexAccessIn | src/runtime/interpreter.rs:707-716 | indexing leaves the frame count and the pc as they were |
| Handlers.RaiseInstructionIn | src/runtime/interpreter.rs:717-720 | `Raise` leaves the frame count and the pc as they were |
| Handlers.PopOperands | src/runtime/interpreter.rs:197-200 | the two operand pops leave the frame count and the pc as they were |
| Handlers.Payloads | src/runtime/interpreter.rs:204-213 | the fast path sees a payload pair exactly when both operands are plain objects |
| Handlers.ReleaseTemporaries | src/runtime/interpreter.rs:266-272 | releasing the unreferenced operands leaves the frame count and the pc as they were |
| Handlers.ArithResultIn | src/runtime/interpreter.rs:264-286 | the end of an arithmetic fast path leaves the frame count and the pc as they were |
| Handlers.CompareResultIn | src/runtime/interpreter.rs:366-395 | the end of a comparison fast path leaves the frame count and the pc as they were |
| Handlers.CurryIn | src/runtime/interpreter.rs:79-118 | making and pushing a bound method leaves the frame count and the pc as they were |
| Handlers.BuildListSpec | src/runtime/interpreter.rs:555-569 | with at least `n` values on the stack, `BuildList` succeeds, replaces the top `n` values by one new, previously unreadable list object holding them in push order, and changes no other frame and no other readable object |
| Handlers.BuildListUnderflow | src/runtime/interpreter.rs:555-559 | `BuildList` with fewer than `n` values on the stack panics |
| Handlers.JumpIfFalseOnInt | src/runtime/interpreter.rs:528-539 | on an int the value is popped and released, and the handler jumps to the destination exactly when the int is 0 |
| Handlers.JumpIfFalseAsksBool | src/runtime/interpreter.rs:540-551 | on anything else `__bool__` runs on the popped value; the heap is the one that call leaves with the popped value released, and the handler jumps exactly when the int it returns is 0 |
| Handlers.JumpOn | src/runtime/interpreter.rs:532-539 | the end of the handler succeeds exactly when the popped value is readable; it reports a jump exactly when the flag is 0, and then only the pc changes, to the destination |
| Handlers.CallOperandsPopped | src/runtime/interpreter.rs:10-16 | with `n + 1` values on the stack, the pops of a call give the arguments in call order and the callee beneath them, and leave the stack below both, the heap and the frame's other fields as they were |
| Handlers.JumpIfFalseJumpsIffFalse | src/runtime/interpreter.rs:528-553 | whatever the value, a jump sets the pc to the destination and no jump leaves the pc alone, with the frame count unchanged |
| Handlers.FastArithOnInts | src/runtime/interpreter.rs:216-403 | two ints compute `tos1 op tos`, the deeper operand on the left: sum, difference and product within `i128`, the truncating remainder, and a panic on overflow or a zero divisor |
| Handlers.TruncRemBound | src/runtime/interpreter.rs:401 | the truncating remainder of two `i128` values fits in `i128` |
| Handlers.FastPathNeedsNumbers | src/runtime/interpreter.rs:216-351 | the arithmetic and comparison fast paths apply exactly when both payloads are numbers; otherwise the dunder method is called |
| Handlers.RaiseSpec | src/runtime/interpreter.rs:717-720 | `Raise` moves the top of the stack into the current frame's exception and nothing else |
| Handlers.ReturnValueSpec | src/runtime/interpreter.rs:697-703 | `ReturnValue` leaves the stack as it was and sets the pc to the instruction count, which ends the code |
| Handlers.IndexAccessSpec | src/runtime/interpreter.rs:707-716 | with an int index in range of a list, `IndexAccess` replaces the two operands by the selected element |
| Handlers.StoreNameSpec | src/runtime/interpreter.rs:518-525 | a successful store pops the value, binds it to the slot and leaves every other slot as it was |
| Handlers.StoreNameSucceeds | src/runtime/interpreter.rs:518-525 | storing a readable value into a slot whose old binding is readable always succeeds in the corrected order, even when both are the same object |
| Handlers.StoreNameAsWrittenFreesSelf | src/runtime/interpreter.rs:519-523 | as written, `x = x` on an unshared non-const object frees it before taking it and panics, where the corrected order succeeds |
| Handlers.RunWith | src/runtime/interpreter.rs:761-769 | a run that finishes ends with the pc at or past the instruction count |
| Handlers.RunMoreFuel | src/runtime/interpreter.rs:761-769 | more fuel never changes a run that has finished |
| RuntimeInterpreter.FunctionCallIn | src/runtime/interpreter.rs:10-41 | a call leaves the frame count and the pc as they were |
| RuntimeInterpreter.LoadAttrIn | src/runtime/interpreter.rs:91-156 | loading an attribute leaves the frame count and the pc as they were |
| RuntimeInterpreter.LoadGlobalIn | src/runtime/interpreter.rs:158-187 | loading a global leaves the frame count and the pc as they were |
| RuntimeInterpreter.LoadNameIn | src/runtime/interpreter.rs:499-516 | loading a name leaves the frame count and the pc as they were |
| RuntimeInterpreter.StoreAttrIn | src/runtime/interpreter.rs:575-582 | storing an attribute leaves the frame count and the pc as they were |
| RuntimeInterpreter.FallbackIn | src/runtime/interpreter.rs:257-263 | the slow path of an operator leaves the frame count and the pc as they were |
| RuntimeInterpreter.BinaryIn | src/runtime/interpreter.rs:194-289 | an arithmetic instruction leaves the frame count and the pc as they were |
| RuntimeInterpreter.TrueDivIn | src/runtime/interpreter.rs:413-497 | a true division leaves the frame count and the pc as they were |
| RuntimeInterpreter.CompareIn | src/runtime/interpreter.rs:290-398 | a comparison leaves the frame count and the pc as they were |
| RuntimeInterpreter.OperatorIn | src/runtime/interpreter.rs:596-606 | every operator instruction leaves the frame count and the pc as they were |
| RuntimeInterpreter.ExecuteIn | src/runtime/interpreter.rs:589-744 | a straight-line instruction asks for the pc to advance and leaves the frame count and the pc as they were |
| RuntimeInterpreter.NameIn | src/runtime/interpreter.rs:590-595 | the constant, call, name, global, attribute and store handlers leave the frame count and the pc as they were |
| RuntimeInterpreter.FlowIn | src/runtime/interpreter.rs:694-696 | `PopTop` asks for the pc to advance and keeps the frame count and the pc |
| RuntimeInterpreter.ValueIn | src/runtime/interpreter.rs:610-720 | building a list, indexing and `Raise` leave the frame count and the pc as they were |
| RuntimeInterpreter.FunctionCallSpec | src/runtime/interpreter.rs:10-41 | a call runs the value beneath the `n` arguments, with the arguments in call order, deepest first, and with no bound object; in their place the callee's result is left; the pc stays, and the callee's exception, if any, is recorded on the caller's frame |
| RuntimeInterpreter.FunctionCallHeap | src/runtime/interpreter.rs:18-34 | the callee runs on the heap in which each argument holds one more reference; the value it returns must still be referenced in the heap it leaves, gets one more reference there, and then the arguments are released, which gives the caller's new heap |
| RuntimeInterpreter.FunctionCallUnderflow | src/runtime/interpreter.rs:12-16 | a call with fewer than `n + 1` values on the stack panics |
| RuntimeInterpreter.LoadNameOrder | src/runtime/interpreter.rs:499-516 | a name is looked up in the locals, then the builtin module, then the main module, the first found is pushed, and a name found nowhere panics |
| RuntimeInterpreter.StepAdvances | src/runtime/interpreter.rs:584-758 | after a straight-line instruction that leaves no exception the pc is one past where it was |
| RuntimeInterpreter.StepOnException | src/runtime/interpreter.rs:746-752 | when an instruction leaves an exception on the current frame, `None` is pushed and the pc is set to the instruction count, which ends the code |
| RuntimeInterpreter.StepJumpUnconditional | src/runtime/interpreter.rs:613-616 | `JumpUnconditional` sets the pc to its destination, does not advance it, and leaves the stack alone |
| RuntimeInterpreter.ForIterStops | src/runtime/interpreter.rs:721-734 | when `__next__` leaves StopIteration on its frame, the pc jumps to the loop's end with nothing pushed, over the heap `__next__` left |
| RuntimeInterpreter.ForIterPushes | src/runtime/interpreter.rs:721-737 | when `__next__` leaves no exception, its result is pushed above the iterator, the pc advances, and the heap is the one `__next__` left |
| RuntimeInterpreter.ForIterDropsOtherExceptions | src/runtime/interpreter.rs:730-737 | any exception other than StopIteration is dropped: nothing is pushed, only the heap changes, to the one `__next__` left, and the loop goes on |
| RuntimeInterpreter.ForIterNeedsNext | src/runtime/interpreter.rs:726 | an iterator whose type has no `__next__` panics on the `unwrap` |
| RuntimeInterpreter.BinaryOnInts | src/runtime/interpreter.rs:216-286 | on two referenced ints within range, the operands are replaced by a new int object holding `tos1 op tos` |
| RuntimeInterpreter.CompareOnInts | src/runtime/interpreter.rs:314-395 | on two referenced ints the operands are replaced by the shared true object exactly when `tos1 cmp tos` holds, and by the false object otherwise |
| RuntimeInterpreter.PopValue | src/runtime/vm.rs:820-825 | performs `Pop` on the VM in place |
| RuntimeInterpreter.PushValue | src/runtime/vm.rs:859-867 | performs `Push` on the VM in place |
| RuntimeInterpreter.IncRef | src/runtime/vm.rs:441-450 | performs `Increase` on the VM's heap in place, keeping it well formed |
| RuntimeInterpreter.DecRef | src/runtime/vm.rs:452-463 | performs `Decrease` on the VM's heap in place, keeping it well formed |
| RuntimeInterpreter.PopValues | src/runtime/interpreter.rs:11-14 | the loop of pops performs `PopN` on the VM in place |
| RuntimeInterpreter.HandleFunctionCall | src/runtime/interpreter.rs:10-41 | performs `FunctionCallIn` on the VM in place, installing the heap the callee left with the result and the arguments' counts adjusted, keeping the heap well formed and the registry unchanged |
| RuntimeInterpreter.HandleLoadConst | src/runtime/interpreter.rs:43-46 | performs `LoadConstIn` on the VM in place |
| RuntimeInterpreter.PushBoundMethod | src/runtime/interpreter.rs:79-118 | performs `CurryIn` on the VM in place, keeping the heap well formed |
| RuntimeInterpreter.HandleLoadAttr | src/runtime/interpreter.rs:91-156 | performs `LoadAttrIn` on the VM in place, keeping the heap well formed |
| RuntimeInterpreter.HandleLoadGlobal | src/runtime/interpreter.rs:158-187 | performs `LoadGlobalIn` on the VM in place |
| RuntimeInterpreter.HandleLoadName | src/runtime/interpreter.rs:499-516 | performs `LoadNameIn` on the VM in place |
| RuntimeInterpreter.HandleStoreName | src/runtime/interpreter.rs:518-525 | performs the corrected `StoreNameIn` on the VM in place, keeping the heap well formed |
| RuntimeInterpreter.HandleJumpIfFalse | src/runtime/interpreter.rs:528-553 | performs `JumpIfFalseIn` on the VM in place, with `__bool__` run through `call_method` on the VM's heap, and reports whether it jumped |
| RuntimeInterpreter.HandleBuildList | src/runtime/interpreter.rs:555-569 | performs `BuildListIn` on the VM in place, keeping the heap well formed |
| RuntimeInterpreter.HandleReturnValue | src/runtime/interpreter.rs:697-703 | performs `ReturnValueIn` on the VM in place, keeping the heap well formed |
| RuntimeInterpreter.HandleIndexAccess | src/runtime/interpreter.rs:707-716 | performs `IndexAccessIn` on the VM in place |
| RuntimeInterpreter.HandleRaise | src/runtime/interpreter.rs:717-720 | performs `RaiseInstructionIn` on the VM in place |
| RuntimeInterpreter.SetAttribute | src/runtime/vm.rs:436-439 | performs `SetAttributeIn` on the VM's heap in place |
| RuntimeInterpreter.HandleStoreAttr | src/runtime/interpreter.rs:575-582 | performs `StoreAttrIn` on the VM in place, keeping the heap well formed |
| RuntimeInterpreter.TakeOperands | src/runtime/interpreter.rs:197-200 | performs `PopOperands` on the VM in place |
| RuntimeInterpreter.Fallback | src/runtime/interpreter.rs:257-263 | performs `FallbackIn` on the VM in place, keeping the heap well formed |
| RuntimeInterpreter.ReleaseOperands | src/runtime/interpreter.rs:266-272 | performs `ReleaseTemporaries` on the VM's heap in place, keeping it well formed |
| RuntimeInterpreter.PushArithResult | src/runtime/interpreter.rs:273-285 | performs `ArithResultIn` on the VM in place, keeping the heap well formed |
| RuntimeInterpreter.PushCompareResult | src/runtime/interpreter.rs:382-394 | performs `CompareResultIn` on the VM in place, keeping the heap well formed |
| RuntimeInterpreter.HandleBinary | src/runtime/interpreter.rs:194-289 | performs `BinaryIn` on the VM in place, keeping the heap well formed |
| RuntimeInterpreter.HandleTrueDiv | src/runtime/interpreter.rs:413-497 | performs `TrueDivIn` on the VM in place, keeping the heap well formed |
| RuntimeInterpreter.HandleCompare | src/runtime/interpreter.rs:290-398 | performs `CompareIn` on the VM in place, keeping the heap well formed |
| RuntimeInterpreter.HandleForIter | src/runtime/interpreter.rs:721-740 | performs `ForIterIn` on the VM in place and reports whether the pc is to advance |
| RuntimeInterpreter.HandleOperator | src/runtime/interpreter.rs:596-606 | performs `OperatorIn` on the VM in place, keeping the heap well formed |
| RuntimeInterpreter.Execute | src/runtime/interpreter.rs:589-744 | performs `ExecuteIn` on the VM in place, keeping the heap well formed |
| RuntimeInterpreter.ExecuteName | src/runtime/interpreter.rs:590-595 | performs `NameIn` on the VM in place: the constant, call, name, global, attribute and store instructions |
| RuntimeInterpreter.ExecuteFlow | src/runtime/interpreter.rs:607-740 | performs `FlowIn` on the VM in place: the jumps, `PopTop`, `ReturnValue` and `ForIter`, with whether the pc is to advance |
| RuntimeInterpreter.ExecuteValue | src/runtime/interpreter.rs:610-720 | performs `ValueIn` on the VM in place: `BuildList`, `IndexAccess` and `Raise` |
| RuntimeInterpreter.ExecuteOther | src/runtime/interpreter.rs:589-744 | for every instruction that is not an operator, performs `ExecuteIn` on the VM in place; anything unmodelled panics as unsupported |
| RuntimeInterpreter.Finish | src/runtime/interpreter.rs:746-758 | performs `FinishIn` on the VM in place |
| RuntimeInterpreter.ExecuteNextInstruction | src/runtime/interpreter.rs:584-759 | performs one `StepIn` on the VM in place, keeping the heap well formed and the registry unchanged |
| RuntimeInterpreter.ExecuteCodeObject | src/runtime/interpreter.rs:761-769 | the loop performs `RunIn`, reporting whether the pc got past the end of the code, and keeps the heap well formed |
| PyRuntime.CallNativeMethodIn | src/runtime/runtime.rs:666-699 | an unreadable receiver panics; the result is nothing exactly when the lookup over `methods` on the receiver's type finds nothing; otherwise the found method must be a native callable, and the result is the heap and address its code leaves when run on the current heap with the receiver bound |
| PyRuntime.Runtime.constructor | src/runtime/runtime.rs:73-263 | a fresh runtime has one `__main__` frame, null builtin type addresses, no builtin names, exactly the builtin and main modules, both binding nothing, and every special value recorded |
| PyRuntime.Runtime.AllocateTypes | src/runtime/runtime.rs:101-180 | the allocations of the type of types, the singleton types and values and the callable type keep the heap well formed |
| PyRuntime.Runtime.InstallModules | src/runtime/runtime.rs:182-213 | the builtin and main modules are registered, bind nothing, and nothing else of the runtime changes |
| PyRuntime.Runtime.MakeConst | src/runtime/runtime.rs:494-496 | performs `make_const` on the heap in place, succeeding exactly on an allocated, unfreed address and keeping the heap well formed |
| PyRuntime.Runtime.MakeConstants | src/runtime/runtime.rs:215-224 | the run of `make_const` calls keeps the heap well formed and changes no name of any module |
| PyRuntime.Runtime.NewStackFrame | src/runtime/runtime.rs:750-758 | a new empty frame is pushed onto the frame stack and nothing else changes |
| PyRuntime.Runtime.PopStack | src/runtime/runtime.rs:760-765 | succeeds exactly when the current frame's operand stack is non-empty, and takes its top entry off it |
| PyRuntime.Runtime.PushOntoStack | src/runtime/runtime.rs:804-807 | succeeds exactly when there is a frame, and pushes onto the current frame's operand stack |
| PyRuntime.Runtime.GetStackOffset | src/runtime/runtime.rs:794-798 | with no frame it panics; otherwise it reads the current operand stack at `len - 1 + offset` as `StackOffsetIn` does |
| PyRuntime.Runtime.TopStack | src/runtime/runtime.rs:800-802 | succeeds exactly on a non-empty current operand stack and gives back the value a pop would take |
| PyRuntime.Runtime.PopStackFrame | src/runtime/runtime.rs:809-819 | removes the current frame after decreasing the count of every value left on its stack, in order; no frame panics |
| PyRuntime.Runtime.ClearStacks | src/runtime/runtime.rs:265-276 | pops every frame, decreasing every value left on the frames, topmost frame first, and leaves one fresh `__main__` frame |
| PyRuntime.Runtime.BindLocal | src/runtime/runtime.rs:821-837 | succeeds exactly when there is a frame, and the current frame's slots become `BindIn` of the old ones |
| PyRuntime.Runtime.GetLocal | src/runtime/runtime.rs:839-843 | succeeds exactly when there is a frame, and reads the current frame's slot as `GetLocalIn` does |
| PyRuntime.Runtime.GetPc | src/runtime/runtime.rs:849-851 | the current frame's program counter; no frame panics |
| PyRuntime.Runtime.SetPc | src/runtime/runtime.rs:860-862 | sets the current frame's program counter, which `get_pc` then reads; no frame panics |
| PyRuntime.Runtime.JumpPc | src/runtime/runtime.rs:853-858 | adds the signed delta to the current program counter, wrapped to `usize`; no frame panics |
| PyRuntime.Runtime.RaiseException | src/runtime/runtime.rs:701-708 | records the exception on the current frame only; no frame panics |
| PyRuntime.Runtime.GetRefcount | src/runtime/runtime.rs:372-383 | the count `RefcountIn` gives for the runtime's heap |
| PyRuntime.Runtime.IncreaseRefcount | src/runtime/runtime.rs:409-418 | succeeds exactly on a readable address and performs `IncreaseIn` in place; a panic changes nothing |
| PyRuntime.Runtime.DecreaseRefcount | src/runtime/runtime.rs:420-435 | succeeds exactly on a readable address and performs `DecreaseIn` in place; a panic changes nothing |
| PyRuntime.Runtime.GetMethodAddrByName | src/runtime/runtime.rs:437-461 | the lookup along the supertype chain over `methods`, with the heap size as the bound on the chain |
| PyRuntime.Runtime.CallMethod | src/runtime/runtime.rs:680-699 | `call_method` on the runtime's heap, as `CallNativeMethodIn` states it; after a call the heap is the one the native code left, still well formed, and without one the heap is unchanged |
| PyRuntime.Runtime.FindModule | src/runtime/runtime.rs:338-340 | finds a module exactly when it is registered, and gives its address |
| PyRuntime.Runtime.FindInModule | src/runtime/runtime.rs:342-345 | `find_in_module` on the runtime's heap and module table |
| PyRuntime.Runtime.CreateType | src/runtime/runtime.rs:278-315 | with the type of types known, performs `CreateTypeIn` in place; without it, panics and changes nothing |
| PyRuntime.Runtime.AddToModule | src/runtime/runtime.rs:317-336 | performs `AddToModuleIn` in place, changing nothing on a panic |
| PyRuntime.Runtime.CreateCallablePyobj | src/runtime/runtime.rs:545-557 | allocates a named native callable of the callable type; without the callable type it panics and changes nothing |
| PyRuntime.Runtime.RegisterBoundedFuncOnAddr | src/runtime/runtime.rs:598-622 | succeeds exactly when the callable type is known and the address is a type; then a fresh callable is bound under the name in the type's `methods`, the lookup of that name finds it, `functions` and every other object stay unchanged |
| PyRuntime.Runtime.RegisterBoundedFunc | src/runtime/runtime.rs:586-596 | the type is looked up by name in the module; a missing name panics with nothing changed; a found type gets the callable in its `methods`, found by the lookup, every other object unchanged |
| PyRuntime.Runtime.RegisterTypeUnboundedFunc | src/runtime/runtime.rs:559-584 | a found type gets the new callable under the name in its `functions`, while its `methods`, which lookups consult, and every other object stay unchanged; it succeeds whenever the callable type is known and the name denotes a type |
| PyRuntime.Runtime.GetRawDataOfPyobj | src/runtime/runtime.rs:625-639 | succeeds exactly on a readable builtin object and gives the payload `try_get_builtin` reads from it |
| BytecodeInterpreter.FunctionCallIn | src/bytecode/interpreter.rs:10-40 | a call leaves the frame count and the pc as they were |
| BytecodeInterpreter.LoadAttrIn | src/bytecode/interpreter.rs:90-153 | loading an attribute leaves the frame count and the pc as they were |
| BytecodeInterpreter.LoadGlobalIn | src/bytecode/interpreter.rs:155-184 | loading a global leaves the frame count and the pc as they were |
| BytecodeInterpreter.LoadNameIn | src/bytecode/interpreter.rs:494-512 | loading a name leaves the frame count and the pc as they were |
| BytecodeInterpreter.StoreAttrIn | src/bytecode/interpreter.rs:698-703 | storing an attribute leaves the frame count and the pc as they were |
| BytecodeInterpreter.FallbackIn | src/bytecode/interpreter.rs:252-258 | the slow path of an operator leaves the frame count and the pc as they were |
| BytecodeInterpreter.BinaryIn | src/bytecode/interpreter.rs:189-283 | an arithmetic operator leaves the frame count and the pc as they were |
| BytecodeInterpreter.TrueDivIn | src/bytecode/interpreter.rs:408-492 | a true division leaves the frame count and the pc as they were |
| BytecodeInterpreter.CompareIn | src/bytecode/interpreter.rs:285-392 | a comparison generated from any operator leaves the frame count and the pc as they were |
| BytecodeInterpreter.CompareAsWritten | src/bytecode/interpreter.rs:398-403 | the comparisons as instantiated leave the frame count and the pc as they were |
| BytecodeInterpreter.OperatorIn | src/bytecode/interpreter.rs:577-590 | every operator handler leaves the frame count and the pc as they were |
| BytecodeInterpreter.ExecuteIn | src/bytecode/interpreter.rs:573-720 | a straight-line instruction asks for the pc to advance and leaves the frame count and the pc as they were |
| BytecodeInterpreter.NameIn | src/bytecode/interpreter.rs:575-580 | the constant, call, name, global, attribute and store handlers leave the frame count and the pc as they were |
| BytecodeInterpreter.ValueIn | src/bytecode/interpreter.rs:595-717 | building a list, indexing and `Raise` leave the frame count and the pc as they were |
| BytecodeInterpreter.FunctionCallSpec | src/bytecode/interpreter.rs:10-40 | a call runs the value `n + 1` places from the top on the `n` values above it, the topmost first; the callee's frame is gone afterwards, the frames below are untouched, and the returned value replaces the `n + 1` values |
| BytecodeInterpreter.FunctionCallHeap | src/bytecode/interpreter.rs:18-37 | the callee runs on the heap in which each argument holds one more reference; the value it returns must still be referenced in the heap it leaves and gets one more reference there; the arguments are released, then every value left on the callee's frame, which gives the caller's new heap |
| BytecodeInterpreter.FunctionCallUnderflow | src/bytecode/interpreter.rs:12-17 | a call with fewer than `n + 1` values on the stack panics |
| BytecodeInterpreter.LoadAttrKeepsReceiver | src/bytecode/interpreter.rs:90-153 | the receiver stays where it was and exactly one value is pushed above it |
| BytecodeInterpreter.LoadAttrMethodUnbound | src/bytecode/interpreter.rs:99-142 | a method found on the type of an object that is not a class instance is pushed unbound, with the heap unchanged |
| BytecodeInterpreter.LoadGlobalOrder | src/bytecode/interpreter.rs:155-184 | a global is the `builtin_names` entry unless it is the None object, else the builtin module's binding, else the main module's, else the module of that name; otherwise it panics |
| BytecodeInterpreter.LoadNameOrder | src/bytecode/interpreter.rs:494-512 | a name is the local slot, else any `builtin_names` entry, even the None object, else the builtin module's binding, else the main module's; otherwise it panics |
| BytecodeInterpreter.StoreAttrSpec | src/bytecode/interpreter.rs:698-703 | pops the object and the value, sets the property named by the index to the value, and changes no reference count |
| BytecodeInterpreter.FallbackKeepsLeftOperand | src/bytecode/interpreter.rs:252-258 | with a callee that reaches only the heap, as `run` is here, the slow path leaves the deeper operand on the stack beneath the dunder method's result |
| BytecodeInterpreter.CompareOnInts | src/bytecode/interpreter.rs:307-389 | with each comparison generated from its own operator, two referenced ints are replaced by the shared true object exactly when `tos1 cmp tos` holds, and by the false object otherwise |
| BytecodeInterpreter.CompareAsWrittenEqualInts | src/bytecode/interpreter.rs:399-401 | as instantiated, `>=` and `<=` on two equal referenced ints push the false object, though the comparison holds |
| BytecodeInterpreter.LessEqualsAsWrittenCounterexample | src/bytecode/interpreter.rs:401 | as instantiated, the fast path of `1 <= 2` gives false |
| BytecodeInterpreter.StepAdvances | src/bytecode/interpreter.rs:570-725 | a step needs a frame whose pc is inside the code, and after a straight-line instruction the pc is one past where it was |
| BytecodeInterpreter.StepJumpIfFalse | src/bytecode/interpreter.rs:592-594 | a conditional jump lands on its destination or moves on by one |
| BytecodeInterpreter.StepUnsupported | src/bytecode/interpreter.rs:718-720 | `ForIter`, `PopTop` and the unresolved placeholders panic as unsupported |
| BytecodeInterpreter.ExecuteUnsupported | src/bytecode/interpreter.rs:718-720 | the dispatch panics as unsupported on every instruction it does not list |
| BytecodeInterpreter.PopValue | src/runtime/runtime.rs:760-765 | performs `Pop` on the runtime in place |
| BytecodeInterpreter.PushValue | src/runtime/runtime.rs:804-807 | performs `Push` on the runtime in place |
| BytecodeInterpreter.IncRef | src/runtime/runtime.rs:409-418 | performs `Increase` on the runtime's heap in place, keeping it well formed |
| BytecodeInterpreter.DecRef | src/runtime/runtime.rs:420-435 | performs `Decrease` on the runtime's heap in place, keeping it well formed |
| BytecodeInterpreter.PopValues | src/bytecode/interpreter.rs:11-14 | the loop of pops performs `PopN` on the runtime in place |
| BytecodeInterpreter.HandleFunctionCall | src/bytecode/interpreter.rs:10-40 | performs `FunctionCallIn` on the runtime in place, installing the heap the callee left with the result, the arguments and the callee's frame's values adjusted, keeping the heap well formed and the registry unchanged |
| BytecodeInterpreter.HandleLoadConst | src/bytecode/interpreter.rs:42-45 | performs `LoadConstIn` on the runtime in place |
| BytecodeInterpreter.PushBoundMethod | src/bytecode/interpreter.rs:78-88 | performs `CurryIn` on the runtime in place, keeping the heap well formed |
| BytecodeInterpreter.HandleLoadAttr | src/bytecode/interpreter.rs:90-153 | performs `LoadAttrIn` on the runtime in place, keeping the heap well formed |
| BytecodeInterpreter.HandleLoadGlobal | src/bytecode/interpreter.rs:155-184 | performs `LoadGlobalIn` on the runtime in place |
| BytecodeInterpreter.HandleLoadName | src/bytecode/interpreter.rs:494-512 | performs `LoadNameIn` on the runtime in place |
| BytecodeInterpreter.HandleStoreName | src/bytecode/interpreter.rs:514-521 | performs the corrected `StoreNameIn` on the runtime in place, keeping the heap well formed |
| BytecodeInterpreter.HandleJumpIfFalse | src/bytecode/interpreter.rs:524-549 | performs `JumpIfFalseIn` on the runtime in place, with `__bool__` run as native code on the runtime's heap, and reports whether it jumped |
| BytecodeInterpreter.HandleBuildList | src/bytecode/interpreter.rs:551-564 | performs `BuildListIn` on the runtime in place, keeping the heap well formed |
| BytecodeInterpreter.HandleReturnValue | src/bytecode/interpreter.rs:691-697 | performs `ReturnValueIn` on the runtime in place, keeping the heap well formed |
| BytecodeInterpreter.HandleIndexAccess | src/bytecode/interpreter.rs:704-713 | performs `IndexAccessIn` on the runtime in place |
| BytecodeInterpreter.HandleRaise | src/bytecode/interpreter.rs:714-717 | performs `RaiseInstructionIn` on the runtime in place |
| BytecodeInterpreter.HandleStoreAttr | src/bytecode/interpreter.rs:698-703 | performs `StoreAttrIn` on the runtime in place, keeping the heap well formed |
| BytecodeInterpreter.TakeOperands | src/bytecode/interpreter.rs:192-195 | performs `PopOperands` on the runtime in place |
| BytecodeInterpreter.Fallback | src/bytecode/interpreter.rs:252-258 | performs `FallbackIn` on the runtime in place, keeping the heap well formed |
| BytecodeInterpreter.ReleaseOperands | src/bytecode/interpreter.rs:261-267 | performs `ReleaseTemporaries` on the runtime's heap in place, keeping it well formed |
| BytecodeInterpreter.PushArithResult | src/bytecode/interpreter.rs:268-280 | performs `ArithResultIn` on the runtime in place, keeping the heap well formed |
| BytecodeInterpreter.PushCompareResult | src/bytecode/interpreter.rs:376-389 | performs `CompareResultIn` on the runtime in place, keeping the heap well formed |
| BytecodeInterpreter.HandleBinary | src/bytecode/interpreter.rs:189-283 | performs `BinaryIn` on the runtime in place, keeping the heap well formed |
| BytecodeInterpreter.HandleTrueDiv | src/bytecode/interpreter.rs:408-492 | performs `TrueDivIn` on the runtime in place, keeping the heap well formed |
| BytecodeInterpreter.HandleCompare | src/bytecode/interpreter.rs:285-392 | performs `CompareIn` with each comparison generated from its own operator on the runtime in place, keeping the heap well formed |
| BytecodeInterpreter.HandleOperator | src/bytecode/interpreter.rs:577-590 | performs `OperatorIn` on the runtime in place, keeping the heap well formed |
| BytecodeInterpreter.Execute | src/bytecode/interpreter.rs:573-720 | performs `ExecuteIn` on the runtime in place and reports whether the pc is to advance |
| BytecodeInterpreter.ExecuteName | src/bytecode/interpreter.rs:575-580 | performs `NameIn` on the runtime in place: the constant, call, name, global, attribute and store instructions |
| BytecodeInterpreter.ExecuteFlow | src/bytecode/interpreter.rs:592-697 | performs `FlowIn` on the runtime in place: the two jumps and `ReturnValue`, with whether the pc is to advance |
| BytecodeInterpreter.ExecuteValue | src/bytecode/interpreter.rs:595-717 | performs `ValueIn` on the runtime in place: `BuildList`, `IndexAccess` and `Raise` |
| BytecodeInterpreter.ExecuteOther | src/bytecode/interpreter.rs:573-720 | for every instruction that is not an operator, performs `ExecuteIn` on the runtime in place; anything unmodelled panics as unsupported |
| BytecodeInterpreter.ExecuteNextInstruction | src/bytecode/interpreter.rs:570-725 | performs one `StepIn` on the runtime in place, keeping the heap well formed and the registry unchanged |
| BytecodeInterpreter.Advance | src/bytecode/interpreter.rs:722-724 | performs `AdvanceIn` on the runtime in place |
| BytecodeInterpreter.ExecuteCodeObject | src/bytecode/interpreter.rs:727-736 | the loop performs `RunIn`, reporting whether the pc got past the end of the code, and keeps the heap well formed |
| Natives.CheckParams | src/builtin_types/macros.rs:1-10 | the arity check passes exactly when the expected and received counts agree, and otherwise panics naming both |
| Natives.TypeAddrIn | src/runtime/runtime.rs:484-487 | the type address of a readable object; an unreadable one panics |
| Natives.TypeNameIn | src/runtime/runtime.rs:463-482 | the name of a readable type object; anything else panics |
| Natives.PyobjTypeNameIn | src/runtime/runtime.rs:489-492 | the name of the type of a readable object whose type is a readable type object |
| Natives.IntOf | src/runtime/runtime.rs:625-639 | the integer payload, exactly when the address holds a builtin int object; anything else panics |
| Natives.StringOf | src/runtime/runtime.rs:625-639 | the string payload, exactly when the address holds a builtin str object; anything else panics |
| Natives.ListOf | src/runtime/runtime.rs:625-639 | the element addresses, exactly when the address holds a builtin list object; anything else panics |
| Natives.ReceiverInt | src/builtin_types/int_type.rs:154-159 | the receiver is split off first, a different number of remaining arguments panics with both counts, and the result is the receiver's integer |
| Natives.AllocateRawSpec | src/runtime/runtime.rs:537-543 | on a well-formed heap an allocation succeeds with a fresh object of the given type and payload, every other object unchanged |
| Natives.AllocateByNameSpec | src/runtime/runtime.rs:528-535 | the type is the builtin module's binding for the name; without one it panics, otherwise a fresh object of that type holds the payload |
| Natives.NotImplementedIn | src/builtin_types/boolean_type.rs:54 | the `NotImplemented` object when it is recorded among the special values; a missing entry panics |
| Natives.RegisterBoundedFuncs | src/builtin_types/int_type.rs:194-214 | with the callable type known, every entry of a table with distinct names ends up bound in the type's `methods` to a callable of its code and name, the type keeps its name, type and supertype, and every other object is unchanged |
| Natives.RegisterStep | src/runtime/runtime.rs:586-622 | one more registration keeps every binding the earlier ones made and adds its own |
| Natives.BuiltinModuleKept | src/runtime/runtime.rs:342-357 | a heap whose builtin module object reads as before resolves every name of that module as before |
| Natives.CreateBuiltinType | src/builtin_types/int_type.rs:191-214 | a new type bound under its name in the builtin module, with every method of the table bound; it succeeds whenever the type of types and the callable type are known and the name is free, and changes no older object but the builtin module |
| Natives.AllocateBuiltinByName | src/runtime/runtime.rs:528-535 | performs `AllocateByNameIn` on the runtime's heap in place, keeping it well formed |
| IntType.DecodeCode | src/builtin_types/int_type.rs:93-103 | each native function of the type is recovered from the code it is stored under, so no two share a code |
| IntType.CompareIn | src/builtin_types/int_type.rs:7-41 | a comparison demands two arguments counting the receiver, panicking with both counts otherwise, and returns one of the two shared booleans without touching the heap |
| IntType.BinopIn | src/builtin_types/int_type.rs:43-74 | an arithmetic method demands two arguments counting the receiver, panicking with both counts otherwise |
| IntType.TrueDivIn | src/builtin_types/int_type.rs:105-130 | true division demands two arguments counting the receiver, panicking with both counts otherwise |
| IntType.ToIntIn | src/builtin_types/int_type.rs:135-140 | `__int__` succeeds exactly when no argument follows the receiver, and returns the receiver itself with the heap unchanged |
| IntType.CompareSpec | src/builtin_types/int_type.rs:7-41 | against an int or a bool the result is the shared boolean of the integer comparison, receiver on the left, with the heap unchanged; against anything that is not a number or a bool it is `False` |
| IntType.BinopSpec | src/builtin_types/int_type.rs:43-74 | against an int the result is a fresh int holding `self op other` on `i128`, and an overflow or a zero divisor panics; against anything but an int or a float it is `NotImplemented`, and a missing `NotImplemented` panics |
| IntType.UnarySpec | src/builtin_types/int_type.rs:76-91 | `__neg__` allocates the negated value and panics only for the least `i128`; `__pos__` allocates a fresh int of the same value |
| IntType.TextSpec | src/builtin_types/int_type.rs:154-176 | `__str__` allocates the decimal text of the value, which reads back as the value; `__repr__` allocates the same text but only when given one argument besides the receiver |
| IntType.ToBooleanSpec | src/builtin_types/int_type.rs:178-189 | `__bool__` with one argument besides the receiver is `True` exactly for the value 1 and `False` for every other value; with none it panics |
| IntType.TableNamesDistinct | src/builtin_types/int_type.rs:194-214 | the names `register_int_type` binds are pairwise distinct, so each registration keeps the others |
| IntType.GreaterEqualsAsWritten | src/builtin_types/int_type.rs:96-97 | as written, `__ge__` is bound to the same native function as `__le__`, which answers `True` for `1 >= 2` |
| IntType.IntMethodsBindTheirComparisons | src/builtin_types/int_type.rs:194-199 | in the intended table every comparison dunder is bound to the native function of its own comparison |
| IntType.RegisterIntType | src/builtin_types/int_type.rs:191-219 | the type `int` is created in the builtin module with every method of the intended table bound, `builtin_type_addrs.int` is set to it, and nothing else of the runtime changes; it succeeds whenever the type of types and the callable type are known and the name is free |
| BooleanType.DecodeCode | src/builtin_types/boolean_type.rs:257-267 | each native function of the type is recovered from the code it is stored under, so no two share a code |
| BooleanType.Recompute | src/builtin_types/boolean_type.rs:29-53 | after the receiver's operator is called again with the other operand's truth, the result is always one of the two operands |
| BooleanType.ToBooleanIn | src/builtin_types/boolean_type.rs:197-203 | `__bool__` succeeds exactly when no argument follows the receiver, and returns the receiver itself with the heap unchanged |
| BooleanType.LogicOnBools | src/builtin_types/boolean_type.rs:10-152 | against another bool, `and`, `or` and `xor` return the shared boolean of their truth table over "not 0", with the heap unchanged |
| BooleanType.LogicNotImplemented | src/builtin_types/boolean_type.rs:28-55 | against an object that is not a bool and has neither `__bool__` nor `__len__`, the result is `NotImplemented` with the heap unchanged |
| BooleanType.LogicThroughBool | src/builtin_types/boolean_type.rs:29-40 | when the other operand's `__bool__` answers a bool, `and` returns the other operand exactly when both are true and otherwise the receiver, while `or` and `xor` return the receiver exactly when their table gives true |
| BooleanType.NotAndNegationSpec | src/builtin_types/boolean_type.rs:154-247 | `__not__` is the shared `True` exactly for 0; `__neg__` allocates a fresh int, 0 for 1 and 1 for anything else |
| BooleanType.ConversionsSpec | src/builtin_types/boolean_type.rs:168-216 | `__str__` allocates `False` for 0 and `True` otherwise, of the type bound to `str`; `__repr__` is the same but takes no argument besides the receiver; `__int__` allocates 0 or 1 of the type bound to `int` |
| BooleanType.AllocateTruthValues | src/builtin_types/boolean_type.rs:269-276 | `True` and `False` are two distinct new const objects of the type bound to `bool`, holding 1 and 0; no older object and no builtin name changes |
| BooleanType.RegisterBooleanType | src/builtin_types/boolean_type.rs:249-281 | `bool` is created as a subtype of the `int` already bound, with every method of its table bound, the shared `True` and `False` allocated and recorded, and `builtin_type_addrs.boolean` set; it succeeds whenever `int` is bound, `bool` is free and the type of types and the callable type are known |
| StringType.DecodeCode | src/builtin_types/string_type.rs:143-152 | each native function of the type is recovered from the code it is stored under, so no two share a code |
| StringType.ConcatIn | src/builtin_types/string_type.rs:7-9 | concatenation demands exactly one argument besides the receiver, panicking with both counts otherwise |
| StringType.EqIn | src/builtin_types/string_type.rs:30-46 | `__eq__` demands one argument besides the receiver and returns one of the two shared booleans without touching the heap |
| StringType.NeqIn | src/builtin_types/string_type.rs:48-65 | the not-equals method demands one argument besides the receiver and returns one of the two shared booleans without touching the heap |
| StringType.ToIntIn | src/builtin_types/string_type.rs:67-69 | `__int__` demands exactly one argument besides the receiver, panicking with both counts otherwise |
| StringType.Quoted | src/builtin_types/string_type.rs:102 | the text between single quotes: two characters longer, and the text is what lies between them |
| StringType.ReprIn | src/builtin_types/string_type.rs:93-95 | `__repr__` demands no argument besides the receiver, panicking with both counts otherwise |
| StringType.ToStrIn | src/builtin_types/string_type.rs:87-91 | `__str__` succeeds exactly when no argument follows the receiver, and returns the receiver itself with the heap unchanged |
| StringType.StrOfFirst | src/builtin_types/string_type.rs:114-118 | an empty argument list panics on the index, a first argument without `__str__` panics, and otherwise the result is that method's |
| StringType.NewIn | src/builtin_types/string_type.rs:106-120 | the intended `str(...)` panics with both counts when given more than one argument |
| StringType.ConcatSpec | src/builtin_types/string_type.rs:7-28 | between strs, `+` allocates a fresh str of the type bound to `str` holding the receiver's text followed by the other's, each recoverable from it; a non-str other panics with the name of its type |
| StringType.EqualitySpec | src/builtin_types/string_type.rs:30-65 | between strs, `__eq__` is the shared boolean of text equality and the not-equals method its negation; against an object whose type is not named `str` both answer `False`; neither allocates |
| StringType.ToIntRoundTrip | src/builtin_types/string_type.rs:67-75 | the decimal text of an `i128` parses back: `__int__` allocates a fresh int of the type bound to `int` holding the same number; without the extra argument its check demands, it panics |
| StringType.ToIntUnparsable | src/builtin_types/string_type.rs:73 | text that is not a decimal `i128` panics with that text |
| StringType.ReprSpec | src/builtin_types/string_type.rs:93-104 | `__repr__` allocates a fresh str holding the text in single quotes, from which the text is recovered by dropping the first and last character |
| StringType.NewAsWrittenPanics | src/builtin_types/string_type.rs:111-114 | as written, `str(x)` panics for every `x`: the one argument becomes the receiver and the empty remaining list is indexed |
| StringType.NewSpec | src/builtin_types/string_type.rs:106-120 | as intended, `str()` allocates the empty str, `str(x)` panics when `x` has no `__str__`, and on a str with the native `__str__` gives back the str itself with the heap untouched |
| StringType.NotEqualsAsWritten | src/builtin_types/string_type.rs:146 | as written, the not-equals method is bound under `__neq__` and no entry is bound under `__ne__`, the name `!=` looks up |
| StringType.StrMethodsBindNotEquals | src/builtin_types/string_type.rs:144-152 | in the intended table `__ne__` is bound to the not-equals method, and all names are distinct |
| StringType.RegisterStringType | src/builtin_types/string_type.rs:140-156 | `str` is created in the builtin module with no supertype, `__new__` among its functions, every method of the intended table among its methods, and `builtin_type_addrs.string` set; it succeeds whenever the type of types and the callable type are known and the name is free; no other older object but the builtin module changes |
| StringType.CreateStrWithNew | src/builtin_types/string_type.rs:141-143 | the type `str` is created and its `__new__` bound among its functions, no older object but the builtin module changing; it succeeds whenever the type of types and the callable type are known and the name is free |
| ListType.Receiver | src/runtime/runtime.rs:20-25 | the receiver of a bound call; a call without one panics |
| ListType.DecodeCode | src/builtin_types/list_type.rs:156-163 | each native function of the type is recovered from the code it is stored under, so no two share a code |
| ListType.ConcatIn | src/builtin_types/list_type.rs:3-4 | `+` demands exactly one argument, panicking with both counts otherwise |
| ListType.PushItemsSpec | src/builtin_types/list_type.rs:28-29 | pushing onto a list keeps the heap well formed, the list holds its old elements followed by the new ones, the object keeps its type and constness, and every other object is unchanged |
| ListType.ExtendIn | src/builtin_types/list_type.rs:22-23 | `extend` demands exactly one argument, panicking with both counts otherwise |
| ListType.AppendIn | src/builtin_types/list_type.rs:39-40 | `append` demands exactly one argument, panicking with both counts otherwise |
| ListType.ExtendList | src/builtin_types/list_type.rs:22-37 | performs `ExtendIn` on the runtime's heap in place; a panic changes nothing |
| ListType.AppendToList | src/builtin_types/list_type.rs:39-44 | performs `AppendIn` on the runtime's heap in place; a panic changes nothing |
| ListType.PushOnReceiver | src/builtin_types/list_type.rs:41-43 | unwraps the receiver and performs `PushItemsIn` on it in place, returning the receiver; a panic changes nothing |
| ListType.InPlaceSpec | src/builtin_types/list_type.rs:22-44 | `extend` with a list appends its elements to the receiver, so `l.extend(l)` doubles `l`, and `append` adds exactly one; both return the receiver, keep the heap well formed and leave every other object unchanged; `append(x)` changes the heap as `extend([x])` does |
| ListType.ConcatSpec | src/builtin_types/list_type.rs:3-20 | `+` with a list allocates a fresh list holding the receiver's elements then the other's, the same elements `extend` would leave in the receiver; a non-list panics with the name of its type |
| ListType.LenIn | src/builtin_types/list_type.rs:144-145 | `len` demands no argument, panicking with both counts otherwise |
| ListType.LenSpec | src/builtin_types/list_type.rs:144-149 | `len` allocates a fresh int holding the number of elements, one more after an `append` |
| ListType.ElementsEqual | src/builtin_types/list_type.rs:59-61 | an element compared with itself is equal without an `__eq__` call and with the heap unchanged |
| ListType.EqualsOperands | src/builtin_types/list_type.rs:47-49 | `__eq__` demands exactly one argument, panicking with both counts otherwise |
| ListType.EqualsAsWrittenIn | src/builtin_types/list_type.rs:46-87 | `__eq__` as written demands exactly one argument, panicking with both counts otherwise |
| ListType.EqualsIn | src/builtin_types/list_type.rs:46-87 | the intended `__eq__` demands exactly one argument, panicking with both counts otherwise |
| ListType.EqualsAsWritten | src/builtin_types/list_type.rs:46-87 | the two nested loops and the flag compute `EqualsAsWrittenIn` |
| ListType.ListEquals | src/builtin_types/list_type.rs:46-87 | one loop over the positions computes the intended `EqualsIn` |
| ListType.PairsEqualIdentical | src/builtin_types/list_type.rs:59-61 | lists holding the same objects in the same order are equal without a single `__eq__` call |
| ListType.PairsEqualWitness | src/builtin_types/list_type.rs:62-72 | an answer of unequal names a position whose elements are different objects |
| ListType.PairsAsWrittenSingle | src/builtin_types/list_type.rs:56-75 | as written, comparing `[x]` with `[x]` skips the one pair and leaves the flag set |
| ListType.EqualsSpec | src/builtin_types/list_type.rs:46-87 | as intended, a non-list or a list of another length is unequal, a list of the same objects in the same order is equal, and an unequal answer names a position with different objects |
| ListType.EqualsAsWrittenInverted | src/builtin_types/list_type.rs:76-80 | as written, `[x] == [x]` answers `False`, where the intended comparison answers `True` |
| ListType.NotEqualsIn | src/builtin_types/list_type.rs:89-90 | the not-equals method demands exactly one argument, panicking with both counts otherwise |
| ListType.NotEqualsSpec | src/builtin_types/list_type.rs:89-104 | when the receiver's `__eq__` is the list's own, not-equals is `True` exactly when `__eq__` answered `False`, and propagates its panic; with no `__eq__` it answers `False` |
| ListType.ElementTexts | src/builtin_types/list_type.rs:111-117 | one text per element, in order |
| ListType.JoinSnoc | src/builtin_types/list_type.rs:119 | joining one more text puts exactly one separator before it |
| ListType.ListTextIn | src/builtin_types/list_type.rs:106-142 | a list's text demands no argument, panicking with both counts otherwise |
| ListType.EmptyTextSpec | src/builtin_types/list_type.rs:106-142 | the empty list's `__repr__` and `__str__` both allocate a fresh str `[]` |
| ListType.ReprOfOneStr | src/builtin_types/list_type.rs:106-123 | a list of one str `s` whose `__repr__` is the native one has the repr `['s']` |
| ListType.TextOfLonger | src/builtin_types/list_type.rs:119-120 | the text of a list with one more element is the shorter list's text, a separator and the new element's text, between the brackets |
| ListType.NotEqualsAsWritten | src/builtin_types/list_type.rs:158 | as written, the not-equals method is bound under `__neq__` and no entry is bound under `__ne__`, the name `!=` looks up |
| ListType.ListMethodsBindNotEquals | src/builtin_types/list_type.rs:156-163 | in the intended table `__ne__` is bound to the not-equals method, and all names are distinct |
| ListType.RegisterListType | src/builtin_types/list_type.rs:153-168 | `list` is created in the builtin module with every method of the intended table bound and `builtin_type_addrs.list` set; it succeeds whenever the type of types and the callable type are known and the name is free, and changes no older object but the builtin module |
| Int128.TruncRemSpec | src/builtin_types/int_type.rs:101 | the truncating quotient and remainder recompose the dividend, the remainder is smaller than the divisor and takes the sign of the dividend |
| Int128.TruncRemNegativeDividend | src/builtin_types/int_type.rs:101 | `-7 % 2` is `-1` as Rust computes it, where Euclidean `%` gives `1` |
| Int128.CheckedAdd | src/builtin_types/int_type.rs:100 | the sum, exactly when it fits in `i128`; otherwise the overflow panic |
| Int128.CheckedSub | src/builtin_types/int_type.rs:102 | the difference, exactly when it fits in `i128`; otherwise the overflow panic |
| Int128.CheckedMul | src/builtin_types/int_type.rs:103 | the product, exactly when it fits in `i128`; otherwise the overflow panic |
| Int128.CheckedDiv | src/interpreter.rs:68 | a result is an `i128` quotient of a non-zero divisor that recomposes the dividend with the truncating remainder |
| Int128.CheckedDivPanics | src/interpreter.rs:68 | between `i128` operands division panics exactly for a zero divisor and for `i128::MIN / -1` |
| Int128.CheckedRem | src/builtin_types/int_type.rs:101 | the remainder exists exactly when the divisor is non-zero and the operands are not `i128::MIN` and `-1`; it is smaller than the divisor and takes the dividend's sign |
| Decimal.NatTextSpec | src/datamodel.rs:24 | the text of a natural number is a non-empty run of digits without a leading zero (unless the number is 0) whose value is the number |
| Decimal.ParseIntText | src/builtin_types/string_type.rs:73 | reading back the decimal text of an `i128` gives the same number |

## Left out

Some state functions are deliberately stated weaker than the source. These are the
`...In` functions on `Machine` snapshots that the interpreters compose. Their own
`ensures` keep them cheap to unfold. What they compute is stated in two places:

- the lemmas that name them (`BuildListSpec`, `PopNSpec`, `FunctionCallSpec`,
  `LoadNameOrder`, `BinaryOnInts`, `CompareOnInts`, `ForIterStops`, …);
- the `Performs` clause of the in-place method that runs them.

- Handlers.Pop: its own contract states only that the frame count and the pc are kept, and when it succeeds where given; what it computes is in the lemmas and methods beside it.
- Handlers.Push: its own contract states only that the frame count and the pc are kept, and when it succeeds where given; what it computes is in the lemmas and methods beside it.
- Handlers.PopN: its own contract states only that the frame count and the pc are kept, and when it succeeds where given; what it computes is in the lemmas and methods beside it.
- Handlers.Increase: its own contract states only that the frame count and the pc are kept, and when it succeeds where given; what it computes is in the lemmas and methods beside it.
- Handlers.Decrease: its own contract states only that the frame count and the pc are kept, and when it succeeds where given; what it computes is in the lemmas and methods beside it.
- Handlers.RaiseIn: its own contract states only that the frame count and the pc are kept, and when it succeeds where given; what it computes is in the lemmas and methods beside it.
- Handlers.BindLocalIn: its own contract states only that the frame count and the pc are kept, and when it succeeds where given; what it computes is in the lemmas and methods beside it.
- Handlers.AllocatePush: its own contract states only that the frame count and the pc are kept, and when it succeeds where given; what it computes is in the lemmas and methods beside it.
- Handlers.LoadConstIn: its own contract states only that the frame count and the pc are kept, and when it succeeds where given; what it computes is in the lemmas and methods beside it.
- Handlers.StoreNameAsWritten: its own contract states only that the frame count and the pc are kept, and when it succeeds where given; what it computes is in the lemmas and methods beside it.
- Handlers.StoreNameIn: its own contract states only that the frame count and the pc are kept, and when it succeeds where given; what it computes is in the lemmas and methods beside it.
- Handlers.BuildListIn: its own contract states only that the frame count and the pc are kept, and when it succeeds where given; what it computes is in the lemmas and methods beside it.
- Handlers.IndexAccessIn: its own contract states only that the frame count and the pc are kept, and when it succeeds where given; what it computes is in the lemmas and methods beside it.
- Handlers.RaiseInstructionIn: its own contract states only that the frame count and the pc are kept, and when it succeeds where given; what it computes is in the lemmas and methods beside it.
- Handlers.PopOperands: its own contract states only that the frame count and the pc are kept, and when it succeeds where given; what it computes is in the lemmas and methods beside it.
- Handlers.ReleaseTemporaries: its own contract states only that the frame count and the pc are kept, and when it succeeds where given; what it computes is in the lemmas and methods beside it.
- Handlers.ArithResultIn: its own contract states only that the frame count and the pc are kept, and when it succeeds where given; what it computes is in the lemmas and methods beside it.
- Handlers.CompareResultIn: its own contract states only that the frame count and the pc are kept, and when it succeeds where given; what it computes is in the lemmas and methods beside it.
- Handlers.CurryIn: its own contract states only that the frame count and the pc are kept, and when it succeeds where given; what it computes is in the lemmas and methods beside it.
- RuntimeInterpreter.FunctionCallIn: its own contract states only that the frame count and the pc are kept, and when it succeeds where given; what it computes is in the lemmas and methods beside it.
- RuntimeInterpreter.LoadAttrIn: its own contract states only that the frame count and the pc are kept, and when it succeeds where given; what it computes is in the lemmas and methods beside it.
- RuntimeInterpreter.LoadGlobalIn: its own contract states only that the frame count and the pc are kept, and when it succeeds where given; what it computes is in the lemmas and methods beside it.
- RuntimeInterpreter.LoadNameIn: its own contract states only that the frame count and the pc are kept, and when it succeeds where given; what it computes is in the lemmas and methods beside it.
- RuntimeInterpreter.StoreAttrIn: its own contract states only that the frame count and the pc are kept, and when it succeeds where given; what it computes is in the lemmas and methods beside it.
- RuntimeInterpreter.FallbackIn: its own contract states only that the frame count and the pc are kept, and when it succeeds where given; what it computes is in the lemmas and methods beside it.
- RuntimeInterpreter.BinaryIn: its own contract states only that the frame count and the pc are kept, and when it succeeds where given; what it computes is in the lemmas and methods beside it.
- RuntimeInterpreter.TrueDivIn: its own contract states only that the frame count and the pc are kept, and when it succeeds where given; what it computes is in the lemmas and methods beside it.
- RuntimeInterpreter.CompareIn: its own contract states only that the frame count and the pc are kept, and when it succeeds where given; what it computes is in the lemmas and methods beside it.
- RuntimeInterpreter.OperatorIn: its own contract states only that the frame count and the pc are kept, and when it succeeds where given; what it computes is in the lemmas and methods beside it.
- RuntimeInterpreter.ExecuteIn: its own contract states only that the frame count and the pc are kept, and when it succeeds where given; what it computes is in the lemmas and methods beside it.
- RuntimeInterpreter.NameIn: its own contract states only that the frame count and the pc are kept, and when it succeeds where given; what it computes is in the lemmas and methods beside it.
- RuntimeInterpreter.FlowIn: its own contract states only that the frame count and the pc are kept, and when it succeeds where given; what it computes is in the lemmas and methods beside it.
- RuntimeInterpreter.ValueIn: its own contract states only that the frame count and the pc are kept, and when it succeeds where given; what it computes is in the lemmas and methods beside it.
- BytecodeInterpreter.FunctionCallIn: its own contract states only that the frame count and the pc are kept, and when it succeeds where given; what it computes is in the lemmas and methods beside it.
- BytecodeInterpreter.LoadAttrIn: its own contract states only that the frame count and the pc are kept, and when it succeeds where given; what it computes is in the lemmas and methods beside it.
- BytecodeInterpreter.LoadGlobalIn: its own contract states only that the frame count and the pc are kept, and when it succeeds where given; what it computes is in the lemmas and methods beside it.
- BytecodeInterpreter.LoadNameIn: its own contract states only that the frame count and the pc are kept, and when it succeeds where given; what it computes is in the lemmas and methods beside it.
- BytecodeInterpreter.StoreAttrIn: its own contract states only that the frame count and the pc are kept, and when it succeeds where given; what it computes is in the lemmas and methods beside it.
- BytecodeInterpreter.FallbackIn: its own contract states only that the frame count and the pc are kept, and when it succeeds where given; what it computes is in the lemmas and methods beside it.
- BytecodeInterpreter.BinaryIn: its own contract states only that the frame count and the pc are kept, and when it succeeds where given; what it computes is in the lemmas and methods beside it.
- BytecodeInterpreter.TrueDivIn: its own contract states only that the frame count and the pc are kept, and when it succeeds where given; what it computes is in the lemmas and methods beside it.
- BytecodeInterpreter.CompareIn: its own contract states only that the frame count and the pc are kept, and when it succeeds where given; what it computes is in the lemmas and methods beside it.
- BytecodeInterpreter.CompareAsWritten: its own contract states only that the frame count and the pc are kept, and when it succeeds where given; what it computes is in the lemmas and methods beside it.
- BytecodeInterpreter.OperatorIn: its own contract states only that the frame count and the pc are kept, and when it succeeds where given; what it computes is in the lemmas and methods beside it.
- BytecodeInterpreter.ExecuteIn: its own contract states only that the frame count and the pc are kept, and when it succeeds where given; what it computes is in the lemmas and methods beside it.
- BytecodeInterpreter.NameIn: its own contract states only that the frame count and the pc are kept, and when it succeeds where given; what it computes is in the lemmas and methods beside it.
- BytecodeInterpreter.ValueIn: its own contract states only that the frame count and the pc are kept, and when it succeeds where given; what it computes is in the lemmas and methods beside it.
- RuntimeInterpreter.FunctionCallSpec: does not model a native callable flagged as bound and called with no bound object. `run_function` then takes its receiver by popping the caller's operand stack (src/runtime/vm.rs:717-721). The model's callee sees only the heap, so that extra pop is not modelled here, nor in `HandleFunctionCall` and the operator fallbacks that call through it.
- BytecodeInterpreter.FunctionCallSpec: the same gap for the `run_function` the bytecode interpreter calls; a callee that pops the caller's stack is not modelled.
- BytecodeInterpreter.FallbackKeepsLeftOperand: holds because the model's `run` reaches only the heap. `Runtime` defines no `run_function` (src/bytecode/interpreter.rs:23), and one that pops a bound receiver off the stack, as src/runtime/vm.rs:717-721 does, would consume the deeper operand instead.
- OldInstructions.HandleMethodCall: native code receives the whole `Interpreter` (src/runtime.rs:51) and could change its frames, module table or pc. The model passes it only the heap, so those effects are not modelled.
- OldInstructions.HandleFunctionCall: the same; native code's effect on anything but the heap is not modelled.
- Vm.CallMethodIn: the callee sees only the heap, not the frames, so its effect on them is not modelled.
- PyRuntime.CallNativeMethodIn: native code receives the whole `Runtime` and could change its frames or module table; the model passes it only the heap.
- Iterators.ListIterator: holds the list's items as a value, where the Python object holds a reference to the list. A list changed while it is being iterated is not modelled.
- Iterators.CallIter: gives a list the `__iter__` that iterating over it needs. The builtin `list` type binds none (src/builtin_types/list_type.rs:150-165), so in the code as written the call fails; `CallIterAsWritten` is that behaviour, and "## Findings" lists it.
- The parser's tokens: `parse` reads the older three-variant token (integer, float, operator) it was written against, not the lexer's full `Lexer.Token`. Identifiers, keywords and punctuation never reach the parser.

Outside the model, with the reason:

- Floating point: float values are symbolic terms, or the operations are a parameter
  (`FloatOps`). The model does not capture f64 rounding, `float_op`, `handle_binary_truediv`'s
  float results, Float `to_string`, or `__float__` on str.
- Float literal parsing: the lexer's and `str.__float__`'s f64 parse is reduced to a syntax
  predicate (`Lexer.ValidFloatText`). Rust's `f64::from_str` grammar is wider and comes from
  the standard library.
- Character classes: `is_numeric` and `is_alphabetic` are restricted to ASCII, and
  `is_whitespace` uses the Unicode White_Space list. The source asks the standard library
  for the full Unicode tables.
- Iterator elements: elements are integers. The four iterator classes never inspect them.
  `map` and `filter`'s callables are Dafny functions, not Python calls with their own
  effects.
- `i128` overflow: arithmetic that would leave the `i128` range is an `Overflow` or
  arithmetic panic, never a wrap-around.
- Division by zero: this is a panic too.
- Callees: `run_function`, native callables' bodies and `call_method` re-entry are
  parameters that take the heap and return the heap they leave. The model proves
  nothing about the code they run beyond keeping the heap well formed. They do not see
  the frames, the module table or the pc, so a callee's effect on those is not modelled.
- Supertype walk: `get_method_addr_byname` recurses without bound. The model bounds the
  chain by the number of heap objects and reports a cycle as a panic (`CyclicSupertype`).
- Fetch-execute loop: `execute_code_object` runs the loop with fuel, so a run that does not
  finish within the fuel is not described.
- Refcount cast: `get_refcount`'s `i32` cast of the count is not modelled; counts are
  unbounded integers.
- `MakeFunction` and `MakeClass` (src/runtime/interpreter.rs:617-693,
  src/bytecode/interpreter.rs:602-690): these build closures (`PyCallable`, the `__new__`
  closure), which are dynamic dispatch outside the model. Both interpreters answer
  `Unsupported` for them.
- `get_const_memaddr`, `register_codeobj_consts`, `print_traceback`, `print_stack` and
  `get_function_name`: these are constant-table setup and diagnostics output, not modelled.
- `Runtime` gaps: the bytecode interpreter calls `run_function` and `set_attribute` on a
  `Runtime` that does not define them. They are modelled as the `run` parameter and as the
  VM's `set_attribute`.
- `get_current_exception`: src/runtime/interpreter.rs:746 calls it, but it is not defined in
  the source. It is modelled as the current frame's recorded exception.
- `str.__new__` registration:
  - the source calls a three-argument `register_type_unbounded_func` that only the VM has;
    the model registers through `Runtime.RegisterTypeUnboundedFunc` on the builtin module's
    `str`;
  - bounded functions are registered by type name where the source uses the type's address
    (the same type);
  - the unwrap of the function name is not modelled.
- str `lower` and `upper`: Unicode case mapping comes from the standard library, so these
  are in the registration table but their call is outside the model (no result).
- Debug `println!` calls (compiler, memory) and the REPL, file loader and
  builtin_functions/builtin_io/builtin_math wrappers: these are input and output.
- src/builtin_types/float_type.rs, none_type.rs, index_error.rs, code_object.rs and loader.rs
  are not part of this model.
- The test-only helpers `unbind_local` and `stack_size`: not modelled.
- Ownership mechanics: raw `*mut` addresses, `Box::leak` and `RefCell`/`Cell` borrow rules are not
  modelled. Addresses are naturals and the heap is a map, so a borrow conflict the Rust
  runtime would panic on is not represented.

## Findings

| source | as written | input that shows it | evidently intended | confidence | as-written member | corrected member |
|---|---|---|---|---|---|---|
| src/builtin_types/int_type.rs:97 | `__ge__` is generated from `a <= b` | `(1).__ge__(2)` answers True | `__ge__` answers `a >= b` | not executed | IntType.GreaterEqualsAsWritten | IntType.IntMethodsBindTheirComparisons |
| src/builtin_types/string_type.rs:146 | `str` registers its inequality as `__neq__`, but the `!=` operator looks up `__ne__` | `"a" != "b"` finds no `__ne__` on `str` | the method is registered as `__ne__` | not executed | StringType.NotEqualsAsWritten | StringType.StrMethodsBindNotEquals |
| src/builtin_types/list_type.rs:158 | `list` registers its inequality as `__neq__`, but the `!=` operator looks up `__ne__` | `[1] != [2]` finds no `__ne__` on `list` | the method is registered as `__ne__` | not executed | ListType.NotEqualsAsWritten | ListType.ListMethodsBindNotEquals |
| src/builtin_types/string_type.rs:111-114 | after `as_method` has taken `x` as the receiver, `str(x)` reads index 0 of the empty argument list that remains | `str(5)` panics with an index out of bounds | `str(x)` returns `x.__str__()` | not executed | StringType.NewAsWrittenPanics | StringType.NewSpec |
| src/builtin_types/list_type.rs:56-80 | `__eq__` compares every element with every element, and maps "no mismatch" to `false_val` | `[x] == [x]` answers False | element-wise equality; equal lists answer True | not executed | ListType.EqualsAsWrittenInverted | ListType.EqualsSpec |
| src/bytecode/compiler.rs:131 | the jump that ends an if-branch targets one past the end of the else-branch | `if x: y = 2 else: y = 3` then `z = 4`: the closing jump lands on `StoreName(z)` and skips the `LoadConst(4)` before it | the jump lands on the first instruction after the else-branch | not executed | Compiler.IfElseSkipsNextInstruction | Compiler.IfElseLayout |
| src/bytecode/compiler.rs:146 | a while loop's body start and exit are computed without the block's own `offset` | `while a:` around `while b:` with an empty body: the inner loop's exit jump targets itself (index 3) instead of the outer loop's back-jump (index 5) | jump targets are absolute at any offset | not executed | Compiler.NestedWhileExitsIntoItself | Compiler.WhileLayout |
| src/runtime/vm.rs:754-759 | each missing default is inserted at the front of the arguments | `def f(a, b=d1, c=d2)` called as `f(x)` binds `[d2, x]` | the missing trailing defaults follow the given arguments: `[x, d1, d2]` | not executed | Vm.ArgumentsAsWrittenMisplacesDefaults | Vm.ArgumentsCorrectedSpec |
| src/runtime/interpreter.rs:518-525 | `StoreName` releases the old binding before it takes the new value | `x = x` where `x` holds the only reference to a non-const object frees it, then panics | take the new value before releasing the old one | not executed | Handlers.StoreNameAsWrittenFreesSelf | Handlers.StoreNameSucceeds |
| src/bytecode/interpreter.rs:401-403 | `CompareGreaterEquals` and `CompareLessEquals` are generated from `a > b` | `1 >= 1` answers False and `1 <= 2` answers False | `>=` and `<=` compare as their names say | not executed | BytecodeInterpreter.CompareAsWrittenEqualInts | BytecodeInterpreter.CompareOnInts |
| src/builtin_types/list_type.rs:150-165 | `list` binds no `__iter__`, and `map` and `filter` call `iterable.__iter__()` on their argument | `filter(is_even, some_list)` in pytests/for_loop_filter.py:5 fails, where that program expects `[2, 4, 6, 8]` | a list's `__iter__` gives a `list_iterator` over it | not executed | Iterators.CallIterAsWritten | Iterators.ForLoopFilter |
