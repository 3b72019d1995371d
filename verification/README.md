# lua2wasm in Dafny

A model of lua2wasm, the ahead-of-time compiler from Lua 5.5 to WebAssembly, and of its
assembler and allocator, with proofs about every run. The parts:

- **Control flow** (`Control*.dfy`): how `goto`, loops, `break`, `return` and to-be-closed
  variables become structured WebAssembly with dispatcher loops and a runtime close stack.
  The source and the target are two interpreters driven by the same oracle for everything a
  condition, a declaration or a close does; the emitter is a class with `CG`'s fields.
- **Number types** (`Spec*.dfy`, `KillRule.dfy`, `Infer*.dfy`, `IntFor.dfy`, `IntBoxes.dfy`,
  `IntRuns.dfy`): unboxed slots found by dropping candidates, signatures inferred over
  the whole program, typed entries and loops, and captured locals kept in integer boxes.
- **Maybe cells** (`Maybe*.dfy`): arithmetic, comparisons and multiple assignment of values
  whose number type is known only at run time, in cells of WebAssembly locals shared as
  scratch space, and how many such cells a body needs.
- **Outlined loops** (`Outline*.dfy`): a loop moved into its own function and resumed until
  it is done.
- **Names** (`Upvalues.dfy`, `Bindings.dfy`): lexical resolution through captured upvalues,
  the boxes closures carry, and the calls whose callee is known at compile time.
- **Expressions** (`Pratt.dfy`): the precedence-climbing parser against a printer.
- **Assembler** (`Leb.dfy`, `Tokens.dfy`, `Encode*.dfy`, `Keep.dfy`, `Dce*.dfy`,
  `Sigs.dfy`): LEB128, labels and folded code to bytes, removal of dead functions, globals
  and types.
- **Storage** (`Allocator.dfy`, `StringPool.dfy`): the first-fit allocator with boundary
  tags, and the pool that gives string literals their place in the data segment.

`Common.dfy` holds what they share. Code the source writes as loops over fields is written
as classes and methods; each such method is proved equal to a function of its inputs or old
state, and the theorems are about those functions.

Interpreters take a fuel argument that bounds jumps backwards and calls; running out is an
outcome of its own. A theorem "for every fuel" is therefore one about every finite run, and
where both sides use the same fuel, one diverges exactly when the other does. What the
runtime library, the host, metamethods and float arithmetic do is a `World`: any functions
of the trace so far. Results hold for every `World`.

Every lemma carries `{:induction false}`: proofs by induction are written out, and none rests
on an induction hypothesis the verifier adds.

## Model

| member | source | states |
|---|---|---|
| `ControlMain.BodySound` | src/codegen/stmt.c:1390-1411 | Every finished run of an emitted function body, error handler included, has the trace and the outcome of the Lua body's own run, and leaves no variable to close. |
| `ControlMain.BodyComplete` | src/codegen/stmt.c:1450-1534 | Every finished run of the Lua body, however it jumps between labels, is matched by the emitted one given 64 more units of fuel, the most labels a block may have. |
| `ControlMain.ClosedOnce` | src/codegen/stmt.c:1390-1411 | On every run, finished or not, to-be-closed variables are closed in reverse order of their declarations, none twice; a finished run has closed all of them. |
| `ControlMain.UnwindChains` | src/codegen/stmt.c:1358-1363 | Closing down to a height asks each `__close` once, topmost first, tells it the error in flight then, goes on when one raises and ends with the last error raised. |
| `ControlMain.HeightStays` | src/codegen/internal.h:145-156 | A statement run with as many variables open as `close_count` says, if it falls through, leaves exactly as many open as `close_count` says after it. |
| `ControlMain.HeightAlong` | src/codegen/stmt.c:1450-1534 | The same along any run of statements of a block that fall through one after another. |
| `ControlMain.ArrivalExact` | src/codegen/stmt.c:1219-1230 | A goto reaches its dispatcher (unless a close throws) with the smaller of its `close_count` and the label's close base open; they agree at the label if and only if the goto's own count is not below the base, the guard of its close call. |
| `ControlMain.ArrivalHeight` | src/codegen/stmt.c:154-183 | That guard holds exactly when the goto does not jump forward over a `<close>` declaration; one that does, in a legal block, has nothing but labels after its label. |
| `ControlMain.ShorterAtEnd` | src/codegen/internal.h:145-156 | A three-statement block in which a label is reached with nothing open while `close_count` there is 1. |
| `ControlSim.SimStmt` | src/codegen/stmt.c:1166-1271 | Each statement's code, from related states, reaches related states: fall through, break, goto, return, error and running out correspond, with the close stack unwound to the destination's base. |
| `ControlDispatch.BodyRuns` | src/codegen/stmt.c:1450-1534 | The nest of blocks a labelled block becomes, entered with segment index j, runs what the segments from j on run, in order. |
| `ControlEmit.CG.EmitStmts` | src/codegen/stmt.c:1450-1534 | The emitter with mutable `close_count`, break stack and label counter emits what the specification emits, raises `close_count` by the declarations in the block and leaves the break stack as it was. |
| `ControlEmit.CG.EmitForGen` | src/codegen/stmt.c:899-1059 | The same for a generic `for` and its closing value: the break label is pushed with the count inside the loop and popped again. |
| `Infer.Specialize` | src/codegen/analysis.c:1069-1117 | Inference ends on every program whose direct calls are to the function itself or to what `compute_func_bindings` binds to its locals, and with the tables it returns every function behaves as it does fully boxed, on every argument list, trace and fuel. No captured local is a raw number; the raw slots of every body are the greatest sets its stores allow; each typed parameter slot has the signature's type; a function called directly whose returns all have one numeric type is given it. |
| `Infer.Ranked` | src/codegen/expr.c:505-523 | There is a rank that falls along every direct call between different functions: such calls go to functions opened later. |
| `Infer.Inferrer.Rounds` | src/codegen/analysis.c:1028-1066 | The rounds end, although return types may rise, with every call site reached and every signature at rest under its own rule. |
| `InferRules.TwoSteps` | src/codegen/analysis.c:988-993 | With everything else fixed, a third step of a function's return type changes nothing, whatever it starts from. |
| `InferRules.NoOscillation` | src/codegen/analysis.c:932-943 | A return type that goes from integer to float on assuming integer does not go back on assuming float. |
| `InferRules.NotDownward` | src/codegen/analysis.c:932-943 | A function that returns a float literal takes the step from integer to float, which is not a fall in the order of the types: the iteration is not monotone. |
| `InferRules.MeetLeast` | src/codegen/analysis.c:945-949 | The meet of two types is the most that can be said of both. |
| `InferRules.FirstStep` | src/codegen/analysis.c:988-993 | The first step falls if and only if it is not the case that the body always returns and every return is float. |
| `InferRules.LaterSteps` | src/codegen/analysis.c:988-993 | Every later step falls or stays. |
| `Infer.ParamStays` | src/codegen/analysis.c:304-352 | A parameter that nothing in the body rebinds keeps the type its signature gives it. |
| `SpecSim.ProgramSame` | src/codegen/module.c:226-323 | With good tables the boxed entry of every function, running unboxed slots, direct calls and typed loops beside captured locals in boxes that closures may write to at any time, has exactly the result and trace of the unspecialized function, at the same fuel. |
| `SpecSim.TypedEntry` | src/codegen/expr.c:505-564 | So has the typed entry on arguments of its parameter types, and its result is of its return type. |
| `SpecSim.IntSame` | src/codegen/expr.c:1058-1112 | The i64 code of an expression classed as integer yields the integer the boxed evaluation yields, with its errors and trace. |
| `SpecSim.FltSame` | src/codegen/expr.c:1116-1164 | The f64 code of an expression classed as float yields the float the boxed evaluation yields. |
| `Spec.IntOpExact` | src/codegen/expr.c:1058-1112 | The 64-bit operators give sums, differences and products modulo 2^64, the floor of a quotient and the remainder with the divisor's sign, and fail only on dividing by zero. |
| `SpecSim.IntForSame` | src/codegen/stmt.c:718-801 | The unboxed integer loop, with its two exit tests each turn, is Lua's loop over start, start+step and so on. |
| `IntFor.Visit` | src/codegen/stmt.c:718-801 | For all 64-bit start, stop and nonzero step, the emitted loop ends and visits exactly the sequence of values Lua's rule gives. |
| `IntFor.ValuesExact` | src/codegen/stmt.c:718-801 | A value is visited if and only if it is start + k*step for some k and not past the limit, computed without wrap-around. |
| `IntFor.TripsExact` | src/codegen/stmt.c:718-801 | The number of turns is exactly the number of such k, all of them the first ones. |
| `IntFor.WrapSeen` | src/codegen/stmt.c:699-712 | The comparison of the next value with the current one is true exactly when the 64-bit addition wrapped. |
| `IntFor.NextTurn` | src/codegen/stmt.c:790-801 | The two tests together leave the loop exactly after the last turn. |
| `KillRule.SlotPass.Settle` | src/codegen/analysis.c:236-352 | Dropping slots in place until a pass drops none leaves the greatest set of slots whose every store is of the type, in at most one pass more than there are slots. |
| `IntBoxes.Boxer.Settle` | src/codegen/analysis.c:1283-1298 | Settling ends, drops only, reports truly whether it dropped, and leaves boxes all of whose stores are single int-typed values (`expr_is_int`) under both entries of every function; if more boxes never make fewer slots ints, they are the greatest such set. |
| `IntBoxes.Boxer.Alternate` | src/codegen/module.c:1078-1089 | Inferring and settling in turn ends with boxes that are so under the very signatures inferred from them. |
| `IntRuns.BoxInts` | src/codegen/module.c:1078-1089 | Binding calls, then alternating from captured candidates that are no parameters, ends with boxes, signatures and bindings the run theorems below apply to. |
| `IntRuns.ReadsInt` | src/codegen/analysis.c:1126-1147 | In every state inside a body, under either entry, reading a surviving box, directly or through an upvalue, yields an integer. |
| `IntRuns.EvalInt` | src/codegen/analysis.c:150-181 | Every expression typed int yields an integer on every run, and whatever is evaluated, calls and recursion included, leaves integers in the boxes. |
| `IntRuns.InvokeInt` | src/codegen/analysis.c:1126-1147 | Every call, through the boxed entry with any arguments or the typed one with arguments of its types, keeps integers in the boxes; a typed call of a function with an int result returns an integer. |
| `IntRuns.ChunkInt` | src/codegen/analysis.c:1126-1147 | Every run of the chunk ends with only integers in the boxes. |
| `MaybeMain.StoreOk` | src/codegen/maybe.c:435-438 | Storing any arithmetic expression into a maybe slot, with scratch cells reused between operands, leaves the slot denoting the value Lua computes, every other slot as it was, and the trace and any error the same. |
| `Maybe.IntArithExact` | src/codegen/maybe.c:103-130 | Inline integer arithmetic gives what the manual says, and fails only on dividing by zero. |
| `MaybeMain.LowerOk` | src/codegen/maybe.c:326-432 | Lowering into any cell, with any scratch cells free from k on, fills it with the value and touches no cell below k. |
| `MaybeMain.ValueOk` | src/codegen/maybe.c:442-450 | The boxed form of an expression yields the value. |
| `MaybeMain.MathOk` | src/codegen/maybe.c:250-320 | `sqrt`, `abs`, `floor` and `ceil` inlined behind their guard are the library functions when the guard holds and the call when not. |
| `MaybeMain.NeedBounded` | src/codegen/analysis.c:584-623 | Lowering an expression never uses more scratch cells than the number computed for it. |
| `MaybeCmp.CmpOk` | src/codegen/maybe.c:455-513 | A comparison of operands of unknown type gives Lua's answer, errors and trace: same types inline, mixed ones exactly even beyond 2^53, anything else by the helper. |
| `MaybeBlock.MultiOk` | src/codegen/stmt.c:383-456 | `t1[k1], x, t2[k2] = v1, v2, v3` through held cells evaluates in Lua's order, stores from right to left what Lua stores and fails as Lua does, in as many cells as counted for it. |
| `MaybeBlock.EmitBody` | src/codegen/analysis.c:624-666 | In a pool of the size `block_temp_need` computes for a body, emission of its conditions, stores, multiple assignments and nested blocks never runs out, and every statement finds the pool empty. |
| `MaybeEmit.CG.EmitStore` | src/codegen/maybe.c:52-100 | The emitter's bump allocator never runs out, its depth is restored, and the code is the one proved right. |
| `OutlineSim.OutlineSame` | src/codegen/outline.c:391-506 | Calling a loop's own function again and again until it reports done ends as the loop in place does: same outcome, same locals in scope after it, same trace; whatever the budget of turns per call, fresh or resumed. |
| `OutlineSim.AnyBudget` | src/codegen/outline.c:593-607 | Any two budgets give the same end. |
| `Upvalues.Parser.ResolveName` | src/parser.c:377-436 | Of all declarations in scope, across all enclosing functions, the last one of the name decides: a local of this function gives its slot, one of an outer function an upvalue whose chain ends at that very local, `global NAME` a global with its attribute. Without one the last `global *` decides; without that too, a `global` declaration of another name makes it an error, and nothing a global. |
| `Upvalues.Parser.UseGlobal` | src/parser.c:386-389 | After `global x` or `global<const> x`, x is that global. |
| `Upvalues.Parser.UseLocal` | src/parser.c:382-385 | After `local x`, x is the slot just declared. |
| `Upvalues.Parser.AddUpvalue` | src/parser.c:330-337 | The existing entry, with nothing changed, if there is one, or else a new one at the end; no other entry moves. |
| `Upvalues.OriginCaptured` | src/codegen/analysis.c:838-854 | Every upvalue's chain ends at a local of an enclosing function that is marked captured. |
| `Upvalues.OriginStays` | src/codegen/analysis.c:838-854 | What an upvalue refers to never changes as parsing goes on. |
| `Upvalues.BoxFound` | src/codegen/expr.c:859-878 | Where a closure is made, the slot or upvalue each entry names holds the box lexical scoping says is in force for that variable. |
| `Upvalues.MakeClosure` | src/codegen/expr.c:859-878 | The upvalue array built is exactly those boxes. |
| `Bindings.CalleeIs` | src/codegen/expr.c:505-523 | In every state that a run can reach, reading a bound slot or upvalue yields a closure over the bound function, so the direct call enters what the dynamic call would. |
| `Bindings.ChunkOk` | src/codegen/analysis.c:857-914 | Every state a run of the chunk reaches keeps that: each box and slot of a bound variable holds nothing yet or a closure over its function. |
| `Bindings.EvalOk` | src/codegen/analysis.c:790-819 | Each evaluation keeps it, through captured boxes, calls and recursion. |
| `Bindings.StableIs` | src/codegen/analysis.c:857-897 | A slot is bound to a function if and only if `local function`, or a `local` with as many values as names, gives it that function, and no assignment in any function has it as a target, directly or through an upvalue. |
| `Bindings.ComputeBindings` | src/codegen/analysis.c:857-897 | The visits compute exactly that map, whatever the order of declarations and assignments. |
| `Bindings.StableOk` | src/codegen/analysis.c:857-897 | That map contradicts no statement, and each function it binds is declared just inside the one whose local it is, so direct calls through locals go inwards. |
| `Bindings.StableMost` | src/codegen/analysis.c:857-897 | No map that contradicts no statement binds any declared local besides, or otherwise. |
| `Pratt.RoundTrip` | src/parser.c:832-851 | Parsing what an expression prints to gives the expression back, for all expressions. |
| `Pratt.PrintParses` | src/parser.c:814-851 | The same at any minimum precedence and before any tokens: the printed expression becomes the left operand of what follows. |
| `Pratt.PrintsApart` | src/parser.c:471-527 | Two expressions print alike if and only if they are equal: precedence and associativity leave no ambiguity. |
| `Pratt.Groups` | src/parser.c:457-527 | For any two binary operators, in `a op1 b op2 c` the one in the tighter set of the manual's order takes its operands first; within a set the left one does, except that `..` and `^` group to the right. |
| `Pratt.UnaryBetween` | src/parser.c:814-830 | Every unary operator takes its operand before every binary operator but `^`, and may stand to the right of any. |
| `Pratt.NoOthers` | src/parser.c:471-495 | No other token continues an expression as an operator, and every operation has one that does. |
| `Pratt.ParseBack` | src/parser.c:548-851 | The parser with a token position, run on a printed expression, consumes exactly it. |
| `Leb.UlebReads` | src/wat2wasm.c:80-87 | Unsigned LEB128 decodes to the number and stops where it ends. |
| `Leb.UlebDigits` | src/wat2wasm.c:80-87 | Byte i is the i-th seven bits of the number, with 0x80 on all bytes but the last. |
| `Leb.UlebShort` | src/wat2wasm.c:80-87 | n bytes suffice for every number below 2^(7n). |
| `Leb.SlebReads` | src/wat2wasm.c:89-100 | Signed LEB128 does, for negative numbers too. |
| `Leb.SlebDigits` | src/wat2wasm.c:89-100 | The same of a signed number in two's complement. |
| `Leb.SlebShort` | src/wat2wasm.c:89-100 | n bytes suffice for every number of 7n bits in two's complement. |
| `Tokens.Opcodes` | src/wat2wasm.c:1190-1300 | Control instructions have the opcodes of the WebAssembly specification. |
| `EncodeRun.BodyDecodes` | src/wat2wasm.c:1525-1543 | The bytes of a body read back as exactly its instructions, and those parse as properly nested code, whatever follows. |
| `EncodeRun.BodyMeans` | src/wat2wasm.c:1074-1464 | The flat code with numeric depths does what the text with named labels does: the same outcome and state at the same fuel. |
| `EncodeRun.FindNearest` | src/wat2wasm.c:783-792 | A label resolves to the nearest enclosing frame of that name, or to none if there is none. |
| `EncodeSim.NeverFalls` | src/wat2wasm.c:1056-1066 | Where the encoder appends `unreachable`, control never arrives. |
| `EncodeSim.AddedExactly` | src/wat2wasm.c:1052-1066 | It does so exactly when the body's last instruction is one of the eight that transfer control, or a loop whose own body gets one and does not end in an immediate of a flat instruction. |
| `EncodeRun.Encoder.EncodeBody` | src/wat2wasm.c:1525-1543 | The encoder with an output buffer and a label stack appends just those bytes and restores the stack. |
| `DceRun.FindLive` | src/wat2wasm.c:1866-1902 | The worklist marks every exported function; beyond that exactly what a body or initializer of something marked calls, takes the address of, reads or writes; and it is the least such set. |
| `DceRun.Assemble` | src/wat2wasm.c:2246-2286 | The remap tables give each such function and global its rank among them, and no code that is kept refers to what is dropped. |
| `DceRun.ExportsAgree` | src/wat2wasm.c:2246-2286 | Every exported function is still there, exported and of its type, and on all arguments and through instantiation, calls through references and tail calls behaves the same after pruning and renumbering. |
| `DceRun.RemapDistinct` | src/wat2wasm.c:222-227 | Distinct live functions and globals stay distinct. |
| `DceRun.RemapOnto` | src/wat2wasm.c:2246-2286 | Every new index is that of a live function or global: none is left over. |
| `Dce.InvokeMatches` | src/wat2wasm.c:222-227 | Any call in a live state ends in the renumbered image of the state it ended in before. |
| `Sigs.AssembleTypes` | src/wat2wasm.c:2313-2397 | Each type index written, in imports, tags, functions and block types, names the signature it stands for; the type section holds, each once, exactly those that an import, a tag, a live function or a block in one uses, where a block type that is empty or a single result needs none. |
| `Sigs.SigTable.Intern` | src/wat2wasm.c:700-722 | Interning returns the index of the signature, keeps earlier indices and never stores one twice. |
| `Allocator.Heap.Malloc` | src/freestanding/alloc.c:97-127 | The first block in the list that is large enough, or else a fresh one at the break, or null exactly when neither can be had; never null while the block fits in committed memory below 4 GiB, whether or not the host would grow it, and memory grows by the fewest pages. The payload is disjoint from all live ones, holds the request and is less than one block too large, and every live payload is untouched. |
| `Allocator.Heap.Free` | src/freestanding/alloc.c:129-153 | Exactly that payload goes; its neighbours are merged so that no two free blocks touch; live payloads are untouched. |
| `Allocator.Heap.Realloc` | src/freestanding/alloc.c:163-177 | In place when it fits, else a copy of the whole old payload in a new place, or null exactly when `malloc` would give null, and then nothing changes. |
| `Allocator.Heap.HeapExtend` | src/freestanding/alloc.c:59-69 | In 32-bit arithmetic: with end and break below 4 GiB, null exactly when the new break passes the end and growing is refused, and else the fewest pages that reach it are added; the block lies at the old break, and the new break is above it if and only if the sum does not wrap. |
| `Allocator.FullRefuses` | src/freestanding/alloc.c:59-69 | With all 4 GiB committed and most of it unused, a request for 16 bytes finds no memory. |
| `Allocator.NeedExact` | src/freestanding/alloc.c:97-104 | The payload asked for is the least multiple of 8 that holds the request and the two list pointers. |
| `Allocator.FreshExact` | src/freestanding/alloc.c:97-127 | For every request past the guard, a fresh block has the new break above it, at the block's true end, if and only if the request is at most 0xffffffe8 and break plus block size stays below 4 GiB. |
| `Allocator.BreakWraps` | src/freestanding/alloc.c:59-69 | With the break at 0x20000 in three pages, `malloc(0xffffffe8)` asks for no memory, moves the break down and puts the footer below the block. |
| `Allocator.Heap.ReadyExact` | src/freestanding/alloc.c:97-127 | The requests `malloc` and `realloc` are proved for are exactly those with a block size other than 0 that find a listed block, are refused memory or move the break up. |
| `Allocator.TilesExactly` | src/freestanding/alloc.c:9-21 | Every heap address lies in exactly one block, and no other address in any. |
| `Allocator.PayloadsDisjoint` | src/freestanding/alloc.c:72-78 | In a heap that blocks tile, no two payloads share an address. |
| `Allocator.SizeGuardExact` | src/freestanding/alloc.c:97-104 | The 32-bit block size is right if and only if the request is at most 0xffffffe8; between that and the guard's limit it is 0. |
| `StringPool.StrPool.Intern` | src/codegen/strings.c:92-115 | The hash table with linear probing, growth and scanning returns what the plain dictionary would, and keeps every entry. |
| `StringPool.RunKeeps` | src/codegen/strings.c:92-115 | After any additions every reference handed out still denotes its bytes, and the pool only grows at the end. |
| `StringPool.SameBytesSameRef` | src/codegen/strings.c:92-115 | In any run, equal bytes get equal references, and unequal ones unequal. |
| `StringPool.LowestExactly` | src/codegen/strings.c:14-18 | The reference for new bytes is to their lowest occurrence if and only if they occurred already or no occurrence straddles the end of the pool. |
| `StringPool.LowestSettled` | src/codegen/strings.c:92-115 | Whether a recorded offset is the lowest never changes as the pool grows. |
| `StringPool.NotAlwaysLowest` | src/codegen/strings.c:14-18 | "ab" then "abab" gets offset 2 although the bytes occur at 0. |

## Findings

Five statements in the source's comments or guards hold only under a condition.

- *`close_count` equals the length of the runtime close stack* (src/codegen/internal.h:145-156).
  False at a label that ends its block, reached by a goto over a `<close>` declaration:
  `ShorterAtEnd` is the block. True between statements (`HeightStays`, `HeightAlong`), and
  at a label if and only if the goto's count is not below the label's base (`ArrivalExact`),
  that is, if and only if it does not skip a declaration forwards (`ArrivalHeight`). No run
  is affected: `BodySound` holds with these labels in it.
- *The pool returns the offset the scan would find, the lowest* (src/codegen/strings.c:14-18).
  False for bytes that straddle the old end of the pool once appended: `NotAlwaysLowest`.
  `LowestExactly` is the condition. References stay valid and unique all the same.
- *The request guard of `malloc` prevents overflow* (src/freestanding/alloc.c:97-104). The
  guard admits requests up to 0xfffffff0, and for those above 0xffffffe8 the block size
  wraps to 0: `SizeGuardExact`. A request that keeps its size can still wrap the address
  sum in `heap_extend` (src/freestanding/alloc.c:59-69): `BreakWraps` is one of 0xffffffe8
  bytes after which the break is lower. A fresh block is right if and only if the request is
  at most 0xffffffe8 and break plus block size stays below 4 GiB (`FreshExact`,
  `HeapExtend`); requests that find a listed block, or for which the host refuses memory,
  are safe whatever the break (`ReadyExact`).
- *`g_end` is the end of committed memory* (src/freestanding/alloc.c:42-69). Once all 4 GiB are
  committed it wraps to 0, every break is past it, and room that is left is not given out:
  `FullRefuses`. The condition is the first case of `NoMemory`, which `HeapExtend` meets
  exactly: while less than 4 GiB are committed, memory below the end is always given out;
  with all of it committed, only a break in the last page is reached.
- *Inference is a monotone fixpoint* (src/codegen/analysis.c:932-943). Return types start at
  integer and may go to float: `NotDownward`. The first step falls exactly under
  `FirstStep`'s condition, all later ones do (`LaterSteps`), which is why it ends all the same.

## Left out

- Allocator.Heap.Malloc: only requests that meet `Ready` are covered, which leaves out exactly those whose block size wraps to 0 and those for which `heap_extend` wraps the break (see Findings).
- Allocator.Heap.Realloc: the same requests are left out, and only where a new block is needed.
- Allocator: memory is a map from addresses to 32-bit words rather than bytes; the answer of `memory.grow` is a parameter; `calloc` is `malloc` and a fill and is left out.
- StringPool: the hash function is any function; the slot mask is a remainder by the capacity.
- Control: `elseif` chains are nested two-armed ifs; the label pre-pass (la_block) is read off the block where the emitter needs it; which gotos are legal is Lua's rule, checked by the parser and not by the emitter, and a precondition here. Expressions, assignments and calls are oracle queries.
- Spec: no `goto` and no `repeat` in typed bodies; the box of a captured local holds any function of the trace, so that closures may write to it at any time; raw integer boxes and typed upvalue reads are not in its expressions (IntBoxes and IntRuns have those); a `<close>` or other declaration a slot cannot be typed by is one form of statement. `$for_prep` and `$for_limit` are contracts: the limit is any function meeting Lua's clipping rule.
- Infer.Specialize: function bodies are written twice, with arithmetic and types (Spec) and with slots, upvalues and assignments (Bindings); the two are related by the functions' number, parameters and direct calls.
- Bindings: a call has one result, `for` loops over calls bind one value and nils, and vararg functions are not in it; arithmetic on other than integers gives what the `World` says, never a closure, and metamethods run no Lua code; closing values is in Control only.
- IntBoxes.Boxer.Settle: the int slots of a body are a function of the boxes and signatures; that it keeps its promise (`IntRuns.SlotsRight`) is proved of the code in KillRule, on Spec's bodies.
- IntBoxes.Boxer.Alternate: inference is a function of the boxes; that its int results are right (`IntRuns.RetRight`) is proved in Infer, on Spec's bodies.
- IntRuns: signatures say int or not; a float parameter takes any value.
- Maybe: table reads and lengths into cells, calls with several results, and boxes and upvalues in typed expressions. The variables of a multiple assignment are plain locals; of a store into one element only the cells are modelled (`MaybeBlock.EmitElement`); comparisons of floats, and of a float with an integer, are any functions that agree where the integer converts exactly.
- Outline: gotos out of an outlined loop, to-be-closed variables in one, the choice which loops to outline, and nested outlining decisions; what the body does to the heap is up to the `World`.
- Upvalues: the fixed arrays of frames and their limits ("too many upvalues", nesting depth) are sequences without limit; attributes other than those of `global`.
- Pratt: literals and names are numbered atoms; method calls, string and table call arguments, the flag for parenthesized calls, and syntax error messages. Printing is right, not minimal.
- Encode: a flat instruction's operands are on the stack and a folded one's are its children, as in the text; reference-typed block types and heap-type immediates that are not one index, `ref.test` and `ref.cast` with their null flags, float constants, and the parsing of text.
- Dce: exceptions (`throw`, `try_table`); a branch leaves the operand stack as it is rather than cut to its label's height; the host sees numbers and whether a value is a reference, not which; what initializers of globals do besides their value. That every name resolves is a precondition.
- Sigs: the order in which fields of the module are interned is imports, tags, functions, then block types, not the order of the text.
- The lexer, the statement parser, tables and arrays, the runtime library in WAT, error messages and their positions, and the command line.
