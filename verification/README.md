# A verified model of the FML implementation

FML is a small expression language with objects, inheritance and first-class functions.
The repository implements it in C: a hand-written lexer and operator-precedence parser,
a tree-walking interpreter, a loader and stack machine for bytecode, and the allocators
below them. This project models these parts in Dafny and proves what they are for.

## How it is organised

| part | files |
|---|---|
| tokens, syntax trees, lists | `Tokens`, `Ast`, `Lists` |
| lexer | `LexerSpec` (what a token is), `Lexer` (the byte automaton), `Layout` (round trip and coverage) |
| parser | `ParserSpec` (what parsing computes, with error recovery), `Scratch` (the shared stack for lists), `Parser` (the parser object) |
| grammar | `Grammar` (derivations as concrete trees, by binding powers), `Strata` (the grammar by nonterminals), `Productions`, `Completeness`, `Soundness`, `Precedence`, `Printer`, `SourceText` |
| heap and operators | `Heap`, `Operators` |
| bytecode machine | `Bytecode`, `BcSpec` (one step), `BcInterpreter` (the machine object), `BcValues` (what values point to), `BcSafety` (stack discipline), `BcRuns`, `BcFields`, `BcCalls`, `BcLaws` (what instructions do), `BcExamples` |
| loader | `LoaderSpec` (file format and memory layout), `Loader` |
| tree-walking interpreter | `AstValues`, `AstSpec` (evaluation over stacks of maps), `AstInterpreter` (the interpreter object over arrays), `AstFrame`, `AstSimulation`, `AstSound`, `AstFields`, `AstLaws`, `AstCalls`, `AstObjects` (laws of the language) |
| arena | `ArenaSpec`, `Arena` (linked chunks) |
| end to end | `Programs` (source texts), `BcPrograms` (bytecode files) |

Code that updates state in the source is a class with the same fields and one method per
function: lexer, parser, scratch stack, heap, both interpreters, loader and arena. Each
method is proved against a function over values, and the theorems are about those
functions. Specification functions are therefore pinned from two sides: by the
imperative code written after the C, and by theorems that do not mention their bodies.
The grammar, for instance, refers neither to the parser nor to binding powers, the printer
knows only the grammar, and the laws of the language and of the machine speak of states,
bindings and other forms of expression instead of the functions that compute them.

`dafny verify dfyconfig.toml` checks everything.

## Main results

* **Parser.** A token list is accepted if and only if the stratified grammar, which
  knows nonterminals and operators but no binding powers, derives it, and every
  derivation means the tree that is returned (`Soundness.AcceptanceIsDerivability`);
  what that says of two operators in a row is `Precedence.TwoOperators`. Printing a tree
  with only the parentheses the precedence table demands and parsing it gives the tree
  (`Printer.ParsePrint`), those parentheses are needed (`Printer.ParenthesesNeeded`). A
  text reads as a list of tokens that can be written down if and only if it is a layout
  of them, white space and comments being needed only where two tokens would run
  together (`Layout.LayoutExact`). An accepted source text survives printing and reading
  if and only if it does not end in a stray `=`, which is taken for a field name no text
  without one can spell (`SourceText.SourceReparse`, `SourceText.Respellable`). Lexing,
  parsing and panic recovery terminate on every text: the parser methods have no
  termination assumptions, and the unreachable calls have no method they could be
  reached from.
* **Bytecode machine.** For programs with one operand height per instruction that agrees
  along every branch, no run misses an operand, a local or a constant, or leaves its
  function (`BcRuns.RunsAreSafe`), and calls are bracketed over whole runs
  (`BcRuns.CallsReturn`). The condition excludes exactly the calls of `get` and `set`
  that reach a non-array: a run keeps the stack discipline if and only if there is none
  (`BcRuns.DisciplineExactly`), and `BcExamples.SilentGetUnderflows` is one that misses
  an operand. References and parent chains need no condition: over any run of any
  program they are good (`BcValues.ReachableHeaps`), and every lookup ends at the
  nearest definition (`BcFields.ReachableLookups`). Unset slots appear if and only if a
  call leaves one (`BcValues.UnsetExactly`), the frame of the caller stops a built-in if
  and only if it has too few slots (`BcCalls.CallerCheck`), and no run changes the shape
  of a cell (`BcFields.RunKeepsCells`). `BcLaws` says of each instruction, alone and in
  pairs, what it does to the state.
* **Tree-walking interpreter.** The array-backed evaluator refines evaluation over
  stacks of maps (`AstInterpreter.IState.Interpret`). Every evaluation is framed
  (`AstFrame.EvalFrames`, `AstInterpreter.IState.BindingsKept`), calls are isolated from
  their callers (`AstSimulation.CallIsolation`), and runs of parsed programs meet no
  dangling reference, no unset slot and no endless parent chain (`AstSound.EvalSound`,
  `Programs.RunsAreSound`). Laws tell what each form does by what its parts and other
  forms do: conditions (`AstLaws.Conditionals`), loops (`AstLaws.Loops`), names
  (`AstLaws.MeansOne`, `AstLaws.ReadsDefined`), calls (`AstCalls.Calls`), methods
  (`AstObjects.Methods`), arrays and objects (`AstObjects.Arrays`,
  `AstObjects.Objects`).
* **Loader.** What is serialised is loaded (`LoaderSpec.ProgramRoundTrip`), and the
  memory built represents the program, terminators and padding included
  (`Loader.Loader.Deserialize`); the machine runs the program it finds there
  (`BcPrograms.Interpret`).
* **Arena.** The stack principle holds if and only if the saved chunk was not exactly
  full or no chunk was added since (`ArenaSpec.StackPrinciple`). It fails for every save
  taken before the first allocation, as soon as anything of positive size is allocated
  (`ArenaSpec.EmptyArenaIsFull`), and then the next block is placed on a chunk header
  (`ArenaSpec.HeaderOverwritten`).

## Where the code differs from what is documented or expected

The model follows the code.

* At the end of the input a lone `-`, `=`, `>` or `<` is delivered as a division sign
  (`src/parser.c:267`). As a consequence `x.=` is accepted, as an access of a field
  named `=` (`SourceText.StrayEqualsAccepted`).
* A method call leaves its first local unset: the null fill starts one slot late
  (`src/bc/bc_interpreter.c:157-161`); `BcExamples.FirstLocalUnset` is a program that
  stops for it.
* `get` and `set` on a value other than an array push no result
  (`src/bc/bc_interpreter.c:509-532`).
* The argument index of a built-in is checked against the frame of the caller
  (`src/bc/bc_interpreter.c:400-404`): `BcExamples.CallerTooShort` is a correct call
  that is refused.
* In the tree-walking interpreter `set` returns the array, in the machine the stored
  value; an inherited method runs with its owner as `this` in the one and with the
  original receiver in the other.
* A position saved in a full chunk is not restored once a chunk was added
  (`src/arena.c:49-61`), against the stack principle stated in `src/arena.h`.

## Model

| member | source | states |
|---|---|---|
| `LexerSpec.Lex` | src/parser.c:167-287 | every call delivers a suffix of its input; every token other than the end of input consumes at least one byte; the end of input leaves nothing |
| `LexerSpec.StringBody` | src/parser.c:211-218 | the body of a string ends in front of its closing quote, or the input ends first |
| `LexerSpec.BlockBody` | src/parser.c:227-234 | a block comment ends at its first `*/`, or the input ends first |
| `Lexer.Lexer.Next` | src/parser.c:167-287 | the byte automaton, one byte and one state at a time, delivers the token and the remaining input the recursive definition of a token gives |
| `Lexer.StepPays` | src/parser.c:175-260 | in every reachable state of the automaton, one byte either delivers exactly the token that is due or leads to a state that owes the same token |
| `Lexer.EndPays` | src/parser.c:262-287 | when the input ends in any reachable state, the token delivered is the one that was due |
| `Lexer.FindKeyword` | src/parser.c:276-283 | the keyword table finds the kind of every keyword and nothing else |
| `Lexer.Delimit` | src/parser.c:271-286 | the slice delivered for a token: strings lose their quotes, words become keywords |
| `Layout.LexToken` | src/parser.c:167-287 | a token written down in front of anything that ends it, another token and a comment included, is read back as that token, with that text remaining |
| `Layout.LexTokenExact` | src/parser.c:167-287 | what follows ends the token exactly if it begins with no byte the token would take in: for any token and any text behind it, the token is read back if and only if it is ended |
| `Layout.LexSkipsGap` | src/parser.c:167-287 | white space and whole comments in front of a token change nothing |
| `Layout.LexLayout` | src/parser.c:167-287 | for every list of writable tokens, with any white space and comments between and after them, or nothing where the next token ends the one before, lexing gives the list back |
| `Layout.FragileAtEnd` | src/parser.c:262-269 | a token at the very end of the input is read back as itself exactly if it is not a lone `-`, `=`, `>` or `<`; those become a division sign |
| `Layout.Coverage` | src/parser.c:167-287 | every text without a lexical error is its tokens laid out with white space and complete comments only: no other byte lies outside a token |
| `Layout.LayoutExact` | src/parser.c:167-287 | for every text and every list of tokens: the text reads as that list and all its tokens are writable if and only if the text is such a layout of the list |
| `Layout.KeywordTokens` | src/parser.c:98-113 | each of the sixteen keywords, written out letter by letter, is read as its token |
| `Layout.OperatorTokens` | src/parser.c:73-76 | so are `|`, `&`, `==` and `!=` |
| `Layout.ComparisonTokens` | src/parser.c:77-80 | so are `>`, `<`, `>=` and `<=` |
| `Layout.ArithmeticTokens` | src/parser.c:81-84 | so are `+`, `-`, `*` and `/` |
| `Layout.ArrowTokens` | src/parser.c:85-92 | so are `%`, `=`, `<-` and `->` |
| `Layout.MarkTokens` | src/parser.c:87-96 | so is all other punctuation |
| `Layout.Alphabet` | src/parser.c:163-179 | the letters and digits words and numbers are made of, one by one, and what white space is |
| `Layout.Escapes` | src/parser.c:211-218 | the bytes a backslash may stand in front of in a string, one by one |
| `Completeness.LiteralValue` | src/parser.c:438-452 | the digit loop computes the wrapped positional value of any number token, and no other number is a value of it |
| `ParserSpec.Discard` | src/parser.c:326-335 | reading a token makes the remaining input smaller, also behind a faked end of input, and never forgets an error |
| `ParserSpec.ExpressionBp` | src/parser.c:795-810 | an expression ends in front of a token that binds less tightly than asked, on any input |
| `ParserSpec.LeftErr` | src/parser.c:641-652 | the faked end of input makes progress |
| `ParserSpec.Synchronize` | src/parser.c:816-825 | panic recovery ends on every input, having moved forward |
| `ParserSpec.TopLoop` | src/parser.c:812-831 | the outermost loop ends on every input; once in error, always in error |
| `Parser.Parser.Discard` | src/parser.c:326-335 | the two-token window moves as specified over what the lexer delivers |
| `Parser.Parser.Eat` | src/parser.c:337-346 | a missing token is reported, with panic, and otherwise skipped |
| `Parser.Parser.TryEat` | src/parser.c:360-369 | a token is skipped exactly if it is there |
| `Parser.Parser.ExpressionList` | src/parser.c:395-408 | through any nesting the elements come back from the shared scratch stack in the order parsed, and the stack is as it was |
| `Parser.Parser.IdentifierList` | src/parser.c:410-423 | the same for parameter names |
| `Parser.Parser.Number` | src/parser.c:438-452 | the literal loop computes the value of the specification for any text |
| `Parser.Parser.Primary` | src/parser.c:433-471 | literals give their values; no other token leads here, so its unreachable branch is never executed |
| `Parser.Parser.Block` | src/parser.c:481-492 | an empty block is null |
| `Parser.Parser.ObjectLiteral` | src/parser.c:518-546 | the optional parent, the members and their check |
| `Parser.Parser.CheckMembers` | src/parser.c:531-544 | members are accepted exactly if they are definitions of pairwise different names |
| `Parser.Parser.CountPlaceholders` | src/parser.c:584-590 | the loop over the format counts the placeholders that no backslash hides |
| `Ast.CountsTildes` | src/parser.c:584-590 | placeholders are the tildes of a format, but for those behind a backslash that is not hidden itself |
| `Parser.Parser.Cond` | src/parser.c:548-562 | `else` belongs to the nearest `if` |
| `Parser.Parser.FunctionLiteral` | src/parser.c:613-629 | a named function is a definition of it |
| `Parser.Parser.Prefix` | src/parser.c:798-799 | the start-form column of the token table |
| `Parser.Parser.LeftErr` | src/parser.c:641-652 | the error for a token that cannot continue fakes the end of input |
| `Parser.Parser.Binop` | src/parser.c:654-666 | an operator is a method call on its left operand |
| `Parser.Parser.Call` | src/parser.c:668-690 | a call of a field access becomes a method call |
| `Parser.Parser.Assign` | src/parser.c:716-748 | assignment is right associative and turns variables, fields and elements into targets, anything else into an error |
| `Parser.Parser.EqErr` | src/parser.c:750-766 | `=` for `<-` is reported and parsed as an assignment |
| `Parser.Parser.Infix` | src/parser.c:801-807 | the continuation column of the token table; a token that only stops expressions never gets here, so its unreachable entry is never executed |
| `Parser.Parser.ExpressionBp` | src/parser.c:795-810 | the loop by binding power, mutually recursive with all forms, computes the specified tree and position |
| `Parser.Parser.AtSynchronizationPoint` | src/parser.c:769-781 | recovery stops at the end, or between `;` and a token that starts an expression |
| `Parser.Parser.Synchronize` | src/parser.c:821-823 | the recovery loop terminates where specified |
| `Parser.Parser.Top` | src/parser.c:812-831 | the outermost loop with recovery terminates on every input |
| `Parser.Parse` | src/parser.c:857-876 | lexer, parser and scratch stack together compute what the specification says for every source text |
| `Scratch.GArena.Alloc` | src/arena.c:90-100 | one doubling of the capacity always makes room for the 8- and 16-byte elements used; what is on the stack stays |
| `Scratch.GArena.MoveAsts` | src/arena.c:134-144 | exactly the elements above the saved position are taken, in order, and the rest stays |
| `Scratch.GArena.MoveStrs` | src/arena.c:134-144 | the same for names |
| `Completeness.Complete` | src/parser.c:795-810 | for any derivation and any binding power its level allows, the parser reaches the token behind it with its meaning as left operand |
| `Completeness.CompleteList` | src/parser.c:395-408 | any derivable list is read to its terminator, with or without a last separator |
| `Completeness.AcceptsGrammar` | src/parser.c:857-876 | every token list derived by binding powers is accepted, with the meaning of its derivation |
| `Productions.ParseLiteral` | src/parser.c:433-471 | null, true and false |
| `Productions.ParseName` | src/parser.c:473-479 | an identifier is an access of the variable |
| `Productions.ParseParen` | src/parser.c:602-611 | parentheses leave no trace in the tree |
| `Productions.ParseBlock` | src/parser.c:481-492 | `begin` and `end` make a block, or null around nothing |
| `Productions.ParseLet` | src/parser.c:494-503 | `let x = e` defines x as e |
| `Productions.ParseArray` | src/parser.c:505-516 | size first, then initialiser |
| `Productions.ParseObject` | src/parser.c:518-546 | an object without a parent extends null |
| `Productions.ParseExtends` | src/parser.c:518-546 | an object with its parent |
| `Productions.ParseIf` | src/parser.c:548-562 | a conditional without `else` has null there |
| `Productions.ParseIfElse` | src/parser.c:548-562 | condition, then consequent, then alternative |
| `Productions.ParseWhile` | src/parser.c:564-573 | condition, then body |
| `Productions.ParsePrint` | src/parser.c:575-600 | a print without arguments |
| `Productions.ParsePrintArgs` | src/parser.c:575-600 | a print with as many arguments as placeholders |
| `Productions.ParseFunction` | src/parser.c:613-629 | an anonymous function |
| `Productions.ParseNamedFunction` | src/parser.c:613-629 | a named function is defined by its name |
| `Productions.ParseBin` | src/parser.c:654-666 | an operator is a method call on its left operand with its right one |
| `Productions.ParseCall` | src/parser.c:668-690 | a call of a field access calls the method of its object, any other the function |
| `Productions.ParseIndex` | src/parser.c:692-703 | an index access |
| `Productions.ParseField` | src/parser.c:705-714 | a field access, operators being names too |
| `Productions.ParseAssign` | src/parser.c:716-748 | variables, fields and elements are assigned to; anything else is an error |
| `Productions.ParseListEnd` | src/parser.c:395-408 | a list may be empty |
| `Productions.ParseListLast` | src/parser.c:395-408 | or one element |
| `Productions.ParseListMore` | src/parser.c:395-408 | or an element in front of a separator and a list, which may be empty |
| `Productions.ReadNamesEnd` | src/parser.c:410-423 | so it is with parameter names: none |
| `Productions.ReadNamesLast` | src/parser.c:410-423 | one |
| `Productions.ReadNamesMore` | src/parser.c:410-423 | or one in front of a comma and more |
| `Soundness.SoundExpression` | src/parser.c:795-810 | what is read without error is the yield of a derivation of the right level, in front of a token that may follow it |
| `Soundness.AcceptanceIsDerivability` | src/parser.c:857-876 | a token list is accepted if and only if the stratified grammar, one nonterminal a level and every operator listed by its token, derives it, and all its derivations mean the tree returned |
| `Strata.SameTrees` | src/parser.c:67-116 | a tree has at least some binding power and may stand in front of a token if and only if it is derived from the nonterminal of that level: the table of binding powers is the grammar |
| `Strata.SameDerivations` | src/parser.c:67-116 | a list of tokens has the same derivations by nonterminals and by binding powers |
| `Precedence.TwoOperators` | src/parser.c:783-810 | `a p b q c`, for any operands without operators of their own, is `a p (b q c)` if q is in a later of the classes `|`, `&`, comparisons, `+ -`, `* / %` than p, and `(a p b) q c` otherwise |
| `Precedence.TwoAssignments` | src/parser.c:716-748 | `x <- y <- c` assigns to `y` first |
| `Soundness.AcceptedDerivation` | src/parser.c:857-876 | an accepted list is consumed whole and has a derivation with the returned tree |
| `Printer.CanonRepresents` | src/parser.c:67-116 | the printed form of a tree is a derivation of it at the binding power asked, whatever follows |
| `Printer.ExpressionPrint` | src/parser.c:795-810 | an expression printed for a place of some binding power is read back there as the same tree, up to exactly the following token, whenever that token binds less tightly |
| `Printer.ParsePrint` | src/parser.c:795-876 | for every tree in the image of the parser, parsing its printed form gives the tree |
| `Printer.DerivedPrintable` | src/parser.c:473-748 | every derivation means a tree in the printable image |
| `Printer.AcceptedTreesReparse` | src/parser.c:857-876 | accepted trees lie in the printable image, and printing and parsing them again changes nothing |
| `Printer.ParenthesesNeeded` | src/parser.c:67-116 | where the printer writes parentheses, any other derivation of the same tree at the same place has them too, or uses the dotted call form of an operator |
| `SourceText.SourceRoundTrip` | src/parser.c:167-876 | for every tree with spellable names, lexing and parsing its printed source text gives the tree |
| `SourceText.SourceReparse` | src/parser.c:167-876 | the tree of an accepted source text, printed as text and read again, is the same tree if and only if the text does not end in a stray `=` |
| `SourceText.WritableExactly` | src/parser.c:167-876 | all names in the tree of an accepted text can be spelled if and only if the text has no stray `=` |
| `SourceText.Respellable` | src/parser.c:167-876 | an accepted text has the tree of some text without a stray `=` if and only if it has none itself: the exception cannot be respelled |
| `SourceText.StrayEqualsAccepted` | src/parser.c:262-269 | the exception: `x.=` is accepted as an access of a field named `=`, and every text with that tree ends in a stray `=` too |
| `SourceText.LexAllFine` | src/parser.c:167-287 | identifiers are never empty, and error-free texts consist of tokens that can be written down |
| `Heap.Heap.Alloc` | src/heap/heap.c:11-34 | the size in use is what lies below the free pointer, a multiple of eight and never more than the limit; the new block is aligned and apart from all earlier ones |
| `Heap.Heap.Construct` | src/heap/heap.c:83-157 | making a value writes its bytes inside its own block: every value made before holds the bytes it held |
| `Heap.HeldStill` | src/heap/heap.c:83-157 | writing inside one block leaves what every block apart from it holds |
| `Heap.UsageBounded` | src/heap/heap.c:11-34 | over any sequence of requests, refused ones included, rounding up behind the check never passes the limit |
| `Heap.Rounding` | src/heap/heap.c:11-34 | a request fits up to the very last byte, and takes the least multiple of eight that holds it |
| `Operators.AddSubtract` | src/ast/ast_interpreter.c:56-61 | addition and subtraction undo each other, also where they wrap around |
| `Operators.Multiply` | src/ast/ast_interpreter.c:62-64 | multiplication is repeated addition |
| `Operators.DivideRemainder` | src/ast/ast_interpreter.c:65-70 | quotient and remainder give the dividend back; the remainder is smaller than the divisor and has the sign of the dividend |
| `Operators.Order` | src/ast/ast_interpreter.c:71-82 | the four comparisons are one strict order and its variants |
| `Bytecode.DecodeAssemble` | src/bc/bc_interpreter.c:583-644 | every instruction, assembled with its opcode and little-endian operands, is decoded to itself wherever it stands |
| `Bytecode.AssembleDecode` | src/bc/bc_interpreter.c:583-644 | whatever is decoded at a position is an instruction whose assembled bytes, all inside the code, stand there: no opcode has two meanings and none is longer than its operands |
| `Bytecode.Opcodes` | src/bc/bc_interpreter.c:583-644 | the bytes of the first eight opcodes with their operands, the lower byte first |
| `Bytecode.MoreOpcodes` | src/bc/bc_interpreter.c:583-644 | the bytes of the other eight, offsets in two's complement |
| `BcInterpreter.BcInterpreter.PushOperand` | src/bc/bc_interpreter.c:98-101 | pushes, up to the capacity |
| `BcInterpreter.BcInterpreter.PopOperand` | src/bc/bc_interpreter.c:83-86 | pops the top |
| `BcInterpreter.BcInterpreter.Constant` | src/bc/bc_interpreter.c:170-213 | the constant of an index becomes a value |
| `BcInterpreter.BcInterpreter.Print` | src/bc/bc_interpreter.c:215-266 | the arguments popped at once are printed in order, those beyond the placeholders ignored |
| `BcInterpreter.BcInterpreter.MakeArray` | src/bc/bc_interpreter.c:325-335 | an array of the size asked, every element the initial value |
| `BcInterpreter.BcInterpreter.MakeObject` | src/bc/bc_interpreter.c:337-359 | fields are filled from the last to the first, then the parent is popped |
| `BcInterpreter.BcInterpreter.FindField` | src/bc/bc_interpreter.c:361-373 | the nearest definition up the parent chain |
| `BcInterpreter.BcInterpreter.SetField` | src/bc/bc_interpreter.c:386-398 | the value is stored in the slot found and stays on the stack |
| `BcInterpreter.BcInterpreter.InitFrame` | src/bc/bc_interpreter.c:129-148 | arguments and receiver move into the slots of the frame to come; a method leaves slot `argc` as it was |
| `BcInterpreter.BcInterpreter.InitFunCall` | src/bc/bc_interpreter.c:150-168 | slots are resized, those from `argc + 1` on become null, and the function is entered |
| `BcInterpreter.BcInterpreter.CallFunction` | src/bc/bc_interpreter.c:315-323 | a function call |
| `BcInterpreter.BcInterpreter.CallMethod` | src/bc/bc_interpreter.c:563-581 | a method call: the nearest definition is entered with the original receiver, or a built-in tried |
| `BcInterpreter.BcInterpreter.NthLocal` | src/bc/bc_interpreter.c:400-404 | the slot is read from the frame being prepared, the index checked against the frame of the caller |
| `BcInterpreter.BcInterpreter.CallBuiltin` | src/bc/bc_interpreter.c:406-536 | built-ins run without a frame; `get` and `set` on anything but an array push nothing |
| `BcInterpreter.BcInterpreter.Return` | src/bc/bc_interpreter.c:268-272 | the frame is dropped and the caller continues |
| `BcInterpreter.BcInterpreter.ExecuteOne` | src/bc/bc_interpreter.c:583-644 | one turn of the loop takes exactly the specified step |
| `BcInterpreter.BcInterpreter.Loop` | src/bc/bc_interpreter.c:583-644 | the loop passes through a run of specified steps, to the end, a stop or the bound |
| `BcInterpreter.Interpret` | src/bc/bc_interpreter.c:647-656 | the whole interpreter: entry call, then the loop |
| `BcInterpreter.MoreSteps` | src/bc/bc_interpreter.c:647-656 | a run that came to its end within some number of steps comes to the same end, through the same states, within any larger number |
| `BcSpec.RunsAgree` | src/bc/bc_interpreter.c:583-644 | the machine is deterministic: of two runs from one state the shorter begins the longer |
| `BcValues.FindEnds` | src/bc/bc_interpreter.c:361-373 | where references are good and parents older than children every lookup ends, in a slot or in a value that is no object |
| `BcValues.StepValues` | src/bc/bc_interpreter.c:583-644 | any step of any program, silent built-ins and missing results included, keeps references good and parents older than children and never stops for a bad one; from a state without unset slots it never stops for one, and gives a state without them if and only if it is no call that leaves one |
| `BcValues.ReachableHeaps` | src/bc/bc_interpreter.c:583-656 | in every state any run of any program reaches, references are good and parents older than children, and no bad reference stops the next step |
| `BcValues.UnsetExactly` | src/bc/bc_interpreter.c:583-656 | over any run of any program no unset slot appears if and only if no call leaves one, and then none stops the run |
| `BcSafety.StepSafe` | src/bc/bc_interpreter.c:583-644 | a step of a checked program from a state that keeps the stack discipline stops only for reasons of values or limits, ends the run with one result, or keeps the discipline, the last exactly if it is no silent built-in: boundaries, operand heights, locals and constants are right |
| `BcRuns.StartSafe` | src/bc/bc_interpreter.c:647-656 | the state after the entry call keeps the stack discipline |
| `BcRuns.RunsAreSafe` | src/bc/bc_interpreter.c:583-656 | over whole runs of a checked program no operand, local, constant or cell is missing and the instruction pointer stays on instructions, as long as no `get` or `set` meets a non-array; if no call leaves an unset slot, none stops the run |
| `BcRuns.DisciplineExactly` | src/bc/bc_interpreter.c:583-656 | a run that begins with the stack discipline keeps it, to its end with one result, if and only if no `get` or `set` meets a non-array before its last state |
| `BcRuns.CallsReturn` | src/bc/bc_interpreter.c:129-168 | from a call of a user function to its matching return, through any nesting: lower frames are untouched, the next instruction is the one after the call, and callee or receiver with arguments are replaced by exactly one result |
| `BcLaws.Starts` | src/bc/bc_interpreter.c:647-656 | a run starts at the first instruction of the entry function with null in every slot and every global |
| `BcLaws.Branches` | src/bc/bc_interpreter.c:308-313 | a branch leads to the next instruction for false and null, and past its offset for every other value |
| `BcLaws.BranchOnBoolean` | src/bc/bc_interpreter.c:170-313 | loading a boolean and branching on it leaves the operands as they were and takes the branch for true alone |
| `BcLaws.Jumps` | src/bc/bc_interpreter.c:302-306 | a jump leads past its offset |
| `BcLaws.Returns` | src/bc/bc_interpreter.c:268-272 | a return leads to the return address of the frame it removes |
| `BcLaws.Constants` | src/bc/bc_interpreter.c:170-213 | what each kind of constant pushes |
| `BcLaws.Drops` | src/bc/bc_interpreter.c:123-127 | the top operand is gone |
| `BcLaws.LocalsKeep` | src/bc/bc_interpreter.c:282-286 | a stored local changes one slot of the current frame, the operand stays |
| `BcLaws.LocalsRead` | src/bc/bc_interpreter.c:274-280 | a local is read from the current frame |
| `BcLaws.GlobalsKeep` | src/bc/bc_interpreter.c:288-293 | a stored global changes that global, the operand stays |
| `BcLaws.GlobalsRead` | src/bc/bc_interpreter.c:288-300 | a global that was stored is read by every call after it, the others read what they held |
| `BcLaws.Prints` | src/bc/bc_interpreter.c:215-266 | a print shows as many of its arguments as its format has placeholders, in the order they were pushed, and pushes null |
| `BcLaws.MakesArray` | src/bc/bc_interpreter.c:325-335 | size and initial value in the order they were pushed |
| `BcLaws.MakesObject` | src/bc/bc_interpreter.c:337-359 | the parent pushed first, then the fields of the names of the class in the order their values were pushed |
| `BcLaws.CallsFunction` | src/bc/bc_interpreter.c:315-323 | the function below the arguments is entered and will return behind the call |
| `BcLaws.CallsMethod` | src/bc/bc_interpreter.c:538-581 | the function found on the chain is entered with the receiver itself in its first slot, whatever object the function was found in |
| `BcLaws.Fields` | src/bc/bc_interpreter.c:375-384 | a field access pushes what the slot found holds |
| `BcLaws.FieldStores` | src/bc/bc_interpreter.c:386-398 | a field assignment changes that slot alone and pushes the value |
| `BcLaws.Booleans` | src/bc/bc_interpreter.c:494-507 | `&` pushes the argument if the receiver is true and false if not, `|` true if it is and the argument if not |
| `BcLaws.Equality` | src/bc/bc_interpreter.c:463-491 | `==` pushes true exactly for the same kind and the same number or boolean, `!=` the opposite |
| `BcLaws.Numbers` | src/bc/bc_interpreter.c:418-442 | `+`, `-` and `*` push the mathematical result where it has 32 bits; `/` and `%` have none for a divisor of zero and for the one overflowing quotient |
| `BcLaws.Comparisons` | src/bc/bc_interpreter.c:443-462 | `<`, `<=`, `>` and `>=` compare the receiver with the argument |
| `BcLaws.Elements` | src/bc/bc_interpreter.c:523-532 | `get` pushes the element, or stops outside the array |
| `BcLaws.Stores` | src/bc/bc_interpreter.c:509-521 | `set` stores the element and pushes it |
| `BcExamples.SilentGetUnderflows` | src/bc/bc_interpreter.c:523-532 | a checked program whose run misses an operand, because `get` on an integer pushes nothing |
| `BcExamples.FirstLocalUnset` | src/bc/bc_interpreter.c:157-161 | a checked program that stops for an unset slot: its method branches on its first local |
| `BcExamples.CallerTooShort` | src/bc/bc_interpreter.c:400-404 | a correct call of `set` inside an array, refused because the calling function has one slot, and carried out once it declares a local it never uses |
| `BcCalls.MethodSlots` | src/bc/bc_interpreter.c:157-161 | the state after a method call: receiver and arguments, then one slot unset, the first local, if the method has locals and was passed anything, then null |
| `BcCalls.FunctionSlots` | src/bc/bc_interpreter.c:129-168 | the state after a function call: null, the arguments, and null in every other slot, none unset |
| `BcCalls.CallerCheck` | src/bc/bc_interpreter.c:400-404 | for a checked program the check of the frame of the caller fails if and only if the calling function has fewer slots than the built-in asks for, whatever its arguments: two for `set` and one for `get` of an array, one for a method of a primitive value with one argument |
| `BcFields.NearestDefinition` | src/bc/bc_interpreter.c:361-373 | where parents are older than children, a lookup finds the first object that defines the name on a chain that leads from the value, child to older parent, to a value that is no object; if none defines it, the lookup ends there |
| `BcFields.ReachableLookups` | src/bc/bc_interpreter.c:361-373 | so it is for every value and name in every state any run of any program reaches |
| `BcFields.LookupsUnmoved` | src/bc/bc_interpreter.c:386-398 | writing a field moves no lookup of any object and name |
| `BcFields.SetFieldLaw` | src/bc/bc_interpreter.c:386-398 | after a field is set through any receiver, exactly the accesses that resolve to the same slot read the new value, and all others what they read before |
| `BcFields.StepKeepsCells` | src/bc/bc_interpreter.c:583-644 | no step of any program changes the kind, size, parent or field names of a cell |
| `BcFields.RunKeepsCells` | src/bc/bc_interpreter.c:583-656 | nor does any run of any program |
| `LoaderSpec.ProgramRoundTrip` | src/bc/bc_interpreter.c:666-782 | reading a serialised program gives the program back, whatever follows it in the file |
| `LoaderSpec.ConstantRoundTrip` | src/bc/bc_interpreter.c:703-765 | the same for each kind of constant, between any bytes |
| `LoaderSpec.ReadProgram` | src/bc/bc_interpreter.c:666-782 | whatever is loaded can be serialised and fits the pool |
| `LoaderSpec.ReadingIsStable` | src/bc/bc_interpreter.c:666-782 | a file that loads is equivalent to the canonical file of its program |
| `LoaderSpec.ExampleLoads` | src/bc/bc_interpreter.c:666-782 | a file with a constant of each kind, written out byte by byte, loads to the program it stands for |
| `LoaderSpec.SlotsGrow` | src/bc/bc_interpreter.c:658-664 | each slot lies behind all bytes of every earlier constant |
| `LoaderSpec.SlotsFit` | src/bc/bc_interpreter.c:695-765 | every constant, with its terminator, lies in the pool |
| `LoaderSpec.PoolGrows` | src/bc/bc_interpreter.c:703-765 | placing one more constant leaves all earlier ones as they are |
| `LoaderSpec.HoldsStill` | src/bc/bc_interpreter.c:703-765 | a constant depends on its own bytes only |
| `LoaderSpec.HoldsOne` | src/bc/bc_interpreter.c:703-765 | no bytes hold two different constants |
| `Loader.Loader.LoadConstant` | src/bc/bc_interpreter.c:706-764 | one constant is read and laid out at its slot, nothing below is written, and the next slot is aligned behind it |
| `Loader.Loader.LoadString` | src/bc/bc_interpreter.c:732-739 | the terminator goes behind the last byte, where the next slot may begin |
| `Loader.Loader.LoadConstants` | src/bc/bc_interpreter.c:703-765 | all constants end up at their slots, later writes changing no earlier one |
| `Loader.Loader.Deserialize` | src/bc/bc_interpreter.c:666-782 | the memory and table the loader builds represent exactly the program in the file; the first thing wrong with the file decides the error |
| `Loader.Loader.ConstantAt` | src/bc/bc_interpreter.c:170-213 | what the machine finds at an address is the constant that was loaded there |
| `Loader.Loader.Loaded` | src/bc/bc_interpreter.c:647-782 | the program in memory is the program in the file |
| `BcPrograms.LoadedRunsAreSafe` | src/bc/bc_interpreter.c:647-782 | a program that was loaded never stops for a bad reference; never for an unset slot if no call left one; and if it is checked and every built-in has a result, for nothing its text could be blamed for, the call of its entry point included |
| `BcPrograms.Interpret` | src/main.c:134-138 | loader and machine together, from the bytes of a file to the end of the run |
| `AstSpec.FindScope` | src/ast/ast_interpreter.c:138-155 | the innermost scope that binds a name |
| `AstInterpreter.IState.constructor` | src/ast/ast_interpreter.c:11-21 | one environment with one empty scope |
| `AstInterpreter.IState.AddToScope` | src/ast/ast_interpreter.c:30-43 | one more binding in the innermost scope, as long as there is room |
| `AstInterpreter.IState.PushScope` | src/ast/ast_interpreter.c:186-196 | one more empty scope |
| `AstInterpreter.IState.PopScope` | src/ast/ast_interpreter.c:198-204 | the innermost scope is dropped and its slots cleared |
| `AstInterpreter.IState.PushEnv` | src/ast/ast_interpreter.c:170-178 | one more environment with one empty scope |
| `AstInterpreter.IState.PopEnv` | src/ast/ast_interpreter.c:180-184 | the environment is dropped and cleared |
| `AstInterpreter.IState.FindInScope` | src/ast/ast_interpreter.c:141-151 | the latest binding of a name; looking at the first slot of an empty scope is harmless |
| `AstInterpreter.IState.FindInEnv` | src/ast/ast_interpreter.c:138-155 | the innermost scope that binds the name, searched backwards |
| `AstInterpreter.IState.GetVarPtr` | src/ast/ast_interpreter.c:157-168 | first the current call, then the outermost global scope |
| `AstInterpreter.IState.FieldAccess` | src/ast/ast_interpreter.c:207-217 | the nearest definition on the chain, or what is wrong with it |
| `AstInterpreter.IState.Operate` | src/ast/ast_interpreter.c:45-115 | operators on primitive values |
| `AstInterpreter.IState.Builtin` | src/ast/ast_interpreter.c:45-136 | built-ins of primitive values and arrays; an unknown one gives the null pointer |
| `AstInterpreter.IState.VariableAccess` | src/ast/ast_interpreter.c:265-274 | a name bound nowhere becomes bound to null |
| `AstInterpreter.IState.VariableAssignment` | src/ast/ast_interpreter.c:275-285 | the slot found is overwritten, a missing name bound |
| `AstInterpreter.IState.Arguments` | src/ast/ast_interpreter.c:294-296 | arguments are evaluated left to right |
| `AstInterpreter.IState.Block` | src/ast/ast_interpreter.c:350-359 | a scope of its own, the last value |
| `AstInterpreter.IState.While` | src/ast/ast_interpreter.c:368-382 | the loop, to any number of turns |
| `AstInterpreter.IState.Print` | src/ast/ast_interpreter.c:307-349 | arguments first, then one output |
| `AstInterpreter.IState.ArrayLiteral` | src/ast/ast_interpreter.c:400-415 | the initialiser is evaluated once per element, each time in a scope of its own |
| `AstInterpreter.IState.ObjectLiteral` | src/ast/ast_interpreter.c:437-451 | parent first, then the members in order, each in a scope of its own |
| `AstInterpreter.IState.BindArguments` | src/ast/ast_interpreter.c:299-301 | parameters are bound in order |
| `AstInterpreter.IState.Invoke` | src/ast/ast_interpreter.c:226-240 | the body runs in a new environment, which is gone afterwards |
| `AstInterpreter.IState.CallMethod` | src/ast/ast_interpreter.c:219-243 | the nearest definition runs with its owner as receiver; a chain without one ends in a built-in |
| `AstInterpreter.IState.Interpret` | src/ast/ast_interpreter.c:246-497 | the array-backed evaluator computes the value, heap, output and environments of the evaluator over stacks of maps, for every tree and state |
| `AstInterpreter.IState.BindingsKept` | src/ast/ast_interpreter.c:246-497 | over the arrays: in every scope that is live, every slot in use keeps the name stored in it, and only the innermost scope of the current call may use more slots |
| `AstFrame.EvalFrames` | src/ast/ast_interpreter.c:246-497 | every completed evaluation comes back to the environment and scope it started in, with the same names in the same order in every scope that was live, adds names behind them in the innermost scope of the current call only, leaves every other environment but the values of the outermost globals unchanged, and changes no cell in kind, size or parent |
| `AstFrame.InvokeFrames` | src/ast/ast_interpreter.c:219-243 | a call changes nothing in the environments of its callers but values of outermost globals |
| `AstFrame.ScopeFrames` | src/ast/ast_interpreter.c:186-204 | what is bound in a scope of its own is gone afterwards |
| `AstSimulation.EvalMatches` | src/ast/ast_interpreter.c:246-497 | evaluation depends on the current environment, the outermost globals and the heap only; suspended calls and additional fuel change nothing but runs that were cut short |
| `AstSimulation.InvokeEffects` | src/ast/ast_interpreter.c:290-306 | a call has the same result and effects from any two states that agree on the outermost globals and the heap, if the shallower one may be less deep and have more fuel |
| `AstSimulation.CallIsolation` | src/ast/ast_interpreter.c:219-243 | two call sites that agree on the outermost globals and the heap get the same result and effects, unless one is too deep |
| `AstSimulation.FuelMonotone` | src/ast/ast_interpreter.c:246-497 | a run that ends, ends the same with any more fuel |
| `AstSound.EvalSound` | src/ast/ast_interpreter.c:246-497 | running a tree the parser can build keeps parents older than children and references inside the heap, never reads a slot nothing was stored in although arrays and objects exist before their parts, and leaves cells under construction alone |
| `AstSound.FindSound` | src/ast/ast_interpreter.c:207-243 | every lookup ends, in a complete cell or a value of another kind |
| `AstFields.NearestDefinition` | src/ast/ast_interpreter.c:207-243 | a lookup finds the first object on the chain that defines the name; the chain leads from younger to older cells |
| `AstLaws.Literals` | src/ast/ast_interpreter.c:246-293 | what each literal gives |
| `AstLaws.Sequences` | src/ast/ast_interpreter.c:360-367 | the expressions of a sequence are evaluated one after the other; the last gives the value |
| `AstLaws.Blocks` | src/ast/ast_interpreter.c:350-359 | a block is its sequence in a new scope, which is gone afterwards |
| `AstLaws.Conditionals` | src/ast/ast_interpreter.c:383-399 | a conditional is the block of its alternative when the condition gives null or false, and the block of its consequent for every other value |
| `AstLaws.Loops` | src/ast/ast_interpreter.c:368-382 | a loop is null when its condition gives null or false, and otherwise the block of its body and then the loop again |
| `AstLaws.MeansOne` | src/ast/ast_interpreter.c:138-168 | a name means its innermost binding in the current call, or, if that has none, its binding in the outermost scope of the globals, or nothing: exactly one of these |
| `AstLaws.Reads` | src/ast/ast_interpreter.c:265-274 | a variable gives the value of the binding its name means |
| `AstLaws.ReadsUnknown` | src/ast/ast_interpreter.c:265-274 | reading an unknown name defines it as null and gives another null |
| `AstLaws.Definitions` | src/ast/ast_interpreter.c:259-264 | a definition adds a binding to the innermost scope of the current call |
| `AstLaws.ReadsDefined` | src/ast/ast_interpreter.c:259-274 | what was defined is what is read next, whatever the globals hold |
| `AstLaws.ReadsOther` | src/ast/ast_interpreter.c:259-274 | a definition changes what no other name means |
| `AstLaws.Assigns` | src/ast/ast_interpreter.c:275-285 | an assignment stores into the binding the name means and nowhere else |
| `AstLaws.AssignsUnknown` | src/ast/ast_interpreter.c:275-285 | assigning an unknown name defines it |
| `AstLaws.ReadsAssigned` | src/ast/ast_interpreter.c:265-285 | what was assigned is what is read next; a name bound in the current call leaves the globals alone |
| `AstCalls.ArgumentsInOrder` | src/ast/ast_interpreter.c:294-296 | arguments are evaluated left to right, each in the state the one before left |
| `AstCalls.ArgumentStops` | src/ast/ast_interpreter.c:294-296 | the first argument that stops, stops the call |
| `AstCalls.Calls` | src/ast/ast_interpreter.c:290-306 | a call evaluates function and arguments and runs the body in one more environment that binds `this` to null and the parameters to the arguments and nothing else, unless a limit or too many arguments refuse it; then the environment is gone |
| `AstCalls.ParameterReads` | src/ast/ast_interpreter.c:290-306 | a parameter reads its argument, whatever the caller and the globals call by its name |
| `AstObjects.Methods` | src/ast/ast_interpreter.c:219-243 | a method call runs the method of the first object on the chain that has it, with that object as `this` |
| `AstObjects.ThisReads` | src/ast/ast_interpreter.c:219-243 | `this` in a method is the object that has the method, not the one it was called on |
| `AstObjects.FieldReads` | src/ast/ast_interpreter.c:453-457 | a field access reads the field of the first object on the chain that has it |
| `AstObjects.FieldWrites` | src/ast/ast_interpreter.c:459-469 | a field assignment evaluates the object, then the value, and stores into that field and nowhere else |
| `AstObjects.Operates` | src/ast/ast_interpreter.c:45-115 | an operator works on the primitive value at the end of the chain of the receiver |
| `AstObjects.Booleans` | src/ast/ast_interpreter.c:107-115 | `&` is the argument if the receiver is true and false if not, `|` true if it is and the argument if not |
| `AstObjects.Equality` | src/ast/ast_interpreter.c:83-106 | `==` is true exactly for the same kind and the same number or boolean, `!=` the opposite; a boolean compares with booleans alone |
| `AstObjects.Numbers` | src/ast/ast_interpreter.c:56-82 | arithmetic gives the mathematical result where it has 32 bits, and comparisons compare receiver with argument |
| `AstObjects.IndexReads` | src/ast/ast_interpreter.c:417-423 | an index access evaluates array, then index, and reads the element |
| `AstObjects.IndexWrites` | src/ast/ast_interpreter.c:425-435 | an index assignment evaluates array, index, then value, stores the element and gives the array |
| `AstObjects.Arrays` | src/ast/ast_interpreter.c:400-415 | an array has the size asked for and as elements the values of its initialiser, evaluated once each, first to last, every time in a scope of its own |
| `AstObjects.Objects` | src/ast/ast_interpreter.c:437-451 | an object has the parent evaluated first and the fields of its members, in order, each evaluated once in a scope of its own |
| `AstObjects.Prints` | src/ast/ast_interpreter.c:307-349 | a print evaluates its arguments and adds one record with as many of them as the format has placeholders |
| `Programs.SourceRunnable` | src/parser.c:857-876 | every accepted source text gives a tree fit to run |
| `Programs.RunsAreSound` | src/ast/ast_interpreter.c:246-497 | no run of any accepted source text meets a dangling reference, a climbing parent chain, an unset slot, a missing print argument or an empty name |
| `Programs.RunsAreSettled` | src/ast/ast_interpreter.c:246-497 | a completed run ends in the scope it began with, and more fuel changes nothing |
| `Programs.Interpret` | src/ast/ast_interpreter.c:246-497 | parser and interpreter together, from source text to output |
| `ArenaSpec.Alloc` | src/arena.c:25-41 | the block is aligned, has the size asked and ends at the new position, behind everything in use; a chunk added for it holds its header below the block, and no other chunk changes |
| `ArenaSpec.RestoreAfter` | src/arena.c:49-61 | what restoring gives after any growth: the saved chain, or, if the saved chunk was full and chunks were added, the first added chunk with nothing in use |
| `ArenaSpec.StackPrinciple` | src/arena.c:43-61 | after any nested allocations, saves and restores, restoring gives back the saved chain, position and sum if and only if the saved chunk was not exactly full or no chunk was added |
| `ArenaSpec.BlocksStaySound` | src/arena.c:25-61 | while restores are exact, live blocks are aligned, inside their chunk, clear of every header and apart from each other |
| `ArenaSpec.HeaderOverwritten` | src/arena.c:25-61 | after a restore that is not exact, the next block lies on the header of its chunk |
| `ArenaSpec.EmptyArenaIsFull` | src/arena.c:15-23 | a restore to a position saved before the first allocation gives back the empty arena if and only if nothing of positive size was allocated since |
| `ArenaSpec.DestroyEmpties` | src/arena.c:63-71 | destroying leaves the empty arena, whatever was done before |
| `Arena.Arena.Alloc` | src/arena.c:25-41 | the linked chunks behave as specified, and the sum of sizes stays that of the chunks below |
| `Arena.Arena.Save` | src/arena.c:43-47 | the saved position |
| `Arena.Arena.Restore` | src/arena.c:49-61 | the loop that frees chunks ends where specified |
| `Arena.Arena.Destroy` | src/arena.c:63-71 | back to the sentinel |

## Left out

* Files and the command line (`src/main.c`): the loader works on a sequence of bytes, the
  parser on a sequence of characters that stand for bytes.
* What is printed (`print_val`, `printf`): an output is its format and the values shown.
* Error messages and their positions; the text of error and end-of-input tokens.
* The trees built after a reported error, which are discarded: where the source leaves a
  field uninitialised there, the model has an empty name or format.
* Debugging aids (`print_heap`, `print_op_stack`, `print_instruction_type`).
* Equivalence of the two interpreters: no compiler exists between them.
* Failing `malloc` and leaks; sizes and positions are unbounded integers.
* Undefined behaviour: the model stops instead. Overflowing additions, subtractions and
  multiplications wrap around; division by zero and the overflowing quotient stop with
  ARITHMETIC, an operand of another kind with KIND, an array `set` outside the array,
  which the source does not check, with BOUNDS, more arguments than parameters with
  PARAMETERS, a missing argument of a built-in with TOO_FEW_ARGS, a slot nothing was
  stored in with UNSET, the null pointer of an unknown built-in with NIL. More
  placeholders than arguments, where the source prints stale operands, stop with
  PRINT_ARGS.
* The identity of integers, booleans, null, strings and functions: they are never changed
  once made and stand for themselves; the room they take on the heap is counted.
* Addresses: cells of the heap are numbered in order of allocation, a scope or an
  environment is a value in an array, the locals of a frame are a sequence, and the
  words of the scratch stack carry their type.
* The contents of environments before first use: they are taken as cleared, although the
  source does not clear them.
* The result of a field assignment in the tree-walking interpreter is the assigned value;
  the source returns the address of the slot (`src/ast/ast_interpreter.c:468`).
* Variables without a name, which stop with EMPTY_NAME; `Programs.RunsAreSound` shows
  that no source text contains one.
* An argument of a call when all frames are in use: the source writes to the slot behind
  the last frame before it checks, the model stops with FRAME_LIMIT first.
* Overflow of the constant pool, which the source does not check, and files that end too
  early, whose missing bytes the source leaves as they were: the model reports POOL_FULL
  and TRUNCATED.
- Programs.Interpret: runs are bounded by a depth of evaluation, because a run need not end; `AstSimulation.FuelMonotone` shows that the bound matters to nothing else.
- BcInterpreter.Interpret: runs are bounded by a number of steps for the same reason; `BcInterpreter.MoreSteps` shows that the bound matters to nothing else.
- BcPrograms.Interpret: the same.
- BcRuns.RunsAreSafe: assumes that no `get` or `set` reaches a non-array, because the property is false otherwise (`BcExamples.SilentGetUnderflows`); `BcRuns.DisciplineExactly` gives the exact condition.
