# A compiler for a small teaching language, modelled in Dafny

The system is a compiler for a small imperative teaching language. Its
programs are `begin … end` blocks of assignments, `read`, `print`, `if … then
… [else …] endif`, `while … do … endwhile` and `for x from … by … to … do …
endfor`, over integer expressions and boolean conditions. The compiler has
four stages:

1. **Scanner (`Lexer`).** A JFlex-generated scanner. Its hand-written part keeps a table of the
   variable names it meets. It prints the table sorted at the end of input.
   The generated part expands packed transition tables when the class is
   loaded, and it counts lines and columns.
2. **Parser (`Parser`).** An LL(1) recursive-descent parser. It prints the number of each rule
   it applies and builds a derivation tree (`ParseTree`). It reports the
   first token that fails to match.
3. **AST construction (`AbstractSyntaxTree`).** This stage filters the derivation tree: helper
   non-terminals and punctuation disappear. It then turns every flat
   `<ExprArith>`/`<Cond>` list into an operator tree by precedence and
   associativity. Finally it removes the wrappers.
4. **Code generation (`Compiler`).** This stage walks the AST and writes LLVM IR line by line. It uses
   a counter for unnamed registers, one counter per kind of label, and the
   list of allocated variables.

The model follows that structure. `Symbols` and `Trees` hold the data, and
`Strings` holds Java's decimal rendering and `String.compareTo`. `Lexers`,
`LineCounting` and `LexerTables` model the scanner, and `Parsers` the parser.
`ParseTrees`, `AstBuild`, `AstPrecedence`, `AstRearrange` and `AstSimplify`
model the tree conversions. `LlvmIr`, `CompilerSpec` and the `Compiler` class
in `Compilers` model the code generator, together with its properties in
`CompilerRegisters`, `CompilerLabels` and `CompilerVariables`. `Compilation`
ties a whole run together.

The stateful parts of the source are classes that update their fields:
`Parsers.Parser`, `Compilers.Compiler` and `Lexers.Lexer`. Each method is
proved against a function of the old state: `ProgramGen`/`CodeGen`/… for the
compiler, and `Select`/`Rhs`/`Derived` for the parser. The table decoders
work in place on an `array<int>`. The AST operations, which the source runs
as loops over mutable lists, are methods with loops proved equal to
functions (`Filter`, `Rearranged`, `Simplified`).

## Model

| member | source | states |
|---|---|---|
| Symbols.NonTerminal | src/Symbol.java:28-30 | a non-terminal label carries no unit and its tag as value |
| Symbols.ToStringDistinguishes | src/Symbol.java:94-101 | a terminal and a non-terminal never print the same text; a terminal's text starts with the token prefix |
| Strings.NatToString | src/Compiler.java:376 | the decimal text of a natural number is non-empty and made only of digits |
| Strings.IntToString | src/Compiler.java:445 | the decimal text of an int is non-empty and starts with '-' exactly when the number is negative |
| Strings.ParseNatToString | src/Compiler.java:445 | reading the decimal text back gives the number, so distinct numbers print differently |
| Strings.CompareToZero | src/Lexer.java:329 | compareTo is 0 if and only if the strings are equal |
| Strings.CompareToFlip | src/Lexer.java:316 | compareTo(a, b) == -compareTo(b, a) |
| Strings.CompareToTransitive | src/Lexer.java:316 | compareTo(a, b) <= 0 and compareTo(b, c) <= 0 imply compareTo(a, c) <= 0 |
| Trees.Leaf | src/AbstractSyntaxTree.java:24-27 | a leaf is a single node with no children; its frontier is its own label when that is a token and empty otherwise |
| Trees.Size | src/AbstractSyntaxTree.java:34-37 | every tree has at least one node |
| Trees.SizeOf | src/AbstractSyntaxTree.java:34-37 | a forest has no nodes exactly when it is empty |
| Trees.SizeOfAppend | src/AbstractSyntaxTree.java:374-396 | the node count of two forests in a row is the sum of their node counts |
| Trees.SizeOfSplit | src/AbstractSyntaxTree.java:258-326 | splitting a forest around position k splits its node count; each part is smaller than the whole |
| Trees.SizeOfElement | src/AbstractSyntaxTree.java:258-326 | an element of a forest is no larger than the forest |
| Trees.FrontierOfAppend | src/ParseTree.java:39-62 | the fringe tokens of two forests in a row are the fringes concatenated |
| ParseTrees.ToAst | src/ParseTree.java:39-62 | toAST keeps the root label and the number of children |
| ParseTrees.ToAstChildren | src/ParseTree.java:42-59 | each converted child keeps its position and its label |
| ParseTrees.ToAstChildAt | src/ParseTree.java:43-57 | a terminal child becomes a bare leaf; a non-terminal child is converted recursively (the keep test always answers true) |
| ParseTrees.ToAstIdentity | src/ParseTree.java:39-66 | on a tree whose terminals are leaves, toAST returns the same tree |
| ParseTrees.ToAstLeaves | src/ParseTree.java:43-46 | every terminal in a converted tree is a leaf |
| ParseTrees.ToAstIdempotent | src/ParseTree.java:39-62 | converting twice is converting once |
| ParseTrees.ToAstFrontier | src/ParseTree.java:39-62 | the conversion keeps the tokens at the fringe, in order |
| ParseTrees.ToAstChildrenFrontier | src/ParseTree.java:42-59 | converting a child list keeps its fringe |
| ParseTrees.ToAstSize | src/ParseTree.java:39-62 | the converted tree has no more nodes than the original, and exactly as many if and only if no terminal has children to drop |
| ParseTrees.ToAstChildrenSize | src/ParseTree.java:42-59 | the same bound and if-and-only-if for a child list |
| AstBuild.DroppedTokens | src/AbstractSyntaxTree.java:404-444 | a token is dropped if and only if its unit is one of the punctuation and keyword units listed in isToBeKept |
| AstBuild.FilterOne | src/AbstractSyntaxTree.java:374-396 | what one child contributes is a clean list: kept labels only, with kept children |
| AstBuild.Filter | src/AbstractSyntaxTree.java:374-396 | the filtered child list is clean |
| AstBuild.FilterAppend | src/AbstractSyntaxTree.java:374-396 | filtering distributes over concatenation, because createTree appends to its output list one child at a time |
| AstBuild.FilterSingleton | src/AbstractSyntaxTree.java:374-396 | a one-child list filters to that child's contribution |
| AstBuild.CreateTree | src/AbstractSyntaxTree.java:374-396 | the loop appends to `childrenAST` exactly the filtered form of `childrenPT` |
| AstBuild.CreateChild | src/AbstractSyntaxTree.java:376-394 | one pass of the loop appends the filtered form of one child: a kept node as a node filled with its own filtered children, a dropped non-terminal as its filtered children, a dropped token as nothing |
| AstBuild.KeptOnly | src/AbstractSyntaxTree.java:404-444 | the selection holds only labels that isToBeKept accepts |
| AstBuild.KeptOnlyAppend | src/AbstractSyntaxTree.java:404-444 | selecting the kept labels distributes over concatenation |
| AstBuild.LabelsAppend | src/AbstractSyntaxTree.java:374-396 | the pre-order labels of two forests in a row are concatenated |
| AstBuild.FilterLabels | src/AbstractSyntaxTree.java:374-444 | the pre-order labels of the AST are those of the derivation tree with the dropped ones removed, in order |
| AstBuild.FilterClean | src/AbstractSyntaxTree.java:374-396 | a list that holds only kept labels is left as it is |
| AstBuild.FilterIdempotent | src/AbstractSyntaxTree.java:374-396 | filtering twice is filtering once |
| AstPrecedence.Tier | src/AbstractSyntaxTree.java:176-242 | tiers run from 0 to 6, and only tokens have a positive tier |
| AstPrecedence.LastBelow | src/AbstractSyntaxTree.java:178-183 | the rightmost position below n of a given tier, or -1 when there is none |
| AstPrecedence.LastOfTier | src/AbstractSyntaxTree.java:178-239 | the rightmost position of the tier, or -1 exactly when the tier is absent |
| AstPrecedence.FirstFrom | src/AbstractSyntaxTree.java:194-199 | the leftmost position from i on of the tier, or -1 when there is none |
| AstPrecedence.FirstOfTier | src/AbstractSyntaxTree.java:194-199 | the leftmost position of the tier, or -1 exactly when the tier is absent |
| AstPrecedence.OperatorIndex | src/AbstractSyntaxTree.java:176-242 | the result is -1 or a valid index |
| AstPrecedence.OperatorIndexSpec | src/AbstractSyntaxTree.java:176-242 | -1 if and only if no operator is present; otherwise an operator of the lowest tier present, the last of its tier for binary tiers and the first `not` |
| AstPrecedence.ScanFromRight | src/AbstractSyntaxTree.java:178-183 | the backward loop finds LastOfTier |
| AstPrecedence.ScanFromLeft | src/AbstractSyntaxTree.java:194-199 | the forward loop finds FirstOfTier |
| AstPrecedence.GetOperatorIndex | src/AbstractSyntaxTree.java:176-242 | getOperatorIndex returns OperatorIndex of the children |
| AstPrecedence.ShapedTiers | src/AbstractSyntaxTree.java:176-242 | a list of grammar level L is non-empty and holds only operators of tier at least L |
| AstPrecedence.SplitTiers | src/AbstractSyntaxTree.java:176-242 | a list split by an operator of tier L holds only operators of tier at least L |
| AstPrecedence.TiersWeaken | src/AbstractSyntaxTree.java:176-242 | a lower bound on the tiers also holds for any smaller bound |
| AstPrecedence.TiersOfSplit | src/AbstractSyntaxTree.java:176-242 | two lists joined by an operator of tier L, both holding tiers of at least L, give a list that does too |
| AstPrecedence.ShapedSingle | src/AbstractSyntaxTree.java:176-242 | a one-element grammar list is an operand |
| AstPrecedence.ShapedWeaken | src/AbstractSyntaxTree.java:176-242 | a list of some level is also a list of every lower level |
| AstPrecedence.BinaryRoot | src/AbstractSyntaxTree.java:176-242 | a binary operator of the lowest tier, with none of its tier after it, is the one the search finds |
| AstPrecedence.NotRoot | src/AbstractSyntaxTree.java:194-199 | a leading `not` of the lowest tier is the one the search finds |
| AstPrecedence.SplitAtRoot | src/AbstractSyntaxTree.java:258-326 | in a binary split the search finds the joining operator, and searching the list that starts at it finds position 0 |
| AstPrecedence.ShapedSplit | src/AbstractSyntaxTree.java:258-326 | where the search splits a grammar-shaped list: a `not` at the front, or a binary operator strictly inside with a level-T list on its left and a level-(T+1) list on its right |
| AstRearrange.OperandWellFormed | src/AbstractSyntaxTree.java:258-326 | an operand leaf is well formed |
| AstRearrange.SplitFacts | src/AbstractSyntaxTree.java:258-326 | what the rearrangement relies on: the operator is not last; `not` is found at 0 and nowhere else; the parts on each side are one operand or rearrangeable lists |
| AstRearrange.OperatorFound | src/AbstractSyntaxTree.java:259 | the operator found in a rearrangeable list is a childless token, not last |
| AstRearrange.LeftFacts | src/AbstractSyntaxTree.java:266-292 | what precedes the operator: nothing for `not`, else one operand or a rearrangeable list |
| AstRearrange.RightFacts | src/AbstractSyntaxTree.java:295-321 | what follows the operator: one operand or a rearrangeable list, and the re-search finds the operator at 0 |
| AstRearrange.Rearranged | src/AbstractSyntaxTree.java:258-326 | the root is the operator the search picks; it has as many children as its arity; the result is well formed |
| AstRearrange.LeftOperand | src/AbstractSyntaxTree.java:266-292 | no left operand for `not`, exactly one otherwise, each well formed |
| AstRearrange.RightOperand | src/AbstractSyntaxTree.java:295-321 | the right operand is well formed |
| AstRearrange.Side | src/AbstractSyntaxTree.java:276-290 | one side, after the wrapper case analysis, is well formed |
| AstRearrange.RearrangedSize | src/AbstractSyntaxTree.java:258-326 | the operator tree has no more nodes than the list it was built from |
| AstRearrange.LeftOperandSize | src/AbstractSyntaxTree.java:266-292 | the left operand has no more nodes than the elements before the operator |
| AstRearrange.RightOperandSize | src/AbstractSyntaxTree.java:295-321 | the right operand has no more nodes than the elements after the operator |
| AstRearrange.SideSize | src/AbstractSyntaxTree.java:276-290 | replacing a wrapper by its content or its rearrangement never adds nodes |
| AstRearrange.ReadingOfAppend | src/AbstractSyntaxTree.java:258-326 | the in-order reading of two forests in a row is the concatenation |
| AstRearrange.ReadingOfSplit | src/AbstractSyntaxTree.java:258-326 | the reading of a forest splits around any position |
| AstRearrange.RearrangedReading | src/AbstractSyntaxTree.java:258-326 | reading the operator tree in order gives back the operands and operators of the list in source order |
| AstRearrange.OperatorReading | src/AbstractSyntaxTree.java:323 | an operator node built from its operands reads as left, operator, right |
| AstRearrange.LeftOperandReading | src/AbstractSyntaxTree.java:266-292 | the left operand reads as the elements before the operator |
| AstRearrange.RightOperandReading | src/AbstractSyntaxTree.java:295-321 | the right operand reads as the elements after the operator |
| AstRearrange.SideReading | src/AbstractSyntaxTree.java:276-290 | a side reads as the element it replaces |
| AstRearrange.SideOperand | src/AbstractSyntaxTree.java:276-290 | the inline case analysis on a single element computes Side |
| AstRearrange.RearrangeTree | src/AbstractSyntaxTree.java:258-326 | rearrangeTree returns the Rearranged operator tree of the list |
| AstRearrange.MoveFront | src/AbstractSyntaxTree.java:266-271 | the loop that moves the first n elements into the temporary node leaves them there in order and the rest behind |
| AstRearrange.MoveAfterFirst | src/AbstractSyntaxTree.java:298-304 | the loop that moves everything after the operator leaves the operator alone in the list |
| AstRearrange.TakeLeft | src/AbstractSyntaxTree.java:266-292 | the left phase yields LeftOperand and leaves the list starting at the operator |
| AstRearrange.TakeRight | src/AbstractSyntaxTree.java:295-321 | the right phase yields RightOperand and leaves only the operator |
| AstSimplify.WrapperContents | src/AbstractSyntaxTree.java:145-155 | a well-formed wrapper never has two children: it has one operand or a rearrangeable list |
| AstSimplify.Prepared | src/AbstractSyntaxTree.java:145-155 | a wrapper ends with one child (its list's operator tree), other nodes keep their children, and the result is smaller than the node |
| AstSimplify.Simplified | src/AbstractSyntaxTree.java:139-170 | simplify keeps the label, leaves a wrapper one child and other nodes their number of children, and leaves no wrapper below the root |
| AstSimplify.SimplifiedChildren | src/AbstractSyntaxTree.java:158-169 | each child is simplified and unwrapped, so none is a wrapper |
| AstSimplify.SimplifiedChildrenAt | src/AbstractSyntaxTree.java:158-169 | child i of the result is child i simplified, then unwrapped |
| AstSimplify.SimplifiedWrapper | src/AbstractSyntaxTree.java:145-155 | a wrapper holding a list ends with one child, labelled by the operator the search picks |
| AstSimplify.SimplifiedReading | src/AbstractSyntaxTree.java:139-170 | simplification keeps every operand and operator in source order |
| AstSimplify.UnwrapSimplifiedReading | src/AbstractSyntaxTree.java:164-169 | unwrapping a simplified child keeps its reading |
| AstSimplify.SimplifiedChildrenReading | src/AbstractSyntaxTree.java:158-169 | the simplified child list reads as the original |
| AstSimplify.Simplify | src/AbstractSyntaxTree.java:139-170 | simplify computes Simplified |
| AstSimplify.SimplifyEach | src/AbstractSyntaxTree.java:158-160 | the loop simplifies each child in place |
| AstSimplify.UnwrapEach | src/AbstractSyntaxTree.java:164-169 | the loop replaces each wrapper child by its only child |
| AstSimplify.FromParseTree | src/AbstractSyntaxTree.java:39-52 | the AST of a derivation tree is its filtered children, simplified; it keeps the root label, is settled, and reads as the filtered tree |
| AstExamples.TripleShaped | src/AbstractSyntaxTree.java:176-242 | `x op y` is a grammar list of the operator's tier |
| AstExamples.TripleRearranged | src/AbstractSyntaxTree.java:258-326 | `x op y` becomes op(x, y) |
| AstExamples.SubtractionGroupsLeft | src/AbstractSyntaxTree.java:218-227 | `a - b - c` becomes (a - b) - c |
| AstExamples.ProductBindsTighter | src/AbstractSyntaxTree.java:218-239 | `a + b * c` becomes a + (b * c) |
| AstExamples.NotTakesTheRest | src/AbstractSyntaxTree.java:194-199 | `not a = b` becomes not(a = b) |
| Parsers.Applicable | src/Parser.java:52-81 | the first rule, in the source's if-chain order, whose lookahead set holds the token; none applies before it |
| Parsers.RuleDescends | src/Parser.java:36-656 | a rule that starts with a variable calls only lower-ranked variables, so the parser terminates |
| Parsers.BlockRuleDescends | src/Parser.java:36-128 | RuleDescends for the program and instruction-list rules |
| Parsers.InstructionRuleDescends | src/Parser.java:130-193 | RuleDescends for the instruction rules |
| Parsers.ArithmeticRuleDescends | src/Parser.java:195-369 | RuleDescends for the arithmetic rules |
| Parsers.ConditionRuleDescends | src/Parser.java:371-501 | RuleDescends for the conditional and boolean rules |
| Parsers.ComparisonRuleDescends | src/Parser.java:503-656 | RuleDescends for comparisons, loops, print and read |
| Parsers.DerivedByMember | src/Parser.java:36-656 | a node whose children fit one listed rule is derived by that list |
| Parsers.DerivedTerminalsAreLeaves | src/Parser.java:658-678 | in a derived tree every token is a leaf |
| Parsers.ParsedIsConverted | src/ParseTree.java:39-62 | a parsed tree is already its own toAST conversion |
| Parsers.FrontierPush | src/Parser.java:36-656 | the fringe of the child list grows by what the new child consumed |
| Parsers.Parser.constructor | src/Parser.java:18-23 | the cursor is at the first token and no error is recorded |
| Parsers.Parser.Parse | src/Parser.java:25-34 | a tree is returned if and only if the input starts with `begin` and no token failed to match or was missing; the tree is derived from `<Program>`, its fringe is the tokens consumed, and rule 1 is printed first |
| Parsers.Parser.Lookahead | src/Parser.java:680-682 | the lexical unit of the token at the cursor, and none past the end of the token list, where the overrun is recorded |
| Parsers.Parser.Match | src/Parser.java:658-678 | on the expected category the cursor moves one token and a leaf is returned; otherwise nothing moves, and the first mismatch sets the error and its line |
| Parsers.Parser.Production | src/Parser.java:36-656 | a tree exactly when the selected rule is not ε; the rule number is printed; the tree is derived from the variable and fits the rule's right-hand side; an ε-rule or no rule reads nothing |
| Parsers.Parser.Expand | src/Parser.java:36-656 | the non-ε case: the right-hand side becomes the children; the fringe is the tokens consumed |
| Parsers.Parser.Derive | src/Parser.java:36-656 | each item fills its slot in order (a matched token, a parsed subtree, or the absent child where a parsing method returns null for an ε-rule), and the fringe is the tokens consumed |
| LineCounting.CharCount | src/Lexer.java:619 | Character.charCount is 1 or 2 |
| LineCounting.ScanLines | src/Lexer.java:615-647 | the walk counts each line break once, with "\r\n" as one; a '\n' that completes a '\r' already counted is not counted again |
| LineCounting.ScanColumns | src/Lexer.java:615-647 | with no terminator the column advances by the text's UTF-16 length |
| LineCounting.ScanColumnRestarts | src/Lexer.java:621-641 | after a terminator the column counts only the text after the last one |
| LineCounting.BreaksAppend | src/Lexer.java:615-667 | a "\r\n" across the seam of two texts is one break |
| LineCounting.TokensAgree | src/Lexer.java:649-667 | with the peek's take-back, counting match by match agrees with counting the joined text |
| Lexers.SortedPairwise | src/Lexer.java:309-325 | adjacent order gives order between any two entries |
| Lexers.SameNames | src/Lexer.java:309-325 | a rearranged table holds the same names |
| Lexers.SwapKeeps | src/Lexer.java:318-320 | exchanging two neighbours keeps the entries |
| Lexers.PassSwap | src/Lexer.java:316-322 | an out-of-order pair lies before the settled part and is exchanged |
| Lexers.PassEnd | src/Lexer.java:314-323 | at the end of a sweep one more entry is settled; no exchange means the table was sorted |
| Lexers.Pass | src/Lexer.java:314-323 | one sweep permutes the table, settles the largest entry at the end, and reports sorted if and only if the table was sorted |
| Lexers.Lexer.constructor | src/Lexer.java:263-307 | a fresh scanner has an empty table and all positions at 0 |
| Lexers.Lexer.SortIdentifiers | src/Lexer.java:309-325 | the table ends sorted by compareTo and is a permutation of the old one |
| Lexers.Lexer.AlreadyInIdentifiers | src/Lexer.java:327-334 | true if and only if some entry compares equal to the name, that is, the name is in the table |
| Lexers.Lexer.Analyze | src/Lexer.java:336-343 | a variable name is added to the table only when it is new, so the table never repeats a name; the returned symbol is an addition of the model (Java's analyze is void and only prints it) |
| Lexers.Lexer.DoEof | src/Lexer.java:573-584 | the first time only: the table is sorted and permuted, and the report is the header and one line per entry |
| Lexers.Lexer.Pushback | src/Lexer.java:561-566 | the error exactly when more is pushed back than matched; otherwise the match shrinks by that much |
| Lexers.Lexer.CountPositions | src/Lexer.java:615-667 | the line and column after the walk and the peek are those of LineAfter and Scan; the line never decreases |
| Lexers.LineNeverDecreases | src/Lexer.java:649-667 | the take-back only cancels a break the walk counted |
| LexerTables.Copies | src/Lexer.java:79-81 | a run of count copies; a count below one still writes one copy (do-while) |
| LexerTables.CopiesAll | src/Lexer.java:79-81 | every entry of a run holds its value |
| LexerTables.RunsToGrows | src/Lexer.java:74-84 | decoding more pairs never shortens the table |
| LexerTables.RunsToPrefix | src/Lexer.java:74-84 | the decoding of a prefix ignores what follows it |
| LexerTables.Singles | src/Lexer.java:74-84 | the encoding of one value per pair doubles the length |
| LexerTables.RunsSingles | src/Lexer.java:74-84 | decoding inverts that encoding: no table loses an entry |
| LexerTables.FillRun | src/Lexer.java:79-81 | the do-while writes exactly the run and nothing else |
| LexerTables.UnpackRuns | src/Lexer.java:74-84 | zzUnpackAction, zzUnpackTrans (value - 1) and zzUnpackAttribute write Runs(packed) at offset, return the end index, and leave the rest of the array alone |
| LexerTables.Int32 | src/Lexer.java:118-119 | the 32-bit reduction is in range and congruent to its input |
| LexerTables.Rows | src/Lexer.java:113-122 | one row-map entry per pair of code units |
| LexerTables.RowHalves | src/Lexer.java:118-119 | both code units can be read back from a row entry |
| LexerTables.RowsAt | src/Lexer.java:117-120 | entry k comes from the pair at 2k and 2k + 1 |
| LexerTables.UnpackRowMap | src/Lexer.java:113-122 | zzUnpackRowMap writes Rows(packed) at offset and leaves the rest of the array alone |
| LexerTables.RowsAppend | src/Lexer.java:113-122 | the row map distributes over concatenation of whole pairs |
| LlvmIr.LabelNameInjective | src/Compiler.java:240-258 | distinct labels have distinct names, so label lines never collide by text |
| LlvmIr.RunsAppend | src/Compiler.java:373-452 | two runs of register definitions in a row make one |
| LlvmIr.MarksAppend | src/Compiler.java:227-365 | the labels placed by two blocks in a row are concatenated |
| LlvmIr.AllTargetsAppend | src/Compiler.java:227-365 | the branch targets of two blocks in a row are united |
| LlvmIr.AllocasAppend | src/Compiler.java:207-218 | the variables allocated by two blocks in a row are concatenated |
| CompilerSpec.OperateGen | src/Compiler.java:373-418 | operate changes only the register counter, which never decreases |
| CompilerSpec.OperandsGen | src/Compiler.java:480-494 | one operand for `not`, two otherwise; only the register counter changes |
| CompilerSpec.OperandGen | src/Compiler.java:485-493 | one operand; only the register counter changes |
| CompilerSpec.Declare | src/Compiler.java:210-213 | a variable is allocated and recorded exactly as its lines say, and it is in the list afterwards |
| CompilerSpec.IfThenUnfold | src/Compiler.java:227-259 | an `if` without else: test, branch to ifCode or endif, then-code, jump to endif |
| CompilerSpec.IfElseUnfold | src/Compiler.java:227-259 | an `if` with else: test, branch to ifCode or elseCode, both parts each ending with a jump to endif |
| CompilerSpec.WhileUnfold | src/Compiler.java:345-365 | the test block, the branch, the body and the jump back |
| CompilerSpec.ForTestUnfold | src/Compiler.java:272-308 | the loop variable loaded, compared with the bound by `icmp slt`, and branched on |
| CompilerSpec.ForStepUnfold | src/Compiler.java:315-342 | the step added to the loaded value and stored back, then the jump back |
| CompilerSpec.ForUnfold | src/Compiler.java:261-343 | start assignment, test, body, step, in that order |
| Compilers.Compiler.constructor | src/Compiler.java:45-52 | all counters at 0, no variables, nothing written |
| Compilers.Compiler.Program | src/Compiler.java:80-92 | writes ProgramGen's lines and leaves its state |
| Compilers.Compiler.Code | src/Compiler.java:174-198 | writes CodeGen's lines and leaves its state |
| Compilers.Compiler.Instruction | src/Compiler.java:176-195 | the switch writes InstructionGen's lines |
| Compilers.Compiler.Read | src/Compiler.java:207-218 | writes ReadGen's lines and leaves its state |
| Compilers.Compiler.Print | src/Compiler.java:220-225 | writes PrintGen's lines and leaves its state |
| Compilers.Compiler.Assign | src/Compiler.java:420-452 | returns the variable and writes AssignGen's lines |
| Compilers.Compiler.Operand | src/Compiler.java:485-493 | a NUMBER is an immediate; anything else is lowered and its register taken |
| Compilers.Compiler.Operate | src/Compiler.java:373-418 | writes OperateGen's lines and leaves its state |
| Compilers.Compiler.Operation | src/Compiler.java:461-527 | the operand buffer loop and the final instruction write OperateGen's lines |
| Compilers.Compiler.If | src/Compiler.java:227-259 | writes IfGen's lines and leaves its state |
| Compilers.Compiler.While | src/Compiler.java:345-365 | writes WhileGen's lines and leaves its state |
| Compilers.Compiler.For | src/Compiler.java:261-343 | writes ForGen's lines and leaves its state |
| Compilers.Compiler.ForTest | src/Compiler.java:272-308 | writes ForTestGen's lines |
| Compilers.Compiler.ForStep | src/Compiler.java:315-342 | writes ForStepGen's lines |
| Compilers.CodeStep | src/Compiler.java:175-197 | one pass of Code's loop keeps what remains to be written in step with the whole |
| Compilers.OperandsStep | src/Compiler.java:482-494 | one pass of operation's loop: the operand is the i-th, and the rest continues from its state |
| CompilerRegisters.OperateCounter | src/Compiler.java:373-418 | operate advances the counter by the number of temporaries the expression needs |
| CompilerRegisters.OperandCounter | src/Compiler.java:485-493 | a literal costs no register; anything else costs at least one, and only a literal is an immediate |
| CompilerRegisters.OperateThreaded | src/Compiler.java:373-418 | operate defines registers from %unnamedVar on, in order and without gaps, and reads none before it is defined |
| CompilerRegisters.OperandsThreaded | src/Compiler.java:480-494 | the operand lines are threaded the same way |
| CompilerRegisters.OperandWithin | src/Compiler.java:485-493 | an operand names only registers its own lines defined |
| CompilerRegisters.AssignThreaded | src/Compiler.java:420-452 | Assign advances the counter by its value's cost, and its lines are threaded |
| CompilerRegisters.ReadThreaded | src/Compiler.java:207-218 | Read defines exactly one register and stores it |
| CompilerRegisters.PrintThreaded | src/Compiler.java:220-225 | Print defines exactly one register and passes it to println |
| CompilerRegisters.InstructionThreaded | src/Compiler.java:176-195 | every instruction's lines are threaded |
| CompilerRegisters.CodeThreaded | src/Compiler.java:174-198 | every code block's lines are threaded |
| CompilerRegisters.IfThreaded | src/Compiler.java:227-259 | an `if`'s lines are threaded |
| CompilerRegisters.WhileThreaded | src/Compiler.java:345-365 | a `while`'s lines are threaded |
| CompilerRegisters.ForThreaded | src/Compiler.java:261-343 | a `for`'s lines are threaded, with the loop value's register read again in the step |
| CompilerRegisters.ForTestThreaded | src/Compiler.java:272-308 | the loop test defines the loaded value, the bound's registers and the comparison, in order |
| CompilerRegisters.ForStepRuns | src/Compiler.java:315-342 | the step reads the loaded value and defines the step's registers and the sum |
| CompilerRegisters.ProgramThreaded | src/Compiler.java:80-92 | a compiled program numbers its registers %0, %1, … in order of definition, and reads each only after defining it |
| CompilerLabels.OperateUnlabelled | src/Compiler.java:373-418 | expressions place and target no labels |
| CompilerLabels.AssignLabelled | src/Compiler.java:420-452 | Assign places no labels and leaves the label counters alone |
| CompilerLabels.ReadLabelled | src/Compiler.java:207-218 | Read places no labels |
| CompilerLabels.PrintLabelled | src/Compiler.java:220-225 | Print places no labels |
| CompilerLabels.InstructionLabelled | src/Compiler.java:176-195 | each instruction places only fresh labels of its own counter's stretch, each once, and targets only labels it places |
| CompilerLabels.CodeLabelled | src/Compiler.java:174-198 | the same holds for a block of instructions |
| CompilerLabels.IfLabelled | src/Compiler.java:227-259 | an `if` takes its index before the parts, so its labels are fresh and every branch goes to a label it places |
| CompilerLabels.WhileLabelled | src/Compiler.java:345-365 | the same holds for `while` |
| CompilerLabels.ForLabelled | src/Compiler.java:261-343 | the same holds for `for` |
| CompilerLabels.ForTestLabels | src/Compiler.java:272-308 | the test places forCond and forCode, and branches to them and to endfor |
| CompilerLabels.ForStepLabels | src/Compiler.java:341-342 | the step places endfor and jumps to forCond |
| CompilerLabels.ProgramLabelled | src/Compiler.java:80-92 | no label is placed twice in a program, and every branch goes to a label that is placed |
| CompilerVariables.DeclaredDistinct | src/Compiler.java:210-213 | allocating only names not yet allocated keeps the list free of repeats |
| CompilerVariables.DeclareVars | src/Compiler.java:210-213 | a variable is allocated only when it is not yet in the list |
| CompilerVariables.AssignVars | src/Compiler.java:420-452 | Assign stores into a variable already allocated, and the variable is in the list afterwards |
| CompilerVariables.ReadVars | src/Compiler.java:207-218 | Read stores into a variable already allocated |
| CompilerVariables.PrintVars | src/Compiler.java:220-225 | Print neither allocates nor stores |
| CompilerVariables.OperateQuiet | src/Compiler.java:373-418 | expressions neither allocate nor store |
| CompilerVariables.InstructionVars | src/Compiler.java:176-195 | every instruction keeps the allocation bookkeeping |
| CompilerVariables.CodeVars | src/Compiler.java:174-198 | every code block keeps the allocation bookkeeping |
| CompilerVariables.IfVars | src/Compiler.java:227-259 | an `if` keeps the allocation bookkeeping |
| CompilerVariables.WhileVars | src/Compiler.java:345-365 | a `while` keeps the allocation bookkeeping |
| CompilerVariables.ForVars | src/Compiler.java:261-343 | a `for` keeps it, including the store of the step into the loop variable |
| CompilerVariables.ForStepVars | src/Compiler.java:335 | the step stores into the loop variable, which its start assignment allocated |
| CompilerVariables.ProgramVars | src/Compiler.java:80-92 | every store goes to a variable allocated before it; no variable is allocated twice; the `variables` list is exactly the allocated variables, in order |
| Compilation.Compile | src/Compiler.java:80-82 | a fresh run writes ProgramGen's lines, which are register-threaded and place each label once, with every branch target placed and every variable allocated once before it is stored |
| EmptyThen.AbsentThenShape | src/AbstractSyntaxTree.java:374-396 | the derivation of `if c then else e endif`, with the then-part absent, filters to two children |
| EmptyThen.EmptyThenShape | src/AbstractSyntaxTree.java:374-396 | with an empty `<Code>` node for the then-part, it filters to three children |
| EmptyThen.AbsentThenAst | src/AbstractSyntaxTree.java:39-52 | as written, the `<If>` AST has two children, the second the else-code |
| EmptyThen.EmptyThenAst | src/AbstractSyntaxTree.java:39-52 | corrected, the `<If>` AST has three children, the empty code in the middle |
| EmptyThen.EmptyThenRunsElseOnTrue | src/Compiler.java:233-258 | as written, the generator branches into the else-code when the condition holds |
| EmptyThen.EmptyThenRunsElseOnFalse | src/Compiler.java:233-258 | corrected, nothing runs when the condition holds, and the else-code runs when it fails |

## Left out

- Runtime helpers: the text of `@println`, `@readInt` and the format strings in `begin` (src/Compiler.java:94-172) is one opaque `Begin` line in LlvmIr; only the head of `@main` is spelled out.
- Output channel: `write` to a file or to standard output becomes lines appended to the `out` field. The scanner's and parser's printing, the verbose and LaTeX modes, and the `Main` driver are not modelled either.
- AstRearrange.Rearranged: requires `WellFormed`/`ExprItem`, which exclude unary minus. A two-element `[MINUS, x]` list never reaches rearrangeTree (the `>= 3` test at src/AbstractSyntaxTree.java:145) and is unwrapped to the MINUS token alone (line 167), losing its operand. Inside a longer list MINUS is read as a binary operator: for `a * - b` the search picks it, and the left part `[a, TIMES]` ends with TIMES added as its own child (lines 295-321), a cyclic tree on which simplify does not terminate.
- AstSimplify.FromParseTree: requires the filtered tree to be `WellFormed`, which excludes unary minus, because Java loses the operand of a lone `- Atom` and builds a cyclic tree for a minus inside a longer expression (see AstRearrange.Rearranged above).
- NUMBER values: a NUMBER token's value is held as `Int`. The scanner stores the matched text as a String, and the compiler casts it with `(int)`, which would throw.
- AstBuild.CreateTree: the source updates shared `children` lists in place. The model rebuilds sequence values, so the in-place update and its aliasing are not captured.
- AstRearrange.RearrangeTree: the same; removals from and insertions into the child list are modelled on values, and their order is not captured.
- AstSimplify.Simplify: the same; the children replaced in place are modelled as a new sequence.
- Null values: Java throws a NullPointerException on a null `getValue()` in isToBeKept and in the compiler's name lookups (`Name`). The model has no such failure, and `Compilable` demands the shapes the compiler reads.
- ClassCastException: a non-String value in the identifier table would make the sort's cast throw; the model's table holds names only.
- Integer width: `unnamedVar`, the label counters and the literals are unbounded `int`/`nat`. Java's 32-bit wrap-around is modelled only in the row-map decoder (`Int32`), where it matters.
- Symbol.hashCode: `hashCode` is not modelled. Neither are the line and column of symbols built without a position (`UNDEFINED_POSITION`), beyond being fields.
- Null children: `<Code> -> ε` and the other ε-rules return null. The derivation keeps them as the `Absent` child. The ParseTree String constructor is not part of this model, so createTree is assumed to skip a null child; Java would dereference it.
- Parsers.Parser.Parse: a token index past the end is the sticky `overrun` flag where Java throws IndexOutOfBoundsException. Trailing tokens after `end` are not checked, as in the source. The printed rule numbers are the `rules` trace. The LL(1) disjointness of the lookahead sets is not proved.
- Parsers.Parser.Match: a matched leaf is labelled with the token's Symbol, where Java builds `new ParseTree(value.toString())`. `errorLine` keeps the first error only, as the source prints only the first.
- Scanner: the DFA loop of `yylex`, `zzRefill`, the Reader, `yytext`/`yycharat`, and the character-map decoder `zzUnpackCMap` (the same run-length decoding as `UnpackRuns`, over chars) are not modelled. The action table itself is data.
- Lexers.Lexer.Pushback: the scanner error ZZ_PUSHBACK_2BIG is returned as `tooBig`; Java throws an Error.
- Lexers.Lexer.CountPositions: the peek at the next character, which may refill the buffer, is the `next` parameter. Java `char`s are UTF-16 units while Dafny's `char` is a code point, so `CharCount` stands in for `Character.charCount`.
- Lexers.Lexer.Analyze: Java's analyze is void: it prints the token's Symbol and stores it when the name is new, and each action then breaks. The model also returns that Symbol; aliasing between the table and the returned symbols is not captured.

## Findings

| source | as written | input that shows it | evidently intended | confidence | as-written member | corrected member |
|---|---|---|---|---|---|---|
| src/Parser.java:55-63, src/AbstractSyntaxTree.java:374-405, src/Compiler.java:233-258 | an empty then-part derives to null. As written, createTree passes that null child to isToBeKept, which dereferences it (src/AbstractSyntaxTree.java:377, 405); under the null-skip reading of the "Null children" line of "## Left out", the `<If>` AST keeps only the condition and the else-code, and then `If` treats a 2-child node as having no else and runs the else-code when the condition holds | `begin if a > 0 then else print(a) endif end` | the else-code runs when the condition fails, and nothing runs when it holds | not executed | EmptyThen.EmptyThenRunsElseOnTrue | EmptyThen.EmptyThenRunsElseOnFalse |
