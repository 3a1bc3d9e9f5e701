# A verified model of five components of Unladen Swallow

Unladen Swallow is a CPython fork with an LLVM-based just-in-time compiler. It carries copies of
LLVM and clang. This project models five of its components in Dafny and proves what their code
and comments promise.

- **Macro arguments** (`Lex`, `macro_args.dfy`). This is clang's `MacroArgs`. One flat buffer
  holds the unexpanded tokens of every actual argument, and each argument ends with an EOF token.
  The model covers:
  - finding where an argument starts and how long it is;
  - deciding whether pre-expansion is needed;
  - the two per-argument caches;
  - the `#` stringizing operator of section 6.10.3.2 paragraph 2 of ISO/IEC 9899:1999, with its
    spacing rule, its escaping rule and its trailing-backslash repair;
  - the Microsoft `#@` charize operator.

  A `const Token *` into the buffer is modelled as the suffix of the buffer that starts there.
- **`llvm::StringSwitch<T>`** (`ADT`, `string_switch.dfy`). A class with the fields `result` and
  `resultKnown`. `Case` updates them in place and returns the same object. The first exact match
  wins; otherwise the default applies.
- **x86 AT&T operand printing** (`X86AsmPrinting`, `x86_asm_printer.dfy`). Each printer has two
  forms. A function computes the text it emits. A method of `AsmPrinter` appends that text to the
  output stream `out` piece by piece, as the source does, and is proved to append exactly that
  text. The one exception is the name of a Darwin-stub external symbol, where the printers use
  the corrected name of "## Findings" rather than the text the source prints. The lemmas state the layout rules of memory references and which operand modifiers are
  rejected.
- **The Darwin tool chain of the clang driver** (`Driver`, `tool_chains.dfy`). The model covers:
  - the default Mac OS X version string;
  - the GCC tool-chain directory name;
  - the runtime libraries each flavour puts on the link line;
  - the `-arch` spelling table;
  - the PIC and unwind-table defaults;
  - the memoising tool cache of `SelectTool`.

  The two C++ subclasses `DarwinGCC` and `DarwinClang` become one class with two constructors and
  a `flavor` field.
- **The shadow stack of the Python function builder** (`FunctionBuilder`, `function_builder.dfy`).
  `llvm_fbuilder.h` declares `LlvmFunctionBuilder` and documents the ownership contracts of its
  stack and locals. The model is a class with:
  - the value stack as an array and a stack pointer;
  - the locals;
  - a reference-count multiset;
  - the unwind-target table and the bail points.

  The class invariant is reference-count balance. Every count equals the references held by the
  stack slots, the non-null locals, the translated code's temporaries and the rest of the program.
  The temporaries are a ghost ledger `held`; the rest of the program is a ghost constant. The
  values on the stack are a ghost sequence `contents`, which the array holds slot by slot
  between the stack bottom and the stack pointer.

`common.dfy` holds shared helpers: `Option`, the decimal printing of `utostr` and `raw_ostream`
with its parser, and the C integer conversions (`int`, `unsigned`, `unsigned char`) written out
on unbounded integers.

## Model

| member | source | states |
|---|---|---|
| `Lex.GetArgLength` | Util/llvm/tools/clang/lib/Lex/MacroArgs.cpp:54-59 | the count is the index of the first EOF: every token before it is not EOF, and the EOF is not counted |
| `Lex.GetUnexpArgument` | Util/llvm/tools/clang/lib/Lex/MacroArgs.cpp:64-77 | the scan stops just after the arg-th EOF (argument 0 at 0); exactly `arg` EOF tokens lie before it, and the result is inside the buffer |
| `Lex.ArgStartMeaning` | Util/llvm/tools/clang/lib/Lex/MacroArgs.cpp:64-77 | the start of argument n has exactly n EOF tokens before it, and the token just before it is an EOF |
| `Lex.ArgNeedsPreexpansion` | Util/llvm/tools/clang/lib/Lex/MacroArgs.cpp:82-94 | true exactly when some token before the EOF is an identifier that names a defined, enabled macro |
| `Lex.LexUntilEof` | Util/llvm/tools/clang/lib/Lex/MacroArgs.cpp:119-124 | the do-while loop collects the lexed tokens up to and including the first EOF, so the vector ends in EOF and has no earlier EOF |
| `Lex.PreExpandArgument` | Util/llvm/tools/clang/lib/Lex/MacroArgs.cpp:109-124 | the argument is entered with its EOF, and the result is what the preprocessor delivers up to its first EOF, ending in that EOF |
| `Lex.MacroArgs.Create` | Util/llvm/tools/clang/lib/Lex/MacroArgs.cpp:21-39 | a new argument object keeps the token buffer and starts with both caches empty |
| `Lex.MacroArgs.GetPreExpArgument` | Util/llvm/tools/clang/lib/Lex/MacroArgs.cpp:99-133 | a non-empty cached vector is returned unchanged and nothing is re-lexed; otherwise the cache is sized to the buffer on first use and the fresh vector, ending in EOF, is stored in the slot; the other cache is untouched |
| `Lex.BodyMatchesReference` | Util/llvm/tools/clang/lib/Lex/MacroArgs.cpp:153-158 | the loop's left-to-right body equals the head-first reference: no space before the first token, and one space before every later token that has leading space or starts a line |
| `Lex.QuoteTokens` | Util/llvm/tools/clang/lib/Lex/MacroArgs.cpp:150-184 | the loop builds an opening quote followed by the spaced pieces; string and character literals are escaped and other tokens are copied as spelled |
| `Lex.TrailingBackslashes` | Util/llvm/tools/clang/lib/Lex/MacroArgs.cpp:188-195 | the length of the backslash run that ends the text; the character before the run is not a backslash |
| `Lex.RepairBackslash` | Util/llvm/tools/clang/lib/Lex/MacroArgs.cpp:186-200 | the backward scan finds the run; an odd run loses exactly one backslash and is reported; an even run is left intact |
| `Lex.RepairLeavesEvenRun` | Util/llvm/tools/clang/lib/Lex/MacroArgs.cpp:186-200 | after the repair the trailing backslash run is always even |
| `Lex.StringLiteralSpelling` | Util/llvm/tools/clang/lib/Lex/MacroArgs.cpp:150-201 | the stringified spelling is at least two characters long, begins with `"` and ends with `"` |
| `Lex.ClosingQuoteUnescaped` | Util/llvm/tools/clang/lib/Lex/MacroArgs.cpp:186-201 | the closing quote is never escaped: the text before it ends in an even run of backslashes |
| `Lex.Charize` | Util/llvm/tools/clang/lib/Lex/MacroArgs.cpp:205-221 | the outer quotes become `'`; a result that is neither `'c'` with c not a quote nor `'\x'` is replaced by `' '` and reported |
| `Lex.CharizeIsCharConstant` | Util/llvm/tools/clang/lib/Lex/MacroArgs.cpp:205-221 | a charized result is always a legal character constant in single quotes; it is the candidate exactly when the candidate is legal |
| `Lex.StringifyArgument` | Util/llvm/tools/clang/lib/Lex/MacroArgs.cpp:141-225 | the result is a fresh string-literal token with the quoted, spaced, escaped and repaired spelling (charized on request); each diagnostic is issued exactly when its condition holds |
| `Lex.MacroArgs.GetStringifiedArgument` | Util/llvm/tools/clang/lib/Lex/MacroArgs.cpp:229-240 | the cache is zero-filled on first use to one slot per unexpanded token, the count `getNumArguments` has from the object's construction; a slot is recomputed (without charize) only when it is not yet a string literal; the result is always a string literal |
| `ADT.StringSwitch.constructor` | Util/llvm/include/llvm/ADT/StringSwitch.h:54-55 | a new switch holds the subject and has no known result |
| `ADT.LiteralMatchesExactly` | Util/llvm/include/llvm/ADT/StringSwitch.h:59-60 | the length test N-1 plus the byte comparison match exactly the subject equal to the literal's text |
| `ADT.StringSwitch.Case` | Util/llvm/include/llvm/ADT/StringSwitch.h:58-66 | the result is recorded only when none is known and the literal matches; otherwise nothing changes; the same switch is returned |
| `ADT.KnownResultSticky` | Util/llvm/include/llvm/ADT/StringSwitch.h:58-63 | once a result is known, any further chain of cases, matching or not, leaves it unchanged |
| `ADT.FirstMatch` | Util/llvm/include/llvm/ADT/StringSwitch.h:58-63 | reference definition: the index of the first arm whose literal matches, with no earlier match; none when no arm matches |
| `ADT.FirstMatchWins` | Util/llvm/include/llvm/ADT/StringSwitch.h:58-66 | a chain of cases from the unknown state yields the value of the first matching arm, and stays unknown when none matches |
| `ADT.RunCasesAppend` | Util/llvm/include/llvm/ADT/StringSwitch.h:69-93 | running one chain of cases after another is the same as running their concatenation |
| `ADT.StringSwitch.Cases2` | Util/llvm/include/llvm/ADT/StringSwitch.h:68-72 | two literals with one value act as the chain `Case(S0,V).Case(S1,V)` |
| `ADT.StringSwitch.Cases3` | Util/llvm/include/llvm/ADT/StringSwitch.h:74-78 | three literals act as the three cases chained in order |
| `ADT.StringSwitch.Cases4` | Util/llvm/include/llvm/ADT/StringSwitch.h:80-85 | four literals act as the four cases chained in order |
| `ADT.StringSwitch.Cases5` | Util/llvm/include/llvm/ADT/StringSwitch.h:87-93 | five literals act as the five cases chained in order |
| `ADT.StringSwitch.Default` | Util/llvm/include/llvm/ADT/StringSwitch.h:95-100 | the matched value if a result is known, otherwise the given value |
| `ADT.StringSwitch.Value` | Util/llvm/include/llvm/ADT/StringSwitch.h:102-105 | the conversion to T requires a known result and returns it |
| `ADT.Switch` | Util/llvm/include/llvm/ADT/StringSwitch.h:30-39 | a whole switch expression gives the value of the first arm whose literal equals the subject, otherwise the fallback |
| `X86AsmPrinting.AsmPrinter.PrintSSECC` | Util/llvm/lib/Target/X86/AsmPrinter/X86AsmPrinter.cpp:397-410 | requires the low byte of the immediate to be at most 7 and appends the condition-code mnemonic for it |
| `X86AsmPrinting.SseCondCodeRoundTrip` | Util/llvm/lib/Target/X86/AsmPrinter/X86AsmPrinter.cpp:397-410 | 0..7 map to `eq lt le unord neq nlt nle ord` in that order: each printed code parses back to the same value |
| `X86AsmPrinting.ParseSseCondCode` | Util/llvm/lib/Target/X86/AsmPrinter/X86AsmPrinter.cpp:397-410 | the inverse table: a string is a code exactly when it is one of the eight, and its value is its position |
| `X86AsmPrinting.NoRipDropsBase` | Util/llvm/lib/Target/X86/AsmPrinter/X86AsmPrinter.cpp:418-422 | under `no-rip` a RIP-based reference prints exactly as the same reference with no base |
| `X86AsmPrinting.LeaParenPartIff` | Util/llvm/lib/Target/X86/AsmPrinter/X86AsmPrinter.cpp:424-453 | with an immediate displacement, the reference ends in `)` exactly when the index or the effective base is non-zero |
| `X86AsmPrinting.LeaDisplacementIff` | Util/llvm/lib/Target/X86/AsmPrinter/X86AsmPrinter.cpp:427-430 | with a parenthesised part, the displacement is printed exactly when its 32-bit value is non-zero; without one it is always printed, even 0 |
| `X86AsmPrinting.ParenCommaCount` | Util/llvm/lib/Target/X86/AsmPrinter/X86AsmPrinter.cpp:437-453 | with comma-free register names: one comma when there is an index, and a second one exactly when the scale is not 1 |
| `X86AsmPrinting.MemSegmentColon` | Util/llvm/lib/Target/X86/AsmPrinter/X86AsmPrinter.cpp:456-465 | with colon-free register names, a memory reference contains a colon exactly when the segment register is non-zero |
| `X86AsmPrinting.AsmPrinter.PrintLeaMemReference` | Util/llvm/lib/Target/X86/AsmPrinter/X86AsmPrinter.cpp:412-454 | appends displacement, then `(base,index,scale)` as laid out by the rules above |
| `X86AsmPrinting.AsmPrinter.PrintMemReference` | Util/llvm/lib/Target/X86/AsmPrinter/X86AsmPrinter.cpp:456-465 | appends `%seg:` only for a non-zero segment register, then the LEA form |
| `X86AsmPrinting.DollarSafe` | Util/llvm/lib/Target/X86/AsmPrinter/X86AsmPrinter.cpp:277-282 | a name starting with `$` is wrapped in parentheses and other names are unchanged, so the printed name never starts with `$` |
| `X86AsmPrinting.DllImportPrefix` | Util/llvm/lib/Target/X86/AsmPrinter/X86AsmPrinter.cpp:218-235 | a DLL-import global is printed as `__imp_` plus its mangled name; no other flag adds that prefix |
| `X86AsmPrinting.ExternalSymbolName` | Util/llvm/lib/Target/X86/AsmPrinter/X86AsmPrinter.cpp:287-298 | corrected name of an external symbol: a Darwin-stub reference always ends in `$stub` |
| `X86AsmPrinting.ExternalStubNameDependsOnHistory` | Util/llvm/lib/Target/X86/AsmPrinter/X86AsmPrinter.cpp:287-305 | as written, the first reference to a Darwin stub prints the bare name and later references print the `$stub` name |
| `X86AsmPrinting.AsmPrinter.PrintSymbolOperand` | Util/llvm/lib/Target/X86/AsmPrinter/X86AsmPrinter.cpp:203-341 | appends the label for the operand kind, then the relocation suffix for its target flag |
| `X86AsmPrinting.AsmPrinter.PrintOperand` | Util/llvm/lib/Target/X86/AsmPrinter/X86AsmPrinter.cpp:364-395 | appends `%reg` (the `subregNN` modifier picks the sub-register), `$imm`, or `$` plus a symbol |
| `X86AsmPrinting.AsmPrinter.PrintPcrelImm` | Util/llvm/lib/Target/X86/AsmPrinter/X86AsmPrinter.cpp:346-361 | appends an immediate, a block label or a symbol, with no `$` |
| `X86AsmPrinting.AsmMRegisterRejects` | Util/llvm/lib/Target/X86/AsmPrinter/X86AsmPrinter.cpp:517-540 | a register mode is rejected exactly when it is not one of b, h, w, k, q |
| `X86AsmPrinting.AsmPrinter.PrintAsmMRegister` | Util/llvm/lib/Target/X86/AsmPrinter/X86AsmPrinter.cpp:517-540 | returns true and prints nothing for an unknown mode; otherwise appends `%` and the sub- or super-register's name |
| `X86AsmPrinting.AsmOperandRejects` | Util/llvm/lib/Target/X86/AsmPrinter/X86AsmPrinter.cpp:544-616 | an operand is rejected exactly when the modifier is longer than one letter or unknown, or is `a` on a basic block, or `A` on a non-register |
| `X86AsmPrinting.NegateInt64` | Util/llvm/lib/Target/X86/AsmPrinter/X86AsmPrinter.cpp:603-608 | the `n` modifier negates an `int64_t` immediate; the minimum value wraps to itself |
| `X86AsmPrinting.AsmPrinter.PrintAsmOperand` | Util/llvm/lib/Target/X86/AsmPrinter/X86AsmPrinter.cpp:544-616 | a rejected operand returns true and leaves the output unchanged; an accepted one appends its text |
| `X86AsmPrinting.AsmMemoryOperandText` | Util/llvm/lib/Target/X86/AsmPrinter/X86AsmPrinter.cpp:618-640 | a memory operand is rejected exactly when the modifier is longer than one letter or is not one of b, h, w, k, q, P |
| `X86AsmPrinting.AsmPrinter.PrintAsmMemoryOperand` | Util/llvm/lib/Target/X86/AsmPrinter/X86AsmPrinter.cpp:618-640 | register letters are ignored, `P` prints the reference under `no-rip`, and a rejected modifier leaves the output unchanged |
| `Driver.MacosxMinorFor` | Util/llvm/tools/clang/lib/Driver/ToolChains.cpp:42-44 | `max(0, (int)D0 - 4)` on 32-bit `int`: D0-4 when that is non-negative, otherwise 0 (wrap-around included) |
| `Driver.MacosxVersionMinRoundTrip` | Util/llvm/tools/clang/lib/Driver/ToolChains.cpp:42-44 | the default minimum version reads back as 10, max(0, D0-4) and D1 |
| `Driver.ToolChainDirNameRoundTrip` | Util/llvm/tools/clang/lib/Driver/ToolChains.cpp:60-67 | the directory is `i686-apple-darwin` + D0 + `/` + G0.G1.G2, and it splits back into D0 and the GCC version |
| `Driver.ChooseToolChainDir` | Util/llvm/tools/clang/lib/Driver/ToolChains.cpp:60-87 | the primary directory when it exists; the next Darwin major's directory only when the primary is missing and the next one exists |
| `Driver.GccFilePaths` | Util/llvm/tools/clang/lib/Driver/ToolChains.cpp:89-110 | four library paths on x86_64 and two otherwise; the last two are the driver-relative and `/usr/lib/gcc/` directories |
| `Driver.Darwin.Gcc` | Util/llvm/tools/clang/lib/Driver/ToolChains.cpp:33-126 | the GCC tool chain stores both versions, the version strings, the chosen directory, and the file and program paths in order; the tool cache starts empty |
| `Driver.Darwin.Clang` | Util/llvm/tools/clang/lib/Driver/ToolChains.cpp:233-247 | the clang tool chain gets the version strings of the shared `Darwin` constructor, no file paths and two program paths; the tool cache starts empty |
| `Driver.GccSupportLib` | Util/llvm/tools/clang/lib/Driver/ToolChains.cpp:196-221 | at most one `libgcc_s` or `libgcc_eh` variant: `-lgcc_eh` under `-static-libgcc`, and none on 10.6 or later without the options |
| `Driver.GccStaticExactly` | Util/llvm/tools/clang/lib/Driver/ToolChains.cpp:193-194 | the link line is exactly `-lgcc_static` if and only if `-static` is given |
| `Driver.GccLibOrder` | Util/llvm/tools/clang/lib/Driver/ToolChains.cpp:223-229 | without `-static`, `-lgcc` precedes `-lSystem` exactly on iPhoneOS or before 10.6; otherwise `-lSystem` precedes `-lgcc` |
| `Driver.GccModernDefault` | Util/llvm/tools/clang/lib/Driver/ToolChains.cpp:214-229 | on Mac OS X 10.6 or later with no options, the link line is `-lSystem -lgcc` |
| `Driver.AppendGccRuntimeLibs` | Util/llvm/tools/clang/lib/Driver/ToolChains.cpp:187-231 | the push-backs append exactly the GCC runtime-library list to the command line |
| `Driver.ClangRuntimeOutcomes` | Util/llvm/tools/clang/lib/Driver/ToolChains.cpp:257-277 | nothing under `-static`; nothing plus a diagnostic under `-static-libgcc`; otherwise exactly `-lSystem` |
| `Driver.AppendClangRuntimeLibs` | Util/llvm/tools/clang/lib/Driver/ToolChains.cpp:254-278 | appends the clang runtime-library list and reports `-static-libgcc` exactly when it is rejected |
| `Driver.Darwin.AddLinkRuntimeLibArgs` | Util/llvm/tools/clang/lib/Driver/ToolChains.cpp:187-278 | each flavour appends its own list, and only the clang flavour reports `-static-libgcc` |
| `Driver.ToolKey` | Util/llvm/tools/clang/lib/Driver/ToolChains.cpp:136-140 | the cache key is the analyze class when clang compiles the job, otherwise the job's own class |
| `Driver.ToolFor` | Util/llvm/tools/clang/lib/Driver/ToolChains.cpp:144-161 | the clang tool exactly for the analyze key; the Darwin compile tool exactly for precompile and compile |
| `Driver.Darwin.SelectTool` | Util/llvm/tools/clang/lib/Driver/ToolChains.cpp:135-165 | a cached tool is returned and nothing changes; otherwise a fresh tool of the right kind is created, cached under the key and returned |
| `Driver.BoundArchArgs` | Util/llvm/tools/clang/lib/Driver/ToolChains.cpp:450-514 | each accepted `-arch` spelling adds at most one argument |
| `Driver.BoundArchAddsNothing` | Util/llvm/tools/clang/lib/Driver/ToolChains.cpp:457-480 | `ppc` and `i386` are exactly the spellings that add nothing |
| `Driver.BoundArchSixtyFour` | Util/llvm/tools/clang/lib/Driver/ToolChains.cpp:476-497 | `ppc64` and `x86_64` are exactly the spellings that add `-m64` |
| `Driver.BoundArchCpu` | Util/llvm/tools/clang/lib/Driver/ToolChains.cpp:457-474 | a `-mcpu=` is added exactly for the PowerPC models, and its value is the model name without `ppc` |
| `Driver.BoundArchRenames` | Util/llvm/tools/clang/lib/Driver/ToolChains.cpp:479-511 | `pentpro`, `pentIIm3`, `arm`, `armv5`, `armv6` and `armv7` are exactly the spellings whose `-march=` value differs from the spelling; `pentpro` gives `pentiumpro`, `pentIIm3` gives `pentium2`, `armv6` gives `armv6k` and `armv7` gives `armv7a` |
| `Driver.ForcedPicModel` | Util/llvm/tools/clang/lib/Driver/ToolChains.cpp:523-537 | a PIC model is forced exactly when unwind tables are on by default (on x86_64), and the forced model is the default relocation model `pic` |
| `FunctionBuilder.LlvmFunctionBuilder.constructor` | Python/llvm_fbuilder.h:34 | a builder starts with an empty stack, the frame's locals, no unwind targets and no bail points, in a balanced state |
| `FunctionBuilder.LlvmFunctionBuilder.IncRef` | Python/llvm_fbuilder.h:231-236 | one more count, owned by the code |
| `FunctionBuilder.LlvmFunctionBuilder.DecRef` | Python/llvm_fbuilder.h:231-236 | one count fewer, given up by the code |
| `FunctionBuilder.LlvmFunctionBuilder.XDecRef` | Python/llvm_fbuilder.h:231-236 | like `DecRef`, but a null pointer is left alone |
| `FunctionBuilder.PushBalanced` | Python/llvm_fbuilder.h:238-244 | moving one of the code's references into a new top slot keeps the balance with no count change |
| `FunctionBuilder.LlvmFunctionBuilder.Push` | Python/llvm_fbuilder.h:238-244 | stores the value at the stack pointer and advances it; the counts are unchanged; the slot takes the caller's reference |
| `FunctionBuilder.PopBalanced` | Python/llvm_fbuilder.h:238-245 | moving the top slot's reference to the code keeps the balance with no count change |
| `FunctionBuilder.LlvmFunctionBuilder.Pop` | Python/llvm_fbuilder.h:238-245 | retreats the stack pointer and returns the vacated slot's value; the counts are unchanged; the caller now owns the reference |
| `FunctionBuilder.LlvmFunctionBuilder.PushThenPop` | Python/llvm_fbuilder.h:238-245 | a push followed by a pop returns the same value and restores the stack, the counts and the code's references |
| `FunctionBuilder.LlvmFunctionBuilder.PopAndDecref` | Python/llvm_fbuilder.h:247-249 | one step of the loop: the top value comes off the stack and its count drops by one, the code's own references unchanged |
| `FunctionBuilder.LlvmFunctionBuilder.PopAndDecrefTo` | Python/llvm_fbuilder.h:247-249 | the stack is cut back to its prefix at the target level, and the counts drop by exactly the popped values, each once; the code's own references are unchanged |
| `FunctionBuilder.HeldReferencesAreCounted` | Python/llvm_fbuilder.h:238-249 | in a balanced state every object on the stack, in a local or held by the code has a positive count, so none can have been freed |
| `FunctionBuilder.LlvmFunctionBuilder.GetStackLevel` | Python/llvm_fbuilder.h:270-272 | the level is the stack pointer minus the stack bottom, which is the number of values on the stack |
| `FunctionBuilder.StoreLocalBalanced` | Python/llvm_fbuilder.h:282-285 | storing the code's reference (or a null pointer) in a local, with the old occupant's reference passing to the code, keeps the balance |
| `FunctionBuilder.LlvmFunctionBuilder.StoreLocal` | Python/llvm_fbuilder.h:282-285 | the store half: the slot holds the new value, the code gives up its reference to it and takes over the old occupant's, keeping the balance |
| `FunctionBuilder.LlvmFunctionBuilder.SetLocal` | Python/llvm_fbuilder.h:282-285 | the slot holds the new value, the code gives up its reference to it (none when the value is null, which unbinds the local), and the old occupant is decremented once after the store (not at all if null) |
| `FunctionBuilder.LlvmFunctionBuilder.AddUnwindTarget` | Python/llvm_fbuilder.h:417-423 | returns the given index, records it among the existing targets, and maps it to the block unless it was already registered |
| `FunctionBuilder.LlvmFunctionBuilder.GetPyCondBranchBailBlock` | Python/llvm_fbuilder.h:341-358 | without optimisation both blocks are unchanged, the bail index is 0 and there is no bail block; with it, exactly one side becomes the bail block, and only a side never taken is replaced |
| `FunctionBuilder.LlvmFunctionBuilder.CreateBailPointAt` | Python/llvm_fbuilder.h:434-435 | records a bail point with the given `unsigned` index and reason |
| `FunctionBuilder.LlvmFunctionBuilder.CreateBailPoint` | Python/llvm_fbuilder.h:436-438 | records a bail point at the current instruction index `f_lasti_`, converted from `int` to the `unsigned` index (the low 32 bits) |
| `FunctionBuilder.LlvmFunctionBuilder.SetLasti` | Python/llvm_fbuilder.h:43 | sets the current instruction index |

## Left out

- The actual lexing in `getPreExpArgument`. `PP.EnterTokenStream`, `PP.Lex` and
  `RemoveTopOfLexerStack` are replaced by a function parameter `expand`, which maps the entered
  stream to the tokens the preprocessor delivers.
- `PP.getSpelling` is taken as the token's `spelling` field. `Lexer::Stringify` is modelled as
  putting a backslash before each `\` and `"`. Dirty-token cleaning and the preprocessor's string
  creation (`CreateString`) are not modelled.
- The `malloc`/`memcpy` layout of `MacroArgs::create` and `destroy`. The buffer is a sequence
  held by the object.
- MacroArgs.h is not part of this model. `getNumArguments` is taken as the token count
  `NumUnexpArgTokens`, since that is the only count `create` gives the object.
- Lex.ArgNeedsPreexpansion: a macro's "defined and enabled" state is a map from name to flag.
  `getMacroInfo` and the identifier table are not modelled.
- The diagnostics of `StringifyArgument` and `DarwinClang::AddLinkRuntimeLibArgs`. They are
  returned as flags; the diagnostic engine is not modelled.
- StringSwitch's `Cases` templates take five fixed arities. They are modelled as `Cases2` to
  `Cases5`. A literal is the `char[N]` array including its terminating NUL.
- The x86 printer's collaborators are fields of a `Target` value: register names, sub- and
  super-registers, the mangler, `makeNameProper`, the private-global prefix, the PIC base symbol
  and block labels. `printOffset` (AsmPrinter.cpp) is not part of this model; it is taken to print
  `+N`, `-N` or nothing.
- X86AsmPrinting.AsmPrinter.PrintSymbolOperand: for an external symbol with `MO_DARWIN_STUB`
  it always appends `name$stub`, the corrected name. The source prints the bare name on the first
  reference, before the stub entry exists (see "## Findings"). The printers built on it
  (`PrintOperand`, `PrintPcrelImm`, `PrintLeaMemReference`, `PrintMemReference`,
  `PrintAsmOperand`, `PrintAsmMemoryOperand`) inherit this; `ExternalSymbolNameAsWritten` keeps the
  as-written text.
- The Darwin stub and non-lazy-pointer table entries that `printSymbolOperand` creates through
  `OutContext` and `MMI`. Cygwin/MinGW name decoration is also left out. Only the printed text is
  modelled.
- The parts of X86AsmPrinter.cpp outside operand printing: function headers, global variables,
  jump-table labels, the end-of-file directives and `printMachineInstruction`.
- `llvm_unreachable` and `assert` in the printers become preconditions, for example no
  basic-block operand in `printOperand` and no scaled ESP.
- `isMacosxVersionLT` (body not shown) is modelled as a lexicographic comparison of the three
  version numbers. `getMacosxVersionMin` and `Driver::GetReleaseVersion` are not modelled. The
  minimum version is a parameter of `AddLinkRuntimeLibArgs`.
- The `MACOSX_DEPLOYMENT_TARGET` environment variable is not modelled. `Path::exists` is a
  function parameter. The `-Xarch_` re-parsing and the option-by-option translation in
  `TranslateArgs` are not modelled; only the `BoundArch` table is.
- `ShouldUseClangCompiler` is a boolean parameter of `SelectTool`. The tool objects keep only
  their kind. The destructor and `AddLinkSearchPathArgs` are not modelled.
- Driver.BoundArchArgs: an `-arch` name outside the accepted list is `llvm_unreachable` in the
  source, so the function requires a name from the list.
- Everything in `llvm_fbuilder.h` that emits IR is left out: the opcode handlers, the block
  setup, the unwind, propagate-exception and return blocks, `CheckPyTicker`, debug info and
  runtime-pointer constants. The header declares these without bodies. Only the documented shadow
  state is modelled.
- `types_used_`, the frame copy-in and copy-out, and the feedback lookup of the function builder
  are not modelled.
- The header gives no initial value for `f_lasti_`, so a new builder's instruction index is left
  unspecified; `SetLasti` sets it.
- FunctionBuilder.LlvmFunctionBuilder.GetPyCondBranchBailBlock: the header does not give the
  decision rule. The model takes feedback counts and a minimum sample count. It bails a side only
  when that side's observed count is zero; `freshBlock` stands for the new bail block.
  The header's comment gives the case that leaves both blocks alone as "sufficient data is
  available or we decide not to optimize". Since the case before it already covers sufficient
  data, the model reads this as insufficient data.
- FunctionBuilder.LlvmFunctionBuilder.AddUnwindTarget: the header does not say what happens for
  an index that is already registered. The model keeps the first block, as the
  `existing_unwind_targets_` bit set suggests.

## Findings

| source | as written | input that shows it | evidently intended | confidence | as-written member | corrected member |
|---|---|---|---|---|---|---|
| Util/llvm/lib/Target/X86/AsmPrinter/X86AsmPrinter.cpp:287-305 | for an external symbol with `MO_DARWIN_STUB`, `$stub` is appended to `Name`. When the stub table has no entry yet, the same `Name` is truncated back to the bare symbol to make the entry's target, and that truncated `Name` is printed | the first reference to an external symbol `foo` with the Darwin-stub flag prints `foo`, and every later reference prints `foo$stub` | every stub reference prints `foo$stub`, as the global-address case does with its separate `NameStr` | medium, not executed | `X86AsmPrinting.ExternalStubNameDependsOnHistory` | `X86AsmPrinting.ExternalSymbolName` |
