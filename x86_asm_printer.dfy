/**
 * AT&T-syntax operand printing of the x86 assembly printer: symbol references with their
 * relocation suffixes, register and immediate operands, SSE condition codes, memory references,
 * and the operand modifiers of inline assembly.
 *
 * Each printer is given twice: as a function computing the text it emits (`…Text`), and as a
 * method of `AsmPrinter` that appends that text to the output stream piece by piece.
 */
module X86AsmPrinting {
  import opened Wrappers
  import opened Decimal
  import opened Machine
  import Text

  /** The value of a machine operand immediate, `int64_t`. */
  type Int64 = x: int | -0x8000_0000_0000_0000 <= x < 0x8000_0000_0000_0000

  /** `-imm` on `int64_t`; the one value whose negation does not fit wraps to itself. */
  function NegateInt64(x: Int64): (r: Int64)
    ensures x != -0x8000_0000_0000_0000 ==> r == -x
    ensures (r + x) % 0x1_0000_0000_0000_0000 == 0
  {
    if x == -0x8000_0000_0000_0000 then x else -x
  }

  /** Register value types a sub- or super-register can be asked for. */
  datatype Width = I8 | I16 | I32 | I64

  /** The relocation flags an x86 symbol operand can carry (`X86II::MO_*`). */
  datatype TargetFlag =
    | NoFlag
    | GotAbsoluteAddress
    | PicBaseOffset
    | Got
    | GotOff
    | GotPcRel
    | Plt
    | TlsGd
    | GotTpOff
    | IndNtpOff
    | TpOff
    | NtpOff
    | DllImport
    | DarwinStub
    | DarwinNonLazy
    | DarwinNonLazyPicBase
    | DarwinHiddenNonLazyPicBase

  /**
   * What the printer takes from the target and the rest of the code generator. Register 0 is
   * "no register"; `rip` and `esp` are the numbers of those two registers.
   */
  datatype Target = Target(
    registerName: nat -> string,                 // X86ATTInstPrinter::getRegisterName
    subSuperRegister: (nat, Width, bool) -> nat,  // getX86SubSuperRegister(reg, type, high)
    privateGlobalPrefix: string,
    picBaseSymbol: string,                       // what PrintPICBaseSymbol prints
    blockLabel: nat -> string,                   // the printed symbol of basic block n
    mangledName: (string, string) -> string,     // Mang->getMangledName(global, suffix, …)
    properName: string -> string,                // Mang->makeNameProper
    rip: nat,
    esp: nat)

  /** A machine operand, as far as the printer looks at it. */
  datatype Operand =
    | Register(reg: nat)
    | Immediate(imm: Int64)
    | BasicBlock(number: nat)
    | GlobalAddress(global: string, offset: Int64, flags: TargetFlag)
    | ExternalSymbol(symbol: string, flags: TargetFlag)
    | JumpTableIndex(index: nat, flags: TargetFlag)
    | ConstantPoolIndex(index: nat, offset: Int64, flags: TargetFlag)

  predicate IsSymbolic(mo: Operand) {
    mo.GlobalAddress? || mo.ExternalSymbol? || mo.JumpTableIndex? || mo.ConstantPoolIndex?
  }

  // ---------------------------------------------------------------------------------------------
  // Symbol operands (`printSymbolOperand`)

  /** `printOffset`: a signed offset after a symbol, nothing when it is zero. */
  function OffsetText(offset: int): string {
    if offset > 0 then "+" + NatToString(offset) else if offset < 0 then IntToString(offset) else ""
  }

  /** The suffix a global's mangled name gets for the Darwin stub and non-lazy-pointer flags. */
  function GlobalSuffix(f: TargetFlag): string {
    if f == DarwinStub then "$stub"
    else if f == DarwinNonLazy || f == DarwinNonLazyPicBase || f == DarwinHiddenNonLazyPicBase then "$non_lazy_ptr"
    else ""
  }

  /** The printed name of a global: mangled with its suffix, with `__imp_` for a DLL import. */
  function GlobalName(t: Target, global: string, f: TargetFlag): string {
    var name := t.mangledName(global, GlobalSuffix(f));
    if f == DllImport then "__imp_" + name else name
  }

  /** The printed name of an external symbol; a Darwin stub reference names the `$stub` symbol. */
  function ExternalSymbolName(t: Target, symbol: string, f: TargetFlag): (name: string)
    ensures f == DarwinStub ==> |name| >= 5 && name[|name| - 5..] == "$stub"
  {
    var name := t.properName(symbol);
    if f == DarwinStub then name + "$stub" else name
  }

  /**
   * The external-symbol name as the source computes it: `$stub` is appended and then erased
   * again when the stub table has no entry for the stub symbol yet, so the name printed for the
   * same operand depends on whether it was printed before.
   */
  function ExternalSymbolNameAsWritten(t: Target, symbol: string, f: TargetFlag, stubEntryExists: bool): string {
    var name := t.properName(symbol);
    if f == DarwinStub then
      var stub := name + "$stub";
      if stubEntryExists then stub else stub[..|stub| - 5]
    else name
  }

  /** The first reference to a Darwin stub prints the bare name, every later one the stub name. */
  lemma ExternalStubNameDependsOnHistory(t: Target, symbol: string)
    ensures ExternalSymbolNameAsWritten(t, symbol, DarwinStub, false) == t.properName(symbol)
    ensures ExternalSymbolNameAsWritten(t, symbol, DarwinStub, true) == t.properName(symbol) + "$stub"
    ensures ExternalSymbolNameAsWritten(t, symbol, DarwinStub, false) != ExternalSymbolNameAsWritten(t, symbol, DarwinStub, true)
    ensures ExternalSymbolNameAsWritten(t, symbol, DarwinStub, true) == ExternalSymbolName(t, symbol, DarwinStub)
  {
    var name := t.properName(symbol);
    assert (name + "$stub")[..|name + "$stub"| - 5] == name;
    assert |name + "$stub"| != |name|;
  }

  /** A name starting with `$` is put in parentheses so that it cannot be read as an immediate. */
  function DollarSafe(name: string): (r: string)
    ensures |r| > 0 ==> r[0] != '$'
    ensures |name| > 0 && name[0] == '$' ==> |r| == |name| + 2 && r[0] == '(' && r[1..|r| - 1] == name && r[|r| - 1] == ')'
    ensures !(|name| > 0 && name[0] == '$') ==> r == name
  {
    if |name| > 0 && name[0] == '$' then "(" + name + ")" else name
  }

  /** The relocation text after a symbol, chosen by its flag (the second switch). */
  function FlagSuffix(t: Target, f: TargetFlag): string {
    match f
    case NoFlag | DarwinNonLazy | DllImport | DarwinStub => ""
    case GotAbsoluteAddress => " + [.-" + t.picBaseSymbol + "]"
    case PicBaseOffset | DarwinNonLazyPicBase | DarwinHiddenNonLazyPicBase => "-" + t.picBaseSymbol
    case TlsGd => "@TLSGD"
    case GotTpOff => "@GOTTPOFF"
    case IndNtpOff => "@INDNTPOFF"
    case TpOff => "@TPOFF"
    case NtpOff => "@NTPOFF"
    case GotPcRel => "@GOTPCREL"
    case Got => "@GOT"
    case GotOff => "@GOTOFF"
    case Plt => "@PLT"
  }

  /** The label part of a symbol operand (the first switch). */
  function SymbolNameText(t: Target, fn: nat, mo: Operand): string
    requires IsSymbolic(mo)
  {
    match mo
    case JumpTableIndex(i, _) => t.privateGlobalPrefix + "JTI" + NatToString(fn) + "_" + NatToString(i)
    case ConstantPoolIndex(i, off, _) => t.privateGlobalPrefix + "CPI" + NatToString(fn) + "_" + NatToString(i) + OffsetText(off)
    case GlobalAddress(g, off, f) => DollarSafe(GlobalName(t, g, f)) + OffsetText(off)
    case ExternalSymbol(s, f) => DollarSafe(ExternalSymbolName(t, s, f))
  }

  function SymbolText(t: Target, fn: nat, mo: Operand): string
    requires IsSymbolic(mo)
  {
    SymbolNameText(t, fn, mo) + FlagSuffix(t, mo.flags)
  }

  /** A DLL-import global is printed under its `__imp_` name; no other flag adds that prefix. */
  lemma DllImportPrefix(t: Target, global: string, f: TargetFlag)
    ensures f == DllImport ==> GlobalName(t, global, f) == "__imp_" + t.mangledName(global, "")
    ensures f != DllImport ==> GlobalName(t, global, f) == t.mangledName(global, GlobalSuffix(f))
  {
  }

  // ---------------------------------------------------------------------------------------------
  // Register, immediate and pc-relative operands (`printOperand`, `print_pcrel_imm`)

  /** The register type a `subreg…` modifier asks for: `subreg64`, `subreg32`, `subreg16`, else i8. */
  function SubregWidth(modifier: Option<string>): Option<Width> {
    if modifier.Some? && |modifier.value| >= 6 && modifier.value[..6] == "subreg" then
      var rest := modifier.value[6..];
      Some(if rest == "64" then I64 else if rest == "32" then I32 else if rest == "16" then I16 else I8)
    else None
  }

  function RegisterText(t: Target, reg: nat, modifier: Option<string>): string {
    var r := match SubregWidth(modifier) {
      case None => reg
      case Some(w) => t.subSuperRegister(reg, w, false)
    };
    "%" + t.registerName(r)
  }

  /** `printOperand`; a basic-block operand is unreachable there. */
  function OperandText(t: Target, fn: nat, mo: Operand, modifier: Option<string>): string
    requires !mo.BasicBlock?
  {
    if mo.Register? then RegisterText(t, mo.reg, modifier)
    else if mo.Immediate? then "$" + IntToString(mo.imm)
    else "$" + SymbolText(t, fn, mo)
  }

  predicate PcrelPrintable(mo: Operand) {
    mo.Immediate? || mo.BasicBlock? || mo.GlobalAddress? || mo.ExternalSymbol?
  }

  /** `print_pcrel_imm`: like an operand, but with no `$`. */
  function PcrelText(t: Target, fn: nat, mo: Operand): string
    requires PcrelPrintable(mo)
  {
    match mo
    case Immediate(i) => IntToString(i)
    case BasicBlock(n) => t.blockLabel(n)
    case GlobalAddress(_, _, _) => SymbolText(t, fn, mo)
    case ExternalSymbol(_, _) => SymbolText(t, fn, mo)
  }

  // ---------------------------------------------------------------------------------------------
  // SSE condition codes (`printSSECC`)

  function SseCondCode(value: nat): string
    requires value <= 7
  {
    match value
    case 0 => "eq"
    case 1 => "lt"
    case 2 => "le"
    case 3 => "unord"
    case 4 => "neq"
    case 5 => "nlt"
    case 6 => "nle"
    case 7 => "ord"
  }

  /** The codes an assembler reads back, in encoding order. */
  const SseCondCodes: seq<string> := ["eq", "lt", "le", "unord", "neq", "nlt", "nle", "ord"]

  /** The encoding of a condition-code mnemonic: its position in `SseCondCodes`. */
  function ParseSseCondCode(s: string): (v: Option<nat>)
    ensures v.Some? ==> v.value < |SseCondCodes| && SseCondCodes[v.value] == s
    ensures v.None? ==> s !in SseCondCodes
  {
    ParseFrom(s, 0)
  }

  function ParseFrom(s: string, k: nat): (v: Option<nat>)
    requires k <= |SseCondCodes|
    ensures v.Some? ==> k <= v.value < |SseCondCodes| && SseCondCodes[v.value] == s
    ensures v.Some? ==> forall j :: k <= j < v.value ==> SseCondCodes[j] != s
    ensures v.None? ==> forall j :: k <= j < |SseCondCodes| ==> SseCondCodes[j] != s
    decreases |SseCondCodes| - k
  {
    if k == |SseCondCodes| then None
    else if SseCondCodes[k] == s then Some(k)
    else ParseFrom(s, k + 1)
  }

  /** Every code printed for 0..7 reads back as the same value (that only those strings are codes is `ParseSseCondCode`'s contract). */
  lemma {:induction false} SseCondCodeRoundTrip(value: nat)
    requires value <= 7
    ensures ParseSseCondCode(SseCondCode(value)) == Some(value)
  {
    assert SseCondCodes[value] == SseCondCode(value);
    var v := ParseSseCondCode(SseCondCode(value));
    assert forall i, j :: 0 <= i < j < |SseCondCodes| ==> SseCondCodes[i] != SseCondCodes[j];
    assert v.Some? && v.value == value;
  }

  // ---------------------------------------------------------------------------------------------
  // Memory references (`printLeaMemReference`, `printMemReference`)

  /** The five operands of an x86 memory reference: base, scale, index, displacement, segment. */
  datatype MemRef = MemRef(base: nat, scale: Int64, index: nat, disp: Operand, segment: nat)

  /** With the `no-rip` modifier a RIP base is treated as absent. */
  function EffectiveBase(t: Target, m: MemRef, modifier: Option<string>): nat {
    if m.base != 0 && modifier == Some("no-rip") && m.base == t.rip then 0 else m.base
  }

  predicate HasParenPart(t: Target, m: MemRef, modifier: Option<string>) {
    m.index != 0 || EffectiveBase(t, m, modifier) != 0
  }

  /** What the printer asserts: an immediate or symbolic displacement, and no scaled ESP. */
  predicate MemRefPrintable(t: Target, m: MemRef, modifier: Option<string>) {
    (m.disp.Immediate? || IsSymbolic(m.disp)) && (HasParenPart(t, m, modifier) ==> m.index != t.esp)
  }

  /** A zero immediate displacement is omitted when a parenthesised part follows. */
  function DispText(t: Target, fn: nat, m: MemRef, modifier: Option<string>): string
    requires m.disp.Immediate? || IsSymbolic(m.disp)
  {
    if m.disp.Immediate? then
      var d := ToInt32(m.disp.imm);
      if d != 0 || !HasParenPart(t, m, modifier) then IntToString(d) else ""
    else SymbolText(t, fn, m.disp)
  }

  /** `,scale` after the index, only when the scale is not 1. */
  function ScaleText(scale: Int64): string {
    var s := ToUInt32(scale);
    if s != 1 then "," + NatToString(s) else ""
  }

  function ParenText(t: Target, m: MemRef, modifier: Option<string>): string {
    if !HasParenPart(t, m, modifier) then ""
    else
      "("
      + (if EffectiveBase(t, m, modifier) != 0 then RegisterText(t, m.base, modifier) else "")
      + (if m.index != 0 then "," + RegisterText(t, m.index, modifier) + ScaleText(m.scale) else "")
      + ")"
  }

  function LeaMemText(t: Target, fn: nat, m: MemRef, modifier: Option<string>): string
    requires MemRefPrintable(t, m, modifier)
  {
    DispText(t, fn, m, modifier) + ParenText(t, m, modifier)
  }

  function MemText(t: Target, fn: nat, m: MemRef, modifier: Option<string>): string
    requires MemRefPrintable(t, m, modifier)
  {
    (if m.segment != 0 then RegisterText(t, m.segment, modifier) + ":" else "") + LeaMemText(t, fn, m, modifier)
  }

  /** Under `no-rip`, a RIP-based reference prints exactly as the same reference with no base. */
  lemma NoRipDropsBase(t: Target, fn: nat, m: MemRef)
    requires m.base == t.rip
    requires MemRefPrintable(t, m, Some("no-rip"))
    ensures MemRefPrintable(t, m.(base := 0), Some("no-rip"))
    ensures LeaMemText(t, fn, m, Some("no-rip")) == LeaMemText(t, fn, m.(base := 0), Some("no-rip"))
  {
  }

  /** The number of occurrences of `c` in `s`. */
  function Occurrences(s: string, c: char): nat {
    if s == [] then 0 else (if s[0] == c then 1 else 0) + Occurrences(s[1..], c)
  }

  lemma {:induction false} OccurrencesAppend(a: string, b: string, c: char)
    ensures Occurrences(a + b, c) == Occurrences(a, c) + Occurrences(b, c)
  {
    if a != [] {
      assert (a + b)[1..] == a[1..] + b;
      OccurrencesAppend(a[1..], b, c);
    } else {
      assert a + b == b;
    }
  }

  lemma {:induction false} OccurrencesNone(s: string, c: char)
    requires forall k :: 0 <= k < |s| ==> s[k] != c
    ensures Occurrences(s, c) == 0
  {
    if s != [] {
      OccurrencesNone(s[1..], c);
    }
  }

  /** No register name contains `c`. */
  ghost predicate NamesAvoid(t: Target, c: char) {
    forall r: nat :: c !in t.registerName(r)
  }

  lemma RegisterTextAvoids(t: Target, reg: nat, modifier: Option<string>, c: char)
    requires NamesAvoid(t, c) && c != '%'
    ensures Occurrences(RegisterText(t, reg, modifier), c) == 0
  {
    var r := match SubregWidth(modifier) {
      case None => reg
      case Some(w) => t.subSuperRegister(reg, w, false)
    };
    assert c !in t.registerName(r);
    OccurrencesNone(RegisterText(t, reg, modifier), c);
  }

  lemma NumberAvoids(i: int, c: char)
    requires !IsDigit(c) && c != '-'
    ensures Occurrences(IntToString(i), c) == 0
  {
    OccurrencesNone(IntToString(i), c);
  }

  /**
   * With register names free of commas, the parenthesised part holds one comma before the
   * index when there is an index, and a second one before the scale exactly when the scale is not 1.
   */
  lemma ParenCommaCount(t: Target, m: MemRef, modifier: Option<string>)
    requires NamesAvoid(t, ',')
    ensures Occurrences(ParenText(t, m, modifier), ',') ==
      (if HasParenPart(t, m, modifier) && m.index != 0 then 1 else 0)
      + (if HasParenPart(t, m, modifier) && m.index != 0 && ToUInt32(m.scale) != 1 then 1 else 0)
  {
    if HasParenPart(t, m, modifier) {
      var b := if EffectiveBase(t, m, modifier) != 0 then RegisterText(t, m.base, modifier) else "";
      var x := if m.index != 0 then "," + RegisterText(t, m.index, modifier) + ScaleText(m.scale) else "";
      assert ParenText(t, m, modifier) == "(" + b + x + ")";
      OccurrencesAppend("(" + b, x, ',');
      OccurrencesAppend("(" + b + x, ")", ',');
      OccurrencesAppend("(", b, ',');
      RegisterTextAvoids(t, m.base, modifier, ',');
      if m.index != 0 {
        var ix := RegisterText(t, m.index, modifier);
        OccurrencesAppend("," + ix, ScaleText(m.scale), ',');
        OccurrencesAppend(",", ix, ',');
        RegisterTextAvoids(t, m.index, modifier, ',');
        var s := ToUInt32(m.scale);
        if s != 1 {
          OccurrencesAppend(",", NatToString(s), ',');
          OccurrencesNone(NatToString(s), ',');
        }
      }
    }
  }

  /** With an immediate displacement, the reference ends in `)` exactly when it has a parenthesised part. */
  lemma LeaParenPartIff(t: Target, fn: nat, m: MemRef, modifier: Option<string>)
    requires MemRefPrintable(t, m, modifier) && m.disp.Immediate?
    ensures var s := LeaMemText(t, fn, m, modifier); |s| > 0 && (s[|s| - 1] == ')' <==> HasParenPart(t, m, modifier))
  {
    var s := LeaMemText(t, fn, m, modifier);
    if !HasParenPart(t, m, modifier) {
      var d := IntToString(ToInt32(m.disp.imm));
      assert s == d;
      assert IsDigit(d[|d| - 1]);
    }
  }

  /**
   * With an immediate displacement and a parenthesised part, the displacement is printed exactly
   * when its 32-bit value is non-zero; without a parenthesised part it is always printed, even 0.
   */
  lemma LeaDisplacementIff(t: Target, fn: nat, m: MemRef, modifier: Option<string>)
    requires MemRefPrintable(t, m, modifier) && m.disp.Immediate?
    ensures HasParenPart(t, m, modifier) ==>
      (LeaMemText(t, fn, m, modifier)[0] == '(' <==> ToInt32(m.disp.imm) == 0)
    ensures !HasParenPart(t, m, modifier) ==> LeaMemText(t, fn, m, modifier) == IntToString(ToInt32(m.disp.imm))
  {
    var d := ToInt32(m.disp.imm);
    if HasParenPart(t, m, modifier) && d != 0 {
      var s := IntToString(d);
      assert LeaMemText(t, fn, m, modifier)[0] == s[0];
      assert s[0] == '-' || IsDigit(s[0]);
    }
  }

  /**
   * With an immediate displacement and names free of colons, a memory reference holds a colon
   * exactly when it has a segment register, and then that register comes first.
   */
  lemma MemSegmentColon(t: Target, fn: nat, m: MemRef, modifier: Option<string>)
    requires MemRefPrintable(t, m, modifier) && m.disp.Immediate?
    requires NamesAvoid(t, ':')
    ensures Occurrences(MemText(t, fn, m, modifier), ':') == (if m.segment != 0 then 1 else 0)
  {
    var lea := LeaMemText(t, fn, m, modifier);
    var seg := if m.segment != 0 then RegisterText(t, m.segment, modifier) + ":" else "";
    assert MemText(t, fn, m, modifier) == seg + lea;
    OccurrencesAppend(seg, lea, ':');
    var d := DispText(t, fn, m, modifier);
    OccurrencesAppend(d, ParenText(t, m, modifier), ':');
    if d != "" {
      NumberAvoids(ToInt32(m.disp.imm), ':');
    }
    ParenColonFree(t, m, modifier);
    if m.segment != 0 {
      OccurrencesAppend(RegisterText(t, m.segment, modifier), ":", ':');
      RegisterTextAvoids(t, m.segment, modifier, ':');
    }
  }

  lemma ParenColonFree(t: Target, m: MemRef, modifier: Option<string>)
    requires NamesAvoid(t, ':')
    ensures Occurrences(ParenText(t, m, modifier), ':') == 0
  {
    if HasParenPart(t, m, modifier) {
      var b := if EffectiveBase(t, m, modifier) != 0 then RegisterText(t, m.base, modifier) else "";
      var x := if m.index != 0 then "," + RegisterText(t, m.index, modifier) + ScaleText(m.scale) else "";
      OccurrencesAppend("(" + b, x, ':');
      OccurrencesAppend("(" + b + x, ")", ':');
      OccurrencesAppend("(", b, ':');
      RegisterTextAvoids(t, m.base, modifier, ':');
      if m.index != 0 {
        var ix := RegisterText(t, m.index, modifier);
        OccurrencesAppend("," + ix, ScaleText(m.scale), ':');
        OccurrencesAppend(",", ix, ':');
        RegisterTextAvoids(t, m.index, modifier, ':');
        var s := ToUInt32(m.scale);
        if s != 1 {
          OccurrencesAppend(",", NatToString(s), ':');
          OccurrencesNone(NatToString(s), ':');
        }
      }
    }
  }

  // ---------------------------------------------------------------------------------------------
  // Inline-assembly operand modifiers (`printAsmMRegister`, `PrintAsmOperand`, `PrintAsmMemoryOperand`)

  /** The register a mode letter selects: `b` i8, `h` high i8, `w` i16, `k` i32, `q` i64. */
  function ModeWidth(mode: char): Option<(Width, bool)> {
    if mode == 'b' then Some((I8, false))
    else if mode == 'h' then Some((I8, true))
    else if mode == 'w' then Some((I16, false))
    else if mode == 'k' then Some((I32, false))
    else if mode == 'q' then Some((I64, false))
    else None
  }

  /** `printAsmMRegister`; `None` is the "unknown mode" return of true. */
  function AsmMRegisterText(t: Target, reg: nat, mode: char): Option<string> {
    match ModeWidth(mode)
    case None => None
    case Some(p) => Some("%" + t.registerName(t.subSuperRegister(reg, p.0, p.1)))
  }

  /** A modifier is present: `ExtraCode && ExtraCode[0]`. */
  predicate HasModifier(code: Option<string>) {
    code.Some? && |code.value| > 0
  }

  /** The inputs for which `PrintAsmOperand` does not reach an unreachable operand case. */
  predicate AsmOperandDefined(mo: Operand, code: Option<string>) {
    if !HasModifier(code) then !mo.BasicBlock?
    else if |code.value| > 1 then true
    else ModifierDefined(mo, code.value[0])
  }

  /** `AsmOperandDefined` for a one-letter modifier. */
  predicate ModifierDefined(mo: Operand, c: char) {
    if c == 'c' || ModeWidth(c).Some? || c == 'n' then !mo.BasicBlock?
    else if c == 'P' then PcrelPrintable(mo)
    else true
  }

  /** `PrintAsmOperand`; `None` is a rejected operand (the source returns true). */
  function AsmOperandText(t: Target, fn: nat, mo: Operand, code: Option<string>): Option<string>
    requires AsmOperandDefined(mo, code)
  {
    if !HasModifier(code) then Some(OperandText(t, fn, mo, None))
    else if |code.value| > 1 then None
    else ModifiedOperandText(t, fn, mo, code.value[0])
  }

  /** `AsmOperandText` for a one-letter modifier. */
  function ModifiedOperandText(t: Target, fn: nat, mo: Operand, c: char): Option<string>
    requires ModifierDefined(mo, c)
  {
    if c == 'a' then
      if mo.Immediate? then Some(IntToString(mo.imm))
      else if IsSymbolic(mo) then Some(SymbolText(t, fn, mo))
      else if mo.Register? then Some("(" + OperandText(t, fn, mo, None) + ")")
      else None
    else if c == 'c' then
      if mo.Immediate? then Some(IntToString(mo.imm))
      else if IsSymbolic(mo) then Some(SymbolText(t, fn, mo))
      else Some(OperandText(t, fn, mo, None))
    else if c == 'A' then
      if mo.Register? then Some("*" + OperandText(t, fn, mo, None)) else None
    else if ModeWidth(c).Some? then
      if mo.Register? then AsmMRegisterText(t, mo.reg, c) else Some(OperandText(t, fn, mo, None))
    else if c == 'P' then Some(PcrelText(t, fn, mo))
    else if c == 'n' then
      if mo.Immediate? then Some(IntToString(NegateInt64(mo.imm))) else Some("-" + OperandText(t, fn, mo, None))
    else None
  }

  /** `printAsmMRegister` rejects exactly the letters other than b, h, w, k and q. */
  lemma AsmMRegisterRejects(t: Target, reg: nat, mode: char)
    ensures AsmMRegisterText(t, reg, mode).None? <==> mode !in "bhwkq"
  {
  }

  /**
   * `PrintAsmOperand` rejects a modifier longer than one letter, a letter it does not know,
   * `a` on an operand that is no immediate, symbol or register, and `A` on a non-register.
   */
  lemma AsmOperandRejects(t: Target, fn: nat, mo: Operand, code: Option<string>)
    requires AsmOperandDefined(mo, code)
    ensures AsmOperandText(t, fn, mo, code).None? <==>
      HasModifier(code) &&
      (|code.value| > 1
       || code.value[0] !in "acAbhwkqPn"
       || (code.value[0] == 'a' && mo.BasicBlock?)
       || (code.value[0] == 'A' && !mo.Register?))
  {
    if HasModifier(code) && |code.value| == 1 {
      var c := code.value[0];
      if c in "bhwkq" && mo.Register? {
        AsmMRegisterRejects(t, mo.reg, c);
      }
    }
  }

  /** A modifier `PrintAsmMemoryOperand` accepts: none, a register letter (ignored), or `P`. */
  predicate AsmMemoryAccepted(code: Option<string>) {
    !HasModifier(code) || (|code.value| == 1 && code.value[0] in "bhwkqP")
  }

  /** The modifier `PrintAsmMemoryOperand` passes on: `no-rip` for `P`, none otherwise. */
  function AsmMemoryModifier(code: Option<string>): Option<string> {
    if HasModifier(code) && code.value == "P" then Some("no-rip") else None
  }

  function AsmMemoryOperandText(t: Target, fn: nat, m: MemRef, code: Option<string>): (r: Option<string>)
    requires AsmMemoryAccepted(code) ==> MemRefPrintable(t, m, AsmMemoryModifier(code))
    ensures r.None? <==> !AsmMemoryAccepted(code)
  {
    if !AsmMemoryAccepted(code) then None else Some(MemText(t, fn, m, AsmMemoryModifier(code)))
  }

  // ---------------------------------------------------------------------------------------------
  // The printer and its output stream

  class AsmPrinter {
    const target: Target
    /** `getFunctionNumber()`: the number of the function being printed. */
    const functionNumber: nat
    /** Everything written to the output stream `O` so far. */
    var out: string

    constructor(target: Target, functionNumber: nat)
      ensures this.target == target && this.functionNumber == functionNumber
      ensures out == ""
    {
      this.target := target;
      this.functionNumber := functionNumber;
      out := "";
    }

    method PrintOffset(offset: int)
      modifies this
      ensures out == old(out) + OffsetText(offset)
    {
      if offset > 0 {
        out := out + "+" + NatToString(offset);
      } else if offset < 0 {
        out := out + IntToString(offset);
      }
    }

    method PrintPICBaseSymbol()
      modifies this
      ensures out == old(out) + target.picBaseSymbol
    {
      out := out + target.picBaseSymbol;
    }

    method PrintName(name: string)
      modifies this
      ensures out == old(out) + DollarSafe(name)
    {
      if |name| > 0 && name[0] == '$' {
        out := out + "(" + name + ")";
      } else {
        out := out + name;
      }
    }

    /** The first switch of `printSymbolOperand`: the label, by operand kind. */
    method PrintSymbolName(mo: Operand)
      requires IsSymbolic(mo)
      modifies this
      ensures out == old(out) + SymbolNameText(target, functionNumber, mo)
    {
      ghost var start := out;
      if mo.JumpTableIndex? {
        out := out + (target.privateGlobalPrefix + "JTI" + NatToString(functionNumber) + "_" + NatToString(mo.index));
      } else if mo.ConstantPoolIndex? {
        var cpLabel := target.privateGlobalPrefix + "CPI" + NatToString(functionNumber) + "_" + NatToString(mo.index);
        out := out + cpLabel;
        PrintOffset(mo.offset);
        Text.Assoc(start, cpLabel, OffsetText(mo.offset));
      } else if mo.GlobalAddress? {
        var f := mo.flags;
        var suffix := "";
        if f == DarwinStub {
          suffix := "$stub";
        } else if f == DarwinNonLazy || f == DarwinNonLazyPicBase || f == DarwinHiddenNonLazyPicBase {
          suffix := "$non_lazy_ptr";
        }
        var name := target.mangledName(mo.global, suffix);
        if f == DllImport {
          name := "__imp_" + name;
        }
        assert name == GlobalName(target, mo.global, f);
        PrintName(name);
        PrintOffset(mo.offset);
        Text.Assoc(start, DollarSafe(name), OffsetText(mo.offset));
      } else {
        var name := target.properName(mo.symbol);
        if mo.flags == DarwinStub {
          name := name + "$stub";
        }
        assert name == ExternalSymbolName(target, mo.symbol, mo.flags);
        PrintName(name);
      }
    }

    /** The second switch of `printSymbolOperand`: the relocation text, by target flag. */
    method PrintFlagSuffix(f: TargetFlag)
      modifies this
      ensures out == old(out) + FlagSuffix(target, f)
    {
      if f == GotAbsoluteAddress {
        out := out + " + [.-";
        PrintPICBaseSymbol();
        out := out + "]";
      } else if f == PicBaseOffset || f == DarwinNonLazyPicBase || f == DarwinHiddenNonLazyPicBase {
        out := out + "-";
        PrintPICBaseSymbol();
      } else if f == TlsGd {
        out := out + "@TLSGD";
      } else if f == GotTpOff {
        out := out + "@GOTTPOFF";
      } else if f == IndNtpOff {
        out := out + "@INDNTPOFF";
      } else if f == TpOff {
        out := out + "@TPOFF";
      } else if f == NtpOff {
        out := out + "@NTPOFF";
      } else if f == GotPcRel {
        out := out + "@GOTPCREL";
      } else if f == Got {
        out := out + "@GOT";
      } else if f == GotOff {
        out := out + "@GOTOFF";
      } else if f == Plt {
        out := out + "@PLT";
      }
    }

    method PrintSymbolOperand(mo: Operand)
      requires IsSymbolic(mo)
      modifies this
      ensures out == old(out) + SymbolText(target, functionNumber, mo)
    {
      ghost var start := out;
      PrintSymbolName(mo);
      PrintFlagSuffix(mo.flags);
      Text.Assoc(start, SymbolNameText(target, functionNumber, mo), FlagSuffix(target, mo.flags));
    }

    method PrintPcrelImm(mo: Operand)
      requires PcrelPrintable(mo)
      modifies this
      ensures out == old(out) + PcrelText(target, functionNumber, mo)
    {
      match mo {
        case Immediate(i) => out := out + IntToString(i);
        case BasicBlock(n) => out := out + target.blockLabel(n);
        case GlobalAddress(_, _, _) => PrintSymbolOperand(mo);
        case ExternalSymbol(_, _) => PrintSymbolOperand(mo);
      }
    }

    method PrintRegister(reg: nat, modifier: Option<string>)
      modifies this
      ensures out == old(out) + RegisterText(target, reg, modifier)
    {
      out := out + "%";
      var r := reg;
      if modifier.Some? && |modifier.value| >= 6 && modifier.value[..6] == "subreg" {
        var rest := modifier.value[6..];
        var vt := if rest == "64" then I64 else if rest == "32" then I32 else if rest == "16" then I16 else I8;
        r := target.subSuperRegister(reg, vt, false);
      }
      out := out + target.registerName(r);
    }

    method PrintOperand(mo: Operand, modifier: Option<string>)
      requires !mo.BasicBlock?
      modifies this
      ensures out == old(out) + OperandText(target, functionNumber, mo, modifier)
    {
      ghost var start := out;
      if mo.Register? {
        PrintRegister(mo.reg, modifier);
      } else if mo.Immediate? {
        out := out + "$" + IntToString(mo.imm);
        Text.Assoc(start, "$", IntToString(mo.imm));
      } else {
        out := out + "$";
        PrintSymbolOperand(mo);
        Text.Assoc(start, "$", SymbolText(target, functionNumber, mo));
      }
    }

    method PrintSSECC(imm: Int64)
      requires ToUInt8(imm) <= 7
      modifies this
      ensures out == old(out) + SseCondCode(ToUInt8(imm))
    {
      var value := ToUInt8(imm);
      match value {
        case 0 => out := out + "eq";
        case 1 => out := out + "lt";
        case 2 => out := out + "le";
        case 3 => out := out + "unord";
        case 4 => out := out + "neq";
        case 5 => out := out + "nlt";
        case 6 => out := out + "nle";
        case 7 => out := out + "ord";
      }
    }

    method PrintLeaMemReference(m: MemRef, modifier: Option<string>)
      requires MemRefPrintable(target, m, modifier)
      modifies this
      ensures out == old(out) + LeaMemText(target, functionNumber, m, modifier)
    {
      var hasBaseReg := m.base != 0;
      if hasBaseReg && modifier == Some("no-rip") && m.base == target.rip {
        hasBaseReg := false;
      }
      var hasParenPart := m.index != 0 || hasBaseReg;
      ghost var start := out;
      if m.disp.Immediate? {
        var dispVal := ToInt32(m.disp.imm);
        if dispVal != 0 || !hasParenPart {
          out := out + IntToString(dispVal);
        }
      } else {
        PrintSymbolOperand(m.disp);
      }
      ghost var disp := out;
      assert disp == start + DispText(target, functionNumber, m, modifier);
      if hasParenPart {
        ghost var b := if hasBaseReg then RegisterText(target, m.base, modifier) else "";
        ghost var x := if m.index != 0 then "," + RegisterText(target, m.index, modifier) + ScaleText(m.scale) else "";
        out := out + "(";
        if hasBaseReg {
          PrintRegister(m.base, modifier);
        }
        ghost var based := out;
        assert based == disp + "(" + b;
        if m.index != 0 {
          out := out + ",";
          PrintRegister(m.index, modifier);
          var scaleVal := ToUInt32(m.scale);
          if scaleVal != 1 {
            out := out + ("," + NatToString(scaleVal));
          }
          Text.Assoc(based, ",", RegisterText(target, m.index, modifier));
          Text.Assoc(based, "," + RegisterText(target, m.index, modifier), ScaleText(m.scale));
        }
        assert out == based + x;
        out := out + ")";
        Text.Assoc(disp, "(", b);
        Text.Assoc(disp, "(" + b, x);
        Text.Assoc(disp, "(" + b + x, ")");
      }
      assert out == disp + ParenText(target, m, modifier);
      Text.Assoc(start, DispText(target, functionNumber, m, modifier), ParenText(target, m, modifier));
    }

    method PrintMemReference(m: MemRef, modifier: Option<string>)
      requires MemRefPrintable(target, m, modifier)
      modifies this
      ensures out == old(out) + MemText(target, functionNumber, m, modifier)
    {
      ghost var start := out;
      if m.segment != 0 {
        PrintRegister(m.segment, modifier);
        out := out + ":";
        Text.Assoc(start, RegisterText(target, m.segment, modifier), ":");
      }
      ghost var segment := if m.segment != 0 then RegisterText(target, m.segment, modifier) + ":" else "";
      assert out == start + segment;
      PrintLeaMemReference(m, modifier);
      Text.Assoc(start, segment, LeaMemText(target, functionNumber, m, modifier));
    }

    /** `printAsmMRegister`: true for an unknown mode, in which case nothing is printed. */
    method PrintAsmMRegister(reg: nat, mode: char) returns (failed: bool)
      modifies this
      ensures failed <==> AsmMRegisterText(target, reg, mode).None?
      ensures failed ==> out == old(out)
      ensures !failed ==> out == old(out) + AsmMRegisterText(target, reg, mode).value
    {
      var r := reg;
      if mode == 'b' {
        r := target.subSuperRegister(reg, I8, false);
      } else if mode == 'h' {
        r := target.subSuperRegister(reg, I8, true);
      } else if mode == 'w' {
        r := target.subSuperRegister(reg, I16, false);
      } else if mode == 'k' {
        r := target.subSuperRegister(reg, I32, false);
      } else if mode == 'q' {
        r := target.subSuperRegister(reg, I64, false);
      } else {
        return true;
      }
      out := out + "%" + target.registerName(r);
      return false;
    }

    /** `PrintAsmOperand`: true for a rejected modifier or operand, in which case the output is as before. */
    method PrintAsmOperand(mo: Operand, code: Option<string>) returns (failed: bool)
      requires AsmOperandDefined(mo, code)
      modifies this
      ensures failed <==> AsmOperandText(target, functionNumber, mo, code).None?
      ensures failed ==> out == old(out)
      ensures !failed ==> out == old(out) + AsmOperandText(target, functionNumber, mo, code).value
    {
      if HasModifier(code) {
        if |code.value| > 1 {
          return true;
        }
        failed := PrintModifiedOperand(mo, code.value[0]);
        return;
      }
      PrintOperand(mo, None);
      return false;
    }

    /** The single-letter modifier cases of `PrintAsmOperand`. */
    method PrintModifiedOperand(mo: Operand, c: char) returns (failed: bool)
      requires ModifierDefined(mo, c)
      modifies this
      ensures failed <==> ModifiedOperandText(target, functionNumber, mo, c).None?
      ensures failed ==> out == old(out)
      ensures !failed ==> out == old(out) + ModifiedOperandText(target, functionNumber, mo, c).value
    {
      ghost var start := out;
      if c == 'a' {
        if mo.Immediate? {
          out := out + IntToString(mo.imm);
          return false;
        }
        if IsSymbolic(mo) {
          PrintSymbolOperand(mo);
          return false;
        }
        if mo.Register? {
          out := out + "(";
          PrintOperand(mo, None);
          out := out + ")";
          ghost var text := OperandText(target, functionNumber, mo, None);
          Text.Assoc(start, "(", text);
          Text.Assoc(start, "(" + text, ")");
          return false;
        }
        return true;
      } else if c == 'c' {
        if mo.Immediate? {
          out := out + IntToString(mo.imm);
        } else if IsSymbolic(mo) {
          PrintSymbolOperand(mo);
        } else {
          PrintOperand(mo, None);
        }
        return false;
      } else if c == 'A' {
        if mo.Register? {
          out := out + "*";
          PrintOperand(mo, None);
          Text.Assoc(start, "*", OperandText(target, functionNumber, mo, None));
          return false;
        }
        return true;
      } else if ModeWidth(c).Some? {
        if mo.Register? {
          failed := PrintAsmMRegister(mo.reg, c);
          return;
        }
        PrintOperand(mo, None);
        return false;
      } else if c == 'P' {
        PrintPcrelImm(mo);
        return false;
      } else if c == 'n' {
        if mo.Immediate? {
          out := out + IntToString(NegateInt64(mo.imm));
          return false;
        }
        out := out + "-";
        PrintOperand(mo, None);
        Text.Assoc(start, "-", OperandText(target, functionNumber, mo, None));
        return false;
      }
      return true;
    }

    /** `PrintAsmMemoryOperand`: register letters are ignored on memory, `P` prints without RIP. */
    method PrintAsmMemoryOperand(m: MemRef, code: Option<string>) returns (failed: bool)
      requires AsmMemoryAccepted(code) ==> MemRefPrintable(target, m, AsmMemoryModifier(code))
      modifies this
      ensures failed <==> AsmMemoryOperandText(target, functionNumber, m, code).None?
      ensures failed ==> out == old(out)
      ensures !failed ==> out == old(out) + AsmMemoryOperandText(target, functionNumber, m, code).value
    {
      if HasModifier(code) {
        if |code.value| > 1 {
          return true;
        }
        var c := code.value[0];
        if c in "bhwkq" {
          // Register modes do not apply to memory and are ignored.
        } else if c == 'P' {
          PrintMemReference(m, Some("no-rip"));
          return false;
        } else {
          return true;
        }
      }
      PrintMemReference(m, None);
      return false;
    }
  }
}
