/**
 * The Darwin tool chain of the clang driver: the version strings it derives from the
 * Darwin kernel version, the GCC tool-chain directory, the runtime libraries it puts on
 * the link line, the `-arch` spelling table, the PIC defaults and the tool cache.
 */
module Driver {
  import opened Wrappers
  import opened Decimal
  import opened Machine

  /** A three-part release number: a Darwin kernel, GCC or Mac OS X version (`unsigned [3]`). */
  datatype Version = Version(major: UInt32, minor: UInt32, micro: UInt32)

  /**
   * `isMacosxVersionLT(V, a, b, c)`: `V` is an earlier release than `a.b.c`, compared
   * component by component from the major number down.
   */
  predicate VersionLT(v: Version, a: nat, b: nat, c: nat) {
    v.major < a || (v.major == a && (v.minor < b || (v.minor == b && v.micro < c)))
  }

  // ---------------------------------------------------------------------------
  // Dotted release numbers
  // ---------------------------------------------------------------------------

  /** The pieces of `s` between its dots, in order; a string without dots is one piece. */
  function SplitDots(s: string): (r: seq<string>)
    ensures |r| > 0
  {
    if s == [] then [""]
    else
      var rest := SplitDots(s[1..]);
      if s[0] == '.' then [""] + rest else [[s[0]] + rest[0]] + rest[1..]
  }

  lemma {:induction false} SplitDotsSingle(a: string)
    requires '.' !in a
    ensures SplitDots(a) == [a]
  {
    if a != [] {
      assert '.' !in a[1..];
      SplitDotsSingle(a[1..]);
      assert [a[0]] + a[1..] == a;
    }
  }

  lemma {:induction false} SplitDotsJoin(a: string, b: string)
    requires '.' !in a
    ensures SplitDots(a + "." + b) == [a] + SplitDots(b)
  {
    if a == [] {
      assert a + "." + b == "." + b;
      assert ("." + b)[1..] == b;
    } else {
      assert (a + "." + b)[1..] == a[1..] + "." + b;
      assert '.' !in a[1..];
      SplitDotsJoin(a[1..], b);
      assert [a[0]] + a[1..] == a;
    }
  }

  lemma DigitsHaveNoDot(s: string)
    requires AllDigits(s)
    ensures '.' !in s
  {
  }

  /** A release-number piece: a non-empty run of decimal digits. */
  predicate IsReleasePiece(p: string) {
    |p| > 0 && AllDigits(p)
  }

  function ParsePieces(parts: seq<string>): (r: Option<seq<nat>>)
    ensures r.Some? ==> |r.value| == |parts|
  {
    if parts == [] then Some([])
    else if !IsReleasePiece(parts[0]) then None
    else
      match ParsePieces(parts[1..])
      case None => None
      case Some(rest) => Some([ParseNat(parts[0])] + rest)
  }

  /** Reads a dotted release number such as `10.5.0`; None when some piece is empty or not decimal. */
  function ParseRelease(s: string): Option<seq<nat>> {
    ParsePieces(SplitDots(s))
  }

  /** `utostr(a) + '.' + utostr(b) + '.' + utostr(c)`. */
  function DottedTriple(a: nat, b: nat, c: nat): string {
    NatToString(a) + "." + NatToString(b) + "." + NatToString(c)
  }

  lemma ParsePiecesCons(p: string, rest: seq<string>)
    requires IsReleasePiece(p) && ParsePieces(rest).Some?
    ensures ParsePieces([p] + rest) == Some([ParseNat(p)] + ParsePieces(rest).value)
  {
    assert ([p] + rest)[0] == p;
    assert ([p] + rest)[1..] == rest;
  }

  lemma ParseThreePieces(sa: string, sb: string, sc: string)
    requires IsReleasePiece(sa) && IsReleasePiece(sb) && IsReleasePiece(sc)
    ensures ParsePieces([sa, sb, sc]) == Some([ParseNat(sa), ParseNat(sb), ParseNat(sc)])
  {
    var na, nb, nc := ParseNat(sa), ParseNat(sb), ParseNat(sc);
    assert ParsePieces([]) == Some([]);
    ParsePiecesCons(sc, []);
    assert [sc] + [] == [sc];
    assert [nc] + [] == [nc];
    assert ParsePieces([sc]) == Some([nc]);
    ParsePiecesCons(sb, [sc]);
    assert [sb] + [sc] == [sb, sc];
    assert [nb] + [nc] == [nb, nc];
    assert ParsePieces([sb, sc]) == Some([nb, nc]);
    ParsePiecesCons(sa, [sb, sc]);
    assert [sa] + [sb, sc] == [sa, sb, sc];
    assert [na] + [nb, nc] == [na, nb, nc];
  }

  lemma DottedTripleRoundTrip(a: nat, b: nat, c: nat)
    ensures ParseRelease(DottedTriple(a, b, c)) == Some([a, b, c])
  {
    var sa, sb, sc := NatToString(a), NatToString(b), NatToString(c);
    DigitsHaveNoDot(sa);
    DigitsHaveNoDot(sb);
    DigitsHaveNoDot(sc);
    assert DottedTriple(a, b, c) == sa + "." + (sb + "." + sc);
    SplitDotsJoin(sa, sb + "." + sc);
    SplitDotsJoin(sb, sc);
    SplitDotsSingle(sc);
    assert SplitDots(DottedTriple(a, b, c)) == [sa, sb, sc];
    ParseThreePieces(sa, sb, sc);
    ParseNatRoundTrip(a);
    ParseNatRoundTrip(b);
    ParseNatRoundTrip(c);
  }

  // ---------------------------------------------------------------------------
  // Version strings and the tool-chain directory
  // ---------------------------------------------------------------------------

  /**
   * `std::max(0, (int)DarwinVersion[0] - 4)`: the Mac OS X minor release of a Darwin
   * kernel, computed on a 32-bit `int` (the cast and the subtraction wrap around).
   */
  function MacosxMinorFor(d0: UInt32): (m: nat)
    ensures m == (if 4 <= d0 < 0x8000_0004 then d0 - 4 else 0)
  {
    var signed := ToInt32(d0);
    assert d0 < 0x8000_0000 ==> signed == d0;
    assert d0 >= 0x8000_0000 ==> signed == d0 - 0x1_0000_0000;
    var diff := ToInt32(signed - 4);
    assert 0x8000_0000 <= d0 < 0x8000_0004 ==> diff == d0 - 4;
    if diff < 0 then 0 else diff
  }

  /** The default `MacosxVersionMin` string the `Darwin` constructor builds. */
  function MacosxVersionMinText(darwin: Version): string {
    "10." + NatToString(MacosxMinorFor(darwin.major)) + "." + NatToString(darwin.minor)
  }

  lemma NatToStringTen()
    ensures NatToString(10) == "10"
  {
    assert NatToString(1) == ['1'];
    assert NatToString(0) == ['0'];
  }

  /** The default minimum version reads back as `10`, the derived minor release and the Darwin minor. */
  lemma MacosxVersionMinRoundTrip(darwin: Version)
    ensures ParseRelease(MacosxVersionMinText(darwin))
         == Some([10, MacosxMinorFor(darwin.major), darwin.minor])
  {
    NatToStringTen();
    assert MacosxVersionMinText(darwin) == DottedTriple(10, MacosxMinorFor(darwin.major), darwin.minor);
    DottedTripleRoundTrip(10, MacosxMinorFor(darwin.major), darwin.minor);
  }

  const ToolChainPrefix := "i686-apple-darwin"

  /** `"i686-apple-darwin" + utostr(D0) + "/" + G0 "." G1 "." G2`. */
  function ToolChainDirName(darwinMajor: nat, gcc: Version): string {
    ToolChainPrefix + NatToString(darwinMajor) + "/" + DottedTriple(gcc.major, gcc.minor, gcc.micro)
  }

  /** A tool-chain directory name splits back into its Darwin major version and its GCC version. */
  lemma ToolChainDirNameRoundTrip(darwinMajor: nat, gcc: Version)
    ensures var name := ToolChainDirName(darwinMajor, gcc);
            var k := |ToolChainPrefix| + |NatToString(darwinMajor)|;
            k < |name|
            && name[..|ToolChainPrefix|] == ToolChainPrefix
            && ParseNat(name[|ToolChainPrefix|..k]) == darwinMajor
            && name[k] == '/'
            && ParseRelease(name[k + 1..]) == Some([gcc.major, gcc.minor, gcc.micro])
  {
    var name := ToolChainDirName(darwinMajor, gcc);
    var d := NatToString(darwinMajor);
    var g := DottedTriple(gcc.major, gcc.minor, gcc.micro);
    var k := |ToolChainPrefix| + |d|;
    assert name == ToolChainPrefix + d + "/" + g;
    assert name[|ToolChainPrefix|..k] == d;
    assert name[k + 1..] == g;
    ParseNatRoundTrip(darwinMajor);
    DottedTripleRoundTrip(gcc.major, gcc.minor, gcc.micro);
  }

  /**
   * The directory the `DarwinGCC` constructor settles on: the one named after the Darwin
   * major version, unless `/usr/lib/gcc/` lacks it and has the one for the next major
   * version (`DarwinVersion[0] + 1` on 32-bit `unsigned`). `pathExists` stands for the
   * file system.
   */
  function ChooseToolChainDir(darwin: Version, gcc: Version, pathExists: string -> bool): (dir: string)
    ensures var primary := ToolChainDirName(darwin.major, gcc);
            var next := ToolChainDirName(ToUInt32(darwin.major + 1), gcc);
            (dir == primary || (dir == next && pathExists("/usr/lib/gcc/" + next)))
            && (pathExists("/usr/lib/gcc/" + primary) ==> dir == primary)
            && (!pathExists("/usr/lib/gcc/" + primary) && pathExists("/usr/lib/gcc/" + next) ==> dir == next)
  {
    var primary := ToolChainDirName(darwin.major, gcc);
    if pathExists("/usr/lib/gcc/" + primary) then primary
    else
      var next := ToolChainDirName(ToUInt32(darwin.major + 1), gcc);
      if pathExists("/usr/lib/gcc/" + next) then next else primary
  }

  /** The library search directories the `DarwinGCC` constructor registers, in order. */
  function GccFilePaths(archName: string, driverDir: string, dir: string): (r: seq<string>)
    ensures |r| == (if archName == "x86_64" then 4 else 2)
    ensures r[|r| - 2..] == [driverDir + "/../lib/gcc/" + dir, "/usr/lib/gcc/" + dir]
  {
    (if archName == "x86_64"
     then [driverDir + "/../lib/gcc/" + dir + "/x86_64", "/usr/lib/gcc/" + dir + "/x86_64"]
     else [])
    + [driverDir + "/../lib/gcc/" + dir, "/usr/lib/gcc/" + dir]
  }

  // ---------------------------------------------------------------------------
  // Runtime libraries on the link line
  // ---------------------------------------------------------------------------

  /** The command-line options the runtime-library choice looks at. */
  datatype LinkOpt = Static | StaticLibgcc | MiphoneosVersionMin | SharedLibgcc | Fexceptions | FgnuRuntime

  const SharedLibgccNames: set<string> := {"-lgcc_eh", "-lgcc_s.1", "-lgcc_s.10.5", "-lgcc_s.10.4"}

  /** The `libgcc` variant `DarwinGCC` links before `-lgcc`/`-lSystem`, if any. */
  function GccSupportLib(args: set<LinkOpt>, iPhoneOS: bool, v: Version): (r: seq<string>)
    ensures |r| <= 1
    ensures forall i :: 0 <= i < |r| ==> r[i] in SharedLibgccNames
    ensures StaticLibgcc in args ==> r == ["-lgcc_eh"]
    ensures !VersionLT(v, 10, 6, 0) && StaticLibgcc !in args && MiphoneosVersionMin !in args ==> r == []
  {
    if StaticLibgcc in args then ["-lgcc_eh"]
    else if MiphoneosVersionMin in args then
      (if iPhoneOS then ["-lgcc_s.1"] else ["-lgcc_s.10.5"])
    else if SharedLibgcc in args || Fexceptions in args || FgnuRuntime in args then
      (if VersionLT(v, 10, 5, 0) then ["-lgcc_s.10.4"]
       else if VersionLT(v, 10, 6, 0) then ["-lgcc_s.10.5"]
       else [])
    else
      (if VersionLT(v, 10, 3, 9) then []
       else if VersionLT(v, 10, 5, 0) then ["-lgcc_s.10.4"]
       else if VersionLT(v, 10, 6, 0) then ["-lgcc_s.10.5"]
       else [])
  }

  /** `-lgcc` goes first on iPhoneOS and on Mac OS X releases before 10.6. */
  predicate GccFirst(iPhoneOS: bool, v: Version) {
    iPhoneOS || VersionLT(v, 10, 6, 0)
  }

  /** Everything `DarwinGCC::AddLinkRuntimeLibArgs` appends, given the minimum Mac OS X version. */
  function GccRuntimeLibs(args: set<LinkOpt>, iPhoneOS: bool, v: Version): seq<string> {
    if Static in args then ["-lgcc_static"]
    else
      GccSupportLib(args, iPhoneOS, v)
      + (if GccFirst(iPhoneOS, v) then ["-lgcc", "-lSystem"] else ["-lSystem", "-lgcc"])
  }

  /** `a` occurs somewhere before `b` in `r`. */
  predicate Precedes(r: seq<string>, a: string, b: string) {
    exists i, j :: 0 <= i < j < |r| && r[i] == a && r[j] == b
  }

  /** With `-static` the link line gets `-lgcc_static` and nothing else; without it, never that. */
  lemma GccStaticExactly(args: set<LinkOpt>, iPhoneOS: bool, v: Version)
    ensures GccRuntimeLibs(args, iPhoneOS, v) == ["-lgcc_static"] <==> Static in args
  {
    if Static !in args {
      assert |GccRuntimeLibs(args, iPhoneOS, v)| >= 2;
    }
  }

  lemma PairOrder(p: seq<string>, x: string, y: string, a: string, b: string)
    requires a != b && a !in p && b !in p
    requires (x == a && y == b) || (x == b && y == a)
    ensures Precedes(p + [x, y], a, b) <==> x == a
  {
    var r := p + [x, y];
    if x == a {
      assert r[|p|] == a && r[|p| + 1] == b;
    }
  }

  /**
   * Without `-static` both `-lgcc` and `-lSystem` are linked, and `-lgcc` comes before
   * `-lSystem` exactly on iPhoneOS or before Mac OS X 10.6 (otherwise the other way round).
   */
  lemma GccLibOrder(args: set<LinkOpt>, iPhoneOS: bool, v: Version)
    requires Static !in args
    ensures var r := GccRuntimeLibs(args, iPhoneOS, v);
            (Precedes(r, "-lgcc", "-lSystem") <==> GccFirst(iPhoneOS, v))
            && (Precedes(r, "-lSystem", "-lgcc") <==> !GccFirst(iPhoneOS, v))
  {
    var p := GccSupportLib(args, iPhoneOS, v);
    assert "-lgcc" !in p && "-lSystem" !in p by {
      if |p| == 1 {
        assert p[0] in SharedLibgccNames;
      }
    }
    if GccFirst(iPhoneOS, v) {
      PairOrder(p, "-lgcc", "-lSystem", "-lgcc", "-lSystem");
      PairOrder(p, "-lgcc", "-lSystem", "-lSystem", "-lgcc");
    } else {
      PairOrder(p, "-lSystem", "-lgcc", "-lgcc", "-lSystem");
      PairOrder(p, "-lSystem", "-lgcc", "-lSystem", "-lgcc");
    }
  }

  /** On Mac OS X 10.6 or later with none of the options, the link line is `-lSystem -lgcc`. */
  lemma GccModernDefault(iPhoneOS: bool, v: Version)
    requires !iPhoneOS && !VersionLT(v, 10, 6, 0)
    ensures GccRuntimeLibs({}, iPhoneOS, v) == ["-lSystem", "-lgcc"]
  {
  }

  /** What `DarwinClang::AddLinkRuntimeLibArgs` appends, and whether it reports `-static-libgcc` as unsupported. */
  datatype ClangRuntime = ClangRuntime(libs: seq<string>, unsupportedStaticLibgcc: bool)

  function ClangRuntimeLibs(args: set<LinkOpt>): ClangRuntime {
    if Static in args then ClangRuntime([], false)
    else if StaticLibgcc in args then ClangRuntime([], true)
    else ClangRuntime(["-lSystem"], false)
  }

  /**
   * The clang tool chain links nothing under `-static`, nothing but a diagnostic under
   * `-static-libgcc`, and otherwise exactly `-lSystem`.
   */
  lemma ClangRuntimeOutcomes(args: set<LinkOpt>)
    ensures var c := ClangRuntimeLibs(args);
            (c.libs == [] <==> Static in args || StaticLibgcc in args)
            && (c.unsupportedStaticLibgcc <==> Static !in args && StaticLibgcc in args)
            && (c.libs != [] ==> c.libs == ["-lSystem"])
  {
  }

  /** `DarwinGCC::AddLinkRuntimeLibArgs`: pushes the runtime libraries onto `cmdArgs`. */
  method AppendGccRuntimeLibs(args: set<LinkOpt>, iPhoneOS: bool, v: Version, cmdArgs: seq<string>)
    returns (result: seq<string>)
    ensures result == cmdArgs + GccRuntimeLibs(args, iPhoneOS, v)
  {
    result := cmdArgs;
    if Static in args {
      result := result + ["-lgcc_static"];
      return;
    }
    if StaticLibgcc in args {
      result := result + ["-lgcc_eh"];
    } else if MiphoneosVersionMin in args {
      if iPhoneOS {
        result := result + ["-lgcc_s.1"];
      } else {
        result := result + ["-lgcc_s.10.5"];
      }
    } else if SharedLibgcc in args || Fexceptions in args || FgnuRuntime in args {
      if VersionLT(v, 10, 5, 0) {
        result := result + ["-lgcc_s.10.4"];
      } else if VersionLT(v, 10, 6, 0) {
        result := result + ["-lgcc_s.10.5"];
      }
    } else {
      if VersionLT(v, 10, 3, 9) {
      } else if VersionLT(v, 10, 5, 0) {
        result := result + ["-lgcc_s.10.4"];
      } else if VersionLT(v, 10, 6, 0) {
        result := result + ["-lgcc_s.10.5"];
      }
    }
    assert result == cmdArgs + GccSupportLib(args, iPhoneOS, v);
    ghost var withSupport := result;
    if iPhoneOS || VersionLT(v, 10, 6, 0) {
      result := result + ["-lgcc"];
      result := result + ["-lSystem"];
      assert result == withSupport + ["-lgcc", "-lSystem"];
    } else {
      result := result + ["-lSystem"];
      result := result + ["-lgcc"];
      assert result == withSupport + ["-lSystem", "-lgcc"];
    }
  }

  /** `DarwinClang::AddLinkRuntimeLibArgs`: pushes `-lSystem` or stops early, reporting `-static-libgcc`. */
  method AppendClangRuntimeLibs(args: set<LinkOpt>, cmdArgs: seq<string>)
    returns (result: seq<string>, unsupportedStaticLibgcc: bool)
    ensures result == cmdArgs + ClangRuntimeLibs(args).libs
    ensures unsupportedStaticLibgcc == ClangRuntimeLibs(args).unsupportedStaticLibgcc
  {
    result := cmdArgs;
    unsupportedStaticLibgcc := false;
    if Static in args {
      return;
    }
    if StaticLibgcc in args {
      unsupportedStaticLibgcc := true;
      return;
    }
    result := result + ["-lSystem"];
  }

  // ---------------------------------------------------------------------------
  // The -arch spelling table
  // ---------------------------------------------------------------------------

  /** An argument `TranslateArgs` derives: `-mcpu=<cpu>`, `-march=<arch>` or `-m64`. */
  datatype DerivedArg = MCpu(cpu: string) | MArch(arch: string) | M64

  function Spelling(a: DerivedArg): string {
    match a
    case MCpu(cpu) => "-mcpu=" + cpu
    case MArch(arch) => "-march=" + arch
    case M64 => "-m64"
  }

  /** The `-arch` spellings the Darwin tool chain accepts (LLVM's `getArchTypeForDarwinArch` list). */
  const DarwinArchNames: set<string> := {
    "ppc", "ppc601", "ppc603", "ppc604", "ppc604e", "ppc750", "ppc7400", "ppc7450", "ppc970",
    "ppc64", "i386", "i486", "i586", "i686", "pentium", "pentium2", "pentpro", "pentIIm3",
    "x86_64", "arm", "armv4t", "armv5", "xscale", "armv6", "armv7"
  }

  /** The PowerPC models with a `-mcpu=` of their own. */
  const PowerPCModels: set<string> := {"ppc601", "ppc603", "ppc604", "ppc604e", "ppc750", "ppc7400", "ppc7450", "ppc970"}

  /** The arguments `TranslateArgs` appends for a bound `-arch` name; any other name is unreachable there. */
  function BoundArchArgs(name: string): (r: seq<DerivedArg>)
    requires name in DarwinArchNames
    ensures |r| <= 1
  {
    if name == "ppc" then []
    else if name == "ppc601" then [MCpu("601")]
    else if name == "ppc603" then [MCpu("603")]
    else if name == "ppc604" then [MCpu("604")]
    else if name == "ppc604e" then [MCpu("604e")]
    else if name == "ppc750" then [MCpu("750")]
    else if name == "ppc7400" then [MCpu("7400")]
    else if name == "ppc7450" then [MCpu("7450")]
    else if name == "ppc970" then [MCpu("970")]
    else if name == "ppc64" then [M64]
    else if name == "i386" then []
    else if name == "i486" then [MArch("i486")]
    else if name == "i586" then [MArch("i586")]
    else if name == "i686" then [MArch("i686")]
    else if name == "pentium" then [MArch("pentium")]
    else if name == "pentium2" then [MArch("pentium2")]
    else if name == "pentpro" then [MArch("pentiumpro")]
    else if name == "pentIIm3" then [MArch("pentium2")]
    else if name == "x86_64" then [M64]
    else if name == "arm" then [MArch("armv4t")]
    else if name == "armv4t" then [MArch("armv4t")]
    else if name == "armv5" then [MArch("armv5tej")]
    else if name == "xscale" then [MArch("xscale")]
    else if name == "armv6" then [MArch("armv6k")]
    else [MArch("armv7a")]
  }

  /** `ppc` and `i386` are the only spellings that add no argument. */
  lemma BoundArchAddsNothing(name: string)
    requires name in DarwinArchNames
    ensures BoundArchArgs(name) == [] <==> name == "ppc" || name == "i386"
  {
  }

  /** `ppc64` and `x86_64` are exactly the spellings that add `-m64`. */
  lemma BoundArchSixtyFour(name: string)
    requires name in DarwinArchNames
    ensures BoundArchArgs(name) == [M64] <==> name == "ppc64" || name == "x86_64"
  {
  }

  /** A `-mcpu=` argument is derived exactly for the PowerPC models, and names the model with `ppc` dropped. */
  lemma BoundArchCpu(name: string)
    requires name in DarwinArchNames
    ensures var r := BoundArchArgs(name);
            (r != [] && r[0].MCpu?) <==> name in PowerPCModels
    ensures var r := BoundArchArgs(name);
            r != [] && r[0].MCpu? ==> name == "ppc" + r[0].cpu
  {
  }

  /** The spellings whose `-march=` value differs from the spelling itself. */
  lemma BoundArchRenames(name: string)
    requires name in DarwinArchNames
    ensures var r := BoundArchArgs(name);
            (r != [] && r[0].MArch? && r[0].arch != name)
            <==> name in {"pentpro", "pentIIm3", "arm", "armv5", "armv6", "armv7"}
    ensures name == "pentpro" ==> BoundArchArgs(name) == [MArch("pentiumpro")]
    ensures name == "pentIIm3" ==> BoundArchArgs(name) == [MArch("pentium2")]
    ensures name == "armv6" ==> BoundArchArgs(name) == [MArch("armv6k")]
    ensures name == "armv7" ==> BoundArchArgs(name) == [MArch("armv7a")]
  {
  }

  // ---------------------------------------------------------------------------
  // Code-generation defaults
  // ---------------------------------------------------------------------------

  /** `IsUnwindTablesDefault`: unwind tables are on by default only for `x86_64`. */
  predicate IsUnwindTablesDefault(archName: string) {
    archName == "x86_64"
  }

  /** `GetDefaultRelocationModel`. */
  const DefaultRelocationModel := "pic"

  /** `GetForcedPicModel`: `pic` on `x86_64`, no forced model (a null pointer) otherwise. */
  function ForcedPicModel(archName: string): (r: Option<string>)
    ensures r.Some? <==> IsUnwindTablesDefault(archName)
    ensures r.Some? ==> r.value == DefaultRelocationModel
  {
    if archName == "x86_64" then Some("pic") else None
  }

  // ---------------------------------------------------------------------------
  // The tool chain object and its tool cache
  // ---------------------------------------------------------------------------

  /** `Action::ActionClass`. */
  datatype ActionClass =
    | InputClass | BindArchClass | PreprocessJob | PrecompileJob | AnalyzeJob
    | CompileJob | AssembleJob | LinkJob | LipoJob

  /** The classes a tool can be selected for. */
  predicate IsJob(k: ActionClass) {
    k != InputClass && k != BindArchClass
  }

  /** The tool implementations the Darwin tool chain creates. */
  datatype ToolKind = DarwinPreprocess | ClangTool | DarwinCompile | DarwinAssemble | DarwinLink | DarwinLipo

  /** The cache key: the analyze class when the clang compiler handles the job, the job's own class otherwise. */
  function ToolKey(jobKind: ActionClass, useClangCompiler: bool): (k: ActionClass)
    ensures useClangCompiler ==> k == AnalyzeJob
    ensures !useClangCompiler ==> k == jobKind
  {
    if useClangCompiler then AnalyzeJob else jobKind
  }

  /** The tool created for a key. */
  function ToolFor(key: ActionClass): (t: ToolKind)
    requires IsJob(key)
    ensures t == ClangTool <==> key == AnalyzeJob
    ensures t == DarwinCompile <==> key == PrecompileJob || key == CompileJob
  {
    match key
    case PreprocessJob => DarwinPreprocess
    case AnalyzeJob => ClangTool
    case PrecompileJob => DarwinCompile
    case CompileJob => DarwinCompile
    case AssembleJob => DarwinAssemble
    case LinkJob => DarwinLink
    case LipoJob => DarwinLipo
  }

  class Tool {
    const kind: ToolKind

    constructor (kind: ToolKind)
      ensures this.kind == kind
    {
      this.kind := kind;
    }
  }

  /** Which of the two Darwin tool chains an object is. */
  datatype Flavor = GccFlavor | ClangFlavor

  /**
   * A Darwin tool chain. The fields `gccVersion` and `toolChainDir` belong to the GCC
   * flavour; the clang flavour leaves them at a zero version and the empty string.
   */
  class Darwin {
    const flavor: Flavor
    const archName: string
    const darwinVersion: Version
    const isIPhoneOS: bool
    const macosxVersionMin: string
    const iPhoneOSVersionMin: string
    const gccVersion: Version
    const toolChainDir: string
    var filePaths: seq<string>
    var programPaths: seq<string>
    /** `Tools`: the tools created so far, by key. */
    var tools: map<ActionClass, Tool>

    /** Every cached tool sits under a job class and is the implementation for that class. */
    ghost predicate Valid()
      reads this, set k | k in tools :: tools[k]
    {
      forall k :: k in tools ==> IsJob(k) && tools[k].kind == ToolFor(k)
    }

    /** `DarwinGCC::DarwinGCC`, with the `Darwin` base part. */
    constructor Gcc(archName: string, driverDir: string, darwinVersion: Version, gccVersion: Version,
                    isIPhoneOS: bool, pathExists: string -> bool)
      ensures this.flavor == GccFlavor && this.archName == archName
      ensures this.darwinVersion == darwinVersion && this.gccVersion == gccVersion
      ensures this.isIPhoneOS == isIPhoneOS
      ensures macosxVersionMin == MacosxVersionMinText(darwinVersion)
      ensures iPhoneOSVersionMin == "3.0"
      ensures toolChainDir == ChooseToolChainDir(darwinVersion, gccVersion, pathExists)
      ensures filePaths == GccFilePaths(archName, driverDir, toolChainDir)
      ensures programPaths == [driverDir + "/../libexec/gcc/" + toolChainDir, "/usr/libexec/gcc/" + toolChainDir,
                               driverDir + "/../libexec", driverDir]
      ensures tools == map[] && Valid()
    {
      flavor := GccFlavor;
      this.archName := archName;
      this.darwinVersion := darwinVersion;
      this.isIPhoneOS := isIPhoneOS;
      macosxVersionMin := MacosxVersionMinText(darwinVersion);
      iPhoneOSVersionMin := "3.0";
      this.gccVersion := gccVersion;
      var dir := ChooseToolChainDir(darwinVersion, gccVersion, pathExists);
      toolChainDir := dir;
      filePaths := [];
      if archName == "x86_64" {
        filePaths := filePaths + [driverDir + "/../lib/gcc/" + dir + "/x86_64"];
        filePaths := filePaths + ["/usr/lib/gcc/" + dir + "/x86_64"];
      }
      filePaths := filePaths + [driverDir + "/../lib/gcc/" + dir];
      filePaths := filePaths + ["/usr/lib/gcc/" + dir];
      programPaths := [driverDir + "/../libexec/gcc/" + dir];
      programPaths := programPaths + ["/usr/libexec/gcc/" + dir];
      programPaths := programPaths + [driverDir + "/../libexec"];
      programPaths := programPaths + [driverDir];
      tools := map[];
    }

    /** `DarwinClang::DarwinClang`, with the `Darwin` base part. */
    constructor Clang(archName: string, driverDir: string, darwinVersion: Version, isIPhoneOS: bool)
      ensures this.flavor == ClangFlavor && this.archName == archName
      ensures this.darwinVersion == darwinVersion && this.isIPhoneOS == isIPhoneOS
      ensures macosxVersionMin == MacosxVersionMinText(darwinVersion)
      ensures iPhoneOSVersionMin == "3.0"
      ensures filePaths == []
      ensures programPaths == [driverDir + "/../libexec", driverDir]
      ensures tools == map[] && Valid()
    {
      flavor := ClangFlavor;
      this.archName := archName;
      this.darwinVersion := darwinVersion;
      this.isIPhoneOS := isIPhoneOS;
      macosxVersionMin := MacosxVersionMinText(darwinVersion);
      iPhoneOSVersionMin := "3.0";
      gccVersion := Version(0, 0, 0);
      toolChainDir := "";
      filePaths := [];
      programPaths := [driverDir + "/../libexec"];
      programPaths := programPaths + [driverDir];
      tools := map[];
    }

    /**
     * `SelectTool`: the tool cached under the job's key, created on the first request for
     * that key and returned unchanged on every later one. `useClangCompiler` is the
     * driver's `ShouldUseClangCompiler` verdict.
     */
    method SelectTool(jobKind: ActionClass, useClangCompiler: bool) returns (t: Tool)
      requires Valid()
      requires IsJob(ToolKey(jobKind, useClangCompiler))
      modifies this
      ensures Valid()
      ensures filePaths == old(filePaths) && programPaths == old(programPaths)
      ensures ToolKey(jobKind, useClangCompiler) in tools
      ensures t == tools[ToolKey(jobKind, useClangCompiler)]
      ensures t.kind == ToolFor(ToolKey(jobKind, useClangCompiler))
      ensures ToolKey(jobKind, useClangCompiler) in old(tools)
              ==> tools == old(tools) && t == old(tools)[ToolKey(jobKind, useClangCompiler)]
      ensures ToolKey(jobKind, useClangCompiler) !in old(tools)
              ==> fresh(t) && tools == old(tools)[ToolKey(jobKind, useClangCompiler) := t]
    {
      var key := ToolKey(jobKind, useClangCompiler);
      if key in tools {
        t := tools[key];
      } else {
        t := new Tool(ToolFor(key));
        tools := tools[key := t];
      }
    }

    /** `AddLinkRuntimeLibArgs` of either flavour; `versionMin` is what `getMacosxVersionMin` yields. */
    method AddLinkRuntimeLibArgs(args: set<LinkOpt>, versionMin: Version, cmdArgs: seq<string>)
      returns (result: seq<string>, unsupportedStaticLibgcc: bool)
      ensures flavor == GccFlavor
              ==> result == cmdArgs + GccRuntimeLibs(args, isIPhoneOS, versionMin) && !unsupportedStaticLibgcc
      ensures flavor == ClangFlavor
              ==> result == cmdArgs + ClangRuntimeLibs(args).libs
                  && unsupportedStaticLibgcc == ClangRuntimeLibs(args).unsupportedStaticLibgcc
    {
      if flavor == GccFlavor {
        result := AppendGccRuntimeLibs(args, isIPhoneOS, versionMin, cmdArgs);
        unsupportedStaticLibgcc := false;
      } else {
        result, unsupportedStaticLibgcc := AppendClangRuntimeLibs(args, cmdArgs);
      }
    }
  }
}
