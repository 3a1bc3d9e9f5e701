/**
 * The arguments of one function-like macro invocation (clang's `MacroArgs`): a flat buffer of
 * unexpanded tokens in which every actual argument is followed by an EOF token, plus two caches
 * filled on demand, the pre-expanded tokens and the stringified (`#`) form of each argument.
 *
 * A `const Token *` into the buffer is modelled as the suffix of the buffer that starts there.
 */
module Lex {
  import opened Wrappers
  import Text

  /** Token kinds the argument code distinguishes; `Unknown` is kind 0, what a zero-filled slot holds. */
  datatype TokenKind =
    | Unknown
    | Eof
    | Identifier
    | RawIdentifier
    | NumericConstant
    | CharConstant
    | StringLiteral
    | WideStringLiteral
    | Punctuator

  /**
   * A preprocessor token. `spelling` is what `getSpelling` returns for it (the cleaned
   * spelling of a dirty token); `identifier` is the name of its identifier info, if it has one.
   */
  datatype Token = Token(
    kind: TokenKind,
    leadingSpace: bool,
    startOfLine: bool,
    spelling: string,
    identifier: Option<string>)

  /** A token slot after `memset(…, 0, …)`: kind `Unknown`, no flags, no spelling. */
  const ZeroToken := Token(Unknown, false, false, "", None)

  predicate HasEof(s: seq<Token>) {
    exists i :: 0 <= i < |s| && s[i].kind == Eof
  }

  /** Index of the first EOF token. */
  function FirstEof(s: seq<Token>): (k: nat)
    requires HasEof(s)
    ensures k < |s| && s[k].kind == Eof
    ensures forall i :: 0 <= i < k ==> s[i].kind != Eof
  {
    if s[0].kind == Eof then 0
    else
      assert HasEof(s[1..]) by {
        var i :| 0 <= i < |s| && s[i].kind == Eof;
        assert s[1..][i - 1].kind == Eof;
      }
      1 + FirstEof(s[1..])
  }

  /** The tokens of the argument that starts at the front of `s`, without its EOF. */
  function Argument(s: seq<Token>): seq<Token>
    requires HasEof(s)
  {
    s[..FirstEof(s)]
  }

  /** The argument that starts at the front of `s`, with its EOF: what is handed to the lexer. */
  function ArgumentWithEof(s: seq<Token>): (r: seq<Token>)
    requires HasEof(s)
    ensures HasEof(r)
  {
    assert s[..FirstEof(s) + 1][FirstEof(s)].kind == Eof;
    s[..FirstEof(s) + 1]
  }

  function EofCount(s: seq<Token>): nat {
    if s == [] then 0 else (if s[0].kind == Eof then 1 else 0) + EofCount(s[1..])
  }

  /** Where argument `arg` starts in the flat buffer: just after the arg-th EOF; argument 0 at 0. */
  function ArgStart(s: seq<Token>, arg: nat): nat
    requires arg <= EofCount(s)
  {
    if arg == 0 then 0
    else if s[0].kind == Eof then 1 + ArgStart(s[1..], arg - 1)
    else 1 + ArgStart(s[1..], arg)
  }

  /** The condition `getUnexpArgument` asserts: argument `arg` starts inside the buffer. */
  predicate ArgInRange(s: seq<Token>, arg: nat) {
    arg <= EofCount(s) && ArgStart(s, arg) < |s|
  }

  /** Argument `arg` starts inside the buffer and is terminated by an EOF token. */
  predicate ArgReadable(s: seq<Token>, arg: nat) {
    ArgInRange(s, arg) && HasEof(s[ArgStart(s, arg)..])
  }

  lemma {:induction false} ArgStartMeaning(s: seq<Token>, arg: nat)
    requires arg <= EofCount(s)
    ensures ArgStart(s, arg) <= |s|
    ensures EofCount(s[..ArgStart(s, arg)]) == arg
    ensures arg > 0 ==> s[ArgStart(s, arg) - 1].kind == Eof
  {
    if arg > 0 {
      var next := if s[0].kind == Eof then arg - 1 else arg;
      ArgStartMeaning(s[1..], next);
      var p := ArgStart(s, arg);
      assert s[..p][1..] == s[1..][..p - 1];
    }
  }

  /** The number of tokens before the first EOF, not counting the EOF (`getArgLength`). */
  method GetArgLength(arg: seq<Token>) returns (n: nat)
    requires HasEof(arg)
    ensures n < |arg| && arg[n].kind == Eof
    ensures forall i :: 0 <= i < n ==> arg[i].kind != Eof
    ensures n == |Argument(arg)|
  {
    n := 0;
    while arg[n].kind != Eof
      invariant n <= FirstEof(arg)
      decreases FirstEof(arg) - n
      invariant forall i :: 0 <= i < n ==> arg[i].kind != Eof
    {
      n := n + 1;
    }
  }

  /** The position where argument `arg` starts: a scan that counts EOF tokens (`getUnexpArgument`). */
  method GetUnexpArgument(s: seq<Token>, arg: nat) returns (pos: nat)
    requires ArgInRange(s, arg)
    ensures pos == ArgStart(s, arg) && pos < |s|
    ensures EofCount(s[..pos]) == arg
    ensures arg > 0 ==> s[pos - 1].kind == Eof
  {
    pos := 0;
    var remaining: nat := arg;
    while remaining > 0
      invariant pos <= |s|
      invariant remaining <= EofCount(s[pos..])
      invariant pos + ArgStart(s[pos..], remaining) == ArgStart(s, arg)
      decreases |s| - pos
    {
      assert s[pos..][1..] == s[pos + 1..];
      if s[pos].kind == Eof {
        remaining := remaining - 1;
      }
      pos := pos + 1;
    }
    ArgStartMeaning(s, arg);
  }

  /** The token names a macro that is defined and enabled; `macros` maps each defined name to its enabled flag. */
  predicate NamesEnabledMacro(t: Token, macros: map<string, bool>) {
    t.identifier.Some? && t.identifier.value in macros && macros[t.identifier.value]
  }

  /** False exactly when pre-expansion cannot change the argument (`ArgNeedsPreexpansion`). */
  method ArgNeedsPreexpansion(arg: seq<Token>, macros: map<string, bool>) returns (needs: bool)
    requires HasEof(arg)
    ensures needs <==> exists i :: 0 <= i < FirstEof(arg) && NamesEnabledMacro(arg[i], macros)
  {
    var k := 0;
    while arg[k].kind != Eof
      invariant k <= FirstEof(arg)
      invariant forall i :: 0 <= i < k ==> !NamesEnabledMacro(arg[i], macros)
      decreases FirstEof(arg) - k
    {
      if NamesEnabledMacro(arg[k], macros) {
        return true;
      }
      k := k + 1;
    }
    return false;
  }

  /**
   * The do-while loop of `getPreExpArgument`: append lexed tokens, `lexed` being what `PP.Lex`
   * delivers in order, up to and including the first EOF.
   */
  method LexUntilEof(lexed: seq<Token>) returns (r: seq<Token>)
    requires HasEof(lexed)
    ensures r == lexed[..FirstEof(lexed) + 1]
    ensures |r| > 0 && r[|r| - 1].kind == Eof
    ensures forall i :: 0 <= i < |r| - 1 ==> r[i].kind != Eof
  {
    r := [lexed[0]];
    while r[|r| - 1].kind != Eof
      invariant 0 < |r| <= FirstEof(lexed) + 1
      invariant r == lexed[..|r|]
      decreases FirstEof(lexed) - |r|
    {
      r := r + [lexed[|r|]];
    }
  }

  // ---------------------------------------------------------------------------------------------
  // Stringification (`#`), section 6.10.3.2 paragraph 2 of ISO/IEC 9899:1999, and charize (`#@`)

  /** `Lexer::Stringify`: a backslash before every backslash and every double quote. */
  function Escape(s: string): string {
    if s == [] then []
    else (if s[0] == '\\' || s[0] == '"' then ['\\', s[0]] else [s[0]]) + Escape(s[1..])
  }

  predicate IsQuotedKind(k: TokenKind) {
    k == StringLiteral || k == WideStringLiteral || k == CharConstant
  }

  /** What one token contributes: string and character literals escaped, every other token verbatim. */
  function Piece(t: Token): string {
    if IsQuotedKind(t.kind) then Escape(t.spelling) else t.spelling
  }

  predicate Spaced(t: Token) {
    t.leadingSpace || t.startOfLine
  }

  /** One space before a token that is not the first and has leading space or starts a line. */
  function Separator(isFirst: bool, t: Token): string {
    if !isFirst && Spaced(t) then " " else ""
  }

  /** The text between the quotes, built token by token from the left, as the loop builds it. */
  function Body(toks: seq<Token>): string {
    if toks == [] then ""
    else Body(toks[..|toks| - 1]) + Separator(|toks| == 1, toks[|toks| - 1]) + Piece(toks[|toks| - 1])
  }

  /** Reference statement of the spacing rule, head first: the first token never gets a space. */
  function BodyFrom(toks: seq<Token>, isFirst: bool): string {
    if toks == [] then "" else Separator(isFirst, toks[0]) + Piece(toks[0]) + BodyFrom(toks[1..], false)
  }

  lemma {:induction false} BodyFromSnoc(toks: seq<Token>, t: Token, isFirst: bool)
    ensures BodyFrom(toks + [t], isFirst) == BodyFrom(toks, isFirst) + Separator(isFirst && toks == [], t) + Piece(t)
  {
    if toks != [] {
      assert (toks + [t])[1..] == toks[1..] + [t];
      BodyFromSnoc(toks[1..], t, false);
    }
  }

  lemma {:induction false} BodyMatchesReference(toks: seq<Token>)
    ensures Body(toks) == BodyFrom(toks, true)
  {
    if toks != [] {
      var init := toks[..|toks| - 1];
      BodyMatchesReference(init);
      BodyFromSnoc(init, toks[|toks| - 1], true);
      assert init + [toks[|toks| - 1]] == toks;
    }
  }

  /** Length of the run of backslashes that ends `s`. */
  function TrailingBackslashes(s: string): (n: nat)
    ensures n <= |s|
    ensures forall i :: |s| - n <= i < |s| ==> s[i] == '\\'
    ensures n < |s| ==> s[|s| - 1 - n] != '\\'
  {
    if s != [] && s[|s| - 1] == '\\' then 1 + TrailingBackslashes(s[..|s| - 1]) else 0
  }

  /** An odd run of trailing backslashes would escape the closing quote: drop one of them. */
  function RepairTrailingBackslash(s: string): string {
    if TrailingBackslashes(s) % 2 == 1 then s[..|s| - 1] else s
  }

  lemma RepairLeavesEvenRun(s: string)
    ensures TrailingBackslashes(RepairTrailingBackslash(s)) % 2 == 0
  {
    if TrailingBackslashes(s) % 2 == 1 {
      var t := s[..|s| - 1];
      assert TrailingBackslashes(s) == 1 + TrailingBackslashes(t);
      assert RepairTrailingBackslash(s) == t;
    }
  }

  /** The `#` result: the body in double quotes, with a dangling backslash repaired. */
  function StringLiteralSpelling(toks: seq<Token>): (lit: string)
    ensures |lit| >= 2 && lit[0] == '"' && lit[|lit| - 1] == '"'
  {
    var open := "\"" + Body(toks);
    assert open[0] == '"';
    RepairTrailingBackslash(open) + "\""
  }

  /** The closing quote of a stringified argument is never escaped by the characters before it. */
  lemma {:induction false} ClosingQuoteUnescaped(toks: seq<Token>)
    ensures var lit := StringLiteralSpelling(toks); TrailingBackslashes(lit[..|lit| - 1]) % 2 == 0
  {
    var open := "\"" + Body(toks);
    var lit := StringLiteralSpelling(toks);
    assert lit[..|lit| - 1] == RepairTrailingBackslash(open);
    RepairLeavesEvenRun(open);
  }

  /** A legal charized constant: `'c'` with c not a quote, or `'\x'`. */
  predicate IsValidCharize(c: string) {
    (|c| == 3 && c[1] != '\'') || (|c| == 4 && c[1] == '\\')
  }

  /** The `#@` candidate: the outer double quotes turned into single quotes. */
  function CharizeCandidate(lit: string): string
    requires |lit| >= 2
  {
    "'" + lit[1..|lit| - 1] + "'"
  }

  /** The `#@` result: the candidate if it is a legal character constant, otherwise `' '`. */
  function CharizeSpelling(lit: string): string
    requires |lit| >= 2
  {
    var c := CharizeCandidate(lit);
    if IsValidCharize(c) then c else "' '"
  }

  lemma CharizeIsCharConstant(lit: string)
    requires |lit| >= 2
    ensures var c := CharizeSpelling(lit); IsValidCharize(c) && c[0] == '\'' && c[|c| - 1] == '\''
    ensures IsValidCharize(CharizeCandidate(lit)) ==> CharizeSpelling(lit) == CharizeCandidate(lit)
    ensures !IsValidCharize(CharizeCandidate(lit)) ==> CharizeSpelling(lit) == "' '"
  {
  }

  function StringifiedSpelling(toks: seq<Token>, charify: bool): string {
    var lit := StringLiteralSpelling(toks);
    if charify then CharizeSpelling(lit) else lit
  }

  /** The token `StringifyArgument` produces: a fresh string-literal token with no flags set. */
  function StringifiedToken(toks: seq<Token>, charify: bool): Token {
    Token(StringLiteral, false, false, StringifiedSpelling(toks, charify), None)
  }

  /** `TrailingBackslashes` is the run that the backward scan for the first non-backslash finds. */
  lemma RunEndsAtNonBackslash(s: string, k: nat)
    requires k < |s| && s[k] != '\\'
    requires forall i :: k < i < |s| ==> s[i] == '\\'
    ensures TrailingBackslashes(s) == |s| - 1 - k
  {
  }

  /**
   * The trailing-backslash check of `StringifyArgument`: scan back from the second-last character
   * for the first non-backslash; an odd run loses its last backslash and is reported.
   */
  method RepairBackslash(open: string) returns (result: string, invalid: bool)
    requires |open| > 0 && open[0] == '"'
    ensures result == RepairTrailingBackslash(open)
    ensures invalid <==> TrailingBackslashes(open) % 2 == 1
  {
    result := open;
    invalid := false;
    if result[|result| - 1] == '\\' {
      var firstNonSlash := |result| - 2;
      while result[firstNonSlash] == '\\'
        invariant 0 <= firstNonSlash < |result| - 1
        invariant forall i :: firstNonSlash < i < |result| ==> result[i] == '\\'
        decreases firstNonSlash
      {
        firstNonSlash := firstNonSlash - 1;
      }
      RunEndsAtNonBackslash(result, firstNonSlash);
      if (|result| - 1 - firstNonSlash) % 2 == 1 {
        invalid := true;
        result := result[..|result| - 1];
      }
    }
  }

  /** The charize step of `StringifyArgument`: quotes become single quotes; a bad result becomes `' '`. */
  method Charize(lit: string) returns (result: string, invalid: bool)
    requires |lit| >= 2
    ensures result == CharizeSpelling(lit)
    ensures invalid <==> !IsValidCharize(CharizeCandidate(lit))
  {
    result := lit[0 := '\''];
    result := result[|result| - 1 := '\''];
    assert result == CharizeCandidate(lit);
    var isBad := if |result| == 3 then result[1] == '\'' else |result| != 4 || result[1] != '\\';
    invalid := false;
    if isBad {
      invalid := true;
      result := "' '";
    }
  }

  /** The loop of `StringifyArgument`: an opening quote, then each token's piece with its separator. */
  method QuoteTokens(arg: seq<Token>) returns (result: string)
    requires HasEof(arg)
    ensures result == "\"" + Body(Argument(arg))
  {
    result := "\"";
    var isFirst := true;
    var k := 0;
    ghost var body := "";
    while arg[k].kind != Eof
      invariant k <= FirstEof(arg)
      invariant isFirst <==> k == 0
      invariant body == Body(arg[..k])
      invariant result == "\"" + body
      decreases FirstEof(arg) - k
    {
      var t := arg[k];
      assert arg[..k + 1][..k] == arg[..k];
      ghost var before := result;
      ghost var sep := Separator(isFirst, t);
      if !isFirst && (t.leadingSpace || t.startOfLine) {
        result := result + " ";
      }
      assert result == before + sep;
      isFirst := false;
      if IsQuotedKind(t.kind) {
        result := result + Escape(t.spelling);
      } else {
        result := result + t.spelling;
      }
      assert result == before + sep + Piece(t);
      Text.Assoc("\"", body, sep);
      Text.Assoc("\"", body + sep, Piece(t));
      body := body + sep + Piece(t);
      k := k + 1;
    }
    assert arg[..k] == Argument(arg);
  }

  /**
   * `StringifyArgument`: quote, space, escape, repair, charize. The two flags say which diagnostic
   * is issued: an invalid string literal (odd trailing backslashes) and an invalid charize.
   */
  method StringifyArgument(arg: seq<Token>, charify: bool)
    returns (tok: Token, invalidLiteral: bool, invalidCharize: bool)
    requires HasEof(arg)
    ensures tok == StringifiedToken(Argument(arg), charify)
    ensures invalidLiteral <==> TrailingBackslashes("\"" + Body(Argument(arg))) % 2 == 1
    ensures invalidCharize <==> charify && !IsValidCharize(CharizeCandidate(StringLiteralSpelling(Argument(arg))))
  {
    var result := QuoteTokens(arg);
    result, invalidLiteral := RepairBackslash(result);
    result := result + "\"";
    invalidCharize := false;
    if charify {
      result, invalidCharize := Charize(result);
    }
    tok := Token(StringLiteral, false, false, result, None);
  }

  /** The token stream that `getPreExpArgument` hands to the preprocessor: argument `arg` with its EOF. */
  function ArgumentStream(s: seq<Token>, arg: nat): seq<Token>
    requires ArgReadable(s, arg)
  {
    ArgumentWithEof(s[ArgStart(s, arg)..])
  }

  /**
   * The uncached path of `getPreExpArgument`: find the argument, enter its tokens with their EOF
   * into the preprocessor, and collect what it lexes up to the first EOF. `expand` stands for the
   * preprocessor: given the entered stream it yields the tokens `PP.Lex` returns.
   */
  method PreExpandArgument(s: seq<Token>, arg: nat, expand: seq<Token> -> seq<Token>) returns (r: seq<Token>)
    requires ArgReadable(s, arg) && HasEof(expand(ArgumentStream(s, arg)))
    ensures var lexed := expand(ArgumentStream(s, arg)); r == lexed[..FirstEof(lexed) + 1]
    ensures |r| > 0 && r[|r| - 1].kind == Eof
  {
    var start := GetUnexpArgument(s, arg);
    var len := GetArgLength(s[start..]);
    var stream := s[start..][..len + 1];
    assert stream == ArgumentStream(s, arg);
    r := LexUntilEof(expand(stream));
  }

  // ---------------------------------------------------------------------------------------------
  // The argument object and its two caches

  class MacroArgs {
    /** The unexpanded tokens, every actual argument followed by an EOF token. */
    const unexpArgTokens: seq<Token>
    const varargsElided: bool
    /** `PreExpArgTokens`: empty until first use, then one slot per unexpanded token; an empty slot is not yet computed. */
    var preExpArgTokens: seq<seq<Token>>
    /**
     * `StringifiedArgs`: empty until first use, then one slot per unexpanded token (`getNumArguments`,
     * the only count the object is built with); a slot that is not a string literal is not yet computed.
     */
    var stringifiedArgs: seq<Token>

    ghost predicate Valid()
      reads this
    {
      && (|preExpArgTokens| == 0 || |preExpArgTokens| == |unexpArgTokens|)
      && (forall i :: 0 <= i < |preExpArgTokens| && preExpArgTokens[i] != [] ==>
            preExpArgTokens[i][|preExpArgTokens[i]| - 1].kind == Eof)
      && (|stringifiedArgs| == 0 || |stringifiedArgs| == |unexpArgTokens|)
    }

    /** `create`: the caches start empty. */
    constructor Create(unexpArgTokens: seq<Token>, varargsElided: bool)
      ensures Valid()
      ensures this.unexpArgTokens == unexpArgTokens
      ensures this.varargsElided == varargsElided
      ensures preExpArgTokens == [] && stringifiedArgs == []
    {
      this.unexpArgTokens := unexpArgTokens;
      this.varargsElided := varargsElided;
      preExpArgTokens := [];
      stringifiedArgs := [];
    }

    predicate PreExpCached(arg: nat)
      reads this
    {
      arg < |preExpArgTokens| && preExpArgTokens[arg] != []
    }

    predicate StringifiedCached(arg: nat)
      reads this
    {
      arg < |stringifiedArgs| && stringifiedArgs[arg].kind == StringLiteral
    }

    /** `getPreExpArgument`: pre-expand argument `arg` once and keep the result. */
    method GetPreExpArgument(arg: nat, expand: seq<Token> -> seq<Token>) returns (r: seq<Token>)
      requires Valid()
      requires arg < |unexpArgTokens|
      requires !PreExpCached(arg) ==>
        ArgReadable(unexpArgTokens, arg) && HasEof(expand(ArgumentStream(unexpArgTokens, arg)))
      modifies this
      ensures Valid()
      ensures |preExpArgTokens| == |unexpArgTokens|
      ensures old(PreExpCached(arg)) ==> r == old(preExpArgTokens[arg]) && preExpArgTokens == old(preExpArgTokens)
      ensures !old(PreExpCached(arg)) ==>
        var lexed := expand(ArgumentStream(unexpArgTokens, arg));
        && r == lexed[..FirstEof(lexed) + 1]
        && preExpArgTokens ==
             (if old(|preExpArgTokens|) == 0 then seq(|unexpArgTokens|, _ => []) else old(preExpArgTokens))[arg := r]
      ensures |r| > 0 && r[|r| - 1].kind == Eof
      ensures stringifiedArgs == old(stringifiedArgs)
    {
      if |preExpArgTokens| == 0 {
        preExpArgTokens := seq(|unexpArgTokens|, _ => []);
      }
      if preExpArgTokens[arg] != [] {
        return preExpArgTokens[arg];
      }
      r := PreExpandArgument(unexpArgTokens, arg, expand);
      ghost var slots := preExpArgTokens;
      preExpArgTokens := preExpArgTokens[arg := r];
      assert forall i :: 0 <= i < |preExpArgTokens| && i != arg ==> preExpArgTokens[i] == slots[i];
    }

    /** `getStringifiedArgument`: stringify argument `argNo` once and keep the token. */
    method GetStringifiedArgument(argNo: nat) returns (t: Token)
      requires Valid()
      requires argNo < |unexpArgTokens|
      requires !StringifiedCached(argNo) ==> ArgReadable(unexpArgTokens, argNo)
      modifies this
      ensures Valid()
      ensures |stringifiedArgs| == |unexpArgTokens|
      ensures old(StringifiedCached(argNo)) ==> t == old(stringifiedArgs[argNo]) && stringifiedArgs == old(stringifiedArgs)
      ensures !old(StringifiedCached(argNo)) ==>
        && t == StringifiedToken(Argument(unexpArgTokens[ArgStart(unexpArgTokens, argNo)..]), false)
        && stringifiedArgs ==
             (if old(|stringifiedArgs|) == 0 then seq(|unexpArgTokens|, _ => ZeroToken) else old(stringifiedArgs))[argNo := t]
      ensures t.kind == StringLiteral
      ensures preExpArgTokens == old(preExpArgTokens)
    {
      if |stringifiedArgs| == 0 {
        stringifiedArgs := seq(|unexpArgTokens|, _ => ZeroToken);
      }
      if stringifiedArgs[argNo].kind != StringLiteral {
        var start := GetUnexpArgument(unexpArgTokens, argNo);
        var tok, _, _ := StringifyArgument(unexpArgTokens[start..], false);
        stringifiedArgs := stringifiedArgs[argNo := tok];
      }
      t := stringifiedArgs[argNo];
    }
  }
}
