/**
 * `llvm::StringSwitch<T>`: a switch over a string subject, written as a chain of `Case` calls
 * ending in `Default` or in a conversion to `T`. The first case whose literal equals the subject
 * fixes the result; every later case is ignored.
 */
module ADT {
  import opened Wrappers

  /** `memcmp(a, b, n) == 0`: the first `n` characters agree. */
  predicate PrefixEqual(a: seq<char>, b: seq<char>, n: nat)
    requires n <= |a| && n <= |b|
  {
    forall i :: 0 <= i < n ==> a[i] == b[i]
  }

  /**
   * Does a case literal match the subject? `lit` is the literal as the `const char[N]` array the
   * template receives, so its last element is the NUL terminator and its text has length N-1.
   */
  predicate LiteralMatches(lit: seq<char>, subject: string)
    requires |lit| > 0
  {
    |lit| - 1 == |subject| && PrefixEqual(lit, subject, |lit| - 1)
  }

  /** A literal matches exactly the subject that equals its text. */
  lemma LiteralMatchesExactly(text: string, subject: string)
    ensures LiteralMatches(text + ['\0'], subject) <==> text == subject
  {
    if LiteralMatches(text + ['\0'], subject) {
      assert forall i :: 0 <= i < |text| ==> text[i] == (text + ['\0'])[i];
      assert text == subject;
    }
  }

  /** One `Case` on the switch state, `None` while no result is known. */
  function CaseStep<T>(state: Option<T>, subject: string, lit: seq<char>, value: T): Option<T>
    requires |lit| > 0
  {
    if state.None? && LiteralMatches(lit, subject) then Some(value) else state
  }

  /** One `.Case(lit, value)` link of a chain. */
  datatype CaseArm<T> = CaseArm(lit: seq<char>, value: T)

  predicate WellFormedArms<T>(arms: seq<CaseArm<T>>) {
    forall i :: 0 <= i < |arms| ==> |arms[i].lit| > 0
  }

  /** A chain of `Case` calls applied left to right. */
  function RunCases<T>(state: Option<T>, subject: string, arms: seq<CaseArm<T>>): Option<T>
    requires WellFormedArms(arms)
    decreases |arms|
  {
    if arms == [] then state
    else RunCases(CaseStep(state, subject, arms[0].lit, arms[0].value), subject, arms[1..])
  }

  /** Reference: the position of the first arm whose literal matches. */
  function FirstMatch<T>(subject: string, arms: seq<CaseArm<T>>): (k: Option<nat>)
    requires WellFormedArms(arms)
    ensures k.Some? ==> k.value < |arms| && LiteralMatches(arms[k.value].lit, subject)
    ensures k.Some? ==> forall j :: 0 <= j < k.value ==> !LiteralMatches(arms[j].lit, subject)
    ensures k.None? ==> forall j :: 0 <= j < |arms| ==> !LiteralMatches(arms[j].lit, subject)
  {
    if arms == [] then None
    else if LiteralMatches(arms[0].lit, subject) then Some(0)
    else match FirstMatch(subject, arms[1..]) {
      case None => None
      case Some(k) => Some(k + 1)
    }
  }

  /** Once a result is known, no later case changes it, even one that matches. */
  lemma {:induction false} KnownResultSticky<T>(v: T, subject: string, arms: seq<CaseArm<T>>)
    requires WellFormedArms(arms)
    ensures RunCases(Some(v), subject, arms) == Some(v)
  {
    if arms != [] {
      KnownResultSticky(v, subject, arms[1..]);
    }
  }

  /** The first exact match wins; with no match the result stays unknown. */
  lemma {:induction false} FirstMatchWins<T>(subject: string, arms: seq<CaseArm<T>>)
    requires WellFormedArms(arms)
    ensures RunCases(None, subject, arms) ==
      match FirstMatch(subject, arms) {
        case None => None
        case Some(k) => Some(arms[k].value)
      }
  {
    if arms != [] {
      if LiteralMatches(arms[0].lit, subject) {
        KnownResultSticky(arms[0].value, subject, arms[1..]);
      } else {
        FirstMatchWins(subject, arms[1..]);
      }
    }
  }

  /** A chain of several arms run on top of a chain of others is the chain of both, in order. */
  lemma {:induction false} RunCasesAppend<T>(state: Option<T>, subject: string, first: seq<CaseArm<T>>, rest: seq<CaseArm<T>>)
    requires WellFormedArms(first) && WellFormedArms(rest)
    ensures WellFormedArms(first + rest)
    ensures RunCases(RunCases(state, subject, first), subject, rest) == RunCases(state, subject, first + rest)
    decreases |first|
  {
    assert WellFormedArms(first + rest) by {
      forall i | 0 <= i < |first + rest|
        ensures |(first + rest)[i].lit| > 0
      {
        if i >= |first| {
          assert (first + rest)[i] == rest[i - |first|];
        }
      }
    }
    if first != [] {
      assert (first + rest)[1..] == first[1..] + rest;
      RunCasesAppend(CaseStep(state, subject, first[0].lit, first[0].value), subject, first[1..], rest);
    } else {
      assert first + rest == rest;
    }
  }

  /** One more `Case` at the end of a chain. */
  lemma RunCasesSnoc<T>(state: Option<T>, subject: string, arms: seq<CaseArm<T>>, arm: CaseArm<T>)
    requires WellFormedArms(arms) && |arm.lit| > 0
    ensures WellFormedArms(arms + [arm])
    ensures RunCases(state, subject, arms + [arm]) == CaseStep(RunCases(state, subject, arms), subject, arm.lit, arm.value)
  {
    RunCasesAppend(state, subject, arms, [arm]);
  }

  class StringSwitch<T(0)> {
    /** The string being matched. */
    const str: string
    /** The result, meaningful once `resultKnown` is set. */
    var result: T
    var resultKnown: bool

    /** The two fields read as one optional value. */
    function State(): Option<T>
      reads this
    {
      if resultKnown then Some(result) else None
    }

    constructor(str: string)
      ensures this.str == str
      ensures !resultKnown && State() == None
    {
      this.str := str;
      resultKnown := false;
    }

    /** `Case`: record `value` if no result is known yet and `lit` matches; return this same switch. */
    method Case(lit: seq<char>, value: T) returns (self: StringSwitch<T>)
      requires |lit| > 0
      modifies this
      ensures self == this
      ensures State() == CaseStep(old(State()), str, lit, value)
      ensures !(!old(resultKnown) && LiteralMatches(lit, str)) ==> unchanged(this)
    {
      if !resultKnown && |lit| - 1 == |str| && PrefixEqual(lit, str, |lit| - 1) {
        result := value;
        resultKnown := true;
      }
      return this;
    }

    /** `Cases` with two literals: `Case(s0, value).Case(s1, value)`. */
    method Cases2(s0: seq<char>, s1: seq<char>, value: T) returns (self: StringSwitch<T>)
      requires |s0| > 0 && |s1| > 0
      modifies this
      ensures self == this
      ensures State() == RunCases(old(State()), str, [CaseArm(s0, value), CaseArm(s1, value)])
    {
      self := Case(s0, value);
      self := self.Case(s1, value);
      RunCasesSnoc(old(State()), str, [CaseArm(s0, value)], CaseArm(s1, value));
      assert [CaseArm(s0, value)] + [CaseArm(s1, value)] == [CaseArm(s0, value), CaseArm(s1, value)];
    }

    /** `Cases` with three literals, chained in order. */
    method Cases3(s0: seq<char>, s1: seq<char>, s2: seq<char>, value: T) returns (self: StringSwitch<T>)
      requires |s0| > 0 && |s1| > 0 && |s2| > 0
      modifies this
      ensures self == this
      ensures State() == RunCases(old(State()), str, [CaseArm(s0, value), CaseArm(s1, value), CaseArm(s2, value)])
    {
      self := Case(s0, value);
      self := self.Case(s1, value);
      RunCasesSnoc(old(State()), str, [CaseArm(s0, value)], CaseArm(s1, value));
      assert [CaseArm(s0, value)] + [CaseArm(s1, value)] == [CaseArm(s0, value), CaseArm(s1, value)];
      self := self.Case(s2, value);
      RunCasesSnoc(old(State()), str, [CaseArm(s0, value), CaseArm(s1, value)], CaseArm(s2, value));
      assert [CaseArm(s0, value), CaseArm(s1, value)] + [CaseArm(s2, value)] == [CaseArm(s0, value), CaseArm(s1, value), CaseArm(s2, value)];
    }

    /** `Cases` with four literals, chained in order. */
    method Cases4(s0: seq<char>, s1: seq<char>, s2: seq<char>, s3: seq<char>, value: T)
      returns (self: StringSwitch<T>)
      requires |s0| > 0 && |s1| > 0 && |s2| > 0 && |s3| > 0
      modifies this
      ensures self == this
      ensures State() == RunCases(old(State()), str,
        [CaseArm(s0, value), CaseArm(s1, value), CaseArm(s2, value), CaseArm(s3, value)])
    {
      self := Case(s0, value);
      self := self.Case(s1, value);
      RunCasesSnoc(old(State()), str, [CaseArm(s0, value)], CaseArm(s1, value));
      assert [CaseArm(s0, value)] + [CaseArm(s1, value)] == [CaseArm(s0, value), CaseArm(s1, value)];
      self := self.Case(s2, value);
      RunCasesSnoc(old(State()), str, [CaseArm(s0, value), CaseArm(s1, value)], CaseArm(s2, value));
      assert [CaseArm(s0, value), CaseArm(s1, value)] + [CaseArm(s2, value)] == [CaseArm(s0, value), CaseArm(s1, value), CaseArm(s2, value)];
      self := self.Case(s3, value);
      RunCasesSnoc(old(State()), str, [CaseArm(s0, value), CaseArm(s1, value), CaseArm(s2, value)], CaseArm(s3, value));
      assert [CaseArm(s0, value), CaseArm(s1, value), CaseArm(s2, value)] + [CaseArm(s3, value)] == [CaseArm(s0, value), CaseArm(s1, value), CaseArm(s2, value), CaseArm(s3, value)];
    }

    /** `Cases` with five literals, chained in order. */
    method Cases5(s0: seq<char>, s1: seq<char>, s2: seq<char>, s3: seq<char>, s4: seq<char>, value: T)
      returns (self: StringSwitch<T>)
      requires |s0| > 0 && |s1| > 0 && |s2| > 0 && |s3| > 0 && |s4| > 0
      modifies this
      ensures self == this
      ensures State() == RunCases(old(State()), str,
        [CaseArm(s0, value), CaseArm(s1, value), CaseArm(s2, value), CaseArm(s3, value), CaseArm(s4, value)])
    {
      self := Case(s0, value);
      self := self.Case(s1, value);
      RunCasesSnoc(old(State()), str, [CaseArm(s0, value)], CaseArm(s1, value));
      assert [CaseArm(s0, value)] + [CaseArm(s1, value)] == [CaseArm(s0, value), CaseArm(s1, value)];
      self := self.Case(s2, value);
      RunCasesSnoc(old(State()), str, [CaseArm(s0, value), CaseArm(s1, value)], CaseArm(s2, value));
      assert [CaseArm(s0, value), CaseArm(s1, value)] + [CaseArm(s2, value)] == [CaseArm(s0, value), CaseArm(s1, value), CaseArm(s2, value)];
      self := self.Case(s3, value);
      RunCasesSnoc(old(State()), str, [CaseArm(s0, value), CaseArm(s1, value), CaseArm(s2, value)], CaseArm(s3, value));
      assert [CaseArm(s0, value), CaseArm(s1, value), CaseArm(s2, value)] + [CaseArm(s3, value)] == [CaseArm(s0, value), CaseArm(s1, value), CaseArm(s2, value), CaseArm(s3, value)];
      self := self.Case(s4, value);
      RunCasesSnoc(old(State()), str, [CaseArm(s0, value), CaseArm(s1, value), CaseArm(s2, value), CaseArm(s3, value)], CaseArm(s4, value));
      assert [CaseArm(s0, value), CaseArm(s1, value), CaseArm(s2, value), CaseArm(s3, value)] + [CaseArm(s4, value)] == [CaseArm(s0, value), CaseArm(s1, value), CaseArm(s2, value), CaseArm(s3, value), CaseArm(s4, value)];
    }

    /** `Default`: the known result, otherwise `value`. */
    function Default(value: T): (r: T)
      reads this
      ensures State().Some? ==> r == State().value
      ensures State().None? ==> r == value
    {
      if resultKnown then result else value
    }

    /** `operator T`: only defined once a case has matched. */
    function Value(): (r: T)
      requires resultKnown
      reads this
      ensures State() == Some(r)
    {
      result
    }
  }

  /**
   * A whole switch expression, `StringSwitch<T>(subject).Case(…)….Default(fallback)`, with the
   * chain given as a sequence of arms: the value of the first arm whose literal equals the subject,
   * otherwise the fallback.
   */
  method Switch<T(0)>(subject: string, arms: seq<CaseArm<T>>, fallback: T) returns (r: T)
    requires WellFormedArms(arms)
    ensures FirstMatch(subject, arms).Some? ==> r == arms[FirstMatch(subject, arms).value].value
    ensures FirstMatch(subject, arms).None? ==> r == fallback
  {
    var sw := new StringSwitch(subject);
    var k := 0;
    while k < |arms|
      invariant k <= |arms|
      invariant sw.str == subject
      invariant RunCases(sw.State(), subject, arms[k..]) == RunCases(None, subject, arms)
    {
      assert arms[k..][1..] == arms[k + 1..];
      var _ := sw.Case(arms[k].lit, arms[k].value);
      k := k + 1;
    }
    FirstMatchWins(subject, arms);
    r := sw.Default(fallback);
  }
}
