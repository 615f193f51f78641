/**
 * The fuzzer's unique-flows rule: an agent result is interesting when the
 * cleaned workflow trace type of its test vector has not been seen before.
 * The rule keeps the set of seen types and counts the ones it added itself.
 */
module UniqueFlows {

  /** A workflow trace of a test vector; its content is not modelled. */
  type Trace(==)

  /** WorkflowTraceType: the shape of a trace as the fuzzer classifies it. */
  type WorkflowTraceType(==)

  datatype TestVector = TestVector(trace: Trace)

  /** The result of one agent run: the id it is stored under and its vector. */
  datatype AgentResult = AgentResult(id: string, vector: TestVector)

  /** The set and the counter after onApply has seen the cleaned type t. */
  function ApplyStep(types: set<WorkflowTraceType>, found: nat, t: WorkflowTraceType): (r: (set<WorkflowTraceType>, nat))
    ensures t in r.0 && types <= r.0
    ensures forall u :: u in r.0 ==> u in types || u == t
    ensures r.1 == found + 1 <==> t !in types
    ensures r.1 == found <==> t in types
  {
    if t in types then (types, found) else (types + {t}, found + 1)
  }

  /** onApply keeps the set as large as the loaded types plus the ones found. */
  lemma ApplyStepKeepsCount(types: set<WorkflowTraceType>, found: nat, t: WorkflowTraceType, initial: nat)
    requires |types| == initial + found
    ensures |ApplyStep(types, found, t).0| == initial + ApplyStep(types, found, t).1
  {
    if t !in types {
      assert types * {t} == {};
    }
  }

  /** Once onApply has seen t, nothing more happens when it sees t again. */
  lemma ApplyStepIdempotent(types: set<WorkflowTraceType>, found: nat, t: WorkflowTraceType)
    ensures var r := ApplyStep(types, found, t); ApplyStep(r.0, r.1, t) == r
  {
  }

  // ---------------------------------------------------------------------------
  // The status report
  // ---------------------------------------------------------------------------

  predicate IsDigit(c: char) {
    '0' <= c <= '9'
  }

  predicate AllDigits(s: string) {
    forall i :: 0 <= i < |s| ==> IsDigit(s[i])
  }

  /** Integer.toString of a non-negative int: decimal, no leading zero. */
  function NatToDecimal(n: nat): (s: string)
    ensures |s| >= 1 && AllDigits(s)
    ensures |s| > 1 ==> s[0] != '0'
  {
    var d := ['0' + (n % 10) as char];
    if n < 10 then d else NatToDecimal(n / 10) + d
  }

  /** The value a string of decimal digits denotes. */
  function DecimalValue(s: string): nat
    requires AllDigits(s)
  {
    if s == [] then 0 else 10 * DecimalValue(s[..|s| - 1]) + (s[|s| - 1] - '0') as nat
  }

  /** Reading the decimal text back gives the number. */
  lemma {:induction false} DecimalRoundTrip(n: nat)
    ensures DecimalValue(NatToDecimal(n)) == n
  {
    var s := NatToDecimal(n);
    if n >= 10 {
      DecimalRoundTrip(n / 10);
      assert s[..|s| - 1] == NatToDecimal(n / 10);
    }
  }

  /** Two runs of digits, each followed by a nonempty tail that starts with a
      non-digit, are the same run when the texts are equal. */
  lemma DigitRunsAgree(x: string, y: string, x': string, y': string)
    requires AllDigits(x) && AllDigits(x')
    requires |y| > 0 && !IsDigit(y[0]) && |y'| > 0 && !IsDigit(y'[0])
    requires x + y == x' + y'
    ensures x == x' && y == y'
  {
    // the first position where either run could end holds a digit exactly
    // when neither has ended
    var m := if |x| < |x'| then |x| else |x'|;
    assert IsDigit((x + y)[m]) <==> m < |x|;
    assert IsDigit((x' + y')[m]) <==> m < |x'|;
    assert x == (x + y)[..|x|];
    assert x' == (x' + y')[..|x'|];
    assert y == (x + y)[|x|..];
    assert y' == (x' + y')[|x'|..];
  }

  /** Equal texts with the same head have equal tails. */
  lemma CancelPrefix(p: string, s: string, t: string)
    requires p + s == p + t
    ensures s == t
  {
    assert s == (p + s)[|p|..];
    assert t == (p + t)[|p|..];
  }

  const OBSERVED_LABEL := "WorkflowTraceTypes observed:"
  const FOUND_LABEL := " WorkFlowTraceTypes found:"

  /** The status line for `observed` known types, `found` of them new. */
  function ReportText(observed: nat, found: nat): (s: string)
    ensures |s| > |OBSERVED_LABEL| + |FOUND_LABEL| && s[..|OBSERVED_LABEL|] == OBSERVED_LABEL && s[|s| - 1] == '\n'
  {
    OBSERVED_LABEL + (NatToDecimal(observed) + (FOUND_LABEL + (NatToDecimal(found) + "\n")))
  }

  /** The report determines both numbers: no two states print the same line. */
  lemma ReportTextInjective(a: nat, b: nat, c: nat, d: nat)
    requires ReportText(a, b) == ReportText(c, d)
    ensures a == c && b == d
  {
    var tailB := FOUND_LABEL + (NatToDecimal(b) + "\n");
    var tailD := FOUND_LABEL + (NatToDecimal(d) + "\n");
    CancelPrefix(OBSERVED_LABEL, NatToDecimal(a) + tailB, NatToDecimal(c) + tailD);
    assert tailB[0] == ' ' && tailD[0] == ' ';
    DigitRunsAgree(NatToDecimal(a), tailB, NatToDecimal(c), tailD);
    CancelPrefix(FOUND_LABEL, NatToDecimal(b) + "\n", NatToDecimal(d) + "\n");
    DigitRunsAgree(NatToDecimal(b), "\n", NatToDecimal(d), "\n");
    DecimalRoundTrip(a);
    DecimalRoundTrip(c);
    DecimalRoundTrip(b);
    DecimalRoundTrip(d);
  }

  // ---------------------------------------------------------------------------
  // The rule
  // ---------------------------------------------------------------------------

  class UniqueFlowsRule {
    /** WorkflowTraceTypeManager.generateWorkflowTraceType(_, CLIENT). */
    const generate: Trace -> WorkflowTraceType
    /** WorkflowTraceType.clean(), as the value it leaves behind. */
    const clean: WorkflowTraceType -> WorkflowTraceType

    var typeSet: set<WorkflowTraceType>
    var found: nat
    /** How many types the stored test vectors contributed at construction. */
    ghost var initialSize: nat

    ghost predicate Valid()
      reads this
    {
      |typeSet| == initialSize + found
    }

    /** The type applies and onApply look at: generated, then cleaned. */
    function CleanedType(r: AgentResult): WorkflowTraceType {
      clean(generate(r.vector.trace))
    }

    /** Loads the types of the test vectors stored by earlier runs, as
        generated and NOT cleaned. */
    constructor (generate: Trace -> WorkflowTraceType, clean: WorkflowTraceType -> WorkflowTraceType, stored: seq<TestVector>)
      ensures this.generate == generate && this.clean == clean
      ensures typeSet == set k | 0 <= k < |stored| :: generate(stored[k].trace)
      ensures found == 0 && Valid()
    {
      var loaded: set<WorkflowTraceType> := {};
      var i := 0;
      while i < |stored|
        invariant 0 <= i <= |stored|
        invariant loaded == set k | 0 <= k < i :: generate(stored[k].trace)
      {
        loaded := loaded + {generate(stored[i].trace)};
        i := i + 1;
      }
      this.generate := generate;
      this.clean := clean;
      typeSet := loaded;
      found := 0;
      initialSize := |loaded|;
    }

    /** The result applies exactly when its cleaned type is new. */
    method Applies(r: AgentResult) returns (b: bool)
      ensures b <==> CleanedType(r) !in typeSet
    {
      var t := clean(generate(r.vector.trace));
      return t !in typeSet;
    }

    /** Records the cleaned type of the result and counts it when it is new. */
    method OnApply(r: AgentResult)
      requires Valid()
      modifies this`typeSet, this`found
      ensures (typeSet, found) == ApplyStep(old(typeSet), old(found), CleanedType(r))
      ensures Valid()
    {
      ApplyStepKeepsCount(typeSet, found, CleanedType(r), initialSize);
      var t := clean(generate(r.vector.trace));
      if t !in typeSet {
        typeSet := typeSet + {t};
        found := found + 1;
      }
    }

    /** A declined result changes nothing. */
    method OnDecline(r: AgentResult)
      ensures typeSet == old(typeSet) && found == old(found)
    {
    }

    function Report(): (s: string)
      reads this
      ensures s == ReportText(|typeSet|, found)
    {
      ReportText(|typeSet|, found)
    }
  }
}
