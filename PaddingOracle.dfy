/**
 * The decision logic of the padding-oracle check: the intra-round scan for a
 * distinguishing response (getEqualityError), the cross-round stability check
 * (lookEqual), the assembly of a round from the probe tasks' outcomes
 * (createVectorResponseList) and the three-round confirm-or-reject verdict
 * (isVulnerable).
 *
 * The probe execution itself (trace generation, the parallel executor, the
 * network) is not modelled: a round enters as the sequence of its tasks'
 * outcomes. The fingerprint comparator is an arbitrary function `cmp`; nothing
 * is assumed about it (not even reflexivity).
 */
module PaddingOracle {
  import opened JavaLang

  /** A crafted probe; compared by value. */
  type PaddingVector(==)
  /** The canonical summary of an observed response. */
  type Fingerprint(==)
  type CipherSuite(==)
  type ProtocolVersion(==)

  /** How two fingerprints differ; NONE when no difference is observable. The
      other constants of the taxonomy are opaque codes here. */
  datatype EqualityError = NONE | Difference(code: nat)

  /** FingerPrintChecker.checkEquality(_, _, true): the tolerant comparison. */
  type Comparator = (Fingerprint, Fingerprint) -> EqualityError

  /** PaddingOracleUnstableException, the only exception the decision logic raises. */
  datatype Unstable = PaddingOracleUnstable

  /** What a VectorResponse carries besides its diagnostic flags. */
  datatype Observation = Observation(vector: PaddingVector, fingerprint: Option<Fingerprint>, length: Option<int>)

  /** The response to one probe of one round. Its data is fixed at creation;
      only the three diagnostic flags change afterwards. */
  class VectorResponse {
    const vector: PaddingVector
    const fingerprint: Option<Fingerprint>
    const version: Option<ProtocolVersion>
    const suite: Option<CipherSuite>
    const length: Option<int>
    var errorDuringHandshake: bool
    var missingEquivalent: bool
    var shaky: bool

    constructor (vector: PaddingVector, fingerprint: Option<Fingerprint>, version: Option<ProtocolVersion>,
                 suite: Option<CipherSuite>, length: Option<int>)
      ensures this.vector == vector && this.fingerprint == fingerprint && this.version == version
      ensures this.suite == suite && this.length == length
      ensures !errorDuringHandshake && !missingEquivalent && !shaky
    {
      this.vector := vector;
      this.fingerprint := fingerprint;
      this.version := version;
      this.suite := suite;
      this.length := length;
      errorDuringHandshake, missingEquivalent, shaky := false, false, false;
    }
  }

  function Observe(r: VectorResponse): Observation {
    Observation(r.vector, r.fingerprint, r.length)
  }

  function Observed(rs: seq<VectorResponse>): (obs: seq<Observation>)
    ensures |obs| == |rs|
    ensures forall k :: 0 <= k < |rs| ==> obs[k] == Observe(rs[k])
  {
    seq(|rs|, k requires 0 <= k < |rs| => Observe(rs[k]))
  }

  /** No response object occurs twice in the round. */
  predicate Distinct(rs: seq<VectorResponse>) {
    forall a, b :: 0 <= a < b < |rs| ==> rs[a] != rs[b]
  }

  // ---------------------------------------------------------------------------
  // The intra-round scan (getEqualityError)
  // ---------------------------------------------------------------------------

  /** The comparison of one ordered pair: skipped (NONE) unless both sides have
      a fingerprint and a length. */
  function Compare(a: Observation, b: Observation, cmp: Comparator): EqualityError {
    if a.fingerprint.Some? && b.fingerprint.Some? && a.length.Some? && b.length.Some?
    then cmp(a.fingerprint.value, b.fingerprint.value)
    else NONE
  }

  /** The results of the ordered pairs of one round: of its response objects,
      or of what the responses carry with positions standing for objects. */
  datatype PairTable = ResponseTable(rs: seq<VectorResponse>, cmp: Comparator)
                     | ObservationTable(obs: seq<Observation>, cmp: Comparator)

  /** Pair (a, b) comes before pair (c, d) in row-major order. */
  predicate Precedes(a: nat, b: nat, c: nat, d: nat) {
    a < c || (a == c && b < d)
  }

  /** The first pair at or after (i, j), in row-major order over n x n, whose
      result is not NONE; (n, 0) when there is none. */
  function FirstDifference(n: nat, pair: PairTable, i: nat, j: nat): (p: (nat, nat))
    requires i <= n && j <= n
    ensures p.0 <= n && (p.0 < n ==> p.1 < n && PairAt(pair, p.0, p.1) != NONE && !Precedes(p.0, p.1, i, j))
    ensures p.0 == n ==> p.1 == 0
    decreases n - i, n - j
  {
    if i == n then (n, 0)
    else if j == n then FirstDifference(n, pair, i + 1, 0)
    else if PairAt(pair, i, j) != NONE then (i, j)
    else FirstDifference(n, pair, i, j + 1)
  }

  /** Every pair the search passes over, from (i, j) up to the one it
      returns, has result NONE. */
  lemma {:induction false} FirstDifferenceSkipsNone(n: nat, pair: PairTable, i: nat, j: nat)
    requires i <= n && j <= n
    ensures var p := FirstDifference(n, pair, i, j);
      forall a: nat, b: nat :: a < n && b < n && !Precedes(a, b, i, j) && Precedes(a, b, p.0, p.1) ==> PairAt(pair, a, b) == NONE
    decreases n - i, n - j
  {
    if i == n {
    } else if j == n {
      FirstDifferenceSkipsNone(n, pair, i + 1, 0);
    } else if PairAt(pair, i, j) != NONE {
    } else {
      FirstDifferenceSkipsNone(n, pair, i, j + 1);
    }
  }

  /** The result of the first differing pair of the table, or NONE. */
  function ScanError(n: nat, pair: PairTable): EqualityError {
    var p := FirstDifference(n, pair, 0, 0);
    if p.0 < n then PairAt(pair, p.0, p.1) else NONE
  }

  /** The scan returns a difference exactly when some pair differs, and what it
      returns is the result of the first differing pair in row-major order. */
  lemma ScanErrorIsFirstDifference(n: nat, pair: PairTable)
    ensures ScanError(n, pair) == NONE <==> forall a: nat, b: nat :: a < n && b < n ==> PairAt(pair, a, b) == NONE
    ensures ScanError(n, pair) != NONE ==>
      exists a: nat, b: nat :: a < n && b < n && PairAt(pair, a, b) == ScanError(n, pair) &&
        forall c: nat, d: nat :: c < n && d < n && Precedes(c, d, a, b) ==> PairAt(pair, c, d) == NONE
  {
    var p := FirstDifference(n, pair, 0, 0);
    FirstDifferenceSkipsNone(n, pair, 0, 0);
    if p.0 < n {
      assert PairAt(pair, p.0, p.1) == ScanError(n, pair);
    } else {
      forall a: nat, b: nat | a < n && b < n ensures PairAt(pair, a, b) == NONE {
        assert Precedes(a, b, p.0, p.1);
      }
    }
  }

  /** Two tables that agree on the n x n pairs give the same first difference. */
  lemma {:induction false} FirstDifferenceAgrees(n: nat, p1: PairTable, p2: PairTable, i: nat, j: nat)
    requires i <= n && j <= n
    requires forall a: nat, b: nat :: a < n && b < n ==> PairAt(p1, a, b) == PairAt(p2, a, b)
    ensures FirstDifference(n, p1, i, j) == FirstDifference(n, p2, i, j)
    decreases n - i, n - j
  {
    if i == n {
    } else if j == n {
      FirstDifferenceAgrees(n, p1, p2, i + 1, 0);
    } else if PairAt(p1, i, j) != NONE {
    } else {
      FirstDifferenceAgrees(n, p1, p2, i, j + 1);
    }
  }

  /** Pair (i, j) of a round of response objects: the pair of an object
      with itself is skipped by reference, whatever its position. */
  function ResponsePair(rs: seq<VectorResponse>, cmp: Comparator, i: nat, j: nat): EqualityError {
    if i < |rs| && j < |rs| && rs[i] != rs[j] then Compare(Observe(rs[i]), Observe(rs[j]), cmp) else NONE
  }

  /** What getEqualityError returns for a round of response objects. */
  function ErrorOf(rs: seq<VectorResponse>, cmp: Comparator): EqualityError {
    ScanError(|rs|, ResponseTable(rs, cmp))
  }

  /** Pair (i, j) of a round of observations, positions standing for objects. */
  function ObservationPair(obs: seq<Observation>, cmp: Comparator, i: nat, j: nat): EqualityError {
    if i < |obs| && j < |obs| && i != j then Compare(obs[i], obs[j], cmp) else NONE
  }

  /** The result of pair (i, j) in the table. */
  function PairAt(t: PairTable, i: nat, j: nat): EqualityError {
    match t
    case ResponseTable(rs, cmp) => ResponsePair(rs, cmp, i, j)
    case ObservationTable(obs, cmp) => ObservationPair(obs, cmp, i, j)
  }

  /** The intra-round classification of a round of distinct responses. */
  function ObservedError(obs: seq<Observation>, cmp: Comparator): EqualityError {
    ScanError(|obs|, ObservationTable(obs, cmp))
  }

  /** For a round without repeated objects, the scan depends only on what the
      responses carry. */
  lemma DistinctRoundError(rs: seq<VectorResponse>, cmp: Comparator)
    requires Distinct(rs)
    ensures ErrorOf(rs, cmp) == ObservedError(Observed(rs), cmp)
    ensures FirstDifference(|rs|, ResponseTable(rs, cmp), 0, 0) == FirstDifference(|rs|, ObservationTable(Observed(rs), cmp), 0, 0)
  {
    var obs := Observed(rs);
    forall a: nat, b: nat | a < |rs| && b < |rs|
      ensures PairAt(ResponseTable(rs, cmp), a, b) == PairAt(ObservationTable(obs, cmp), a, b)
    {
      assert (rs[a] != rs[b]) == (a != b) by {
        if a < b { assert rs[a] != rs[b]; } else if b < a { assert rs[b] != rs[a]; }
      }
    }
    FirstDifferenceAgrees(|rs|, ResponseTable(rs, cmp), ObservationTable(obs, cmp), 0, 0);
  }

  /** A round of zero or one responses has no pair to compare. */
  lemma ShortRoundHasNoError(obs: seq<Observation>, cmp: Comparator)
    requires |obs| <= 1
    ensures ObservedError(obs, cmp) == NONE
  {
    ScanErrorIsFirstDifference(|obs|, ObservationTable(obs, cmp));
  }

  /** A round whose responses all carry a fingerprint and a length, and whose
      fingerprints the comparator finds pairwise equal, gives NONE; one pair
      that the comparator tells apart gives a difference. */
  lemma ObservedErrorNoneIff(obs: seq<Observation>, cmp: Comparator)
    ensures ObservedError(obs, cmp) == NONE <==>
      forall a, b :: 0 <= a < |obs| && 0 <= b < |obs| && a != b ==> Compare(obs[a], obs[b], cmp) == NONE
  {
    var t := ObservationTable(obs, cmp);
    ScanErrorIsFirstDifference(|obs|, t);
    if ObservedError(obs, cmp) == NONE {
      forall a, b | 0 <= a < |obs| && 0 <= b < |obs| && a != b
        ensures Compare(obs[a], obs[b], cmp) == NONE
      {
        assert PairAt(t, a, b) == NONE;
      }
    } else {
      var a: nat, b: nat :| a < |obs| && b < |obs| && PairAt(t, a, b) == ObservedError(obs, cmp) &&
        forall c: nat, d: nat :: c < |obs| && d < |obs| && Precedes(c, d, a, b) ==> PairAt(t, c, d) == NONE;
      assert a != b && Compare(obs[a], obs[b], cmp) != NONE;
    }
  }

  /** Pair (i, j) of the scan marks rs[i]: two different objects, one of them
      without a fingerprint (the self pair is skipped before any flag is set). */
  predicate MarksHandshakeError(rs: seq<VectorResponse>, i: nat, j: nat)
    requires i < |rs| && j < |rs|
  {
    rs[i] != rs[j] && (rs[i].fingerprint.None? || rs[j].fingerprint.None?)
  }

  /** Some pair visited before pair `stop` marks object o. */
  ghost predicate FlaggedByScan(rs: seq<VectorResponse>, o: VectorResponse, stop: (nat, nat)) {
    exists i: nat, j: nat :: i < |rs| && j < |rs| && rs[i] == o && Precedes(i, j, stop.0, stop.1) &&
      MarksHandshakeError(rs, i, j)
  }

  // ---------------------------------------------------------------------------
  // The cross-round check (lookEqual)
  // ---------------------------------------------------------------------------

  /** The position of the first response of `round` probing vector v, or |round|. */
  function FirstMatch(v: PaddingVector, round: seq<Observation>): (m: nat)
    ensures m <= |round|
    ensures m < |round| ==> round[m].vector == v
    ensures forall l :: 0 <= l < m ==> round[l].vector != v
  {
    if round == [] then 0
    else if round[0].vector == v then 0
    else 1 + FirstMatch(v, round[1..])
  }

  /** How one response of the first round fares against the other round. */
  datatype CrossCheck = Consistent | NoFingerprint | MissingEquivalent | PartnerWithoutFingerprint(partner: nat) | Shaky

  function CheckAgainst(r: Observation, round: seq<Observation>, cmp: Comparator): (c: CrossCheck)
    ensures c.PartnerWithoutFingerprint? ==> c.partner < |round|
  {
    var m := FirstMatch(r.vector, round);
    if r.fingerprint.None? then NoFingerprint
    else if m == |round| then MissingEquivalent
    else if round[m].fingerprint.None? then PartnerWithoutFingerprint(m)
    else if cmp(r.fingerprint.value, round[m].fingerprint.value) != NONE then Shaky
    else Consistent
  }

  /** What lookEqual returns when the rounds have the same size. */
  predicate RoundsConsistent(one: seq<Observation>, two: seq<Observation>, cmp: Comparator) {
    forall k :: 0 <= k < |one| ==> CheckAgainst(one[k], two, cmp) == Consistent
  }

  /** Position m of `round` holds the first response probing r's vector, and
      the two carry fingerprints that the comparator finds equal. */
  predicate MatchesAt(r: Observation, round: seq<Observation>, m: nat, cmp: Comparator) {
    m < |round| && round[m].vector == r.vector &&
    (forall l :: 0 <= l < m ==> round[l].vector != r.vector) &&
    r.fingerprint.Some? && round[m].fingerprint.Some? &&
    cmp(r.fingerprint.value, round[m].fingerprint.value) == NONE
  }

  /** Some position of `round` is r's partner as MatchesAt describes. */
  ghost predicate HasMatch(r: Observation, round: seq<Observation>, cmp: Comparator) {
    exists m: nat :: MatchesAt(r, round, m, cmp)
  }

  /** One response is consistent exactly when it has a partner as MatchesAt describes. */
  lemma CheckAgainstConsistentIff(r: Observation, round: seq<Observation>, cmp: Comparator)
    ensures CheckAgainst(r, round, cmp) == Consistent <==> HasMatch(r, round, cmp)
  {
    var fm := FirstMatch(r.vector, round);
    if CheckAgainst(r, round, cmp) == Consistent {
      assert MatchesAt(r, round, fm, cmp);
    }
    if HasMatch(r, round, cmp) {
      var m: nat :| MatchesAt(r, round, m, cmp);
      assert fm < |round| ==> round[fm].vector == r.vector;
      assert round[m].vector == r.vector;
      assert fm == m;
    }
  }

  /** The rounds are consistent exactly when every response of the first round
      has a fingerprint, a first response in the second round with an equal
      vector, that partner has a fingerprint, and the two compare as NONE. */
  lemma RoundsConsistentIff(one: seq<Observation>, two: seq<Observation>, cmp: Comparator)
    ensures RoundsConsistent(one, two, cmp) <==> forall k :: 0 <= k < |one| ==> HasMatch(one[k], two, cmp)
  {
    forall k | 0 <= k < |one| ensures CheckAgainst(one[k], two, cmp) == Consistent <==> HasMatch(one[k], two, cmp) {
      CheckAgainstConsistentIff(one[k], two, cmp);
    }
  }

  /** Response k of `one` checked against `two`. */
  function CheckAt(one: seq<VectorResponse>, two: seq<VectorResponse>, k: nat, cmp: Comparator): (c: CrossCheck)
    requires k < |one|
    ensures c.PartnerWithoutFingerprint? ==> c.partner < |two|
  {
    CheckAgainst(Observe(one[k]), Observed(two), cmp)
  }

  /** Checking every response object of `one` is checking what it carries. */
  lemma AllChecksConsistent(one: seq<VectorResponse>, two: seq<VectorResponse>, cmp: Comparator)
    ensures (forall k :: 0 <= k < |one| ==> CheckAt(one, two, k, cmp) == Consistent) <==>
            RoundsConsistent(Observed(one), Observed(two), cmp)
  {
    var obs := Observed(one);
    assert forall k :: 0 <= k < |one| ==> CheckAt(one, two, k, cmp) == CheckAgainst(obs[k], Observed(two), cmp);
  }

  /** Among the first `upTo` responses of `one`, lookEqual sets
      errorDuringHandshake on o: o has no fingerprint, or o is the partner
      without a fingerprint. */
  ghost predicate HandshakeErrorFound(one: seq<VectorResponse>, two: seq<VectorResponse>, o: VectorResponse, upTo: nat, cmp: Comparator) {
    exists k: nat :: k < upTo && k < |one| &&
      ((one[k] == o && CheckAt(one, two, k, cmp) == NoFingerprint) ||
       (CheckAt(one, two, k, cmp).PartnerWithoutFingerprint? && two[CheckAt(one, two, k, cmp).partner] == o))
  }

  ghost predicate MissingEquivalentFound(one: seq<VectorResponse>, two: seq<VectorResponse>, o: VectorResponse, upTo: nat, cmp: Comparator) {
    exists k: nat :: k < upTo && k < |one| && one[k] == o && CheckAt(one, two, k, cmp) == MissingEquivalent
  }

  ghost predicate ShakyFound(one: seq<VectorResponse>, two: seq<VectorResponse>, o: VectorResponse, upTo: nat, cmp: Comparator) {
    exists k: nat :: k < upTo && k < |one| && one[k] == o && CheckAt(one, two, k, cmp) == Shaky
  }

  // ---------------------------------------------------------------------------
  // Round assembly (the loop of createVectorResponseList after the executor)
  // ---------------------------------------------------------------------------

  /** The terminal state of one probe task. */
  datatype TaskOutcome = TaskOutcome(
    vector: PaddingVector,
    hasError: bool,
    fingerprint: Option<Fingerprint>,
    selectedSuite: Option<CipherSuite>,
    selectedVersion: Option<ProtocolVersion>)

  /** The outcome raises no exception in assembly: the task failed, or it
      negotiated both a suite and a version. */
  predicate Assemblable(o: TaskOutcome) {
    o.hasError || (o.selectedSuite.Some? && o.selectedVersion.Some?)
  }

  /** The position of the first outcome whose assembly throws, or |os|. */
  function AssemblyStop(os: seq<TaskOutcome>): (k: nat)
    ensures k <= |os|
    ensures forall l :: 0 <= l < k ==> Assemblable(os[l])
    ensures k < |os| ==> !Assemblable(os[k])
  {
    if os == [] then 0
    else if !Assemblable(os[0]) then 0
    else 1 + AssemblyStop(os[1..])
  }

  predicate AssemblyOk(os: seq<TaskOutcome>) {
    AssemblyStop(os) == |os|
  }

  /** How many outcomes the assembly loop consumes, the throwing one included. */
  function Processed(os: seq<TaskOutcome>): (k: nat)
    ensures k <= |os|
  {
    if AssemblyOk(os) then |os| else AssemblyStop(os) + 1
  }

  /** testedSuite after the assembly loop has consumed `os`, starting from `prior`:
      every successful task overwrites it. */
  function SuiteAfter(os: seq<TaskOutcome>, prior: Option<CipherSuite>): Option<CipherSuite> {
    if os == [] then prior
    else if os[|os| - 1].hasError then SuiteAfter(os[..|os| - 1], prior)
    else os[|os| - 1].selectedSuite
  }

  function VersionAfter(os: seq<TaskOutcome>, prior: Option<ProtocolVersion>): Option<ProtocolVersion> {
    if os == [] then prior
    else if os[|os| - 1].hasError then VersionAfter(os[..|os| - 1], prior)
    else os[|os| - 1].selectedVersion
  }

  /** testedSuite ends as the suite of the last successful task. */
  lemma {:induction false} SuiteAfterIsLastSuccess(os: seq<TaskOutcome>, prior: Option<CipherSuite>, k: nat)
    requires k < |os| && !os[k].hasError
    requires forall l :: k < l < |os| ==> os[l].hasError
    ensures SuiteAfter(os, prior) == os[k].selectedSuite
    decreases |os|
  {
    var n := |os| - 1;
    if k < n {
      var init := os[..n];
      assert os[n].hasError;
      assert init[k] == os[k];
      assert forall l :: k < l < |init| ==> init[l].hasError;
      SuiteAfterIsLastSuccess(init, prior, k);
    }
  }

  /** testedSuite is unchanged when every task failed. */
  lemma {:induction false} SuiteAfterAllFailed(os: seq<TaskOutcome>, prior: Option<CipherSuite>)
    requires forall k :: 0 <= k < |os| ==> os[k].hasError
    ensures SuiteAfter(os, prior) == prior
    decreases |os|
  {
    if os != [] {
      var init := os[..|os| - 1];
      assert forall k :: 0 <= k < |init| ==> init[k].hasError;
      SuiteAfterAllFailed(init, prior);
    }
  }

  /** The fold over rounds run one after another is the fold over their concatenation. */
  lemma {:induction false} SuiteAfterConcat(a: seq<TaskOutcome>, b: seq<TaskOutcome>, prior: Option<CipherSuite>)
    ensures SuiteAfter(a + b, prior) == SuiteAfter(b, SuiteAfter(a, prior))
    decreases |b|
  {
    if b != [] {
      var init := b[..|b| - 1];
      assert (a + b)[..|a + b| - 1] == a + init;
      SuiteAfterConcat(a, init, prior);
    } else {
      assert a + b == a;
    }
  }

  lemma {:induction false} VersionAfterConcat(a: seq<TaskOutcome>, b: seq<TaskOutcome>, prior: Option<ProtocolVersion>)
    ensures VersionAfter(a + b, prior) == VersionAfter(b, VersionAfter(a, prior))
    decreases |b|
  {
    if b != [] {
      var init := b[..|b| - 1];
      assert (a + b)[..|a + b| - 1] == a + init;
      VersionAfterConcat(a, init, prior);
    } else {
      assert a + b == a;
    }
  }

  /** One more outcome consumed by the assembly loop. */
  lemma AssemblyFoldStep(os: seq<TaskOutcome>, i: nat, suite: Option<CipherSuite>, version: Option<ProtocolVersion>)
    requires i < |os|
    ensures SuiteAfter(os[..i + 1], suite) == if os[i].hasError then SuiteAfter(os[..i], suite) else os[i].selectedSuite
    ensures VersionAfter(os[..i + 1], version) == if os[i].hasError then VersionAfter(os[..i], version) else os[i].selectedVersion
    ensures AnyFailed(os[..i + 1]) <==> AnyFailed(os[..i]) || os[i].hasError
    ensures SuiteTrail(os[..i + 1], suite) == SuiteTrail(os[..i], suite) + [SuiteAfter(os[..i + 1], suite)]
    ensures VersionTrail(os[..i + 1], version) == VersionTrail(os[..i], version) + [VersionAfter(os[..i + 1], version)]
  {
    assert os[..i + 1][..i] == os[..i];
    assert forall k :: 0 <= k < i ==> os[..i + 1][k] == os[..i][k];
  }

  /** A task failed among the outcomes. */
  predicate AnyFailed(os: seq<TaskOutcome>) {
    exists k :: 0 <= k < |os| && os[k].hasError
  }

  /** testedSuite as it stands after each task of `os` has been consumed. */
  function SuiteTrail(os: seq<TaskOutcome>, prior: Option<CipherSuite>): (t: seq<Option<CipherSuite>>)
    ensures |t| == |os|
  {
    if os == [] then [] else SuiteTrail(os[..|os| - 1], prior) + [SuiteAfter(os, prior)]
  }

  function VersionTrail(os: seq<TaskOutcome>, prior: Option<ProtocolVersion>): (t: seq<Option<ProtocolVersion>>)
    ensures |t| == |os|
  {
    if os == [] then [] else VersionTrail(os[..|os| - 1], prior) + [VersionAfter(os, prior)]
  }

  /** Entry k of the trail is the value after the first k + 1 tasks: a failed
      task's response carries the value left by the tasks before it, a
      successful one its own negotiated value. */
  lemma {:induction false} TrailAt(os: seq<TaskOutcome>, suite: Option<CipherSuite>, version: Option<ProtocolVersion>, k: nat)
    requires k < |os|
    ensures SuiteTrail(os, suite)[k] == SuiteAfter(os[..k + 1], suite)
    ensures VersionTrail(os, version)[k] == VersionAfter(os[..k + 1], version)
    decreases |os|
  {
    var n := |os| - 1;
    if k < n {
      assert os[..n][..k + 1] == os[..k + 1];
      TrailAt(os[..n], suite, version, k);
    } else {
      assert os[..k + 1] == os;
    }
  }

  /** The flags of a freshly assembled response: only a failed task's
      response is marked, with errorDuringHandshake. */
  predicate InitialFlags(v: VectorResponse, o: TaskOutcome)
    reads v
  {
    v.errorDuringHandshake == o.hasError && !v.missingEquivalent && !v.shaky
  }

  /** What the response assembled for one task carries. */
  function AssembledOne(o: TaskOutcome, defaultLength: int): Observation {
    Observation(o.vector, if o.hasError then None else o.fingerprint, Some(defaultLength))
  }

  /** What an assembled round carries: a failed task has no fingerprint, and
      every response gets the configured default application-data length. */
  function Assembled(os: seq<TaskOutcome>, defaultLength: int): (obs: seq<Observation>)
    ensures |obs| == |os|
    ensures forall k :: 0 <= k < |os| ==> obs[k].vector == os[k].vector && obs[k].length == Some(defaultLength)
    ensures forall k :: 0 <= k < |os| ==> obs[k].fingerprint == if os[k].hasError then None else os[k].fingerprint
  {
    seq(|os|, k requires 0 <= k < |os| => AssembledOne(os[k], defaultLength))
  }

  /** The first |rs| tasks of `os` have been assembled into rs: each response
      carries its task's observation and flags, and the suite and version
      recorded for it. */
  ghost predicate RoundBuilt(rs: seq<VectorResponse>, os: seq<TaskOutcome>, suites: seq<Option<CipherSuite>>,
                             versions: seq<Option<ProtocolVersion>>, len: int)
    reads rs
  {
    |rs| == |suites| == |versions| && |rs| <= |os| &&
    forall k :: 0 <= k < |rs| ==>
      Observe(rs[k]) == AssembledOne(os[k], len) && InitialFlags(rs[k], os[k]) &&
      rs[k].suite == suites[k] && rs[k].version == versions[k]
  }

  lemma RoundBuiltAppend(rs: seq<VectorResponse>, os: seq<TaskOutcome>, suites: seq<Option<CipherSuite>>,
                         versions: seq<Option<ProtocolVersion>>, len: int, v: VectorResponse)
    requires RoundBuilt(rs, os, suites, versions, len) && |rs| < |os|
    requires Observe(v) == AssembledOne(os[|rs|], len) && InitialFlags(v, os[|rs|])
    ensures RoundBuilt(rs + [v], os, suites + [v.suite], versions + [v.version], len)
  {
  }

  /** A completely built round observes what Assembled describes. */
  lemma RoundBuiltObserved(rs: seq<VectorResponse>, os: seq<TaskOutcome>, suites: seq<Option<CipherSuite>>,
                           versions: seq<Option<ProtocolVersion>>, len: int)
    requires RoundBuilt(rs, os, suites, versions, len) && |rs| == |os|
    ensures Observed(rs) == Assembled(os, len)
  {
  }


  // ---------------------------------------------------------------------------
  // The three-round verdict (isVulnerable), on values
  // ---------------------------------------------------------------------------

  /** What running one round gives: the outcomes of its tasks, or an
      AttackFailedException before any response is assembled. */
  datatype RoundExecution = Executed(outcomes: seq<TaskOutcome>) | AttackFailed

  /** isVulnerable's result: true/false, null (Inconclusive), or a propagated
      PaddingOracleUnstableException (Unstable). */
  datatype VulnerabilityResult = Verdict(vulnerable: bool) | Inconclusive | Unstable

  /** One confirmation round compared with the first. */
  datatype Rescan = Confirmed | Rejected | RescanInconclusive | RescanUnstable

  predicate Builds(r: RoundExecution) {
    r.Executed? && AssemblyOk(r.outcomes)
  }

  function RoundObservations(r: RoundExecution, len: int): seq<Observation>
    requires r.Executed?
  {
    Assembled(r.outcomes, len)
  }

  function RescanOf(first: seq<Observation>, e1: EqualityError, r: RoundExecution, cmp: Comparator, len: int): Rescan {
    if r.AttackFailed? then RescanInconclusive
    else if !AssemblyOk(r.outcomes) then RescanUnstable
    else CompareRounds(first, e1, RoundObservations(r, len), cmp)
  }

  /** A built confirmation round `obs` against the first round: a different
      classification rejects, a different size is unstable, and otherwise the
      cross-check decides. */
  function CompareRounds(first: seq<Observation>, e1: EqualityError, obs: seq<Observation>, cmp: Comparator): Rescan {
    if ObservedError(obs, cmp) != e1 then Rejected
    else if |first| != |obs| then RescanUnstable
    else if !RoundsConsistent(first, obs, cmp) then Rejected
    else Confirmed
  }

  /** The classification of the first round, NONE when it did not build. */
  function InitialError(r1: RoundExecution, cmp: Comparator, len: int): EqualityError {
    if Builds(r1) then ObservedError(RoundObservations(r1, len), cmp) else NONE
  }

  predicate ReachesSecond(r1: RoundExecution, cmp: Comparator, len: int) {
    Builds(r1) && InitialError(r1, cmp, len) != NONE
  }

  function SecondRescan(r1: RoundExecution, r2: RoundExecution, cmp: Comparator, len: int): Rescan
    requires ReachesSecond(r1, cmp, len)
  {
    RescanOf(RoundObservations(r1, len), InitialError(r1, cmp, len), r2, cmp, len)
  }

  predicate ReachesThird(r1: RoundExecution, r2: RoundExecution, cmp: Comparator, len: int) {
    ReachesSecond(r1, cmp, len) && SecondRescan(r1, r2, cmp, len) == Confirmed
  }

  function ThirdRescan(r1: RoundExecution, r3: RoundExecution, cmp: Comparator, len: int): Rescan
    requires ReachesSecond(r1, cmp, len)
  {
    RescanOf(RoundObservations(r1, len), InitialError(r1, cmp, len), r3, cmp, len)
  }

  /** The verdict a rescan settles: a rejection is not vulnerable, an attack
      failure is null, an unstable round propagates; a confirmation defers to
      `confirmed`. */
  function Settle(rescan: Rescan, confirmed: VulnerabilityResult): VulnerabilityResult {
    match rescan
    case RescanInconclusive => Inconclusive
    case RescanUnstable => Unstable
    case Rejected => Verdict(false)
    case Confirmed => confirmed
  }

  /** The verdict once the first round shows a difference: the first rescan
      must confirm it before the second is run, and the second must confirm it too. */
  function Confirm(first: seq<Observation>, e1: EqualityError, r2: RoundExecution, r3: RoundExecution, cmp: Comparator, len: int): VulnerabilityResult {
    Settle(RescanOf(first, e1, r2, cmp, len), Settle(RescanOf(first, e1, r3, cmp, len), Verdict(true)))
  }

  /** The verdict of isVulnerable for the three rounds the target would give. */
  function Decide(r1: RoundExecution, r2: RoundExecution, r3: RoundExecution, cmp: Comparator, len: int): VulnerabilityResult {
    if r1.AttackFailed? then Inconclusive
    else if !AssemblyOk(r1.outcomes) then Unstable
    else if !ReachesSecond(r1, cmp, len) then Verdict(false)
    else Confirm(RoundObservations(r1, len), InitialError(r1, cmp, len), r2, r3, cmp, len)
  }

  /** A rescan rejected the first round's finding: shakyScans is set. */
  predicate RejectedByRescan(r1: RoundExecution, r2: RoundExecution, r3: RoundExecution, cmp: Comparator, len: int) {
    ReachesSecond(r1, cmp, len) &&
    (SecondRescan(r1, r2, cmp, len) == Rejected ||
     (SecondRescan(r1, r2, cmp, len) == Confirmed && ThirdRescan(r1, r3, cmp, len) == Rejected))
  }

  /** The outcomes the assembly loop consumed from one round. */
  function Consumed(r: RoundExecution): seq<TaskOutcome> {
    if r.Executed? then r.outcomes[..Processed(r.outcomes)] else []
  }

  /** The outcomes the rescans consumed: the second round's only when the
      first rescan confirmed. */
  function RescanTasks(first: seq<Observation>, e1: EqualityError, r2: RoundExecution, r3: RoundExecution, cmp: Comparator, len: int): seq<TaskOutcome> {
    Consumed(r2) + (if RescanOf(first, e1, r2, cmp, len) == Confirmed then Consumed(r3) else [])
  }

  /** All outcomes the assembly loops consumed, in order, over the rounds that ran. */
  function ConsumedTasks(r1: RoundExecution, r2: RoundExecution, r3: RoundExecution, cmp: Comparator, len: int): seq<TaskOutcome> {
    Consumed(r1) +
    (if ReachesSecond(r1, cmp, len) then RescanTasks(RoundObservations(r1, len), InitialError(r1, cmp, len), r2, r3, cmp, len) else [])
  }

  /** Past a differing first round, the verdict, the tasks consumed and the
      shaky flag follow from what the two rescans give. */
  lemma ReachedSecond(r1: RoundExecution, r2: RoundExecution, r3: RoundExecution, cmp: Comparator, len: int,
                      first: seq<Observation>, e1: EqualityError, second: Rescan, third: Rescan)
    requires ReachesSecond(r1, cmp, len) && first == RoundObservations(r1, len) && e1 == InitialError(r1, cmp, len)
    requires second == RescanOf(first, e1, r2, cmp, len) && third == RescanOf(first, e1, r3, cmp, len)
    ensures Decide(r1, r2, r3, cmp, len) == Settle(second, Settle(third, Verdict(true)))
    ensures ConsumedTasks(r1, r2, r3, cmp, len) == Consumed(r1) + (Consumed(r2) + (if second == Confirmed then Consumed(r3) else []))
    ensures ReachesThird(r1, r2, cmp, len) <==> second == Confirmed
    ensures RejectedByRescan(r1, r2, r3, cmp, len) <==> (second == Rejected || (second == Confirmed && third == Rejected))
  {
    assert Consumed(r2) + [] == Consumed(r2);
  }

  /** Without a differing first round, only the first round's tasks are
      consumed and no rescan runs. */
  lemma StoppedAtFirst(r1: RoundExecution, r2: RoundExecution, r3: RoundExecution, cmp: Comparator, len: int)
    requires !ReachesSecond(r1, cmp, len)
    ensures Decide(r1, r2, r3, cmp, len) ==
      if r1.AttackFailed? then Inconclusive else if !Builds(r1) then Unstable else Verdict(false)
    ensures ConsumedTasks(r1, r2, r3, cmp, len) == Consumed(r1)
    ensures !ReachesThird(r1, r2, cmp, len) && !RejectedByRescan(r1, r2, r3, cmp, len)
  {
    assert Consumed(r1) + [] == Consumed(r1);
  }

  // ---------------------------------------------------------------------------
  // Properties of the verdict
  // ---------------------------------------------------------------------------

  /** A clean first round is final: not vulnerable, no rescan, nothing shaky. */
  lemma CleanFirstRoundIsFinal(r1: RoundExecution, r2: RoundExecution, r3: RoundExecution, cmp: Comparator, len: int)
    requires Builds(r1) && ObservedError(RoundObservations(r1, len), cmp) == NONE
    ensures Decide(r1, r2, r3, cmp, len) == Verdict(false)
    ensures !ReachesSecond(r1, cmp, len) && !RejectedByRescan(r1, r2, r3, cmp, len)
    ensures ConsumedTasks(r1, r2, r3, cmp, len) == r1.outcomes
  {
    assert r1.outcomes[..|r1.outcomes|] == r1.outcomes;
  }

  /** true only if the first round differs, both rescans reproduce the very
      same classification with rounds of the same size, and both cross-checks
      against the first round hold; and then it is true. */
  lemma VulnerableIffConfirmedTwice(r1: RoundExecution, r2: RoundExecution, r3: RoundExecution, cmp: Comparator, len: int)
    ensures Decide(r1, r2, r3, cmp, len) == Verdict(true) <==>
      Builds(r1) && Builds(r2) && Builds(r3) &&
      var o1 := RoundObservations(r1, len);
      var o2 := RoundObservations(r2, len);
      var o3 := RoundObservations(r3, len);
      ObservedError(o1, cmp) != NONE &&
      ObservedError(o2, cmp) == ObservedError(o1, cmp) && ObservedError(o3, cmp) == ObservedError(o1, cmp) &&
      |o2| == |o1| && |o3| == |o1| &&
      RoundsConsistent(o1, o2, cmp) && RoundsConsistent(o1, o3, cmp)
  {
  }

  /** Every rejection by a rescan is a not-vulnerable verdict with shakyScans
      set, and a not-vulnerable verdict after a differing first round is always
      such a rejection. */
  lemma RejectionIsShaky(r1: RoundExecution, r2: RoundExecution, r3: RoundExecution, cmp: Comparator, len: int)
    ensures RejectedByRescan(r1, r2, r3, cmp, len) <==>
      ReachesSecond(r1, cmp, len) && Decide(r1, r2, r3, cmp, len) == Verdict(false)
  {
  }

  /** A null verdict comes only from an attack failure in a round that was run. */
  lemma InconclusiveOnlyOnAttackFailure(r1: RoundExecution, r2: RoundExecution, r3: RoundExecution, cmp: Comparator, len: int)
    ensures Decide(r1, r2, r3, cmp, len) == Inconclusive <==>
      r1.AttackFailed? ||
      (ReachesSecond(r1, cmp, len) && r2.AttackFailed?) ||
      (ReachesThird(r1, r2, cmp, len) && r3.AttackFailed?)
  {
  }

  /** A rescan that reproduces the first round's classification but with a
      different number of responses raises PaddingOracleUnstableException. */
  lemma SizeMismatchIsUnstable(r1: RoundExecution, r2: RoundExecution, r3: RoundExecution, cmp: Comparator, len: int)
    requires ReachesSecond(r1, cmp, len) && Builds(r2)
    requires ObservedError(RoundObservations(r2, len), cmp) == InitialError(r1, cmp, len)
    requires |r2.outcomes| != |r1.outcomes|
    ensures Decide(r1, r2, r3, cmp, len) == Unstable
  {
  }

  /** Every response of a round without failed tasks, whose vectors are
      pairwise distinct and whose fingerprints the comparator finds equal to
      themselves, is consistent with the same round run again. */
  lemma {:induction false} IdenticalRoundIsConsistent(obs: seq<Observation>, cmp: Comparator)
    requires forall a, b :: 0 <= a < b < |obs| ==> obs[a].vector != obs[b].vector
    requires forall k :: 0 <= k < |obs| ==> obs[k].fingerprint.Some?
    requires forall k :: 0 <= k < |obs| ==> cmp(obs[k].fingerprint.value, obs[k].fingerprint.value) == NONE
    ensures RoundsConsistent(obs, obs, cmp)
  {
    forall k | 0 <= k < |obs| ensures CheckAgainst(obs[k], obs, cmp) == Consistent {
      var m := FirstMatch(obs[k].vector, obs);
      assert m < |obs| ==> obs[m].vector == obs[k].vector;
      assert m == k;
    }
  }

  /** A target that answers every probe and reproduces the same observations
      in all three rounds, with a difference in the first, is found vulnerable. */
  lemma StableDifferenceIsVulnerable(r: RoundExecution, cmp: Comparator, len: int)
    requires r.Executed?
    requires forall k :: 0 <= k < |r.outcomes| ==>
      !r.outcomes[k].hasError && r.outcomes[k].fingerprint.Some? &&
      r.outcomes[k].selectedSuite.Some? && r.outcomes[k].selectedVersion.Some?
    requires forall a, b :: 0 <= a < b < |r.outcomes| ==> r.outcomes[a].vector != r.outcomes[b].vector
    requires forall k :: 0 <= k < |r.outcomes| ==>
      cmp(r.outcomes[k].fingerprint.value, r.outcomes[k].fingerprint.value) == NONE
    requires ObservedError(RoundObservations(r, len), cmp) != NONE
    ensures Decide(r, r, r, cmp, len) == Verdict(true)
  {
    var obs := RoundObservations(r, len);
    assert AssemblyOk(r.outcomes);
    IdenticalRoundIsConsistent(obs, cmp);
  }

  // ---------------------------------------------------------------------------
  // Steps of the loops, on the ghost descriptions of the flags
  // ---------------------------------------------------------------------------

  /** Visiting pair (i, j) adds at most the mark that pair sets on rs[i]. */
  lemma ScanStep(rs: seq<VectorResponse>, i: nat, j: nat)
    requires i < |rs| && j < |rs|
    ensures forall o :: FlaggedByScan(rs, o, (i, j + 1)) <==>
      FlaggedByScan(rs, o, (i, j)) || (rs[i] == o && MarksHandshakeError(rs, i, j))
  {
    forall o
      ensures FlaggedByScan(rs, o, (i, j + 1)) <==>
        FlaggedByScan(rs, o, (i, j)) || (rs[i] == o && MarksHandshakeError(rs, i, j))
    {
      if FlaggedByScan(rs, o, (i, j + 1)) {
        var a: nat, b: nat :| a < |rs| && b < |rs| && rs[a] == o && Precedes(a, b, i, j + 1) && MarksHandshakeError(rs, a, b);
        if !(a == i && b == j) {
          assert Precedes(a, b, i, j);
        }
      }
      if FlaggedByScan(rs, o, (i, j)) {
        var a: nat, b: nat :| a < |rs| && b < |rs| && rs[a] == o && Precedes(a, b, i, j) && MarksHandshakeError(rs, a, b);
        assert Precedes(a, b, i, j + 1);
      }
      if rs[i] == o && MarksHandshakeError(rs, i, j) {
        assert Precedes(i, j, i, j + 1);
      }
    }
  }

  /** The end of row i is the start of row i + 1. */
  lemma RowEnd(rs: seq<VectorResponse>, i: nat)
    requires i < |rs|
    ensures forall o :: FlaggedByScan(rs, o, (i, |rs|)) <==> FlaggedByScan(rs, o, (i + 1, 0))
  {
    forall o ensures FlaggedByScan(rs, o, (i, |rs|)) <==> FlaggedByScan(rs, o, (i + 1, 0)) {
      if FlaggedByScan(rs, o, (i, |rs|)) {
        var a: nat, b: nat :| a < |rs| && b < |rs| && rs[a] == o && Precedes(a, b, i, |rs|) && MarksHandshakeError(rs, a, b);
        assert Precedes(a, b, i + 1, 0);
      }
      if FlaggedByScan(rs, o, (i + 1, 0)) {
        var a: nat, b: nat :| a < |rs| && b < |rs| && rs[a] == o && Precedes(a, b, i + 1, 0) && MarksHandshakeError(rs, a, b);
        assert Precedes(a, b, i, |rs|);
      }
    }
  }

  /** Cross-checking response i adds exactly the flag its outcome calls for. */
  lemma CrossCheckStep(one: seq<VectorResponse>, two: seq<VectorResponse>, i: nat, cmp: Comparator)
    requires i < |one|
    ensures forall o ::
      (HandshakeErrorFound(one, two, o, i + 1, cmp) <==>
        HandshakeErrorFound(one, two, o, i, cmp) ||
        (one[i] == o && CheckAt(one, two, i, cmp) == NoFingerprint) ||
        (CheckAt(one, two, i, cmp).PartnerWithoutFingerprint? && two[CheckAt(one, two, i, cmp).partner] == o)) &&
      (MissingEquivalentFound(one, two, o, i + 1, cmp) <==>
        MissingEquivalentFound(one, two, o, i, cmp) || (one[i] == o && CheckAt(one, two, i, cmp) == MissingEquivalent)) &&
      (ShakyFound(one, two, o, i + 1, cmp) <==>
        ShakyFound(one, two, o, i, cmp) || (one[i] == o && CheckAt(one, two, i, cmp) == Shaky))
  {
    forall o
      ensures HandshakeErrorFound(one, two, o, i + 1, cmp) <==>
        HandshakeErrorFound(one, two, o, i, cmp) ||
        (one[i] == o && CheckAt(one, two, i, cmp) == NoFingerprint) ||
        (CheckAt(one, two, i, cmp).PartnerWithoutFingerprint? && two[CheckAt(one, two, i, cmp).partner] == o)
      ensures MissingEquivalentFound(one, two, o, i + 1, cmp) <==>
        MissingEquivalentFound(one, two, o, i, cmp) || (one[i] == o && CheckAt(one, two, i, cmp) == MissingEquivalent)
      ensures ShakyFound(one, two, o, i + 1, cmp) <==>
        ShakyFound(one, two, o, i, cmp) || (one[i] == o && CheckAt(one, two, i, cmp) == Shaky)
    {
      if HandshakeErrorFound(one, two, o, i + 1, cmp) {
        var k: nat :| k < i + 1 && k < |one| &&
          ((one[k] == o && CheckAt(one, two, k, cmp) == NoFingerprint) ||
           (CheckAt(one, two, k, cmp).PartnerWithoutFingerprint? && two[CheckAt(one, two, k, cmp).partner] == o));
        if k < i {
          assert HandshakeErrorFound(one, two, o, i, cmp);
        }
      }
    }
  }

  lemma AnyFailedConcat(a: seq<TaskOutcome>, b: seq<TaskOutcome>)
    ensures AnyFailed(a + b) <==> AnyFailed(a) || AnyFailed(b)
  {
    if AnyFailed(a) {
      var k :| 0 <= k < |a| && a[k].hasError;
      assert (a + b)[k] == a[k];
    }
    if AnyFailed(b) {
      var k :| 0 <= k < |b| && b[k].hasError;
      assert (a + b)[|a| + k] == b[k];
    }
    if AnyFailed(a + b) {
      var k :| 0 <= k < |a + b| && (a + b)[k].hasError;
      if k < |a| {
        assert a[k] == (a + b)[k];
      } else {
        assert b[k - |a|] == (a + b)[k];
      }
    }
  }

  /** The fields the assembly loops update (testedSuite, testedVersion,
      errornousScans) after the outcomes `tasks`, from their prior values. */
  predicate TestedAfter(tasks: seq<TaskOutcome>,
                        suite: Option<CipherSuite>, version: Option<ProtocolVersion>, errornous: bool,
                        suite0: Option<CipherSuite>, version0: Option<ProtocolVersion>, errornous0: bool) {
    suite == SuiteAfter(tasks, suite0) && version == VersionAfter(tasks, version0) &&
    errornous == (errornous0 || AnyFailed(tasks))
  }

  /** Those fields over two consecutive stretches of outcomes are those fields
      over their concatenation. */
  lemma AfterConcat(a: seq<TaskOutcome>, b: seq<TaskOutcome>,
                    suite0: Option<CipherSuite>, version0: Option<ProtocolVersion>, errornous0: bool,
                    suite1: Option<CipherSuite>, version1: Option<ProtocolVersion>, errornous1: bool,
                    suite2: Option<CipherSuite>, version2: Option<ProtocolVersion>, errornous2: bool)
    requires TestedAfter(a, suite1, version1, errornous1, suite0, version0, errornous0)
    requires TestedAfter(b, suite2, version2, errornous2, suite1, version1, errornous1)
    ensures TestedAfter(a + b, suite2, version2, errornous2, suite0, version0, errornous0)
  {
    SuiteAfterConcat(a, b, suite0);
    VersionAfterConcat(a, b, version0);
    AnyFailedConcat(a, b);
  }

  /** One of the three list fields of the attacker after isVulnerable: the
      round's responses when the round was run and built, untouched otherwise. */
  predicate StoredRound(ran: bool, r: RoundExecution, len: int,
                        now: Option<seq<VectorResponse>>, before: Option<seq<VectorResponse>>) {
    if ran && Builds(r) then now.Some? && Observed(now.value) == RoundObservations(r, len) else now == before
  }

  // ---------------------------------------------------------------------------
  // The diagnostic flags isVulnerable leaves on the first round
  // ---------------------------------------------------------------------------

  /** The three diagnostic flags of a response, as a value. */
  datatype Flags = Flags(errorDuringHandshake: bool, missingEquivalent: bool, shaky: bool)

  function FlagsOf(r: VectorResponse): Flags
    reads r
  {
    Flags(r.errorDuringHandshake, r.missingEquivalent, r.shaky)
  }

  /** The flags of a first-round response after lookEqual checked it with
      outcome c (None: it was not checked). A partner without a fingerprint
      is marked in the other round, not here. */
  function Mark(f: Flags, c: Option<CrossCheck>): Flags {
    Flags(f.errorDuringHandshake || c == Some(NoFingerprint),
          f.missingEquivalent || c == Some(MissingEquivalent),
          f.shaky || c == Some(Shaky))
  }

  /** The responses of a round that may not have been built. */
  function Responses(list: Option<seq<VectorResponse>>): seq<VectorResponse> {
    if list.Some? then list.value else []
  }

  /** The flags of a round's responses, in order. */
  function FlagsOfRound(rs: seq<VectorResponse>): (fs: seq<Flags>)
    reads rs
    ensures |fs| == |rs|
    ensures forall k :: 0 <= k < |rs| ==> fs[k] == FlagsOf(rs[k])
  {
    seq(|rs|, k reads rs requires 0 <= k < |rs| => FlagsOf(rs[k]))
  }

  /** What a confirmation round that was built carries; None when it was not. */
  function BuiltObservations(r: RoundExecution, len: int): Option<seq<Observation>> {
    if Builds(r) then Some(RoundObservations(r, len)) else None
  }

  /** The outcome of lookEqual's check of first-round response k against a
      built confirmation round `obs`. lookEqual runs its loop only when the
      confirmation round reproduces the first round's classification e1 and
      has the same size (a different size throws before any flag is set);
      None when it does not run. */
  function CrossCheckOf(first: seq<Observation>, e1: EqualityError, obs: Option<seq<Observation>>, cmp: Comparator, k: nat)
    : Option<CrossCheck>
    requires k < |first|
  {
    if obs.Some? && ObservedError(obs.value, cmp) == e1 && |first| == |obs.value|
    then Some(CheckAgainst(first[k], obs.value, cmp))
    else None
  }

  /** The first round's flags fs after the cross-check against `obs`. */
  function MarkRound(fs: seq<Flags>, first: seq<Observation>, e1: EqualityError, obs: Option<seq<Observation>>, cmp: Comparator)
    : (gs: seq<Flags>)
    requires |fs| == |first|
    ensures |gs| == |fs|
  {
    seq(|fs|, k requires 0 <= k < |fs| => Mark(fs[k], CrossCheckOf(first, e1, obs, cmp, k)))
  }

  /** The first round's flags fs after the two confirmation rounds; the third
      round runs only when the second confirmed. */
  function RescanRound(fs: seq<Flags>, first: seq<Observation>, e1: EqualityError, r2: RoundExecution, r3: RoundExecution,
                       cmp: Comparator, len: int): (gs: seq<Flags>)
    requires |fs| == |first|
    ensures |gs| == |fs|
  {
    var f2 := MarkRound(fs, first, e1, BuiltObservations(r2, len), cmp);
    if RescanOf(first, e1, r2, cmp, len) == Confirmed then MarkRound(f2, first, e1, BuiltObservations(r3, len), cmp) else f2
  }

  /** Position k of a round is marked by getEqualityError: a pair (k, j) with
      j != k, visited before the scan stopped, lacks a fingerprint on a side. */
  predicate ScanMarked(obs: seq<Observation>, cmp: Comparator, k: nat) {
    var stop := FirstDifference(|obs|, ObservationTable(obs, cmp), 0, 0);
    k < |obs| &&
    exists j :: 0 <= j < |obs| && j != k && Precedes(k, j, stop.0, stop.1) &&
      (obs[k].fingerprint.None? || obs[j].fingerprint.None?)
  }

  /** The flags of a freshly assembled round: only a failed task's response
      is marked, with errorDuringHandshake. */
  function InitialRoundFlags(os: seq<TaskOutcome>): (fs: seq<Flags>)
    ensures |fs| == |os|
  {
    seq(|os|, k requires 0 <= k < |os| => Flags(os[k].hasError, false, false))
  }

  /** The flags fs of a round carrying `obs` after getEqualityError: every
      response the scan marks gets errorDuringHandshake. */
  function ScanFlags(fs: seq<Flags>, obs: seq<Observation>, cmp: Comparator): (gs: seq<Flags>)
    requires |fs| == |obs|
    ensures |gs| == |fs|
  {
    seq(|fs|, k requires 0 <= k < |fs| =>
      Flags(fs[k].errorDuringHandshake || ScanMarked(obs, cmp, k), fs[k].missingEquivalent, fs[k].shaky))
  }

  /** The flags of a built round once getEqualityError has classified it. */
  function ClassifiedRoundFlags(r1: RoundExecution, cmp: Comparator, len: int): (fs: seq<Flags>)
    requires Builds(r1)
    ensures |fs| == |r1.outcomes|
  {
    ScanFlags(InitialRoundFlags(r1.outcomes), RoundObservations(r1, len), cmp)
  }

  /** The flags isVulnerable leaves on the first round. */
  function FinalFlags(r1: RoundExecution, r2: RoundExecution, r3: RoundExecution, cmp: Comparator, len: int): (fs: seq<Flags>)
    requires Builds(r1)
    ensures |fs| == |r1.outcomes|
  {
    var f := ClassifiedRoundFlags(r1, cmp, len);
    if ReachesSecond(r1, cmp, len)
    then RescanRound(f, RoundObservations(r1, len), InitialError(r1, cmp, len), r2, r3, cmp, len)
    else f
  }

  /** Position j of a confirmation round `obs` is the first equivalent, found
      without a fingerprint, of some response of the first round: lookEqual
      marks it with errorDuringHandshake. */
  predicate PartnerMarked(first: seq<Observation>, obs: seq<Observation>, cmp: Comparator, j: nat) {
    exists k :: 0 <= k < |first| && CheckAgainst(first[k], obs, cmp) == PartnerWithoutFingerprint(j)
  }

  /** The flags fs of a confirmation round carrying `obs` after lookEqual
      against the first round: when it runs, every partner without a
      fingerprint gets errorDuringHandshake; nothing else changes. */
  function MarkPartners(fs: seq<Flags>, first: seq<Observation>, e1: EqualityError, obs: seq<Observation>, cmp: Comparator)
    : (gs: seq<Flags>)
    requires |fs| == |obs|
    ensures |gs| == |fs|
  {
    seq(|fs|, j requires 0 <= j < |fs| =>
      Flags(fs[j].errorDuringHandshake ||
              (ObservedError(obs, cmp) == e1 && |first| == |obs| && PartnerMarked(first, obs, cmp, j)),
            fs[j].missingEquivalent, fs[j].shaky))
  }

  /** The flags isVulnerable leaves on a built confirmation round r, checked
      against the first round `first` classified as e1. */
  function RescanFlags(first: seq<Observation>, e1: EqualityError, r: RoundExecution, cmp: Comparator, len: int)
    : (fs: seq<Flags>)
    requires Builds(r)
    ensures |fs| == |r.outcomes|
  {
    MarkPartners(ClassifiedRoundFlags(r, cmp, len), first, e1, RoundObservations(r, len), cmp)
  }

  /** The flags isVulnerable leaves on vectorResponseListTwo. */
  function SecondRoundFlags(r1: RoundExecution, r2: RoundExecution, cmp: Comparator, len: int): (fs: seq<Flags>)
    requires ReachesSecond(r1, cmp, len) && Builds(r2)
    ensures |fs| == |r2.outcomes|
  {
    RescanFlags(RoundObservations(r1, len), InitialError(r1, cmp, len), r2, cmp, len)
  }

  /** The flags isVulnerable leaves on vectorResponseListThree. */
  function ThirdRoundFlags(r1: RoundExecution, r2: RoundExecution, r3: RoundExecution, cmp: Comparator, len: int): (fs: seq<Flags>)
    requires ReachesThird(r1, r2, cmp, len) && Builds(r3)
    ensures |fs| == |r3.outcomes|
  {
    RescanFlags(RoundObservations(r1, len), InitialError(r1, cmp, len), r3, cmp, len)
  }

  /** A confirmation round classified differently from the first round is not
      cross-checked: it keeps the flags of its own scan. */
  lemma UnmatchedRescanOwnFlags(first: seq<Observation>, e1: EqualityError, r: RoundExecution, cmp: Comparator, len: int)
    requires Builds(r)
    requires ObservedError(RoundObservations(r, len), cmp) != e1 || |first| != |r.outcomes|
    ensures RescanFlags(first, e1, r, cmp, len) == ClassifiedRoundFlags(r, cmp, len)
  {
  }

  /** A confirmation round's responses are never marked missingEquivalent or
      shaky: lookEqual sets those on the first round only. Its
      errorDuringHandshake marks are the failed tasks, the scan's marks and,
      when lookEqual ran, the partners without a fingerprint. */
  lemma RescanFlagsOnlyHandshake(first: seq<Observation>, e1: EqualityError, r: RoundExecution, cmp: Comparator, len: int)
    requires Builds(r)
    ensures var fs := RescanFlags(first, e1, r, cmp, len);
      forall j :: 0 <= j < |fs| ==>
        !fs[j].missingEquivalent && !fs[j].shaky &&
        (fs[j].errorDuringHandshake <==>
          r.outcomes[j].hasError || ScanMarked(RoundObservations(r, len), cmp, j) ||
          (ObservedError(RoundObservations(r, len), cmp) == e1 && |first| == |r.outcomes| &&
           PartnerMarked(first, RoundObservations(r, len), cmp, j)))
  {
  }

  /** For a confirmation round without repeated objects and without objects
      of the first round, lookEqual's errorDuringHandshake reaches position j
      exactly when j is a marked partner, and it sets no other flag there. */
  lemma SecondRoundMarks(one: seq<VectorResponse>, two: seq<VectorResponse>, cmp: Comparator)
    requires Distinct(two)
    requires forall j :: 0 <= j < |two| ==> two[j] !in one
    ensures forall j :: 0 <= j < |two| ==>
      (HandshakeErrorFound(one, two, two[j], |one|, cmp) <==> PartnerMarked(Observed(one), Observed(two), cmp, j)) &&
      !MissingEquivalentFound(one, two, two[j], |one|, cmp) && !ShakyFound(one, two, two[j], |one|, cmp)
  {
    forall j | 0 <= j < |two|
      ensures HandshakeErrorFound(one, two, two[j], |one|, cmp) <==> PartnerMarked(Observed(one), Observed(two), cmp, j)
    {
      if HandshakeErrorFound(one, two, two[j], |one|, cmp) {
        var k: nat :| k < |one| &&
          CheckAt(one, two, k, cmp).PartnerWithoutFingerprint? && two[CheckAt(one, two, k, cmp).partner] == two[j];
        assert CheckAt(one, two, k, cmp).partner == j;
        assert Observed(one)[k] == Observe(one[k]);
      }
      if PartnerMarked(Observed(one), Observed(two), cmp, j) {
        var k :| 0 <= k < |one| && CheckAgainst(Observed(one)[k], Observed(two), cmp) == PartnerWithoutFingerprint(j);
        assert CheckAt(one, two, k, cmp) == PartnerWithoutFingerprint(j);
      }
    }
  }

  /** A confirmation round `two` whose every response got its scan's mark
      and lookEqual's marks, starting from flags f2, carries MarkPartners of
      its scan flags. */
  lemma MarkedRescanRound(one: seq<VectorResponse>, two: seq<VectorResponse>, f2: seq<Flags>, e1: EqualityError, cmp: Comparator)
    requires |f2| == |two| && Distinct(two)
    requires forall j :: 0 <= j < |two| ==> two[j] !in one
    requires var crossChecked := ObservedError(Observed(two), cmp) == e1 && |one| == |two|;
      forall j :: 0 <= j < |two| ==>
        two[j].errorDuringHandshake == (f2[j].errorDuringHandshake ||
          FlaggedByScan(two, two[j], FirstDifference(|two|, ResponseTable(two, cmp), 0, 0)) ||
          (crossChecked && HandshakeErrorFound(one, two, two[j], |one|, cmp))) &&
        two[j].missingEquivalent == (f2[j].missingEquivalent || (crossChecked && MissingEquivalentFound(one, two, two[j], |one|, cmp))) &&
        two[j].shaky == (f2[j].shaky || (crossChecked && ShakyFound(one, two, two[j], |one|, cmp)))
    ensures FlagsOfRound(two) == MarkPartners(ScanFlags(f2, Observed(two), cmp), Observed(one), e1, Observed(two), cmp)
  {
    ScanMarksOfDistinct(two, cmp);
    SecondRoundMarks(one, two, cmp);
  }

  /** lookEqual runs only on a rescan that reproduces the first round's
      classification: when the second round does not build, or builds with a
      different classification, the first round keeps the flags of its own
      scan. */
  lemma UnmatchedRescanKeepsFlags(r1: RoundExecution, r2: RoundExecution, r3: RoundExecution, cmp: Comparator, len: int)
    requires Builds(r1)
    requires Builds(r2) ==> ObservedError(RoundObservations(r2, len), cmp) != InitialError(r1, cmp, len)
    ensures FinalFlags(r1, r2, r3, cmp, len) == ClassifiedRoundFlags(r1, cmp, len)
  {
    if ReachesSecond(r1, cmp, len) {
      var first, e1 := RoundObservations(r1, len), InitialError(r1, cmp, len);
      UncheckedRound(ClassifiedRoundFlags(r1, cmp, len), first, e1, BuiltObservations(r2, len), cmp);
    }
  }

  /** A second round that reproduces the classification and the size but is
      not confirmed ends the scan: each first-round response carries its own
      scan's flags plus the flag of its check against that round. */
  lemma CrossCheckedRescanFlags(r1: RoundExecution, r2: RoundExecution, r3: RoundExecution, cmp: Comparator, len: int, k: nat)
    requires ReachesSecond(r1, cmp, len) && Builds(r2)
    requires ObservedError(RoundObservations(r2, len), cmp) == InitialError(r1, cmp, len)
    requires |r2.outcomes| == |r1.outcomes|
    requires SecondRescan(r1, r2, cmp, len) != Confirmed
    requires k < |r1.outcomes|
    ensures FinalFlags(r1, r2, r3, cmp, len)[k] ==
      Mark(ClassifiedRoundFlags(r1, cmp, len)[k], Some(CheckAgainst(RoundObservations(r1, len)[k], RoundObservations(r2, len), cmp)))
  {
  }

  /** In a round without repeated objects, the objects the scan marks are the
      positions ScanMarked describes. */
  lemma ScanMarksOfDistinct(rs: seq<VectorResponse>, cmp: Comparator)
    requires Distinct(rs)
    ensures forall k :: 0 <= k < |rs| ==>
      (FlaggedByScan(rs, rs[k], FirstDifference(|rs|, ResponseTable(rs, cmp), 0, 0)) <==> ScanMarked(Observed(rs), cmp, k))
  {
    DistinctRoundError(rs, cmp);
    var stop := FirstDifference(|rs|, ResponseTable(rs, cmp), 0, 0);
    var obs := Observed(rs);
    forall k | 0 <= k < |rs|
      ensures FlaggedByScan(rs, rs[k], stop) <==> ScanMarked(obs, cmp, k)
    {
      if FlaggedByScan(rs, rs[k], stop) {
        var i: nat, j: nat :| i < |rs| && j < |rs| && rs[i] == rs[k] && Precedes(i, j, stop.0, stop.1) &&
          MarksHandshakeError(rs, i, j);
        assert i == k;
        assert obs[k] == Observe(rs[k]) && obs[j] == Observe(rs[j]);
      }
      if ScanMarked(obs, cmp, k) {
        var j :| 0 <= j < |obs| && j != k && Precedes(k, j, stop.0, stop.1) &&
          (obs[k].fingerprint.None? || obs[j].fingerprint.None?);
        assert rs[k] != rs[j] by {
          if j < k { assert rs[j] != rs[k]; } else { assert rs[k] != rs[j]; }
        }
        assert MarksHandshakeError(rs, k, j);
      }
    }
  }

  /** lookEqual's flags on a first-round object that is not in the other
      round are those of its own cross-check outcome. */
  lemma FirstRoundMarks(one: seq<VectorResponse>, two: seq<VectorResponse>, cmp: Comparator)
    ensures forall o :: o in one && o !in two ==>
      var c := CheckAgainst(Observe(o), Observed(two), cmp);
      (HandshakeErrorFound(one, two, o, |one|, cmp) <==> c == NoFingerprint) &&
      (MissingEquivalentFound(one, two, o, |one|, cmp) <==> c == MissingEquivalent) &&
      (ShakyFound(one, two, o, |one|, cmp) <==> c == Shaky)
  {
    forall o | o in one && o !in two
      ensures var c := CheckAgainst(Observe(o), Observed(two), cmp);
        (HandshakeErrorFound(one, two, o, |one|, cmp) <==> c == NoFingerprint) &&
        (MissingEquivalentFound(one, two, o, |one|, cmp) <==> c == MissingEquivalent) &&
        (ShakyFound(one, two, o, |one|, cmp) <==> c == Shaky)
    {
      var k :| 0 <= k < |one| && one[k] == o;
      assert CheckAt(one, two, k, cmp) == CheckAgainst(Observe(o), Observed(two), cmp);
    }
  }

  /** A built round carries the initial flags of its tasks. */
  lemma RoundBuiltFlags(rs: seq<VectorResponse>, os: seq<TaskOutcome>, suites: seq<Option<CipherSuite>>,
                        versions: seq<Option<ProtocolVersion>>, len: int)
    requires RoundBuilt(rs, os, suites, versions, len) && |rs| == |os|
    ensures FlagsOfRound(rs) == InitialRoundFlags(os)
  {
  }

  /** A confirmation round that lookEqual does not check leaves the first
      round's flags as they were. */
  lemma UncheckedRound(fs: seq<Flags>, first: seq<Observation>, e1: EqualityError, obs: Option<seq<Observation>>, cmp: Comparator)
    requires |fs| == |first|
    requires obs.Some? ==> ObservedError(obs.value, cmp) != e1 || |first| != |obs.value|
    ensures MarkRound(fs, first, e1, obs, cmp) == fs
  {
  }

  /** A first round whose every response got the flag of its check against
      `obs` carries MarkRound's flags. */
  lemma MarkedRound(one: seq<VectorResponse>, fs: seq<Flags>, e1: EqualityError, obs: Option<seq<Observation>>, cmp: Comparator)
    requires |fs| == |one|
    requires forall k :: 0 <= k < |one| ==> FlagsOf(one[k]) == Mark(fs[k], CrossCheckOf(Observed(one), e1, obs, cmp, k))
    ensures FlagsOfRound(one) == MarkRound(fs, Observed(one), e1, obs, cmp)
  {
  }

  // ---------------------------------------------------------------------------
  // The attacker
  // ---------------------------------------------------------------------------

  class PaddingOracleAttacker {
    /** FingerPrintChecker.checkEquality(_, _, true). */
    const checkEquality: Comparator
    /** The byte length of the configured default application data. */
    const defaultApplicationDataLength: nat

    var groupRecords: bool
    var vectorResponseList: Option<seq<VectorResponse>>
    var vectorResponseListTwo: Option<seq<VectorResponse>>
    var vectorResponseListThree: Option<seq<VectorResponse>>
    var testedSuite: Option<CipherSuite>
    var testedVersion: Option<ProtocolVersion>
    var shakyScans: bool
    var errornousScans: bool

    constructor (checkEquality: Comparator, defaultApplicationDataLength: nat)
      ensures this.checkEquality == checkEquality && this.defaultApplicationDataLength == defaultApplicationDataLength
      ensures groupRecords && !shakyScans && !errornousScans
      ensures vectorResponseList == None && vectorResponseListTwo == None && vectorResponseListThree == None
      ensures testedSuite == None && testedVersion == None
    {
      this.checkEquality := checkEquality;
      this.defaultApplicationDataLength := defaultApplicationDataLength;
      groupRecords := true;
      vectorResponseList, vectorResponseListTwo, vectorResponseListThree := None, None, None;
      testedSuite, testedVersion := None, None;
      shakyScans, errornousScans := false, false;
    }

    /** The first ordered pair of distinct objects, in list order, whose
        fingerprints the comparator tells apart decides the result. On the way,
        each visited pair with a missing fingerprint marks its first response. */
    method GetEqualityError(rs: seq<VectorResponse>) returns (e: EqualityError)
      modifies rs`errorDuringHandshake
      ensures e == ErrorOf(rs, checkEquality)
      ensures forall o :: o in rs ==>
        (o.errorDuringHandshake ==
         (old(o.errorDuringHandshake) || FlaggedByScan(rs, o, FirstDifference(|rs|, ResponseTable(rs, checkEquality), 0, 0))))
    {
      ghost var n := |rs|;
      ghost var table := ResponseTable(rs, checkEquality);
      var i := 0;
      while i < |rs|
        invariant 0 <= i <= n
        invariant FirstDifference(n, table, 0, 0) == FirstDifference(n, table, i, 0)
        invariant forall o :: o in rs ==> o.errorDuringHandshake == (old(o.errorDuringHandshake) || FlaggedByScan(rs, o, (i, 0)))
      {
        var j := 0;
        while j < |rs|
          invariant 0 <= j <= n
          invariant FirstDifference(n, table, 0, 0) == FirstDifference(n, table, i, j)
          invariant forall o :: o in rs ==> o.errorDuringHandshake == (old(o.errorDuringHandshake) || FlaggedByScan(rs, o, (i, j)))
        {
          var error := VisitPair(rs, i, j, rs[i]);
          ScanStep(rs, i, j);
          if error != NONE {
            return error;
          }
          j := j + 1;
        }
        RowEnd(rs, i);
        i := i + 1;
      }
      return NONE;
    }

    /** One pass of the inner loop of getEqualityError: the pair of an object
        with itself is skipped; a missing fingerprint on either side marks the
        first response; the fingerprints are compared only when both
        responses carry a fingerprint and a length. */
    method VisitPair(rs: seq<VectorResponse>, i: nat, j: nat, first: VectorResponse) returns (error: EqualityError)
      requires i < |rs| && j < |rs| && first == rs[i]
      modifies first`errorDuringHandshake
      ensures error == ResponsePair(rs, checkEquality, i, j)
      ensures first.errorDuringHandshake == (old(first.errorDuringHandshake) || MarksHandshakeError(rs, i, j))
    {
      error := NONE;
      if first != rs[j] {
        var shouldCompare := true;
        if first.fingerprint.None? {
          first.errorDuringHandshake := true;
          shouldCompare := false;
        }
        if rs[j].fingerprint.None? {
          first.errorDuringHandshake := true;
          shouldCompare := false;
        }
        if first.length.None? || rs[j].length.None? {
          shouldCompare := false;
        }
        if shouldCompare {
          error := checkEquality(first.fingerprint.value, rs[j].fingerprint.value);
        }
      }
    }

    /** Response objects with one of the three flags. */
    method LookEqual(one: seq<VectorResponse>, two: seq<VectorResponse>) returns (r: Result<bool, Unstable>)
      modifies one`errorDuringHandshake, one`missingEquivalent, one`shaky, two`errorDuringHandshake
      ensures |one| != |two| <==> r == Failure(PaddingOracleUnstable)
      ensures |one| == |two| ==> r == Success(RoundsConsistent(Observed(one), Observed(two), checkEquality))
      ensures forall o :: o in one || o in two ==>
        (o.errorDuringHandshake == (old(o.errorDuringHandshake) ||
          (|one| == |two| && HandshakeErrorFound(one, two, o, |one|, checkEquality))))
      ensures forall o :: o in one || o in two ==>
        (o.missingEquivalent == (old(o.missingEquivalent) ||
          (|one| == |two| && MissingEquivalentFound(one, two, o, |one|, checkEquality))))
      ensures forall o :: o in one || o in two ==>
        (o.shaky == (old(o.shaky) || (|one| == |two| && ShakyFound(one, two, o, |one|, checkEquality))))
    {
      if |one| != |two| {
        return Failure(PaddingOracleUnstable);
      }
      var consistent := CrossCheckRounds(one, two);
      return Success(consistent);
    }

    /** The loop of lookEqual over rounds of equal size: every response of
        `one` is checked against `two`, flagging what it finds. */
    method CrossCheckRounds(one: seq<VectorResponse>, two: seq<VectorResponse>) returns (consistent: bool)
      requires |one| == |two|
      modifies one`errorDuringHandshake, one`missingEquivalent, one`shaky, two`errorDuringHandshake
      ensures consistent == RoundsConsistent(Observed(one), Observed(two), checkEquality)
      ensures forall o :: o in one || o in two ==>
        (o.errorDuringHandshake == (old(o.errorDuringHandshake) || HandshakeErrorFound(one, two, o, |one|, checkEquality)))
      ensures forall o :: o in one || o in two ==>
        (o.missingEquivalent == (old(o.missingEquivalent) || MissingEquivalentFound(one, two, o, |one|, checkEquality)))
      ensures forall o :: o in one || o in two ==>
        (o.shaky == (old(o.shaky) || ShakyFound(one, two, o, |one|, checkEquality)))
    {
      consistent := true;
      var i := 0;
      while i < |one|
        invariant 0 <= i <= |one|
        invariant consistent == forall k :: 0 <= k < i ==> CheckAt(one, two, k, checkEquality) == Consistent
        invariant forall o :: o in one || o in two ==>
          (o.errorDuringHandshake == (old(o.errorDuringHandshake) || HandshakeErrorFound(one, two, o, i, checkEquality))) &&
          (o.missingEquivalent == (old(o.missingEquivalent) || MissingEquivalentFound(one, two, o, i, checkEquality))) &&
          (o.shaky == (old(o.shaky) || ShakyFound(one, two, o, i, checkEquality)))
      {
        var ok := CrossCheckResponse(one, two, i, one[i]);
        if !ok {
          consistent := false;
        }
        CrossCheckStep(one, two, i, checkEquality);
        i := i + 1;
      }
      AllChecksConsistent(one, two, checkEquality);
    }

    /** One pass of the loop of lookEqual: find the first response of `two`
        with the vector of `first`, then flag what is wrong, in this order: no
        fingerprint, no equivalent, an equivalent without a fingerprint,
        fingerprints the comparator tells apart. */
    method CrossCheckResponse(one: seq<VectorResponse>, two: seq<VectorResponse>, i: nat, first: VectorResponse)
      returns (consistent: bool)
      requires i < |one| && first == one[i]
      modifies first`errorDuringHandshake, first`missingEquivalent, first`shaky, two`errorDuringHandshake
      ensures consistent <==> CheckAt(one, two, i, checkEquality) == Consistent
      ensures var c := CheckAt(one, two, i, checkEquality);
        forall o :: o in one || o in two ==>
          (o.errorDuringHandshake == (old(o.errorDuringHandshake) ||
            (o == first && c == NoFingerprint) || (c.PartnerWithoutFingerprint? && two[c.partner] == o))) &&
          (o.missingEquivalent == (old(o.missingEquivalent) || (o == first && c == MissingEquivalent))) &&
          (o.shaky == (old(o.shaky) || (o == first && c == Shaky)))
    {
      ghost var obsTwo := Observed(two);
      var m := 0;
      while m < |two| && two[m].vector != first.vector
        invariant 0 <= m <= |two|
        invariant forall l :: 0 <= l < m ==> two[l].vector != first.vector
      {
        m := m + 1;
      }
      assert m == FirstMatch(first.vector, obsTwo) by {
        var fm := FirstMatch(first.vector, obsTwo);
        assert fm < |two| ==> obsTwo[fm].vector == two[fm].vector;
        assert m < |two| ==> obsTwo[m].vector == two[m].vector;
      }
      consistent := true;
      if first.fingerprint.None? {
        first.errorDuringHandshake := true;
        consistent := false;
      } else if m == |two| {
        consistent := false;
        first.missingEquivalent := true;
      } else if two[m].fingerprint.None? {
        two[m].errorDuringHandshake := true;
        consistent := false;
      } else {
        var error := checkEquality(first.fingerprint.value, two[m].fingerprint.value);
        if error != NONE {
          consistent := false;
          first.shaky := true;
        }
      }
    }

    /** The response list of one round, in generation order, from the outcomes
        of its tasks. */
    method CreateVectorResponseList(outcomes: seq<TaskOutcome>) returns (r: Result<seq<VectorResponse>, Unstable>)
      modifies this`testedSuite, this`testedVersion, this`errornousScans
      ensures r.Success? <==> AssemblyOk(outcomes)
      ensures r.Failure? ==> r.error == PaddingOracleUnstable
      ensures TestedAfter(outcomes[..Processed(outcomes)], testedSuite, testedVersion, errornousScans,
                          old(testedSuite), old(testedVersion), old(errornousScans))
      ensures r.Success? ==>
        Observed(r.value) == Assembled(outcomes, defaultApplicationDataLength) && Distinct(r.value) &&
        (forall k :: 0 <= k < |r.value| ==> fresh(r.value[k])) &&
        RoundBuilt(r.value, outcomes, SuiteTrail(outcomes, old(testedSuite)), VersionTrail(outcomes, old(testedVersion)),
                   defaultApplicationDataLength)
    {
      var list: seq<VectorResponse> := [];
      var i := 0;
      while i < |outcomes|
        invariant 0 <= i <= |outcomes| && i <= AssemblyStop(outcomes)
        invariant TestedAfter(outcomes[..i], testedSuite, testedVersion, errornousScans,
                              old(testedSuite), old(testedVersion), old(errornousScans))
        invariant |list| == i && Distinct(list)
        invariant forall k :: 0 <= k < i ==> fresh(list[k])
        invariant RoundBuilt(list, outcomes, SuiteTrail(outcomes[..i], old(testedSuite)),
                             VersionTrail(outcomes[..i], old(testedVersion)), defaultApplicationDataLength)
      {
        var response := AssembleTask(outcomes, i, list, old(testedSuite), old(testedVersion), old(errornousScans));
        if response.None? {
          return Failure(PaddingOracleUnstable);
        }
        list := list + [response.value];
        i := i + 1;
      }
      assert outcomes[..|outcomes|] == outcomes;
      RoundBuiltObserved(list, outcomes, SuiteTrail(outcomes, old(testedSuite)), VersionTrail(outcomes, old(testedVersion)),
                         defaultApplicationDataLength);
      return Success(list);
    }

    /** One pass of the assembly loop over task i: a failed task sets
        errornousScans; a successful one overwrites the tested suite and
        version, which must then both be present; the response is added with
        the suite and version as they now stand. */
    method AssembleTask(outcomes: seq<TaskOutcome>, i: nat, list: seq<VectorResponse>, ghost suite0: Option<CipherSuite>,
                        ghost version0: Option<ProtocolVersion>, ghost errornous0: bool)
      returns (response: Option<VectorResponse>)
      requires i < |outcomes| && i <= AssemblyStop(outcomes) && |list| == i
      requires TestedAfter(outcomes[..i], testedSuite, testedVersion, errornousScans, suite0, version0, errornous0)
      requires RoundBuilt(list, outcomes, SuiteTrail(outcomes[..i], suite0), VersionTrail(outcomes[..i], version0),
                          defaultApplicationDataLength)
      modifies this`testedSuite, this`testedVersion, this`errornousScans
      ensures response.Some? <==> Assemblable(outcomes[i])
      ensures response.Some? ==> i + 1 <= AssemblyStop(outcomes)
      ensures response.None? ==> Processed(outcomes) == i + 1
      ensures TestedAfter(outcomes[..i + 1], testedSuite, testedVersion, errornousScans, suite0, version0, errornous0)
      ensures response.Some? ==>
        fresh(response.value) && response.value !in list &&
        RoundBuilt(list + [response.value], outcomes, SuiteTrail(outcomes[..i + 1], suite0),
                   VersionTrail(outcomes[..i + 1], version0), defaultApplicationDataLength)
    {
      AssemblyFoldStep(outcomes, i, suite0, version0);
      var outcome := outcomes[i];
      if outcome.hasError {
        errornousScans := true;
      } else {
        testedSuite := outcome.selectedSuite;
        testedVersion := outcome.selectedVersion;
        if testedSuite.None? || testedVersion.None? {
          return None;
        }
      }
      var v := NewResponse(outcome);
      RoundBuiltAppend(list, outcomes, SuiteTrail(outcomes[..i], suite0), VersionTrail(outcomes[..i], version0),
                       defaultApplicationDataLength, v);
      return Some(v);
    }

    /** The response the assembly loop adds for one task: a failed task's has
        no fingerprint and is marked; both carry the suite and version tested
        so far. */
    method NewResponse(outcome: TaskOutcome) returns (v: VectorResponse)
      ensures fresh(v)
      ensures Observe(v) == Observation(outcome.vector, if outcome.hasError then None else outcome.fingerprint,
                                        Some(defaultApplicationDataLength))
      ensures InitialFlags(v, outcome) && v.suite == testedSuite && v.version == testedVersion
    {
      if outcome.hasError {
        v := new VectorResponse(outcome.vector, None, testedVersion, testedSuite, Some(defaultApplicationDataLength));
        v.errorDuringHandshake := true;
      } else {
        v := new VectorResponse(outcome.vector, outcome.fingerprint, testedVersion, testedSuite, Some(defaultApplicationDataLength));
      }
    }

    /** One confirmation round: build it, classify it, and cross-check it
        against the first round when the classification is the same. */
    method RunRescan(listOne: seq<VectorResponse>, error: EqualityError, r: RoundExecution)
      returns (rescan: Rescan, list: Option<seq<VectorResponse>>)
      modifies this`testedSuite, this`testedVersion, this`errornousScans
      modifies listOne`errorDuringHandshake, listOne`missingEquivalent, listOne`shaky
      ensures rescan == RescanOf(Observed(listOne), error, r, checkEquality, defaultApplicationDataLength)
      ensures list.Some? <==> Builds(r)
      ensures list.Some? ==> Observed(list.value) == RoundObservations(r, defaultApplicationDataLength)
      ensures list.Some? ==> forall k :: 0 <= k < |list.value| ==> fresh(list.value[k])
      ensures TestedAfter(Consumed(r), testedSuite, testedVersion, errornousScans,
                          old(testedSuite), old(testedVersion), old(errornousScans))
      ensures FlagsOfRound(listOne) ==
        MarkRound(old(FlagsOfRound(listOne)), Observed(listOne), error, BuiltObservations(r, defaultApplicationDataLength), checkEquality)
      ensures list.Some? ==>
        FlagsOfRound(list.value) == RescanFlags(Observed(listOne), error, r, checkEquality, defaultApplicationDataLength)
    {
      if r.AttackFailed? {
        UncheckedRound(FlagsOfRound(listOne), Observed(listOne), error, None, checkEquality);
        return RescanInconclusive, None;
      }
      var built := CreateVectorResponseList(r.outcomes);
      if built.Failure? {
        UncheckedRound(FlagsOfRound(listOne), Observed(listOne), error, None, checkEquality);
        return RescanUnstable, None;
      }
      list := Some(built.value);
      RoundBuiltFlags(built.value, r.outcomes, SuiteTrail(r.outcomes, old(testedSuite)), VersionTrail(r.outcomes, old(testedVersion)),
                      defaultApplicationDataLength);
      rescan := CheckRescan(listOne, error, built.value);
    }

    /** CompareRescan on a confirmation round built afresh, stated on the
        flags of both rounds. */
    method CheckRescan(listOne: seq<VectorResponse>, error: EqualityError, listTwo: seq<VectorResponse>)
      returns (rescan: Rescan)
      requires Distinct(listTwo)
      requires forall j :: 0 <= j < |listTwo| ==> listTwo[j] !in listOne
      modifies listTwo`errorDuringHandshake
      modifies listOne`errorDuringHandshake, listOne`missingEquivalent, listOne`shaky
      ensures rescan == CompareRounds(Observed(listOne), error, Observed(listTwo), checkEquality)
      ensures FlagsOfRound(listOne) ==
        MarkRound(old(FlagsOfRound(listOne)), Observed(listOne), error, Some(Observed(listTwo)), checkEquality)
      ensures FlagsOfRound(listTwo) ==
        MarkPartners(ScanFlags(old(FlagsOfRound(listTwo)), Observed(listTwo), checkEquality), Observed(listOne), error,
                     Observed(listTwo), checkEquality)
    {
      ghost var fs, f2 := FlagsOfRound(listOne), FlagsOfRound(listTwo);
      rescan := CompareRescan(listOne, error, listTwo);
      MarkedRound(listOne, fs, error, Some(Observed(listTwo)), checkEquality);
      MarkedRescanRound(listOne, listTwo, f2, error, checkEquality);
    }

    /** A built confirmation round against the first round: classify it, and
        cross-check it only when the classification is the first round's. */
    method CompareRescan(listOne: seq<VectorResponse>, error: EqualityError, listTwo: seq<VectorResponse>)
      returns (rescan: Rescan)
      requires Distinct(listTwo)
      modifies listTwo`errorDuringHandshake
      modifies listOne`errorDuringHandshake, listOne`missingEquivalent, listOne`shaky
      ensures rescan == CompareRounds(Observed(listOne), error, Observed(listTwo), checkEquality)
      ensures var crossChecked := ObservedError(Observed(listTwo), checkEquality) == error && |listOne| == |listTwo|;
        forall o :: o in listOne || o in listTwo ==>
          (o.errorDuringHandshake == (old(o.errorDuringHandshake) ||
            FlaggedByScan(listTwo, o, FirstDifference(|listTwo|, ResponseTable(listTwo, checkEquality), 0, 0)) ||
            (crossChecked && HandshakeErrorFound(listOne, listTwo, o, |listOne|, checkEquality)))) &&
          (o.missingEquivalent == (old(o.missingEquivalent) ||
            (crossChecked && MissingEquivalentFound(listOne, listTwo, o, |listOne|, checkEquality)))) &&
          (o.shaky == (old(o.shaky) || (crossChecked && ShakyFound(listOne, listTwo, o, |listOne|, checkEquality))))
      ensures forall k :: 0 <= k < |listOne| && listOne[k] !in listTwo ==>
        FlagsOf(listOne[k]) ==
        Mark(old(FlagsOf(listOne[k])), CrossCheckOf(Observed(listOne), error, Some(Observed(listTwo)), checkEquality, k))
    {
      var errorTwo := GetEqualityError(listTwo);
      DistinctRoundError(listTwo, checkEquality);
      if error != errorTwo {
        rescan := Rejected;
      } else {
        rescan := CrossCheckRescan(listOne, error, listTwo);
      }
    }

    /** A confirmation round classified as the first round was: lookEqual
        decides it, and the first round's flags are its cross-check's. */
    method CrossCheckRescan(listOne: seq<VectorResponse>, error: EqualityError, listTwo: seq<VectorResponse>)
      returns (rescan: Rescan)
      requires ObservedError(Observed(listTwo), checkEquality) == error
      modifies listOne`errorDuringHandshake, listOne`missingEquivalent, listOne`shaky, listTwo`errorDuringHandshake
      ensures rescan == CompareRounds(Observed(listOne), error, Observed(listTwo), checkEquality)
      ensures forall o :: o in listOne || o in listTwo ==>
        (o.errorDuringHandshake == (old(o.errorDuringHandshake) ||
          (|listOne| == |listTwo| && HandshakeErrorFound(listOne, listTwo, o, |listOne|, checkEquality)))) &&
        (o.missingEquivalent == (old(o.missingEquivalent) ||
          (|listOne| == |listTwo| && MissingEquivalentFound(listOne, listTwo, o, |listOne|, checkEquality)))) &&
        (o.shaky == (old(o.shaky) || (|listOne| == |listTwo| && ShakyFound(listOne, listTwo, o, |listOne|, checkEquality))))
      ensures forall k :: 0 <= k < |listOne| && listOne[k] !in listTwo ==>
        FlagsOf(listOne[k]) ==
        Mark(old(FlagsOf(listOne[k])), CrossCheckOf(Observed(listOne), error, Some(Observed(listTwo)), checkEquality, k))
    {
      var same := LookEqual(listOne, listTwo);
      FirstRoundMarks(listOne, listTwo, checkEquality);
      rescan := if same.Failure? then RescanUnstable else if same.value then Confirmed else Rejected;
    }

    /** The three-round confirm-or-reject check. The rounds are the task
        outcomes the target would give; a round is only built when reached. */
    method IsVulnerable(r1: RoundExecution, r2: RoundExecution, r3: RoundExecution) returns (result: VulnerabilityResult)
      modifies this
      ensures result == Decide(r1, r2, r3, checkEquality, defaultApplicationDataLength)
      ensures shakyScans == (old(shakyScans) || RejectedByRescan(r1, r2, r3, checkEquality, defaultApplicationDataLength))
      ensures !groupRecords
      ensures StoredRound(true, r1, defaultApplicationDataLength, vectorResponseList, old(vectorResponseList))
      ensures StoredRound(ReachesSecond(r1, checkEquality, defaultApplicationDataLength), r2, defaultApplicationDataLength,
                          vectorResponseListTwo, old(vectorResponseListTwo))
      ensures StoredRound(ReachesThird(r1, r2, checkEquality, defaultApplicationDataLength), r3, defaultApplicationDataLength,
                          vectorResponseListThree, old(vectorResponseListThree))
      ensures TestedAfter(ConsumedTasks(r1, r2, r3, checkEquality, defaultApplicationDataLength),
                          testedSuite, testedVersion, errornousScans, old(testedSuite), old(testedVersion), old(errornousScans))
      ensures Builds(r1) ==> FlagsOfRound(vectorResponseList.value) == FinalFlags(r1, r2, r3, checkEquality, defaultApplicationDataLength)
      ensures ReachesSecond(r1, checkEquality, defaultApplicationDataLength) && Builds(r2) ==>
        FlagsOfRound(vectorResponseListTwo.value) == SecondRoundFlags(r1, r2, checkEquality, defaultApplicationDataLength)
      ensures ReachesThird(r1, r2, checkEquality, defaultApplicationDataLength) && Builds(r3) ==>
        FlagsOfRound(vectorResponseListThree.value) == ThirdRoundFlags(r1, r2, r3, checkEquality, defaultApplicationDataLength)
    {
      groupRecords := false;
      var listOne, error := RunFirstRound(r1);
      result := ConcludeFirstRound(listOne, error, r1, r2, r3, old(testedSuite), old(testedVersion), old(errornousScans));
    }

    /** The first round of isVulnerable: build it, store it and classify it. */
    method RunFirstRound(r1: RoundExecution) returns (list: Option<seq<VectorResponse>>, error: EqualityError)
      modifies this`vectorResponseList, this`testedSuite, this`testedVersion, this`errornousScans
      ensures list.Some? <==> Builds(r1)
      ensures StoredRound(true, r1, defaultApplicationDataLength, vectorResponseList, old(vectorResponseList))
      ensures list.Some? ==> vectorResponseList == list
      ensures list.Some? ==>
        Observed(list.value) == RoundObservations(r1, defaultApplicationDataLength) &&
        error == InitialError(r1, checkEquality, defaultApplicationDataLength) &&
        forall k :: 0 <= k < |list.value| ==> fresh(list.value[k])
      ensures list.Some? ==> FlagsOfRound(list.value) == ClassifiedRoundFlags(r1, checkEquality, defaultApplicationDataLength)
      ensures TestedAfter(Consumed(r1), testedSuite, testedVersion, errornousScans,
                          old(testedSuite), old(testedVersion), old(errornousScans))
    {
      if r1.AttackFailed? {
        return None, NONE;
      }
      var built := CreateVectorResponseList(r1.outcomes);
      if built.Failure? {
        return None, NONE;
      }
      var listOne := built.value;
      list := Some(listOne);
      vectorResponseList := list;
      RoundBuiltFlags(listOne, r1.outcomes, SuiteTrail(r1.outcomes, old(testedSuite)),
                      VersionTrail(r1.outcomes, old(testedVersion)), defaultApplicationDataLength);
      error := ClassifyRound(listOne);
    }

    /** getEqualityError on a round without repeated objects, stated on what
        the responses carry. */
    method ClassifyRound(rs: seq<VectorResponse>) returns (error: EqualityError)
      requires Distinct(rs)
      modifies rs`errorDuringHandshake
      ensures error == ObservedError(Observed(rs), checkEquality)
      ensures FlagsOfRound(rs) == ScanFlags(old(FlagsOfRound(rs)), Observed(rs), checkEquality)
    {
      error := GetEqualityError(rs);
      DistinctRoundError(rs, checkEquality);
      ScanMarksOfDistinct(rs, checkEquality);
    }

    /** What follows the first round, `listOne` when it was built, classified
        as `error`: the verdict, the shaky flag, the later lists, the fields
        the assembly loops update and the first round's flags are those
        isVulnerable promises. */
    method ConcludeFirstRound(listOne: Option<seq<VectorResponse>>, error: EqualityError, r1: RoundExecution,
                              r2: RoundExecution, r3: RoundExecution,
                              ghost suite0: Option<CipherSuite>, ghost version0: Option<ProtocolVersion>, ghost errornous0: bool)
      returns (result: VulnerabilityResult)
      requires listOne.Some? <==> Builds(r1)
      requires listOne.Some? ==>
        Observed(listOne.value) == RoundObservations(r1, defaultApplicationDataLength) &&
        error == InitialError(r1, checkEquality, defaultApplicationDataLength) &&
        FlagsOfRound(listOne.value) == ClassifiedRoundFlags(r1, checkEquality, defaultApplicationDataLength)
      requires TestedAfter(Consumed(r1), testedSuite, testedVersion, errornousScans, suite0, version0, errornous0)
      modifies this`vectorResponseListTwo, this`vectorResponseListThree, this`shakyScans
      modifies this`testedSuite, this`testedVersion, this`errornousScans
      modifies Responses(listOne)`errorDuringHandshake, Responses(listOne)`missingEquivalent, Responses(listOne)`shaky
      ensures result == Decide(r1, r2, r3, checkEquality, defaultApplicationDataLength)
      ensures shakyScans == (old(shakyScans) || RejectedByRescan(r1, r2, r3, checkEquality, defaultApplicationDataLength))
      ensures StoredRound(ReachesSecond(r1, checkEquality, defaultApplicationDataLength), r2, defaultApplicationDataLength,
                          vectorResponseListTwo, old(vectorResponseListTwo))
      ensures StoredRound(ReachesThird(r1, r2, checkEquality, defaultApplicationDataLength), r3, defaultApplicationDataLength,
                          vectorResponseListThree, old(vectorResponseListThree))
      ensures TestedAfter(ConsumedTasks(r1, r2, r3, checkEquality, defaultApplicationDataLength),
                          testedSuite, testedVersion, errornousScans, suite0, version0, errornous0)
      ensures listOne.Some? ==> FlagsOfRound(listOne.value) == FinalFlags(r1, r2, r3, checkEquality, defaultApplicationDataLength)
      ensures ReachesSecond(r1, checkEquality, defaultApplicationDataLength) && Builds(r2) ==>
        FlagsOfRound(vectorResponseListTwo.value) == SecondRoundFlags(r1, r2, checkEquality, defaultApplicationDataLength)
      ensures ReachesThird(r1, r2, checkEquality, defaultApplicationDataLength) && Builds(r3) ==>
        FlagsOfRound(vectorResponseListThree.value) == ThirdRoundFlags(r1, r2, r3, checkEquality, defaultApplicationDataLength)
    {
      if listOne.None? {
        StoppedAtFirst(r1, r2, r3, checkEquality, defaultApplicationDataLength);
        result := if r1.AttackFailed? then Inconclusive else Unstable;
      } else if error == NONE {
        StoppedAtFirst(r1, r2, r3, checkEquality, defaultApplicationDataLength);
        result := Verdict(false);
      } else {
        ghost var suite1, version1, errornous1 := testedSuite, testedVersion, errornousScans;
        ghost var second, third;
        result, second, third := ConfirmFinding(listOne.value, error, r2, r3);
        ReachedSecond(r1, r2, r3, checkEquality, defaultApplicationDataLength, Observed(listOne.value), error, second, third);
        AfterConcat(Consumed(r1), Consumed(r2) + (if second == Confirmed then Consumed(r3) else []),
          suite0, version0, errornous0, suite1, version1, errornous1, testedSuite, testedVersion, errornousScans);
      }
    }


    /** Rounds two and three of isVulnerable, once the first round showed the
        difference `error`: each rescan must reproduce it; a rejection marks
        the scan as shaky. */
    method ConfirmFinding(listOne: seq<VectorResponse>, error: EqualityError, r2: RoundExecution, r3: RoundExecution)
      returns (result: VulnerabilityResult, ghost second: Rescan, ghost third: Rescan)
      modifies this`vectorResponseListTwo, this`vectorResponseListThree, this`shakyScans
      modifies this`testedSuite, this`testedVersion, this`errornousScans
      modifies listOne`errorDuringHandshake, listOne`missingEquivalent, listOne`shaky
      ensures second == RescanOf(Observed(listOne), error, r2, checkEquality, defaultApplicationDataLength)
      ensures third == RescanOf(Observed(listOne), error, r3, checkEquality, defaultApplicationDataLength)
      ensures result == Settle(second, Settle(third, Verdict(true)))
      ensures shakyScans == (old(shakyScans) || second == Rejected || (second == Confirmed && third == Rejected))
      ensures StoredRound(true, r2, defaultApplicationDataLength, vectorResponseListTwo, old(vectorResponseListTwo))
      ensures StoredRound(second == Confirmed, r3, defaultApplicationDataLength, vectorResponseListThree, old(vectorResponseListThree))
      ensures TestedAfter(Consumed(r2) + (if second == Confirmed then Consumed(r3) else []),
                          testedSuite, testedVersion, errornousScans, old(testedSuite), old(testedVersion), old(errornousScans))
      ensures FlagsOfRound(listOne) ==
        RescanRound(old(FlagsOfRound(listOne)), Observed(listOne), error, r2, r3, checkEquality, defaultApplicationDataLength)
      ensures Builds(r2) ==>
        FlagsOfRound(vectorResponseListTwo.value) == RescanFlags(Observed(listOne), error, r2, checkEquality, defaultApplicationDataLength)
      ensures second == Confirmed && Builds(r3) ==>
        FlagsOfRound(vectorResponseListThree.value) == RescanFlags(Observed(listOne), error, r3, checkEquality, defaultApplicationDataLength)
    {
      third := RescanOf(Observed(listOne), error, r3, checkEquality, defaultApplicationDataLength);
      var rescan := RescanAgain(listOne, error, r2);
      second := rescan;
      if rescan == Confirmed {
        ghost var suite1, version1, errornous1 := testedSuite, testedVersion, errornousScans;
        result := ConfirmAgain(listOne, error, r3);
        AfterConcat(Consumed(r2), Consumed(r3), old(testedSuite), old(testedVersion), old(errornousScans),
          suite1, version1, errornous1, testedSuite, testedVersion, errornousScans);
      } else {
        result := Settle(rescan, Verdict(true));
        assert Consumed(r2) + [] == Consumed(r2);
      }
    }

    /** Round two of isVulnerable: the rescan, the list it stores, and the
        shaky flag a rejection sets. */
    method RescanAgain(listOne: seq<VectorResponse>, error: EqualityError, r2: RoundExecution) returns (rescan: Rescan)
      modifies this`vectorResponseListTwo, this`shakyScans
      modifies this`testedSuite, this`testedVersion, this`errornousScans
      modifies listOne`errorDuringHandshake, listOne`missingEquivalent, listOne`shaky
      ensures rescan == RescanOf(Observed(listOne), error, r2, checkEquality, defaultApplicationDataLength)
      ensures shakyScans == (old(shakyScans) || rescan == Rejected)
      ensures StoredRound(true, r2, defaultApplicationDataLength, vectorResponseListTwo, old(vectorResponseListTwo))
      ensures TestedAfter(Consumed(r2), testedSuite, testedVersion, errornousScans,
                          old(testedSuite), old(testedVersion), old(errornousScans))
      ensures FlagsOfRound(listOne) ==
        MarkRound(old(FlagsOfRound(listOne)), Observed(listOne), error, BuiltObservations(r2, defaultApplicationDataLength), checkEquality)
      ensures Builds(r2) ==> forall k :: 0 <= k < |vectorResponseListTwo.value| ==> vectorResponseListTwo.value[k] !in listOne
      ensures Builds(r2) ==>
        FlagsOfRound(vectorResponseListTwo.value) == RescanFlags(Observed(listOne), error, r2, checkEquality, defaultApplicationDataLength)
    {
      var listTwo;
      rescan, listTwo := RunRescan(listOne, error, r2);
      StoreSecond(listTwo, rescan);
    }

    /** What round two leaves in the attacker: the list when it was built,
        and shakyScans when it rejected. */
    method StoreSecond(list: Option<seq<VectorResponse>>, rescan: Rescan)
      modifies this`vectorResponseListTwo, this`shakyScans
      ensures vectorResponseListTwo == if list.Some? then list else old(vectorResponseListTwo)
      ensures shakyScans == (old(shakyScans) || rescan == Rejected)
    {
      if list.Some? {
        vectorResponseListTwo := list;
      }
      if rescan == Rejected {
        shakyScans := true;
      }
    }

    /** What round three leaves in the attacker: the list when it was built,
        and shakyScans when it rejected. */
    method StoreThird(list: Option<seq<VectorResponse>>, rescan: Rescan)
      modifies this`vectorResponseListThree, this`shakyScans
      ensures vectorResponseListThree == if list.Some? then list else old(vectorResponseListThree)
      ensures shakyScans == (old(shakyScans) || rescan == Rejected)
    {
      if list.Some? {
        vectorResponseListThree := list;
      }
      if rescan == Rejected {
        shakyScans := true;
      }
    }

    /** Round three of isVulnerable, once round two confirmed the finding. */
    method ConfirmAgain(listOne: seq<VectorResponse>, error: EqualityError, r3: RoundExecution)
      returns (result: VulnerabilityResult)
      requires vectorResponseListTwo.Some? ==> forall k :: 0 <= k < |vectorResponseListTwo.value| ==> vectorResponseListTwo.value[k] !in listOne
      modifies this`vectorResponseListThree, this`shakyScans
      modifies this`testedSuite, this`testedVersion, this`errornousScans
      modifies listOne`errorDuringHandshake, listOne`missingEquivalent, listOne`shaky
      ensures var third := RescanOf(Observed(listOne), error, r3, checkEquality, defaultApplicationDataLength);
        result == Settle(third, Verdict(true)) && shakyScans == (old(shakyScans) || third == Rejected)
      ensures StoredRound(true, r3, defaultApplicationDataLength, vectorResponseListThree, old(vectorResponseListThree))
      ensures TestedAfter(Consumed(r3), testedSuite, testedVersion, errornousScans,
                          old(testedSuite), old(testedVersion), old(errornousScans))
      ensures FlagsOfRound(listOne) ==
        MarkRound(old(FlagsOfRound(listOne)), Observed(listOne), error, BuiltObservations(r3, defaultApplicationDataLength), checkEquality)
      ensures Builds(r3) ==>
        FlagsOfRound(vectorResponseListThree.value) == RescanFlags(Observed(listOne), error, r3, checkEquality, defaultApplicationDataLength)
      ensures vectorResponseListTwo.Some? ==> FlagsOfRound(vectorResponseListTwo.value) == old(FlagsOfRound(vectorResponseListTwo.value))
    {
      var rescan, listThree := RunRescan(listOne, error, r3);
      StoreThird(listThree, rescan);
      result := Settle(rescan, Verdict(true));
    }
  }
}
