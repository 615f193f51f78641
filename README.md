# TLS-Attacker core, modelled in Dafny

This project models six pieces of TLS-Attacker, a framework for testing TLS implementations, and proves properties of each:

- **Padding-oracle check** (`PaddingOracle.dfy`). `PaddingOracleAttacker` sends a round of crafted padding probes and classifies the responses with `getEqualityError`. When one probe is answered differently, it runs two confirmation rounds. Each confirmation round must reproduce the same classification and match the first round response by response (`lookEqual`). Only then is the target reported vulnerable. A rescan that disagrees marks the scan as shaky and returns `false`. An attack failure returns `null`. An unstable target raises `PaddingOracleUnstableException`. `createVectorResponseList` builds each round from its probe tasks' outcomes.
- **Unique-flows rule** (`UniqueFlows.dfy`). The fuzzer's `UniqueFlowsRule` keeps the set of workflow trace types it has seen. It applies to an agent result whose cleaned type is new, and counts how many new types it has added.
- **ChangeClientRandomAction** (`ClientRandom.dfy`). A workflow action that overwrites the client random of the TLS context and remembers the value it replaced. It runs once between resets. Its `equals` and `hashCode` compare the byte arrays by content.
- **SignatureAndHashAlgorithmConverter** (`SigHashConverter.dfy`). Reads `SIG-HASH` from the command line with `String.split("-")` and the enums' `valueOf`.
- **HeartbeatMessagePreparator** (`Heartbeat.dfy`). Fills in a heartbeat request (RFC 6520) in four steps: type, random payload, payload length, and random padding. The padding length is drawn between the configured minimum (inclusive) and maximum (exclusive).
- **WorkflowTypeDelegate** (`WorkflowType.dfy`). Copies a workflow trace type given on the command line into the configuration. If the configuration has no trace yet, it builds the trace for that type.

`JavaLang.dfy` holds what the modules share: `Option`, `Result`, `Outcome`, Java `int` and `byte`, and 32-bit wrap-around.

How the Java code is represented:

- **Objects whose fields the code updates** are classes whose methods modify those fields:
  - `VectorResponse` and its flags;
  - the attacker's lists, tested suite and version, and scan flags;
  - the rule's set and counter;
  - the action's fields;
  - the heartbeat message;
  - the configuration's type and trace.
- **Each of those methods** is proved against a pure function of the old state: `ErrorOf`, `RoundsConsistent`, `Assembled`/`SuiteAfter`, `Decide`, `ApplyStep`, `ExecuteStep`, `Prepared`. The lemmas about those functions carry what the source promises.
- **Collaborators the model does not see** are inputs:
  - the fingerprint comparator `FingerPrintChecker.checkEquality(_, _, true)` is an arbitrary function;
  - a probe round is the sequence of its tasks' outcomes, or an attack failure;
  - the random generator is a draw plus byte functions;
  - the trace factory is its three traces;
  - `WorkflowTraceTypeManager.generateWorkflowTraceType` and `WorkflowTraceType.clean()` are functions fixed for the rule.

Points of the code the model keeps exactly:

- **Suite and version are not compared.** `createVectorResponseList` does not check that successful probes agree on the cipher suite or the protocol version. It only overwrites `testedSuite`/`testedVersion` with each successful probe's values. It raises the unstable exception only when one of them is missing (Attacks/src/main/java/de/rub/nds/tlsattacker/attacks/impl/PaddingOracleAttacker.java:231-236).
- **The length is the default data length.** Every response gets the byte length of the configured default application data, whatever the probe received (PaddingOracleAttacker.java:225, 239).
- **`error != null`.** `getEqualityError` returns either NONE or a result of `checkEquality` that is not NONE (PaddingOracleAttacker.java:272-283). The model's comparator never gives null, so the test `error != null` at PaddingOracleAttacker.java:111 is always true here. What a null would do is under "Left out".

## Model

| member | source | states |
|---|---|---|
| PaddingOracle.FirstDifference | Attacks/src/main/java/de/rub/nds/tlsattacker/attacks/impl/PaddingOracleAttacker.java:253-283 | The nested scan visits ordered pairs in row-major order. It stops at the first pair whose result is not NONE; every pair before it gives NONE. |
| PaddingOracle.ScanErrorIsFirstDifference | Attacks/src/main/java/de/rub/nds/tlsattacker/attacks/impl/PaddingOracleAttacker.java:253-283 | The scan returns NONE exactly when every pair gives NONE. Otherwise it returns the result of the earliest differing pair. |
| PaddingOracle.FirstDifferenceAgrees | Attacks/src/main/java/de/rub/nds/tlsattacker/attacks/impl/PaddingOracleAttacker.java:253-283 | Two pair tables that agree on every pair of the round lead the scan to the same stopping pair. |
| PaddingOracle.DistinctRoundError | Attacks/src/main/java/de/rub/nds/tlsattacker/attacks/impl/PaddingOracleAttacker.java:255-257 | The self-pair is skipped by reference. In a round without repeated objects, the scan's result therefore depends only on what the responses carry. |
| PaddingOracle.ShortRoundHasNoError | Attacks/src/main/java/de/rub/nds/tlsattacker/attacks/impl/PaddingOracleAttacker.java:253-283 | A round of zero or one responses is classified NONE. |
| PaddingOracle.ObservedErrorNoneIff | Attacks/src/main/java/de/rub/nds/tlsattacker/attacks/impl/PaddingOracleAttacker.java:258-283 | The classification is NONE iff every pair of distinct positions is skipped or compared as NONE. Skipped means a side lacks a fingerprint or a length. |
| PaddingOracle.PaddingOracleAttacker.GetEqualityError | Attacks/src/main/java/de/rub/nds/tlsattacker/attacks/impl/PaddingOracleAttacker.java:250-284 | Returns the result of the first differing pair, or NONE. On exactly the objects that a pair visited before the stop marks, it sets errorDuringHandshake. A pair marks its first response when either response lacks a fingerprint. |
| PaddingOracle.PaddingOracleAttacker.VisitPair | Attacks/src/main/java/de/rub/nds/tlsattacker/attacks/impl/PaddingOracleAttacker.java:255-280 | One inner pass. It skips the self-pair and marks the first response on a missing fingerprint. It compares only when both responses carry a fingerprint and a length. |
| PaddingOracle.ScanStep | Attacks/src/main/java/de/rub/nds/tlsattacker/attacks/impl/PaddingOracleAttacker.java:259-266 | Visiting one more pair adds exactly that pair's mark to the set of marked objects. |
| PaddingOracle.RowEnd | Attacks/src/main/java/de/rub/nds/tlsattacker/attacks/impl/PaddingOracleAttacker.java:253-254 | The end of one row of the scan is the start of the next. |
| PaddingOracle.FirstMatch | Attacks/src/main/java/de/rub/nds/tlsattacker/attacks/impl/PaddingOracleAttacker.java:164-169 | The equivalent is the first response of the other round with an equal probe vector. The result is the round's length when there is none. |
| PaddingOracle.CheckAgainst | Attacks/src/main/java/de/rub/nds/tlsattacker/attacks/impl/PaddingOracleAttacker.java:171-196 | How one response fares against the other round. A partner without a fingerprint is a position inside that round. |
| PaddingOracle.CheckAgainstConsistentIff | Attacks/src/main/java/de/rub/nds/tlsattacker/attacks/impl/PaddingOracleAttacker.java:162-197 | A response passes iff it has a fingerprint and its first equivalent exists and has a fingerprint. The comparator must also find the two fingerprints equal. |
| PaddingOracle.RoundsConsistentIff | Attacks/src/main/java/de/rub/nds/tlsattacker/attacks/impl/PaddingOracleAttacker.java:155-199 | For rounds of equal size, lookEqual is true iff every response of the first round has such a partner in the second. |
| PaddingOracle.PaddingOracleAttacker.LookEqual | Attacks/src/main/java/de/rub/nds/tlsattacker/attacks/impl/PaddingOracleAttacker.java:155-199 | Different sizes throw the unstable exception, whatever the contents. Otherwise the result is RoundsConsistent over what the responses carry. The flags set are exactly errorDuringHandshake (own or partner's missing fingerprint), missingEquivalent and shaky. Nothing else is flagged. |
| PaddingOracle.PaddingOracleAttacker.CrossCheckRounds | Attacks/src/main/java/de/rub/nds/tlsattacker/attacks/impl/PaddingOracleAttacker.java:162-198 | Over rounds of equal size, the result is RoundsConsistent. Each object ends with exactly the flags that the checks of the first round's responses call for. |
| PaddingOracle.PaddingOracleAttacker.CrossCheckResponse | Attacks/src/main/java/de/rub/nds/tlsattacker/attacks/impl/PaddingOracleAttacker.java:164-196 | One outer pass finds the first equivalent. The first applicable case sets its flag: no fingerprint, no equivalent, partner without fingerprint, or differing fingerprints. |
| PaddingOracle.CrossCheckStep | Attacks/src/main/java/de/rub/nds/tlsattacker/attacks/impl/PaddingOracleAttacker.java:171-196 | Checking one more response adds exactly the flag its outcome calls for. |
| PaddingOracle.IdenticalRoundIsConsistent | Attacks/src/main/java/de/rub/nds/tlsattacker/attacks/impl/PaddingOracleAttacker.java:162-197 | A round without failed probes and with pairwise distinct vectors matches a rerun of itself, provided the comparator finds each fingerprint equal to itself. |
| PaddingOracle.AssemblyStop | Attacks/src/main/java/de/rub/nds/tlsattacker/attacks/impl/PaddingOracleAttacker.java:231-236 | Gives the position of the first successful task that lacks a suite or a version; every outcome before it can be assembled. |
| PaddingOracle.Assembled | Attacks/src/main/java/de/rub/nds/tlsattacker/attacks/impl/PaddingOracleAttacker.java:219-240 | One response per task, in task order. A failed task gives no fingerprint. Every response gets the default application-data length. |
| PaddingOracle.SuiteAfterIsLastSuccess | Attacks/src/main/java/de/rub/nds/tlsattacker/attacks/impl/PaddingOracleAttacker.java:230-232 | testedSuite ends as the suite of the last successful task. |
| PaddingOracle.SuiteAfterAllFailed | Attacks/src/main/java/de/rub/nds/tlsattacker/attacks/impl/PaddingOracleAttacker.java:221-229 | testedSuite is unchanged when every task failed. |
| PaddingOracle.SuiteAfterConcat | Attacks/src/main/java/de/rub/nds/tlsattacker/attacks/impl/PaddingOracleAttacker.java:231 | The suite carried through consecutive rounds is the one carried through their concatenation. |
| PaddingOracle.VersionAfterConcat | Attacks/src/main/java/de/rub/nds/tlsattacker/attacks/impl/PaddingOracleAttacker.java:232 | The same for testedVersion. |
| PaddingOracle.AssemblyFoldStep | Attacks/src/main/java/de/rub/nds/tlsattacker/attacks/impl/PaddingOracleAttacker.java:219-240 | One more outcome updates suite, version and the failure flag as the loop body does. |
| PaddingOracle.AnyFailedConcat | Attacks/src/main/java/de/rub/nds/tlsattacker/attacks/impl/PaddingOracleAttacker.java:222 | Over consecutive rounds, a task failed iff one failed in some round. |
| PaddingOracle.AfterConcat | Attacks/src/main/java/de/rub/nds/tlsattacker/attacks/impl/PaddingOracleAttacker.java:222-232 | testedSuite, testedVersion and errornousScans carried through two consecutive stretches of outcomes are those carried through their concatenation. |
| PaddingOracle.PaddingOracleAttacker.CreateVectorResponseList | Attacks/src/main/java/de/rub/nds/tlsattacker/attacks/impl/PaddingOracleAttacker.java:217-243 | Succeeds iff no successful task lacks a suite or version. On success it returns fresh, distinct responses carrying Assembled(outcomes). A failed task's response is flagged and carries the suite and version seen so far. Suite, version and errornousScans end as folded over the outcomes consumed, the throwing one included. |
| PaddingOracle.PaddingOracleAttacker.AssembleTask | Attacks/src/main/java/de/rub/nds/tlsattacker/attacks/impl/PaddingOracleAttacker.java:220-240 | One loop pass. A failed task sets errornousScans. A success overwrites suite and version, then throws if either is missing, which is exactly where the loop stops. Otherwise a fresh response, not yet in the list, extends the round built so far. |
| PaddingOracle.PaddingOracleAttacker.NewResponse | Attacks/src/main/java/de/rub/nds/tlsattacker/attacks/impl/PaddingOracleAttacker.java:224-227 | The response added for a task: a failed task's has no fingerprint and is marked errorDuringHandshake. Every response carries the task's vector, the default data length and the suite and version tested so far. |
| PaddingOracle.PaddingOracleAttacker.RunFirstRound | Attacks/src/main/java/de/rub/nds/tlsattacker/attacks/impl/PaddingOracleAttacker.java:109-110 | The first round is built iff its tasks ran and assembled, and it is stored in vectorResponseList. Its classification is that of its observations. Its flags are the failed tasks' marks plus the scan's marks (ClassifiedRoundFlags). |
| PaddingOracle.PaddingOracleAttacker.ClassifyRound | Attacks/src/main/java/de/rub/nds/tlsattacker/attacks/impl/PaddingOracleAttacker.java:250-284 | getEqualityError on a built round: the classification of its observations. Only errorDuringHandshake changes, set on exactly the positions the scan marks (ScanFlags). |
| PaddingOracle.ScanMarksOfDistinct | Attacks/src/main/java/de/rub/nds/tlsattacker/attacks/impl/PaddingOracleAttacker.java:253-283 | In a round without repeated objects, the objects getEqualityError marks are exactly the positions ScanMarked names: visited before the stop, paired with a distinct position, one side without a fingerprint. |
| PaddingOracle.FirstRoundMarks | Attacks/src/main/java/de/rub/nds/tlsattacker/attacks/impl/PaddingOracleAttacker.java:162-197 | For a first-round response that is not also in the second round, each lookEqual flag is set iff its check against the second round (CheckAgainst) gives that outcome. |
| PaddingOracle.RoundBuiltFlags | Attacks/src/main/java/de/rub/nds/tlsattacker/attacks/impl/PaddingOracleAttacker.java:224-227 | A freshly built round carries errorDuringHandshake exactly on failed tasks, and no other flag. |
| PaddingOracle.UncheckedRound | Attacks/src/main/java/de/rub/nds/tlsattacker/attacks/impl/PaddingOracleAttacker.java:113-115 | A round that is not cross-checked (not built, another classification, or another size) leaves the first round's flags unchanged. |
| PaddingOracle.MarkedRound | Attacks/src/main/java/de/rub/nds/tlsattacker/attacks/impl/PaddingOracleAttacker.java:162-197 | Responses that each got the flag of their own check form the round's MarkRound flags. |
| PaddingOracle.UnmatchedRescanKeepsFlags | Attacks/src/main/java/de/rub/nds/tlsattacker/attacks/impl/PaddingOracleAttacker.java:113-115 | When the second round does not build, or builds with another classification, lookEqual never runs: the first round ends with the flags of its own scan. |
| PaddingOracle.CrossCheckedRescanFlags | Attacks/src/main/java/de/rub/nds/tlsattacker/attacks/impl/PaddingOracleAttacker.java:113-133 | A second round with the same classification and size that is not confirmed ends the scan. Each first-round response has its scan's flags plus the flag of its check against that round. |
| PaddingOracle.UnmatchedRescanOwnFlags | Attacks/src/main/java/de/rub/nds/tlsattacker/attacks/impl/PaddingOracleAttacker.java:113-117 | A confirmation round classified differently, or of another size, is not cross-checked: it keeps its own scan's flags. |
| PaddingOracle.RescanFlagsOnlyHandshake | Attacks/src/main/java/de/rub/nds/tlsattacker/attacks/impl/PaddingOracleAttacker.java:162-197 | A confirmation round's responses never get missingEquivalent or shaky. errorDuringHandshake is set exactly on failed tasks, on the scan's marks and, when lookEqual ran, on partners without a fingerprint. |
| PaddingOracle.SecondRoundMarks | Attacks/src/main/java/de/rub/nds/tlsattacker/attacks/impl/PaddingOracleAttacker.java:183-188 | For a second round without repeated objects and disjoint from the first, lookEqual marks position j iff j is the first equivalent, without a fingerprint, of some first-round response; it sets no other flag there. |
| PaddingOracle.MarkedRescanRound | Attacks/src/main/java/de/rub/nds/tlsattacker/attacks/impl/PaddingOracleAttacker.java:162-197 | Responses of the new round that each got their scan's and lookEqual's marks form the round's MarkPartners flags. |
| PaddingOracle.PaddingOracleAttacker.RunRescan | Attacks/src/main/java/de/rub/nds/tlsattacker/attacks/impl/PaddingOracleAttacker.java:113-118 | A confirmation round is built and classified, and the result is RescanOf. The first round's flags become MarkRound's: unchanged when the round failed, did not assemble, or has another classification; otherwise each response gets the flag of its check against the new round. The new round is fresh, and its flags are RescanFlags: failed tasks and its own scan's marks, plus, only when lookEqual ran, errorDuringHandshake on every partner found without a fingerprint. |
| PaddingOracle.PaddingOracleAttacker.CompareRescan | Attacks/src/main/java/de/rub/nds/tlsattacker/attacks/impl/PaddingOracleAttacker.java:114-118 | A built confirmation round with a different classification is rejected, and lookEqual is not called: the first round's flags are unchanged and the new round has only its scan's marks. With the same classification, a size mismatch is unstable and the cross-check decides otherwise; every object then carries the scan's and lookEqual's flags. |
| PaddingOracle.PaddingOracleAttacker.CrossCheckRescan | Attacks/src/main/java/de/rub/nds/tlsattacker/attacks/impl/PaddingOracleAttacker.java:155-199 | lookEqual on a rescan with the first round's classification: the result is CompareRounds, and each object carries exactly the flags lookEqual sets. |
| PaddingOracle.PaddingOracleAttacker.CheckRescan | Attacks/src/main/java/de/rub/nds/tlsattacker/attacks/impl/PaddingOracleAttacker.java:114-118 | CompareRescan on a round built afresh, stated on both rounds' flags: the first round gets MarkRound's, the new round its scan's marks and then MarkPartners. |
| PaddingOracle.PaddingOracleAttacker.StoreSecond | Attacks/src/main/java/de/rub/nds/tlsattacker/attacks/impl/PaddingOracleAttacker.java:113-131 | vectorResponseListTwo is replaced only by a built list, and shakyScans is set exactly on a rejection. |
| PaddingOracle.PaddingOracleAttacker.StoreThird | Attacks/src/main/java/de/rub/nds/tlsattacker/attacks/impl/PaddingOracleAttacker.java:116-125 | vectorResponseListThree is replaced only by a built list, and shakyScans is set exactly on a rejection. |
| PaddingOracle.PaddingOracleAttacker.RescanAgain | Attacks/src/main/java/de/rub/nds/tlsattacker/attacks/impl/PaddingOracleAttacker.java:113-131 | Round two: the rescan result is RescanOf, the built list is stored, a rejection sets shakyScans, and the first round's flags are those of the round-two cross-check. The stored list shares no object with the first round and carries RescanFlags. |
| PaddingOracle.PaddingOracleAttacker.ConfirmFinding | Attacks/src/main/java/de/rub/nds/tlsattacker/attacks/impl/PaddingOracleAttacker.java:112-133 | The third round runs only after the second confirmed, and its list is stored only then. A rejection by either rescan returns false and sets shakyScans. Two confirmations give true. The tasks consumed are the second round's, then the third's when it ran. The first round's flags are RescanRound's: round two's cross-check, then round three's when it ran. Each stored confirmation list carries its RescanFlags. |
| PaddingOracle.PaddingOracleAttacker.ConfirmAgain | Attacks/src/main/java/de/rub/nds/tlsattacker/attacks/impl/PaddingOracleAttacker.java:116-126 | The third round settles the verdict: true when it confirms, false with shakyScans set when it rejects. The first round's flags change only by round three's cross-check, and not at all when its classification differs. The stored third list carries RescanFlags, and round two's list keeps its flags. |
| PaddingOracle.PaddingOracleAttacker.ConcludeFirstRound | Attacks/src/main/java/de/rub/nds/tlsattacker/attacks/impl/PaddingOracleAttacker.java:110-133 | After a built first round, the result, shakyScans, the later lists and the assembly fields are those isVulnerable promises, and so are the first round's flags (FinalFlags) and those of the second and third lists (SecondRoundFlags, ThirdRoundFlags). A first round classified NONE stops there and keeps its flags. |
| PaddingOracle.PaddingOracleAttacker.IsVulnerable | Attacks/src/main/java/de/rub/nds/tlsattacker/attacks/impl/PaddingOracleAttacker.java:102-147 | The result is Decide over the three rounds. shakyScans is set exactly on a rescan rejection. groupRecords is cleared. Each response list is stored only when its round was reached and built. Suite, version and errornousScans are folded over exactly the tasks the reached rounds consumed. The stored first round ends with FinalFlags: its scan's marks, plus the cross-check flags of each rescan that reproduced its classification and size. vectorResponseListTwo and vectorResponseListThree end with SecondRoundFlags and ThirdRoundFlags: their own scan's marks, plus lookEqual's marks on partners without a fingerprint. |
| PaddingOracle.ReachedSecond | Attacks/src/main/java/de/rub/nds/tlsattacker/attacks/impl/PaddingOracleAttacker.java:111-133 | Past a differing first round, the verdict settles on the two rescans; the third round is reached iff the second confirmed; the scan is shaky iff a rescan that ran rejected; the tasks consumed follow the same order. |
| PaddingOracle.StoppedAtFirst | Attacks/src/main/java/de/rub/nds/tlsattacker/attacks/impl/PaddingOracleAttacker.java:109-111 | Without a built, differing first round: null on attack failure, the unstable exception when assembly threw, false otherwise; only the first round's tasks are consumed, and nothing is shaky. |
| PaddingOracle.CleanFirstRoundIsFinal | Attacks/src/main/java/de/rub/nds/tlsattacker/attacks/impl/PaddingOracleAttacker.java:109-111 | A first round classified NONE gives false. No rescan runs, shakyScans is not set, and only the first round's tasks are consumed. |
| PaddingOracle.VulnerableIffConfirmedTwice | Attacks/src/main/java/de/rub/nds/tlsattacker/attacks/impl/PaddingOracleAttacker.java:111-120 | The verdict is true iff all three rounds build and the first differs. Both rescans must also give the very same classification, have the same size, and be consistent with the first round. |
| PaddingOracle.RejectionIsShaky | Attacks/src/main/java/de/rub/nds/tlsattacker/attacks/impl/PaddingOracleAttacker.java:121-132 | A rescan rejection happens iff the first round differed and the verdict is false. |
| PaddingOracle.InconclusiveOnlyOnAttackFailure | Attacks/src/main/java/de/rub/nds/tlsattacker/attacks/impl/PaddingOracleAttacker.java:134-137 | The result is null iff a round that was reached failed to run. |
| PaddingOracle.SizeMismatchIsUnstable | Attacks/src/main/java/de/rub/nds/tlsattacker/attacks/impl/PaddingOracleAttacker.java:157-160 | Suppose a rescan reproduces the classification with a different number of responses. Then the unstable exception reaches the caller. |
| PaddingOracle.StableDifferenceIsVulnerable | Attacks/src/main/java/de/rub/nds/tlsattacker/attacks/impl/PaddingOracleAttacker.java:102-147 | Take a target that answers every probe identically in all three rounds, with a difference in the first round. It is found vulnerable. |
| UniqueFlows.ApplyStep | EvolutionaryFuzzer/src/main/java/tlsattacker/fuzzer/analyzer/rules/UniqueFlowsRule.java:97-98 | After onApply the type is in the set and nothing else was added. found grows by one iff the type was new. |
| UniqueFlows.ApplyStepKeepsCount | EvolutionaryFuzzer/src/main/java/tlsattacker/fuzzer/analyzer/rules/UniqueFlowsRule.java:97-98 | The set stays as large as the loaded types plus the types found. |
| UniqueFlows.ApplyStepIdempotent | EvolutionaryFuzzer/src/main/java/tlsattacker/fuzzer/analyzer/rules/UniqueFlowsRule.java:97-98 | Seeing the same type again changes nothing. |
| UniqueFlows.UniqueFlowsRule.constructor | EvolutionaryFuzzer/src/main/java/tlsattacker/fuzzer/analyzer/rules/UniqueFlowsRule.java:59-64 | The set holds the generated, uncleaned types of the stored test vectors, and found is 0. |
| UniqueFlows.UniqueFlowsRule.Applies | EvolutionaryFuzzer/src/main/java/tlsattacker/fuzzer/analyzer/rules/UniqueFlowsRule.java:76-83 | True iff the cleaned type is not in the set. |
| UniqueFlows.UniqueFlowsRule.OnApply | EvolutionaryFuzzer/src/main/java/tlsattacker/fuzzer/analyzer/rules/UniqueFlowsRule.java:92-111 | The new state is ApplyStep of the old state. The size invariant is kept. |
| UniqueFlows.UniqueFlowsRule.OnDecline | EvolutionaryFuzzer/src/main/java/tlsattacker/fuzzer/analyzer/rules/UniqueFlowsRule.java:119-121 | The set and the counter are unchanged. |
| UniqueFlows.NatToDecimal | EvolutionaryFuzzer/src/main/java/tlsattacker/fuzzer/analyzer/rules/UniqueFlowsRule.java:130 | A non-empty string of decimal digits without a leading zero. |
| UniqueFlows.DecimalRoundTrip | EvolutionaryFuzzer/src/main/java/tlsattacker/fuzzer/analyzer/rules/UniqueFlowsRule.java:130 | Reading the printed number back gives the number. |
| UniqueFlows.ReportText | EvolutionaryFuzzer/src/main/java/tlsattacker/fuzzer/analyzer/rules/UniqueFlowsRule.java:130 | The report starts with the observed label and ends with a newline. |
| UniqueFlows.ReportTextInjective | EvolutionaryFuzzer/src/main/java/tlsattacker/fuzzer/analyzer/rules/UniqueFlowsRule.java:128-131 | The report determines both numbers: different states never print the same line. |
| UniqueFlows.UniqueFlowsRule.Report | EvolutionaryFuzzer/src/main/java/tlsattacker/fuzzer/analyzer/rules/UniqueFlowsRule.java:128-131 | The report is the status line for the set's size and the counter. |
| ClientRandom.BytesHash | TLS-Core/src/main/java/de/rub/nds/tlsattacker/tls/workflow/action/ChangeClientRandomAction.java:64-65 | Arrays.hashCode is a Java int: 0 for null and 1 for an empty array. |
| ClientRandom.ExecuteStep | TLS-Core/src/main/java/de/rub/nds/tlsattacker/tls/workflow/action/ChangeClientRandomAction.java:46-53 | Fails with "Action already executed!" iff already executed, changing nothing. Otherwise it installs the new value, remembers the replaced one and sets executed. |
| ClientRandom.ResetStep | TLS-Core/src/main/java/de/rub/nds/tlsattacker/tls/workflow/action/ChangeClientRandomAction.java:55-59 | Clears the old value and executed, and keeps the new value. |
| ClientRandom.ExecuteAfterReset | TLS-Core/src/main/java/de/rub/nds/tlsattacker/tls/workflow/action/ChangeClientRandomAction.java:46-59 | After a reset the action runs again. |
| ClientRandom.ExecuteTwiceFails | TLS-Core/src/main/java/de/rub/nds/tlsattacker/tls/workflow/action/ChangeClientRandomAction.java:46-53 | A second execution without a reset fails. |
| ClientRandom.ExecuteWithOldValueRestores | TLS-Core/src/main/java/de/rub/nds/tlsattacker/tls/workflow/action/ChangeClientRandomAction.java:46-53 | An action whose new value is the one a run replaced puts that client random back. |
| ClientRandom.ChangeClientRandomAction.constructor | TLS-Core/src/main/java/de/rub/nds/tlsattacker/tls/workflow/action/ChangeClientRandomAction.java:25-28 | Sets the new value only. The old value is null and the action has not run. |
| ClientRandom.ChangeClientRandomAction.Unset | TLS-Core/src/main/java/de/rub/nds/tlsattacker/tls/workflow/action/ChangeClientRandomAction.java:30-31 | Both values are null and the action has not run. |
| ClientRandom.ChangeClientRandomAction.SetNewValue | TLS-Core/src/main/java/de/rub/nds/tlsattacker/tls/workflow/action/ChangeClientRandomAction.java:33-35 | Only the new value changes. |
| ClientRandom.ChangeClientRandomAction.Execute | TLS-Core/src/main/java/de/rub/nds/tlsattacker/tls/workflow/action/ChangeClientRandomAction.java:46-53 | Outcome, action state and context client random are ExecuteStep of the old state. |
| ClientRandom.ChangeClientRandomAction.Reset | TLS-Core/src/main/java/de/rub/nds/tlsattacker/tls/workflow/action/ChangeClientRandomAction.java:55-59 | The new state is ResetStep of the old. |
| ClientRandom.ChangeClientRandomAction.HashCode | TLS-Core/src/main/java/de/rub/nds/tlsattacker/tls/workflow/action/ChangeClientRandomAction.java:61-67 | A Java int. |
| ClientRandom.ChangeClientRandomAction.Equals | TLS-Core/src/main/java/de/rub/nds/tlsattacker/tls/workflow/action/ChangeClientRandomAction.java:69-85 | True iff the other object is an action of this class with equal new and old arrays by content. The executed flag plays no part. |
| ClientRandom.EqualsReflexive | TLS-Core/src/main/java/de/rub/nds/tlsattacker/tls/workflow/action/ChangeClientRandomAction.java:71-73 | equals is reflexive. |
| ClientRandom.EqualsSymmetric | TLS-Core/src/main/java/de/rub/nds/tlsattacker/tls/workflow/action/ChangeClientRandomAction.java:69-85 | equals is symmetric. |
| ClientRandom.EqualsTransitive | TLS-Core/src/main/java/de/rub/nds/tlsattacker/tls/workflow/action/ChangeClientRandomAction.java:69-85 | equals is transitive. |
| ClientRandom.UnsetActionHash | TLS-Core/src/main/java/de/rub/nds/tlsattacker/tls/workflow/action/ChangeClientRandomAction.java:61-67 | With both arrays null the hash is 83 * 83 * 7 = 48223. |
| ClientRandom.EqualActionsHashEqual | TLS-Core/src/main/java/de/rub/nds/tlsattacker/tls/workflow/action/ChangeClientRandomAction.java:61-85 | Equal actions have equal hash codes. |
| SigHashConverter.SignatureValueOf | TLS-Core/src/main/java/de/rub/nds/tlsattacker/tls/config/converters/SignatureAndHashAlgorithmConverter.java:31 | Returns the signature constant with exactly this name. A name of no constant is an error. |
| SigHashConverter.HashValueOf | TLS-Core/src/main/java/de/rub/nds/tlsattacker/tls/config/converters/SignatureAndHashAlgorithmConverter.java:32 | The same for hash constants. |
| SigHashConverter.ValueOfNameRoundTrip | TLS-Core/src/main/java/de/rub/nds/tlsattacker/tls/config/converters/SignatureAndHashAlgorithmConverter.java:31-32 | valueOf inverts each constant's name. |
| SigHashConverter.JoinFields | TLS-Core/src/main/java/de/rub/nds/tlsattacker/tls/config/converters/SignatureAndHashAlgorithmConverter.java:26 | Splitting at every dash, empty pieces included, loses nothing: joining the pieces gives the text back. |
| SigHashConverter.DropTrailingEmpty | TLS-Core/src/main/java/de/rub/nds/tlsattacker/tls/config/converters/SignatureAndHashAlgorithmConverter.java:26 | split keeps a prefix of the pieces. The prefix ends in a non-empty piece, and only empty pieces are dropped. |
| SigHashConverter.Convert | TLS-Core/src/main/java/de/rub/nds/tlsattacker/tls/config/converters/SignatureAndHashAlgorithmConverter.java:24-37 | A split into anything but two pieces fails with the shape message. Two pieces that are not both constant names fail with the message of the catch block, which has a trailing space. A success has the two constants' names as its pieces. |
| SigHashConverter.ConvertRoundTrip | TLS-Core/src/main/java/de/rub/nds/tlsattacker/tls/config/converters/SignatureAndHashAlgorithmConverter.java:24-37 | SIG-HASH written from two constants converts back to them. |
| SigHashConverter.AcceptsPairWithTrailingDashes | TLS-Core/src/main/java/de/rub/nds/tlsattacker/tls/config/converters/SignatureAndHashAlgorithmConverter.java:26-33 | Trailing dashes after SIG-HASH are dropped by split, so the pair is still accepted. |
| SigHashConverter.SplitOfPair | TLS-Core/src/main/java/de/rub/nds/tlsattacker/tls/config/converters/SignatureAndHashAlgorithmConverter.java:26 | A-B followed by dashes splits into exactly A and B. |
| SigHashConverter.AcceptedInputHasPairForm | TLS-Core/src/main/java/de/rub/nds/tlsattacker/tls/config/converters/SignatureAndHashAlgorithmConverter.java:24-37 | Every accepted input is the pair's names joined by a dash, followed by dashes. |
| SigHashConverter.ConvertAccepts | TLS-Core/src/main/java/de/rub/nds/tlsattacker/tls/config/converters/SignatureAndHashAlgorithmConverter.java:24-37 | convert returns (s, h) iff the input is NAME(s)-NAME(h) followed by zero or more dashes. |
| SigHashConverter.TrailingDashDropped | TLS-Core/src/main/java/de/rub/nds/tlsattacker/tls/config/converters/SignatureAndHashAlgorithmConverter.java:26 | "A-" splits into the single piece A. |
| SigHashConverter.LeadingDashKept | TLS-Core/src/main/java/de/rub/nds/tlsattacker/tls/config/converters/SignatureAndHashAlgorithmConverter.java:26 | "-B" splits into an empty piece and B. |
| SigHashConverter.ThreePiecesKept | TLS-Core/src/main/java/de/rub/nds/tlsattacker/tls/config/converters/SignatureAndHashAlgorithmConverter.java:26 | "A-B-C" splits into three pieces. |
| SigHashConverter.RejectsMissingHash | TLS-Core/src/main/java/de/rub/nds/tlsattacker/tls/config/converters/SignatureAndHashAlgorithmConverter.java:27-29 | "RSA-" fails with the shape message. |
| SigHashConverter.RejectsMissingSignature | TLS-Core/src/main/java/de/rub/nds/tlsattacker/tls/config/converters/SignatureAndHashAlgorithmConverter.java:31-35 | "-SHA1" has two pieces and fails in valueOf with the catch block's message. |
| SigHashConverter.RejectsThreePieces | TLS-Core/src/main/java/de/rub/nds/tlsattacker/tls/config/converters/SignatureAndHashAlgorithmConverter.java:27-29 | "RSA-SHA1-MD5" fails with the shape message. |
| Heartbeat.RandomBytes | TLS-Core/src/main/java/de/rub/nds/tlsattacker/tls/protocol/preparator/HeartbeatMessagePreparator.java:36-37 | An array of the requested length whose bytes are those the generator hands out. |
| Heartbeat.PaddingLength | TLS-Core/src/main/java/de/rub/nds/tlsattacker/tls/protocol/preparator/HeartbeatMessagePreparator.java:42-48 | Maximum below minimum fails with the configuration message. The draw succeeds iff min < max and max - min does not overflow. A drawn length lies in [min, max). |
| Heartbeat.PaddingLengthReachable | TLS-Core/src/main/java/de/rub/nds/tlsattacker/tls/protocol/preparator/HeartbeatMessagePreparator.java:48 | Every length in [min, max) is drawn by some generator value. |
| Heartbeat.EqualBoundsFail | TLS-Core/src/main/java/de/rub/nds/tlsattacker/tls/protocol/preparator/HeartbeatMessagePreparator.java:44-48 | Equal bounds pass the configuration check but make nextInt throw. |
| Heartbeat.Payload | TLS-Core/src/main/java/de/rub/nds/tlsattacker/tls/protocol/preparator/HeartbeatMessagePreparator.java:35-39 | The payload has the configured length. A negative length throws NegativeArraySizeException. |
| Heartbeat.Padding | TLS-Core/src/main/java/de/rub/nds/tlsattacker/tls/protocol/preparator/HeartbeatMessagePreparator.java:41-52 | Succeeds iff the drawn length exists and is non-negative, and then its length lies in [min, max). |
| Heartbeat.Prepared | TLS-Core/src/main/java/de/rub/nds/tlsattacker/tls/protocol/preparator/HeartbeatMessagePreparator.java:54-61 | The message type is always HEARTBEAT_REQUEST. |
| Heartbeat.PreparedComplete | TLS-Core/src/main/java/de/rub/nds/tlsattacker/tls/protocol/preparator/HeartbeatMessagePreparator.java:54-81 | A completed preparation sets the payload to the generator's bytes of the configured length. The payload length equals the payload's. The padding holds the generator's bytes and lies between the bounds. |
| Heartbeat.PreparedFailsIff | TLS-Core/src/main/java/de/rub/nds/tlsattacker/tls/protocol/preparator/HeartbeatMessagePreparator.java:54-61 | Preparation fails iff the payload length is negative or the padding cannot be generated. |
| Heartbeat.NegativePayloadStopsEarly | TLS-Core/src/main/java/de/rub/nds/tlsattacker/tls/protocol/preparator/HeartbeatMessagePreparator.java:57-58 | A negative payload length stops after the type is set. Everything else is untouched. |
| Heartbeat.InvertedBoundsKeepEarlierFields | TLS-Core/src/main/java/de/rub/nds/tlsattacker/tls/protocol/preparator/HeartbeatMessagePreparator.java:44-47 | Inverted bounds raise the configuration error after payload and length were set. The padding is left as it was. |
| Heartbeat.SaneConfigSucceeds | TLS-Core/src/main/java/de/rub/nds/tlsattacker/tls/protocol/preparator/HeartbeatMessagePreparator.java:41-61 | With a non-negative payload length and 0 <= min < max, preparation completes whatever the generator does. |
| Heartbeat.FillRandom | TLS-Core/src/main/java/de/rub/nds/tlsattacker/tls/protocol/preparator/HeartbeatMessagePreparator.java:49-50 | A fresh array filled with the generator's bytes. |
| Heartbeat.HeartbeatMessagePreparator.GeneratePayload | TLS-Core/src/main/java/de/rub/nds/tlsattacker/tls/protocol/preparator/HeartbeatMessagePreparator.java:35-39 | A fresh array whose contents are Payload, or Payload's exception. |
| Heartbeat.HeartbeatMessagePreparator.GeneratePadding | TLS-Core/src/main/java/de/rub/nds/tlsattacker/tls/protocol/preparator/HeartbeatMessagePreparator.java:41-52 | A fresh array whose contents are Padding, or Padding's exception. |
| Heartbeat.HeartbeatMessagePreparator.PrepareProtocolMessageContents | TLS-Core/src/main/java/de/rub/nds/tlsattacker/tls/protocol/preparator/HeartbeatMessagePreparator.java:54-61 | The outcome and the message's fields are Prepared of the old fields, step by step in source order. |
| Heartbeat.HeartbeatMessagePreparator.PrepareHeartbeatMessageType | TLS-Core/src/main/java/de/rub/nds/tlsattacker/tls/protocol/preparator/HeartbeatMessagePreparator.java:63-66 | Sets the type to HEARTBEAT_REQUEST. |
| Heartbeat.HeartbeatMessagePreparator.PreparePayload | TLS-Core/src/main/java/de/rub/nds/tlsattacker/tls/protocol/preparator/HeartbeatMessagePreparator.java:68-71 | Sets the payload, or leaves it and reports the exception. |
| Heartbeat.HeartbeatMessagePreparator.PreparePayloadLength | TLS-Core/src/main/java/de/rub/nds/tlsattacker/tls/protocol/preparator/HeartbeatMessagePreparator.java:73-76 | Sets the length to that of the payload already set. |
| Heartbeat.HeartbeatMessagePreparator.PreparePadding | TLS-Core/src/main/java/de/rub/nds/tlsattacker/tls/protocol/preparator/HeartbeatMessagePreparator.java:78-81 | Sets the padding, or leaves it and reports the exception. |
| WorkflowType.CreateTrace | TLS-Core/src/main/java/de/rub/nds/tlsattacker/tls/config/delegate/WorkflowTypeDelegate.java:47-58 | FULL, HANDSHAKE and CLIENT_HELLO give the factory's full, handshake and client-hello workflows. Any other type fails with "not supported workflow type: " and its name. |
| WorkflowType.TypeNameInjective | TLS-Core/src/main/java/de/rub/nds/tlsattacker/tls/config/delegate/WorkflowTypeDelegate.java:57-58 | Distinct workflow trace types print distinct names, so the error message names the type. |
| WorkflowType.ApplyStep | TLS-Core/src/main/java/de/rub/nds/tlsattacker/tls/config/delegate/WorkflowTypeDelegate.java:40-62 | The type is overwritten only by a given type. An existing trace is never touched. Without a type nothing is built. The delegate fails iff there is no trace and the type is unsupported, and then the trace stays unset. |
| WorkflowType.ApplyBuildsTraceForType | TLS-Core/src/main/java/de/rub/nds/tlsattacker/tls/config/delegate/WorkflowTypeDelegate.java:46-60 | A configuration without a trace but with a type gets the factory's trace for that type, or that type's error. |
| WorkflowType.ApplyIdempotent | TLS-Core/src/main/java/de/rub/nds/tlsattacker/tls/config/delegate/WorkflowTypeDelegate.java:40-62 | Applying the delegate again after a success changes nothing. |
| WorkflowType.WorkflowTypeDelegate.ApplyDelegate | TLS-Core/src/main/java/de/rub/nds/tlsattacker/tls/config/delegate/WorkflowTypeDelegate.java:40-62 | The outcome and the configuration's fields are ApplyStep of the old fields. |
| WorkflowType.WorkflowTypeDelegate.GetWorkflowTraceType | TLS-Core/src/main/java/de/rub/nds/tlsattacker/tls/config/delegate/WorkflowTypeDelegate.java:31-33 | Returns the stored type. |
| WorkflowType.WorkflowTypeDelegate.SetWorkflowTraceType | TLS-Core/src/main/java/de/rub/nds/tlsattacker/tls/config/delegate/WorkflowTypeDelegate.java:35-37 | Stores the type. |
| WorkflowType.SetThenGet | TLS-Core/src/main/java/de/rub/nds/tlsattacker/tls/config/delegate/WorkflowTypeDelegate.java:31-37 | The getter returns what the setter last stored. |

## Left out

- Probe execution is not modelled:
  - vector and trace generation, the `ParallelExecutor`, timeouts and the network;
  - `FingerPrintTask`, `State` and the fingerprint extraction.

  A round enters the model as its tasks' outcomes, or as an `AttackFailedException` raised before assembly (PaddingOracleAttacker.java:205-218).
- `FingerPrintChecker.checkEquality` is not part of this model. It is an arbitrary comparator into `EqualityError` values, so it never returns null.
- PaddingOracle.PaddingOracleAttacker.GetEqualityError: a null from `checkEquality` is not modelled. In the source, a null passes `error != NONE` at PaddingOracleAttacker.java:272-278 and is returned. `isVulnerable` would then skip the rescans at :111 and, unless `EqualityErrorTranslator.translation` at :138 throws on it, return `null != NONE`, that is true, at :146. The `EqualityError` taxonomy is reduced to NONE and opaque difference codes.
- Logging and console output are left out: the `CONSOLE`/`LOGGER` calls and the debug dump at PaddingOracleAttacker.java:138-144. They do not affect the result.
- The attacker's constructors (PaddingOracleAttacker.java:73-90) only wire the configuration and the executor. The model's constructor takes the comparator and the default application-data length instead.
- UniqueFlows.UniqueFlowsRule.constructor: JAXB loading and writing of the rule configuration, and reading stored test vectors from disk, are left out. The stored vectors are a parameter.
- UniqueFlows.UniqueFlowsRule.OnApply: writing the test vector to a file (UniqueFlowsRule.java:102-108) is file I/O and is not modelled.
- UniqueFlows.UniqueFlowsRule.OnApply: `found` is unbounded. Java's `int` would wrap after 2^31 - 1 new types, a count that no set of trace types held in memory reaches.
- `synchronized` on the rule's methods is a concurrency guard. The model is sequential.
- `WorkflowTraceTypeManager.generateWorkflowTraceType` and `WorkflowTraceType.clean()` are not part of this model. They are fixed functions of the rule. `clean()` mutates its receiver in place, which is modelled as the cleaned value it leaves behind.
- ChangeClientRandomAction: byte arrays are held by value, so aliasing between the action's arrays and the context's is not modelled. `getNewValue`/`getOldValue` are plain getters and are not modelled. `executed` comes from the `TLSAction` superclass, which is not part of this model, and appears as a field.
- ClientRandom.ChangeClientRandomAction.Execute: the `ActionExecutor` argument is unused by the source and left out.
- The enum declarations of SignatureAlgorithm, HashAlgorithm, WorkflowTraceType and HeartbeatMessageType are not part of this model. The signature and hash constants follow section 7.4.1.4.1 of RFC 5246. HEARTBEAT_REQUEST is 1 (section 3 of RFC 6520). WorkflowTraceType's other constants are represented by name.
- Heartbeat.HeartbeatMessagePreparator.PreparePayloadLength: modifications registered on the message's modifiable variables are not modelled. `getPayload().getValue()` at HeartbeatMessagePreparator.java:74 returns the modified payload, whose length can differ from the one just set.
- Heartbeat: `RandomHelper.getRandom()` becomes a `RandomSource` parameter. The message's modifiable-variable wrappers hold their byte arrays by value. The `TlsContext` is reduced to the three configuration values read. Debug logging is left out.
- Heartbeat.Prepared: its own contract states only the message type. The field-by-field behaviour is stated by PreparedComplete, PreparedFailsIff, NegativePayloadStopsEarly and InvertedBoundsKeepEarlierFields.
- WorkflowType: `WorkflowConfigurationFactory` is not part of this model. It is represented by the three traces it would build for the configuration. Which traces those are depends on configuration content the model does not carry.
