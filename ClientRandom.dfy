/**
 * The workflow action that overwrites the client random of a TLS context
 * with a configured value, remembers the value it replaced, and can be
 * reset to run once more. Byte arrays are modelled as values: a null array
 * is None.
 */
module ClientRandom {
  import opened JavaLang

  datatype WorkflowExecutionException = WorkflowExecutionException(message: string)

  const ALREADY_EXECUTED := "Action already executed!"

  // ---------------------------------------------------------------------------
  // Arrays.equals / Arrays.hashCode on byte arrays
  // ---------------------------------------------------------------------------

  /** Arrays.hashCode of a non-null array: 31 * h + b over the bytes,
      starting from 1, in 32-bit arithmetic. */
  function BytesHashFold(s: seq<byte>): (h: int)
    ensures INT_MIN <= h <= INT_MAX
  {
    if s == [] then 1 else Int32(31 * BytesHashFold(s[..|s| - 1]) + s[|s| - 1])
  }

  /** Arrays.hashCode(byte[]): 0 for null. */
  function BytesHash(a: Option<seq<byte>>): (h: int)
    ensures INT_MIN <= h <= INT_MAX
    ensures a.None? ==> h == 0
    ensures a == Some([]) ==> h == 1
  {
    if a.None? then 0 else BytesHashFold(a.value)
  }

  // ---------------------------------------------------------------------------
  // The action's state, as a value
  // ---------------------------------------------------------------------------

  /** newValue, oldValue and the `executed` flag the action inherits. */
  datatype ActionState = ActionState(newValue: Option<seq<byte>>, oldValue: Option<seq<byte>>, executed: bool)

  /** What execute leaves behind: its outcome, the action's state and the
      context's client random. */
  datatype ExecuteResult = ExecuteResult(outcome: Outcome<WorkflowExecutionException>, state: ActionState,
                                         clientRandom: Option<seq<byte>>)

  function ExecuteStep(s: ActionState, clientRandom: Option<seq<byte>>): (r: ExecuteResult)
    ensures r.outcome.Pass? <==> !s.executed
    ensures r.outcome.Fail? ==> r.outcome.error.message == ALREADY_EXECUTED
    ensures r.outcome.Fail? ==> r.state == s && r.clientRandom == clientRandom
    ensures r.outcome.Pass? ==> r.clientRandom == s.newValue && r.state.oldValue == clientRandom
    ensures r.outcome.Pass? ==> r.state.executed && r.state.newValue == s.newValue
  {
    if s.executed then ExecuteResult(Fail(WorkflowExecutionException(ALREADY_EXECUTED)), s, clientRandom)
    else ExecuteResult(Pass, ActionState(s.newValue, clientRandom, true), s.newValue)
  }

  function ResetStep(s: ActionState): (t: ActionState)
    ensures t.newValue == s.newValue && t.oldValue.None? && !t.executed
  {
    ActionState(s.newValue, None, false)
  }

  /** After a reset the action can be executed again. */
  lemma ExecuteAfterReset(s: ActionState, clientRandom: Option<seq<byte>>)
    ensures ExecuteStep(ResetStep(s), clientRandom).outcome.Pass?
  {
  }

  /** An action runs at most once between resets. */
  lemma ExecuteTwiceFails(s: ActionState, clientRandom: Option<seq<byte>>)
    requires ExecuteStep(s, clientRandom).outcome.Pass?
    ensures var r := ExecuteStep(s, clientRandom); ExecuteStep(r.state, r.clientRandom).outcome.Fail?
  {
  }

  /** An action set up with the value a run replaced puts that value back. */
  lemma ExecuteWithOldValueRestores(s: ActionState, clientRandom: Option<seq<byte>>)
    requires !s.executed
    ensures var r := ExecuteStep(s, clientRandom);
      ExecuteStep(ActionState(r.state.oldValue, None, false), r.clientRandom).clientRandom == clientRandom
  {
  }

  // ---------------------------------------------------------------------------
  // The objects
  // ---------------------------------------------------------------------------

  /** The part of the TLS context this action touches. */
  class TlsContext {
    var clientRandom: Option<seq<byte>>

    constructor (clientRandom: Option<seq<byte>>)
      ensures this.clientRandom == clientRandom
    {
      this.clientRandom := clientRandom;
    }
  }

  class ChangeClientRandomAction {
    var newValue: Option<seq<byte>>
    var oldValue: Option<seq<byte>>
    /** Inherited from TLSAction. */
    var executed: bool

    function State(): ActionState
      reads this
    {
      ActionState(newValue, oldValue, executed)
    }

    constructor (newValue: Option<seq<byte>>)
      ensures State() == ActionState(newValue, None, false)
    {
      this.newValue := newValue;
      oldValue := None;
      executed := false;
    }

    /** The no-argument constructor: no new value yet. */
    constructor Unset()
      ensures State() == ActionState(None, None, false)
    {
      newValue, oldValue, executed := None, None, false;
    }

    method SetNewValue(newValue: Option<seq<byte>>)
      modifies this`newValue
      ensures State() == old(State()).(newValue := newValue)
    {
      this.newValue := newValue;
    }

    method Execute(context: TlsContext) returns (outcome: Outcome<WorkflowExecutionException>)
      modifies this`oldValue, this`executed, context`clientRandom
      ensures ExecuteResult(outcome, State(), context.clientRandom) == ExecuteStep(old(State()), old(context.clientRandom))
    {
      if executed {
        return Fail(WorkflowExecutionException(ALREADY_EXECUTED));
      }
      oldValue := context.clientRandom;
      context.clientRandom := newValue;
      executed := true;
      return Pass;
    }

    method Reset()
      modifies this`oldValue, this`executed
      ensures State() == ResetStep(old(State()))
    {
      oldValue := None;
      executed := false;
    }

    /** 7, then 83 * hash + Arrays.hashCode for the new value and then for
        the old value, in 32-bit arithmetic. */
    function HashCode(): (h: int)
      reads this
      ensures INT_MIN <= h <= INT_MAX
    {
      var seeded := Int32(83 * 7 + BytesHash(newValue));
      Int32(83 * seeded + BytesHash(oldValue))
    }

    /** Another action with the same new and old arrays, by content; the
        `executed` flag takes no part. */
    function Equals(obj: object?): (b: bool)
      reads this, obj
      ensures b <==>
        (obj is ChangeClientRandomAction &&
         (obj as ChangeClientRandomAction).newValue == newValue && (obj as ChangeClientRandomAction).oldValue == oldValue)
    {
      if this == obj then true
      else if obj == null then false
      else if !(obj is ChangeClientRandomAction) then false
      else
        var other := obj as ChangeClientRandomAction;
        if newValue != other.newValue then false
        else oldValue == other.oldValue
    }
  }

  lemma EqualsReflexive(a: ChangeClientRandomAction)
    ensures a.Equals(a)
  {
  }

  lemma EqualsSymmetric(a: ChangeClientRandomAction, b: ChangeClientRandomAction)
    ensures a.Equals(b) <==> b.Equals(a)
  {
  }

  lemma EqualsTransitive(a: ChangeClientRandomAction, b: ChangeClientRandomAction, c: ChangeClientRandomAction)
    requires a.Equals(b) && b.Equals(c)
    ensures a.Equals(c)
  {
  }

  /** One worked value of hashCode: an action with neither array set hashes
      to 83 * 83 * 7. The general property is EqualActionsHashEqual. */
  lemma UnsetActionHash(a: ChangeClientRandomAction)
    requires a.newValue.None? && a.oldValue.None?
    ensures a.HashCode() == 48223
  {
    assert Int32(83 * 7 + 0) == 581;
    assert Int32(83 * 581 + 0) == 48223;
  }

  /** Equal actions have equal hash codes. */
  lemma EqualActionsHashEqual(a: ChangeClientRandomAction, b: ChangeClientRandomAction)
    requires a.Equals(b)
    ensures a.HashCode() == b.HashCode()
  {
  }
}
