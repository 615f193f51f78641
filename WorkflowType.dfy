/**
 * The command-line delegate for the workflow trace type: it copies a type
 * given on the command line into the TLS configuration and, when the
 * configuration holds no workflow trace yet, builds the trace for its type.
 */
module WorkflowType {
  import opened JavaLang

  /** The name of an enum constant other than the three handled ones. */
  type OtherTypeName = s: string | s != "FULL" && s != "HANDSHAKE" && s != "CLIENT_HELLO" witness "OTHER"

  /** WorkflowTraceType: the three types the delegate builds traces for, and
      every other constant of the enum by its name. */
  datatype WorkflowTraceType = FULL | HANDSHAKE | CLIENT_HELLO | Other(name: OtherTypeName)

  /** The enum constant's name, as string concatenation prints it. */
  function TypeName(t: WorkflowTraceType): string {
    match t
    case FULL => "FULL"
    case HANDSHAKE => "HANDSHAKE"
    case CLIENT_HELLO => "CLIENT_HELLO"
    case Other(name) => name
  }

  /** Each type prints under its own name. */
  lemma TypeNameInjective(a: WorkflowTraceType, b: WorkflowTraceType)
    requires TypeName(a) == TypeName(b)
    ensures a == b
  {
  }

  /** A workflow trace; its content is not modelled. */
  type WorkflowTrace(==)

  /** The traces WorkflowConfigurationFactory builds for the configuration. */
  datatype WorkflowFactory = WorkflowFactory(fullWorkflow: WorkflowTrace, handshakeWorkflow: WorkflowTrace,
                                             clientHelloWorkflow: WorkflowTrace)

  datatype ConfigurationException = ConfigurationException(message: string)

  const UNSUPPORTED_TYPE := "not supported workflow type: "

  /** The switch over the configured type. */
  function CreateTrace(factory: WorkflowFactory, t: WorkflowTraceType): (r: Result<WorkflowTrace, ConfigurationException>)
    ensures r.Success? <==> !t.Other?
    ensures t == FULL ==> r == Success(factory.fullWorkflow)
    ensures t == HANDSHAKE ==> r == Success(factory.handshakeWorkflow)
    ensures t == CLIENT_HELLO ==> r == Success(factory.clientHelloWorkflow)
    ensures r.Failure? ==> r.error.message == UNSUPPORTED_TYPE + t.name
  {
    match t
    case FULL => Success(factory.fullWorkflow)
    case HANDSHAKE => Success(factory.handshakeWorkflow)
    case CLIENT_HELLO => Success(factory.clientHelloWorkflow)
    case Other(_) => Failure(ConfigurationException(UNSUPPORTED_TYPE + TypeName(t)))
  }

  /** The two configuration fields the delegate touches; None is null. */
  datatype ConfigState = ConfigState(workflowTraceType: Option<WorkflowTraceType>, workflowTrace: Option<WorkflowTrace>)

  /** applyDelegate on the configuration's fields, with the delegate's own
      type (None when none was given). */
  function ApplyStep(delegateType: Option<WorkflowTraceType>, factory: WorkflowFactory, s: ConfigState)
    : (r: (Outcome<ConfigurationException>, ConfigState))
    ensures r.1.workflowTraceType == if delegateType.Some? then delegateType else s.workflowTraceType
    ensures s.workflowTrace.Some? ==> r.0.Pass? && r.1.workflowTrace == s.workflowTrace
    ensures r.1.workflowTraceType.None? ==> r.0.Pass? && r.1.workflowTrace == s.workflowTrace
    ensures r.0.Fail? <==>
            (s.workflowTrace.None? && r.1.workflowTraceType.Some? && r.1.workflowTraceType.value.Other?)
    ensures r.0.Fail? ==> r.1.workflowTrace.None?
  {
    var typed := if delegateType.Some? then s.(workflowTraceType := delegateType) else s;
    if typed.workflowTrace.None? && typed.workflowTraceType.Some? then
      match CreateTrace(factory, typed.workflowTraceType.value)
      case Failure(e) => (Fail(e), typed)
      case Success(trace) => (Pass, typed.(workflowTrace := Some(trace)))
    else (Pass, typed)
  }

  /** A configuration left without a trace but with a type gets the trace
      the factory builds for that type. */
  lemma ApplyBuildsTraceForType(delegateType: Option<WorkflowTraceType>, factory: WorkflowFactory, s: ConfigState)
    requires s.workflowTrace.None?
    ensures var r := ApplyStep(delegateType, factory, s);
      r.1.workflowTraceType.Some? ==>
        CreateTrace(factory, r.1.workflowTraceType.value) ==
        (if r.0.Pass? then Success(r.1.workflowTrace.value) else Failure(r.0.error))
  {
  }

  /** Applying the delegate again after it succeeded changes nothing. */
  lemma ApplyIdempotent(delegateType: Option<WorkflowTraceType>, factory: WorkflowFactory, s: ConfigState)
    requires ApplyStep(delegateType, factory, s).0.Pass?
    ensures var t := ApplyStep(delegateType, factory, s).1;
      ApplyStep(delegateType, factory, t) == (Pass, t)
  {
  }

  // ---------------------------------------------------------------------------
  // The objects
  // ---------------------------------------------------------------------------

  /** The part of TlsConfig the delegate reads and writes. */
  class TlsConfig {
    var workflowTraceType: Option<WorkflowTraceType>
    var workflowTrace: Option<WorkflowTrace>

    function State(): ConfigState
      reads this
    {
      ConfigState(workflowTraceType, workflowTrace)
    }

    constructor (workflowTraceType: Option<WorkflowTraceType>, workflowTrace: Option<WorkflowTrace>)
      ensures State() == ConfigState(workflowTraceType, workflowTrace)
    {
      this.workflowTraceType := workflowTraceType;
      this.workflowTrace := workflowTrace;
    }
  }

  class WorkflowTypeDelegate {
    /** The value of -workflow_trace_type, None when it was not given. */
    var workflowTraceType: Option<WorkflowTraceType>

    constructor ()
      ensures workflowTraceType.None?
    {
      workflowTraceType := None;
    }

    method GetWorkflowTraceType() returns (t: Option<WorkflowTraceType>)
      ensures t == workflowTraceType
    {
      return workflowTraceType;
    }

    method SetWorkflowTraceType(t: Option<WorkflowTraceType>)
      modifies this
      ensures workflowTraceType == t
    {
      workflowTraceType := t;
    }

    method ApplyDelegate(config: TlsConfig, factory: WorkflowFactory) returns (outcome: Outcome<ConfigurationException>)
      modifies config
      ensures (outcome, config.State()) == ApplyStep(workflowTraceType, factory, old(config.State()))
    {
      if workflowTraceType.Some? {
        config.workflowTraceType := workflowTraceType;
      }
      if config.workflowTrace.None? && config.workflowTraceType.Some? {
        var trace;
        match config.workflowTraceType.value {
          case FULL =>
            trace := factory.fullWorkflow;
          case HANDSHAKE =>
            trace := factory.handshakeWorkflow;
          case CLIENT_HELLO =>
            trace := factory.clientHelloWorkflow;
          case Other(_) =>
            return Fail(ConfigurationException(UNSUPPORTED_TYPE + TypeName(config.workflowTraceType.value)));
        }
        config.workflowTrace := Some(trace);
      }
      return Pass;
    }
  }

  /** The accessors together, for every delegate and every type: the getter
      returns what the setter last stored. A lemma cannot call the two
      methods, so the round trip is a method. */
  method SetThenGet(d: WorkflowTypeDelegate, t: Option<WorkflowTraceType>) returns (got: Option<WorkflowTraceType>)
    modifies d
    ensures got == t
  {
    d.SetWorkflowTraceType(t);
    got := d.GetWorkflowTraceType();
  }
}
