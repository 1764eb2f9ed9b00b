/** The setup step that fetches a device's full SIM record from the cloud
    (StepFetchFullSimData.doRunStep), with its guard clause, its spinner
    show/hide bracket and its single write to the shared setup context. */
module SimFetch {
  import opened Wrappers

  /** A SIM record as the cloud returns it: keyed by its ICCID; the other
      attributes of the record are carried but not interpreted. */
  datatype Sim = Sim(iccid: string, attributes: map<string, string>)

  /** The exception the cloud client throws when `getSim` fails. */
  datatype CloudError = CloudError(message: string)

  /** What escapes `doRunStep`: the null-assertion failure of `iccid!!`, or the
      cloud client's own exception, neither of which the step catches. */
  datatype StepError = IccidMissing | CloudCallFailed(cause: CloudError)

  /** One observable side effect of the step, in the order it happens. */
  datatype Event = Spinner(visible: bool) | CloudGetSim(iccid: string)

  /** Everything one run of the step does: its side effects in order, the value
      of `targetDevice.sim` afterwards, and whether it completed or threw. */
  datatype StepRun = StepRun(trace: seq<Event>, sim: Option<Sim>, outcome: Outcome<StepError>)

  /** The cloud's answer for every ICCID: a record, or the exception it throws. */
  type SimLookup = string -> Result<Sim, CloudError>

  /** The step as a function of the context it reads and of the cloud's answers.
      A known SIM is never overwritten, and the step completes normally exactly
      when it leaves the SIM known. */
  function RunStep(sim: Option<Sim>, iccid: Option<string>, getSim: SimLookup): (r: StepRun)
    ensures sim.Some? ==> r.sim == sim
    ensures r.outcome.Pass? <==> r.sim.Some?
  {
    if sim.Some? then
      StepRun([], sim, Pass)
    else if iccid.None? then
      // `iccid!!` throws inside the try block: only the finally clause runs
      StepRun([Spinner(true), Spinner(false)], None, Fail(IccidMissing))
    else
      var calls := [Spinner(true), CloudGetSim(iccid.value), Spinner(false)];
      match getSim(iccid.value)
      case Success(record) => StepRun(calls, Some(record), Pass)
      case Failure(e) => StepRun(calls, None, Fail(CloudCallFailed(e)))
  }

  /** The arguments of the spinner calls in a trace, in order. */
  function SpinnerCalls(trace: seq<Event>): seq<bool>
  {
    if trace == [] then []
    else (if trace[0].Spinner? then [trace[0].visible] else []) + SpinnerCalls(trace[1..])
  }

  /** The ICCIDs passed to the cloud in a trace, in order. */
  function CloudCalls(trace: seq<Event>): seq<string>
  {
    if trace == [] then []
    else (if trace[0].CloudGetSim? then [trace[0].iccid] else []) + CloudCalls(trace[1..])
  }

  /** When the SIM is already known the step returns at once: no spinner call,
      no cloud call, the context unchanged, and it completes normally. */
  lemma GuardIsNoOp(sim: Option<Sim>, iccid: Option<string>, getSim: SimLookup)
    requires sim.Some?
    ensures RunStep(sim, iccid, getSim) == StepRun([], sim, Pass)
    ensures SpinnerCalls(RunStep(sim, iccid, getSim).trace) == []
    ensures CloudCalls(RunStep(sim, iccid, getSim).trace) == []
  {
  }

  /** Past the guard, every exit path (the record stored, `getSim` throwing,
      `iccid` null) opens with `show(true)` and closes with `show(false)`, and
      shows and hides the spinner exactly once each. */
  lemma SpinnerBracketsEveryPath(iccid: Option<string>, getSim: SimLookup)
    ensures var calls := SpinnerCalls(RunStep(None, iccid, getSim).trace);
      calls == [true, false]
    ensures var trace := RunStep(None, iccid, getSim).trace;
      |trace| >= 2 && trace[0] == Spinner(true) && trace[|trace| - 1] == Spinner(false)
  {
    var trace := RunStep(None, iccid, getSim).trace;
    if iccid.Some? {
      assert trace[1..][1..] == [Spinner(false)];
    }
  }

  /** The cloud is asked at most once, only when the SIM is unknown and the ICCID
      is present, for that ICCID, and only after the spinner has been shown. */
  lemma CloudCalledOnlyUnderSpinner(sim: Option<Sim>, iccid: Option<string>, getSim: SimLookup)
    ensures CloudCalls(RunStep(sim, iccid, getSim).trace)
         == if sim.None? && iccid.Some? then [iccid.value] else []
    ensures var trace := RunStep(sim, iccid, getSim).trace;
      forall i | 0 <= i < |trace| && trace[i].CloudGetSim? :: 0 < i && trace[0] == Spinner(true)
  {
    var trace := RunStep(sim, iccid, getSim).trace;
    if sim.None? && iccid.Some? {
      assert trace == [Spinner(true), CloudGetSim(iccid.value), Spinner(false)];
      assert trace[1..][1..] == [Spinner(false)];
      assert CloudCalls(trace[1..][1..]) == [];
      assert CloudCalls(trace[1..]) == [iccid.value];
    } else if sim.None? {
      assert trace[1..] == [Spinner(false)];
    }
  }

  /** The step completes normally exactly when the SIM was already known or the
      cloud returned a record for the ICCID; a record it stores is the one the
      cloud returned for `targetDevice.iccid`. */
  lemma SuccessStoresCloudRecord(sim: Option<Sim>, iccid: Option<string>, getSim: SimLookup)
    ensures var run := RunStep(sim, iccid, getSim);
      run.outcome.Pass? <==> sim.Some? || (iccid.Some? && getSim(iccid.value).Success?)
    ensures var run := RunStep(sim, iccid, getSim);
      sim.None? && run.outcome.Pass? ==>
        iccid.Some? && run.sim.Some? && getSim(iccid.value) == Success(run.sim.value)
  {
  }

  /** When the step throws, `targetDevice.sim` stays null and the exception the
      caller sees is the one raised: the null `iccid`, or the cloud's own error. */
  lemma FailurePropagatesError(sim: Option<Sim>, iccid: Option<string>, getSim: SimLookup)
    ensures var run := RunStep(sim, iccid, getSim);
      run.outcome.Fail? ==> sim.None? && run.sim.None?
    ensures var run := RunStep(sim, iccid, getSim);
      sim.None? && iccid.None? ==> run.outcome == Fail(IccidMissing)
    ensures var run := RunStep(sim, iccid, getSim);
      sim.None? && iccid.Some? && getSim(iccid.value).Failure? ==>
        run.outcome == Fail(CloudCallFailed(getSim(iccid.value).error))
  {
  }

  /** Once a run has completed normally, running the step again is the guard's
      no-op: no spinner call, no cloud call, the same SIM. */
  lemma RerunAfterSuccessIsNoOp(sim: Option<Sim>, iccid: Option<string>, getSim: SimLookup)
    requires RunStep(sim, iccid, getSim).outcome.Pass?
    ensures var first := RunStep(sim, iccid, getSim);
      RunStep(first.sim, iccid, getSim) == StepRun([], first.sim, Pass)
  {
  }

  /** The target-device sub-context of the shared setup context. */
  class TargetDeviceContext {
    var sim: Option<Sim>
    var iccid: Option<string>

    constructor (iccid: Option<string>)
      ensures this.iccid == iccid && sim.None?
    {
      this.iccid := iccid;
      sim := None;
    }
  }

  /** The shared setup context; the other sub-contexts are not part of this model. */
  class SetupContexts {
    const targetDevice: TargetDeviceContext

    constructor (targetDevice: TargetDeviceContext)
      ensures this.targetDevice == targetDevice
    {
      this.targetDevice := targetDevice;
    }
  }

  /** The order in which the step's collaborators were called: the cloud client
      and the UI delegate both append to the same log. */
  class CallLog {
    ghost var events: seq<Event>

    constructor ()
      ensures events == []
    {
      events := [];
    }
  }

  /** The cloud client, reduced to `getSim`; every call is appended to `log`. */
  class ParticleCloud {
    const sims: SimLookup
    const log: CallLog

    constructor (sims: SimLookup, log: CallLog)
      ensures this.sims == sims && this.log == log
    {
      this.sims := sims;
      this.log := log;
    }

    method GetSim(iccid: string) returns (r: Result<Sim, CloudError>)
      modifies log
      ensures r == sims(iccid)
      ensures log.events == old(log.events) + [CloudGetSim(iccid)]
    {
      r := sims(iccid);
      log.events := log.events + [CloudGetSim(iccid)];
    }
  }

  /** The UI delegate: the spinner shows the last value it was given, and every
      call is appended to `log`. */
  class FlowUiDelegate {
    var spinnerVisible: bool
    const log: CallLog

    constructor (log: CallLog)
      ensures !spinnerVisible && this.log == log
    {
      spinnerVisible := false;
      this.log := log;
    }

    method ShowGlobalProgressSpinner(show: bool)
      modifies this, log
      ensures spinnerVisible == show
      ensures log.events == old(log.events) + [Spinner(show)]
    {
      spinnerVisible := show;
      log.events := log.events + [Spinner(show)];
    }
  }

  /** The step object and its two collaborators, which record their calls in
      one shared log. */
  class StepFetchFullSimData {
    const cloud: ParticleCloud
    const flowUi: FlowUiDelegate

    constructor (cloud: ParticleCloud, flowUi: FlowUiDelegate)
      requires cloud.log == flowUi.log
      ensures this.cloud == cloud && this.flowUi == flowUi
    {
      this.cloud := cloud;
      this.flowUi := flowUi;
    }

    /** Runs the step on `ctxs`. Only `targetDevice.sim`, the spinner and the
        call log can change: the new SIM, the outcome and the calls appended to
        the log, in the order they were made, are `RunStep` of the context's
        previous contents. */
    method DoRunStep(ctxs: SetupContexts) returns (outcome: Outcome<StepError>)
      requires cloud.log == flowUi.log
      modifies ctxs.targetDevice`sim, flowUi, flowUi.log
      ensures var run := RunStep(old(ctxs.targetDevice.sim), ctxs.targetDevice.iccid, cloud.sims);
        ctxs.targetDevice.sim == run.sim && outcome == run.outcome &&
        flowUi.log.events == old(flowUi.log.events) + run.trace
      ensures old(ctxs.targetDevice.sim).None? ==> !flowUi.spinnerVisible
      ensures old(ctxs.targetDevice.sim).Some? ==> unchanged(flowUi, flowUi.log)
    {
      var target := ctxs.targetDevice;
      if target.sim.Some? {
        return Pass;
      }

      flowUi.ShowGlobalProgressSpinner(true);
      // try
      if target.iccid.None? {
        outcome := Fail(IccidMissing);
      } else {
        var iccid := target.iccid.value;
        var fetched := cloud.GetSim(iccid);
        match fetched
        case Success(record) =>
          target.sim := Some(record);
          outcome := Pass;
        case Failure(e) =>
          outcome := Fail(CloudCallFailed(e));
      }
      // finally
      flowUi.ShowGlobalProgressSpinner(false);
    }
  }
}
