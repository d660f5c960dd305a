/**
 The call flow as the DU sees it: steps, the messages that carry them and how an
 uplink is classified back to its step
 (poc_StressTest/common/signaling/procedures.py and catalog.py).
 */
module Signalling {
  import opened Collections
  import opened RfModel

  type UeId = string
  type CellId = string

  datatype Step =
    | RrcSetup | SetupComplete | Security | ContextSetup | ReconfigComplete
    | Measurement | UserData
    | ReleaseRequest | ReleaseComplete

  datatype Action = Nothing | Admit | Reconfig | Release

  /** Logical message names; the catalog maps them one to one to real names. */
  datatype Logical =
    // uplinks
    | ConnectionRequest | ConnectionSetupComplete | SecurityModeComplete | UeCapabilityInformation
    | ReconfigurationComplete | MeasurementReport | UeData | ContextReleaseRequest | ContextReleaseComplete
    // downlinks
    | ConnectionSetup | SecurityModeCommand | UeCapabilityEnquiry | InitialContextSetupRequest
    | InitialContextSetupResponse | Reconfiguration | ConnectionReject | DataAck
    | ContextReleaseCommand | ConnectionRelease

  /** The text in `message_name`: one the catalog knows, or anything else. */
  datatype Name = Known(logical: Logical) | Foreign(text: string)

  function Uplink(s: Step): Logical {
    match s
    case RrcSetup => ConnectionRequest
    case SetupComplete => ConnectionSetupComplete
    case Security => SecurityModeComplete
    case ContextSetup => UeCapabilityInformation
    case ReconfigComplete => ReconfigurationComplete
    case Measurement => MeasurementReport
    case UserData => UeData
    case ReleaseRequest => ContextReleaseRequest
    case ReleaseComplete => ContextReleaseComplete
  }

  function Downlink(s: Step): Logical {
    match s
    case RrcSetup => ConnectionSetup
    case SetupComplete => SecurityModeCommand
    case Security => UeCapabilityEnquiry
    case ContextSetup => InitialContextSetupRequest
    case ReconfigComplete => InitialContextSetupResponse
    case Measurement => Reconfiguration
    case UserData => DataAck
    case ReleaseRequest => ContextReleaseCommand
    case ReleaseComplete => ConnectionRelease
  }

  function ActionOf(s: Step): Action {
    match s
    case ContextSetup => Admit
    case Measurement => Reconfig
    case ReleaseRequest => Release
    case _ => Nothing
  }

  /** `_step_by_real_uplink`: the step whose uplink has this name. */
  function StepByUplink(n: Name): Option<Step> {
    match n
    case Foreign(_) => None
    case Known(l) =>
      match l
      case ConnectionRequest => Some(RrcSetup)
      case ConnectionSetupComplete => Some(SetupComplete)
      case SecurityModeComplete => Some(Security)
      case UeCapabilityInformation => Some(ContextSetup)
      case ReconfigurationComplete => Some(ReconfigComplete)
      case MeasurementReport => Some(Measurement)
      case UeData => Some(UserData)
      case ContextReleaseRequest => Some(ReleaseRequest)
      case ContextReleaseComplete => Some(ReleaseComplete)
      case _ => None
  }

  /** Name first, then the step id in the sidecar. */
  function Classify(n: Name, sidecar: Option<Step>): Option<Step> {
    if StepByUplink(n).Some? then StepByUplink(n) else sidecar
  }

  /** An uplink with its sidecar, as the RU hands it to the DU. */
  datatype Request = Request(name: Name, sidecar: Option<Step>, ue: UeId, cell: CellId, radio: Radio, demand: real)

  datatype Cause = NoCoverage | InsufficientPrb | UnknownUe | LostCoverage | BadMessage

  datatype Body =
    | Granted(prbs: int, congested: bool)
    | Refused(cause: Cause)
    | Carried(achievable: real, wanted: real)
    | Plain

  /** A downlink; `sidecar` is None only for the answer to an unrecognised message. */
  datatype Reply = Reply(logical: Logical, sidecar: Option<Step>, ue: UeId, cell: CellId, body: Body)

  function StepOf(q: Request): Option<Step> {
    Classify(q.name, q.sidecar)
  }

  predicate IsReject(p: Reply) {
    p.logical == ConnectionReject
  }

  /** An uplink built for a step is classified to that step whatever its sidecar says. */
  lemma UplinkRoundTrip(s: Step, sidecar: Option<Step>)
    ensures Classify(Known(Uplink(s)), sidecar) == Some(s)
  {
  }

  /** A downlink's name is no uplink's, so a downlink is classified by its sidecar alone. */
  lemma DownlinkRoundTrip(s: Step, l: Logical)
    requires l == Downlink(s) || l == ConnectionReject
    ensures Classify(Known(l), Some(s)) == Some(s)
    ensures Classify(Known(l), None) == None
  {
  }

  /** No two steps are answered by the same downlink, and none by the reject. */
  lemma DownlinksDiffer(s: Step, t: Step)
    requires Downlink(s) == Downlink(t)
    ensures s == t && Downlink(s) != ConnectionReject
  {
  }
}
