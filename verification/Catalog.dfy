/**
 The catalog that binds steps to message names: how an uplink is classified from the text
 it carries (poc_StressTest/common/signaling/catalog.py and lte.py).
 */
module Catalog {
  import opened Collections
  import opened Signalling

  /** MESSAGE_NAMES: logical name to real name; a name without an entry stands for itself. */
  type Names = map<Logical, string>

  /** The logical names as texts (poc_StressTest/common/signaling/procedures.py). */
  function Text(l: Logical): string {
    match l
    case ConnectionRequest => "RRC_CONNECTION_REQUEST"
    case ConnectionSetupComplete => "RRC_CONNECTION_SETUP_COMPLETE"
    case SecurityModeComplete => "RRC_SECURITY_MODE_COMPLETE"
    case UeCapabilityInformation => "RRC_UE_CAPABILITY_INFORMATION"
    case ReconfigurationComplete => "RRC_CONNECTION_RECONFIGURATION_COMPLETE"
    case MeasurementReport => "RRC_MEASUREMENT_REPORT"
    case UeData => "DATA"
    case ContextReleaseRequest => "S1_UE_CONTEXT_RELEASE_REQUEST"
    case ContextReleaseComplete => "S1_UE_CONTEXT_RELEASE_COMPLETE"
    case ConnectionSetup => "RRC_CONNECTION_SETUP"
    case SecurityModeCommand => "RRC_SECURITY_MODE_COMMAND"
    case UeCapabilityEnquiry => "RRC_UE_CAPABILITY_ENQUIRY"
    case InitialContextSetupRequest => "S1_INITIAL_CONTEXT_SETUP_REQUEST"
    case InitialContextSetupResponse => "S1_INITIAL_CONTEXT_SETUP_RESPONSE"
    case Reconfiguration => "RRC_CONNECTION_RECONFIGURATION"
    case ConnectionReject => "RRC_CONNECTION_REJECT"
    case DataAck => "DATA_ACK"
    case ContextReleaseCommand => "S1_UE_CONTEXT_RELEASE_COMMAND"
    case ConnectionRelease => "RRC_CONNECTION_RELEASE"
  }

  function RealName(names: Names, l: Logical): string {
    if l in names then names[l] else Text(l)
  }

  const ALL_STEPS: seq<Step> :=
    [RrcSetup, SetupComplete, Security, ContextSetup, ReconfigComplete, Measurement, UserData, ReleaseRequest,
     ReleaseComplete]

  /** `_step_by_real_uplink`: of two steps with one uplink name the later stays. */
  function UplinkIndex(names: Names, steps: seq<Step>): map<string, Step> {
    if steps == [] then map[]
    else
      var last := steps[|steps| - 1];
      UplinkIndex(names, steps[..|steps| - 1])[RealName(names, Uplink(last)) := last]
  }

  method IndexUplinks(names: Names) returns (index: map<string, Step>)
    ensures index == UplinkIndex(names, ALL_STEPS)
  {
    index := map[];
    for i := 0 to |ALL_STEPS|
      invariant index == UplinkIndex(names, ALL_STEPS[..i])
    {
      assert ALL_STEPS[..i + 1][..i] == ALL_STEPS[..i];
      index := index[RealName(names, Uplink(ALL_STEPS[i])) := ALL_STEPS[i]];
    }
    assert ALL_STEPS[..|ALL_STEPS|] == ALL_STEPS;
  }

  /** `classify`: the name first, then the step id in the sidecar. */
  function ClassifyText(names: Names, text: string, sidecar: Option<Step>): Option<Step> {
    var index := UplinkIndex(names, ALL_STEPS);
    if text in index then Some(index[text]) else sidecar
  }

  // ---- when classification undoes building ----

  ghost predicate UplinksDiffer(names: Names) {
    forall s, t :: RealName(names, Uplink(s)) == RealName(names, Uplink(t)) ==> s == t
  }

  /** A text is in the index exactly when it is some step's uplink, and then with such a step. */
  lemma {:induction false} IndexFinds(names: Names, steps: seq<Step>, text: string)
    ensures text in UplinkIndex(names, steps) <==> exists s :: s in steps && RealName(names, Uplink(s)) == text
    ensures text in UplinkIndex(names, steps) ==>
      UplinkIndex(names, steps)[text] in steps && RealName(names, Uplink(UplinkIndex(names, steps)[text])) == text
  {
    if steps != [] {
      var init, last := steps[..|steps| - 1], steps[|steps| - 1];
      assert steps == init + [last];
      IndexFinds(names, init, text);
      if exists s :: s in steps && RealName(names, Uplink(s)) == text {
        var s :| s in steps && RealName(names, Uplink(s)) == text;
        assert s in init || s == last;
      }
    }
  }

  lemma EveryStepIsListed(s: Step)
    ensures s in ALL_STEPS
  {
    assert ALL_STEPS[0] == RrcSetup && ALL_STEPS[1] == SetupComplete && ALL_STEPS[2] == Security;
    assert ALL_STEPS[3] == ContextSetup && ALL_STEPS[4] == ReconfigComplete && ALL_STEPS[5] == Measurement;
    assert ALL_STEPS[6] == UserData && ALL_STEPS[7] == ReleaseRequest && ALL_STEPS[8] == ReleaseComplete;
  }

  lemma ClassifiedByName(names: Names, s: Step, sidecar: Option<Step>)
    ensures ClassifyText(names, RealName(names, Uplink(s)), sidecar).Some?
    ensures var t := ClassifyText(names, RealName(names, Uplink(s)), sidecar).value;
      RealName(names, Uplink(t)) == RealName(names, Uplink(s))
  {
    EveryStepIsListed(s);
    IndexFinds(names, ALL_STEPS, RealName(names, Uplink(s)));
  }

  /**
   Every uplink built for a step is classified to that step, whatever its sidecar says,
   exactly when no two steps share an uplink name.
   */
  lemma RoundTripIff(names: Names)
    ensures (forall s, sidecar :: ClassifyText(names, RealName(names, Uplink(s)), sidecar) == Some(s))
       <==> UplinksDiffer(names)
  {
    forall s, sidecar: Option<Step>
      ensures UplinksDiffer(names) ==> ClassifyText(names, RealName(names, Uplink(s)), sidecar) == Some(s)
    {
      ClassifiedByName(names, s, sidecar);
    }
    if forall s, sidecar :: ClassifyText(names, RealName(names, Uplink(s)), sidecar) == Some(s) {
      forall s, t | RealName(names, Uplink(s)) == RealName(names, Uplink(t)) ensures s == t {
        assert Some(s) == ClassifyText(names, RealName(names, Uplink(s)), None) == Some(t);
      }
    }
  }

  // ---- the LTE catalog ----

  function LteName(l: Logical): string {
    match l
    case ConnectionRequest => "RRC_RRC_CONNECTION_REQUEST"
    case ConnectionSetupComplete => "RRC_RRC_CONNECTION_SETUP_COMPLETE"
    case SecurityModeComplete => "RRC_SECURITY_MODE_COMPLETE"
    case UeCapabilityInformation => "RRC_UE_CAPABILITY_INFORMATION"
    case ReconfigurationComplete => "RRC_RRC_CONNECTION_RECONFIGURATION_COMPLETE"
    case MeasurementReport => "RRC_MEASUREMENT_REPORT"
    case UeData => "DATA"
    case ContextReleaseRequest => "S1_UE_CONTEXT_RELEASE_REQUEST"
    case ContextReleaseComplete => "S1_UE_CONTEXT_RELEASE_COMPLETE"
    case ConnectionSetup => "RRC_RRC_CONNECTION_SETUP"
    case SecurityModeCommand => "RRC_SECURITY_MODE_COMMAND"
    case UeCapabilityEnquiry => "RRC_UE_CAPABILITY_ENQUIRY"
    case InitialContextSetupRequest => "S1_INITIAL_CONTEXT_SETUP_REQUEST"
    case InitialContextSetupResponse => "S1_INITIAL_CONTEXT_SETUP_RESPONSE"
    case Reconfiguration => "RRC_RRC_CONNECTION_RECONFIGURATION"
    case ConnectionReject => "RRC_RRC_CONNECTION_REJECT"
    case DataAck => "DATA_ACK"
    case ContextReleaseCommand => "S1_UE_CONTEXT_RELEASE_COMMAND"
    case ConnectionRelease => "RRC_RRC_CONNECTION_RELEASE"
  }

  const LTE: Names := map l: Logical | true :: LteName(l)

  /** Length, first letter and fourth letter from the end tell the names apart. */
  function Mark(text: string): (nat, char, char)
    requires |text| >= 4
  {
    (|text|, text[0], text[|text| - 4])
  }

  function LteMark(l: Logical): (nat, char, char) {
    match l
    case ConnectionRequest => (26, 'R', 'U')
    case ConnectionSetupComplete => (33, 'R', 'L')
    case SecurityModeComplete => (26, 'R', 'L')
    case UeCapabilityInformation => (29, 'R', 'T')
    case ReconfigurationComplete => (43, 'R', 'L')
    case MeasurementReport => (22, 'R', 'P')
    case UeData => (4, 'D', 'D')
    case ContextReleaseRequest => (29, 'S', 'U')
    case ContextReleaseComplete => (30, 'S', 'L')
    case ConnectionSetup => (24, 'R', 'E')
    case SecurityModeCommand => (25, 'R', 'M')
    case UeCapabilityEnquiry => (25, 'R', 'U')
    case InitialContextSetupRequest => (32, 'S', 'U')
    case InitialContextSetupResponse => (33, 'S', 'O')
    case Reconfiguration => (34, 'R', 'T')
    case ConnectionReject => (25, 'R', 'J')
    case DataAck => (8, 'D', '_')
    case ContextReleaseCommand => (29, 'S', 'M')
    case ConnectionRelease => (26, 'R', 'E')
  }

  lemma LteNamesAreMarked(l: Logical)
    ensures |LteName(l)| >= 4 && Mark(LteName(l)) == LteMark(l)
  {
  }

  /** No two logical names, up or down, have one real name. */
  lemma LteNamesDiffer(l: Logical, m: Logical)
    requires LteName(l) == LteName(m)
    ensures l == m
  {
    LteNamesAreMarked(l);
    LteNamesAreMarked(m);
  }

  ghost predicate Means(text: string, l: Logical) {
    LteName(l) == text
  }

  /** The text is this name's: the real name of a logical one, or itself when the catalog does not know it. */
  ghost predicate StandsFor(text: string, name: Name) {
    match name
    case Known(l) => Means(text, l)
    case Foreign(other) => other == text && forall l :: !Means(text, l)
  }

  lemma MeansOne(text: string, l: Logical, m: Logical)
    requires Means(text, l) && Means(text, m)
    ensures l == m
  {
    LteNamesDiffer(l, m);
  }

  /** Every text stands for exactly one name. */
  lemma TextsHaveOneName(text: string)
    ensures exists name :: StandsFor(text, name) && forall other :: StandsFor(text, other) ==> other == name
  {
    if l :| Means(text, l) {
      assert StandsFor(text, Known(l));
      forall other | StandsFor(text, other) ensures other == Known(l) {
        MeansOne(text, l, other.logical);
      }
    } else {
      assert StandsFor(text, Foreign(text));
    }
  }

  lemma LteUplinksDiffer()
    ensures UplinksDiffer(LTE)
  {
    forall s, t | RealName(LTE, Uplink(s)) == RealName(LTE, Uplink(t)) ensures s == t {
      LteNamesDiffer(Uplink(s), Uplink(t));
    }
  }

  lemma NameIsClassified(text: string, l: Logical, sidecar: Option<Step>)
    requires Means(text, l)
    ensures ClassifyText(LTE, text, sidecar) == Classify(Known(l), sidecar)
  {
    if s: Step :| Uplink(s) == l {
      LteUplinksDiffer();
      RoundTripIff(LTE);
      assert ClassifyText(LTE, RealName(LTE, Uplink(s)), sidecar) == Some(s);
      UplinkRoundTrip(s, sidecar);
    } else {
      IndexFinds(LTE, ALL_STEPS, text);
      DownlinkFallsThrough(l, sidecar);
      forall s | s in ALL_STEPS ensures RealName(LTE, Uplink(s)) != text {
        if Means(text, Uplink(s)) {
          MeansOne(text, Uplink(s), l);
        }
      }
    }
  }

  /**
   Every text, whoever wrote it, is classified as the name it stands for: an uplink's by
   itself, a downlink's or an unknown one by the sidecar. The final uplink is told by its
   text alone.
   */
  lemma TextsAreNames(text: string, name: Name, sidecar: Option<Step>)
    requires StandsFor(text, name)
    ensures ClassifyText(LTE, text, sidecar) == Classify(name, sidecar)
    ensures text == RealName(LTE, ContextReleaseComplete) <==> name == Known(ContextReleaseComplete)
  {
    IndexFinds(LTE, ALL_STEPS, text);
    match name {
      case Known(l) =>
        NameIsClassified(text, l, sidecar);
        if Means(text, ContextReleaseComplete) {
          MeansOne(text, l, ContextReleaseComplete);
        }
      case Foreign(_) =>
        assert !Means(text, ContextReleaseComplete);
        forall s | s in ALL_STEPS ensures RealName(LTE, Uplink(s)) != text {
          assert !Means(text, Uplink(s));
        }
    }
  }

  lemma FoundIsUplink(l: Logical)
    ensures StepByUplink(Known(l)).Some? ==> Uplink(StepByUplink(Known(l)).value) == l
  {
  }

  lemma DownlinkFallsThrough(l: Logical, sidecar: Option<Step>)
    requires forall s :: Uplink(s) != l
    ensures Classify(Known(l), sidecar) == sidecar
  {
    FoundIsUplink(l);
  }
}
