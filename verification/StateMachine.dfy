/**
 The S1AP session automaton and its validator (srsTwin/digital-twin/state_machine.py).
 Its states follow 3GPP TS 36.413, sections 8.3.1, 8.3.3, 8.4.1 and 8.4.4.
 */
module StateMachine {

  datatype State = Idle | Connecting | ContextActive | Releasing | HoPending | Done

  /** The messages the table knows. */
  datatype Message =
    | InitialUeMessage | UeContextReleaseCommand | UplinkNasTransport | DownlinkNasTransport
    | InitialContextSetupRequest | InitialContextSetupResponse | LocationReportingControl
    | LocationReport | UeCapabilityIndication | CellTrafficTrace | MmeStatusTransfer
    | ErabSetupRequest | ErabSetupResponse | ErabReleaseCommand | ErabReleaseResponse
    | HandoverRequired | PathSwitchRequest | PathSwitchRequestAcknowledge | UeContextReleaseRequest
    | HandoverPreparationFailure | UeContextReleaseComplete

  function Name(m: Message): string {
    match m
    case InitialUeMessage => "S1_INITIAL_UE_MESSAGE"
    case UeContextReleaseCommand => "S1_UE_CONTEXT_RELEASE_COMMAND"
    case UplinkNasTransport => "S1_UPLINK_NAS_TRANSPORT"
    case DownlinkNasTransport => "S1_DOWNLINK_NAS_TRANSPORT"
    case InitialContextSetupRequest => "S1_INITIAL_CONTEXT_SETUP_REQUEST"
    case InitialContextSetupResponse => "S1_INITIAL_CONTEXT_SETUP_RESPONSE"
    case LocationReportingControl => "S1_LOCATION_REPORTING_CONTROL"
    case LocationReport => "S1_LOCATION_REPORT"
    case UeCapabilityIndication => "S1_UE_CAPABILITY_INDICATION"
    case CellTrafficTrace => "S1_CELL_TRAFFIC_TRACE"
    case MmeStatusTransfer => "S1_MME_STATUS_TRANSFER"
    case ErabSetupRequest => "S1_ERAB_SETUP_REQUEST"
    case ErabSetupResponse => "S1_ERAB_SETUP_RESPONSE"
    case ErabReleaseCommand => "S1_ERAB_RELEASE_COMMAND"
    case ErabReleaseResponse => "S1_ERAB_RELEASE_RESPONSE"
    case HandoverRequired => "S1_HANDOVER_REQUIRED"
    case PathSwitchRequest => "S1_PATH_SWITCH_REQUEST"
    case PathSwitchRequestAcknowledge => "S1_PATH_SWITCH_REQUEST_ACKNOWLEDGE"
    case UeContextReleaseRequest => "S1_UE_CONTEXT_RELEASE_REQUEST"
    case HandoverPreparationFailure => "S1_HANDOVER_PREPARATION_FAILURE"
    case UeContextReleaseComplete => "S1_UE_CONTEXT_RELEASE_COMPLETE"
  }

  /** `_TRANSITIONS` */
  function Transitions(s: State): seq<(Message, State)> {
    match s
    case Idle => [
      (InitialUeMessage, Connecting),
      (UeContextReleaseCommand, Releasing)]
    case Connecting => [
      (UplinkNasTransport, Connecting),
      (DownlinkNasTransport, Connecting),
      (InitialContextSetupRequest, Connecting),
      (InitialContextSetupResponse, ContextActive),
      (UeContextReleaseCommand, Releasing),
      (LocationReportingControl, Connecting),
      (LocationReport, Connecting),
      (UeCapabilityIndication, Connecting),
      (CellTrafficTrace, Connecting),
      (MmeStatusTransfer, Connecting)]
    case ContextActive => [
      (UplinkNasTransport, ContextActive),
      (DownlinkNasTransport, ContextActive),
      (ErabSetupRequest, ContextActive),
      (ErabSetupResponse, ContextActive),
      (ErabReleaseCommand, ContextActive),
      (ErabReleaseResponse, ContextActive),
      (UeCapabilityIndication, ContextActive),
      (LocationReportingControl, ContextActive),
      (LocationReport, ContextActive),
      (CellTrafficTrace, ContextActive),
      (HandoverRequired, HoPending),
      (PathSwitchRequest, ContextActive),
      (PathSwitchRequestAcknowledge, ContextActive),
      (UeContextReleaseRequest, Releasing),
      (UeContextReleaseCommand, Releasing),
      (MmeStatusTransfer, ContextActive)]
    case HoPending => [
      (HandoverPreparationFailure, ContextActive),
      (UeContextReleaseCommand, Releasing),
      (DownlinkNasTransport, HoPending)]
    case Releasing => [
      (UeContextReleaseComplete, Done),
      (UplinkNasTransport, Releasing),
      (LocationReport, Releasing)]
    case Done => []
  }

  /** `valid_next_messages` */
  function ValidNext(s: State): (names: seq<string>)
    ensures |names| == |Transitions(s)|
    ensures forall i | 0 <= i < |names| :: names[i] == Name(Transitions(s)[i].0)
  {
    seq(|Transitions(s)|, i requires 0 <= i < |Transitions(s)| => Name(Transitions(s)[i].0))
  }

  predicate StandsAt(hay: string, needle: string, i: nat) {
    i + |needle| <= |hay| && forall k | 0 <= k < |needle| :: needle[k] == hay[i + k]
  }

  /** `needle in hay` */
  predicate Contains(hay: string, needle: string) {
    exists i :: 0 <= i <= |hay| && StandsAt(hay, needle, i)
  }

  /** Either name is part of the other. */
  predicate Alike(a: string, b: string) {
    Contains(a, b) || Contains(b, a)
  }

  /** The first of the names that is this one. */
  function Exact(names: seq<string>, name: string): (i: nat)
    ensures i <= |names|
    ensures i < |names| ==> names[i] == name
    ensures forall j | 0 <= j < i :: names[j] != name
  {
    if names == [] || names[0] == name then 0 else 1 + Exact(names[1..], name)
  }

  /** The first of the names that is like this one. */
  function Partial(names: seq<string>, name: string): (i: nat)
    ensures i <= |names|
    ensures i < |names| ==> Alike(name, names[i])
    ensures forall j | 0 <= j < i :: !Alike(name, names[j])
  {
    if names == [] || Alike(name, names[0]) then 0 else 1 + Partial(names[1..], name)
  }

  /** `next_state`: by the exact name, else by the first name alike, else no move. */
  function NextState(s: State, name: string): State {
    var names := ValidNext(s);
    if Exact(names, name) < |names| then Transitions(s)[Exact(names, name)].1
    else if Partial(names, name) < |names| then Transitions(s)[Partial(names, name)].1
    else s
  }

  /** What validate_session asks of one message: it is like some valid next one. */
  predicate Accepts(s: State, name: string) {
    exists i :: 0 <= i < |ValidNext(s)| && Alike(name, ValidNext(s)[i])
  }

  // ---- which entry a message follows ----

  /** Length and fourth letter from the end tell the names apart. */
  function Mark(text: string): (nat, char)
    requires |text| >= 4
  {
    (|text|, text[|text| - 4])
  }

  function MarkOf(m: Message): (nat, char) {
    match m
    case InitialUeMessage => (21, 'S')
    case UeContextReleaseCommand => (29, 'M')
    case UplinkNasTransport => (23, 'P')
    case DownlinkNasTransport => (25, 'P')
    case InitialContextSetupRequest => (32, 'U')
    case InitialContextSetupResponse => (33, 'O')
    case LocationReportingControl => (29, 'T')
    case LocationReport => (18, 'P')
    case UeCapabilityIndication => (27, 'T')
    case CellTrafficTrace => (21, 'R')
    case MmeStatusTransfer => (22, 'S')
    case ErabSetupRequest => (21, 'U')
    case ErabSetupResponse => (22, 'O')
    case ErabReleaseCommand => (23, 'M')
    case ErabReleaseResponse => (24, 'O')
    case HandoverRequired => (20, 'I')
    case PathSwitchRequest => (22, 'U')
    case PathSwitchRequestAcknowledge => (34, 'E')
    case UeContextReleaseRequest => (29, 'U')
    case HandoverPreparationFailure => (31, 'L')
    case UeContextReleaseComplete => (30, 'L')
  }

  lemma NamesAreMarked(m: Message)
    ensures |Name(m)| >= 4 && Mark(Name(m)) == MarkOf(m)
  {
  }

  lemma NamesDiffer(m: Message, n: Message)
    requires Name(m) == Name(n)
    ensures m == n
  {
    NamesAreMarked(m);
    NamesAreMarked(n);
  }

  lemma RowsDiffer(s: State, i: nat, j: nat)
    requires i < |Transitions(s)| && j < |Transitions(s)| && Transitions(s)[i].0 == Transitions(s)[j].0
    ensures i == j
  {
  }

  /** A message of the table goes where its own entry says. */
  lemma TableIsFollowed(s: State, i: nat)
    requires i < |Transitions(s)|
    ensures NextState(s, Name(Transitions(s)[i].0)) == Transitions(s)[i].1
  {
    var names, name := ValidNext(s), Name(Transitions(s)[i].0);
    var e := Exact(names, name);
    assert names[i] == name;
    assert e < |names| && names[e] == Name(Transitions(s)[e].0);
    NamesDiffer(Transitions(s)[e].0, Transitions(s)[i].0);
    RowsDiffer(s, e, i);
  }

  /** Any other name goes where the first entry alike says. */
  lemma FirstAlikeIsFollowed(s: State, name: string, i: nat)
    requires i < |Transitions(s)| && Alike(name, Name(Transitions(s)[i].0))
    requires forall j | 0 <= j < i :: !Alike(name, Name(Transitions(s)[j].0))
    requires forall j | 0 <= j < |Transitions(s)| :: name != Name(Transitions(s)[j].0)
    ensures NextState(s, name) == Transitions(s)[i].1
  {
    var names := ValidNext(s);
    assert Alike(name, names[i]);
    assert Partial(names, name) <= i;
  }

  // ---- runs of any automaton over names ----

  function Walk<S>(next: (S, string) -> S, s: S, names: seq<string>): S {
    if names == [] then s else next(Walk(next, s, names[..|names| - 1]), names[|names| - 1])
  }

  /** Each name is allowed in the state its forerunners led to. */
  predicate Allowed<S>(next: (S, string) -> S, ok: (S, string) -> bool, s: S, names: seq<string>) {
    names == [] ||
    (Allowed(next, ok, s, names[..|names| - 1]) && ok(Walk(next, s, names[..|names| - 1]), names[|names| - 1]))
  }

  lemma AllowedSnoc<S>(next: (S, string) -> S, ok: (S, string) -> bool, s: S, names: seq<string>, name: string)
    ensures Walk(next, s, names + [name]) == next(Walk(next, s, names), name)
    ensures Allowed(next, ok, s, names + [name]) <==> Allowed(next, ok, s, names) && ok(Walk(next, s, names), name)
  {
    assert (names + [name])[..|names|] == names;
  }

  lemma {:induction false} AllowedPrefix<S>(next: (S, string) -> S, ok: (S, string) -> bool, s: S, names: seq<string>,
                                            k: nat)
    requires k <= |names|
    ensures Allowed(next, ok, s, names) ==> Allowed(next, ok, s, names[..k])
    ensures Allowed(next, ok, s, names) && k < |names| ==> ok(Walk(next, s, names[..k]), names[k])
  {
    if k == |names| {
      assert names[..k] == names;
    } else {
      AllowedPrefix(next, ok, s, names[..|names| - 1], k);
      assert names[..|names| - 1][..k] == names[..k];
    }
  }

  /** What validate_session accepts. */
  predicate ValidSession(names: seq<string>) {
    Allowed(NextState, Accepts, Idle, names)
  }

  /** How far a session has come. A pending handover and an active context stand level. */
  function Stage(s: State): nat {
    match s
    case Idle => 0
    case Connecting => 1
    case ContextActive => 2
    case HoPending => 2
    case Releasing => 3
    case Done => 4
  }

  lemma AlikeItself(name: string)
    ensures Alike(name, name)
  {
    assert StandsAt(name, name, 0);
  }

  /** The state moves only on accepted messages, and then along the table. */
  lemma MovesAreTransitions(s: State, name: string)
    ensures Accepts(s, name) ==> exists i :: 0 <= i < |Transitions(s)| && NextState(s, name) == Transitions(s)[i].1
    ensures !Accepts(s, name) ==> NextState(s, name) == s
  {
    AlikeItself(name);
  }

  lemma TableGoesForward(s: State, i: nat)
    requires i < |Transitions(s)|
    ensures Stage(Transitions(s)[i].1) >= Stage(s)
    ensures Transitions(s)[i].1 == Done ==> s == Releasing
  {
  }

  /** No message, known or not, ever moves a session back. */
  lemma NeverBack(s: State, name: string)
    ensures Stage(NextState(s, name)) >= Stage(s)
    ensures s != Done && NextState(s, name) == Done ==> s == Releasing && Accepts(s, name)
  {
    MovesAreTransitions(s, name);
    if Accepts(s, name) {
      var i :| 0 <= i < |Transitions(s)| && NextState(s, name) == Transitions(s)[i].1;
      TableGoesForward(s, i);
    }
  }

  lemma {:induction false} WalkNeverBack(s: State, names: seq<string>)
    ensures Stage(Walk(NextState, s, names)) >= Stage(s)
  {
    if names != [] {
      var init := names[..|names| - 1];
      WalkNeverBack(s, init);
      NeverBack(Walk(NextState, s, init), names[|names| - 1]);
    }
  }

  // ---- paths through the table ----

  function EndOf(s: State, path: seq<(Message, State)>): State {
    if path == [] then s else path[|path| - 1].1
  }

  /** Each entry stands in the row its forerunner leads to. */
  predicate TablePath(s: State, path: seq<(Message, State)>) {
    path == [] ||
    (TablePath(s, path[..|path| - 1]) && path[|path| - 1] in Transitions(EndOf(s, path[..|path| - 1])))
  }

  function NamesOf(path: seq<(Message, State)>): (names: seq<string>)
    ensures |names| == |path|
  {
    seq(|path|, i requires 0 <= i < |path| => Name(path[i].0))
  }

  lemma NamesSnoc(path: seq<(Message, State)>)
    requires path != []
    ensures NamesOf(path) == NamesOf(path[..|path| - 1]) + [Name(path[|path| - 1].0)]
  {
  }

  lemma EntryIsAllowed(at: State, entry: (Message, State))
    requires entry in Transitions(at)
    ensures Accepts(at, Name(entry.0)) && NextState(at, Name(entry.0)) == entry.1
  {
    var i :| 0 <= i < |Transitions(at)| && Transitions(at)[i] == entry;
    TableIsFollowed(at, i);
    AlikeItself(Name(entry.0));
    assert Alike(Name(entry.0), ValidNext(at)[i]);
  }

  /** Every path through the table is an accepted session, and ends where the path does. */
  lemma {:induction false} PathsAreSessions(s: State, path: seq<(Message, State)>)
    requires TablePath(s, path)
    ensures Allowed(NextState, Accepts, s, NamesOf(path))
    ensures Walk(NextState, s, NamesOf(path)) == EndOf(s, path)
  {
    if path != [] {
      var init, last := path[..|path| - 1], path[|path| - 1];
      PathsAreSessions(s, init);
      NamesSnoc(path);
      AllowedSnoc(NextState, Accepts, s, NamesOf(init), Name(last.0));
      EntryIsAllowed(EndOf(s, init), last);
    }
  }

  /** Attach, a failed handover, and a release: accepted, and done at its end. */
  const WholeSession: seq<(Message, State)> := [
    (InitialUeMessage, Connecting), (InitialContextSetupRequest, Connecting),
    (InitialContextSetupResponse, ContextActive), (HandoverRequired, HoPending),
    (HandoverPreparationFailure, ContextActive), (UeContextReleaseCommand, Releasing),
    (UeContextReleaseComplete, Done)]

  lemma WholeSessionPart(k: nat)
    requires k <= |WholeSession|
    ensures TablePath(Idle, WholeSession[..k])
  {
    if k > 0 {
      WholeSessionPart(k - 1);
      var init := WholeSession[..k - 1];
      assert WholeSession[..k][..k - 1] == init;
      assert EndOf(Idle, init) == if k == 1 then Idle else WholeSession[k - 2].1;
      assert WholeSession[..k][k - 1] == WholeSession[k - 1];
      WholeSessionRow(k - 1);
    }
  }

  lemma WholeSessionRow(k: nat)
    requires k < |WholeSession|
    ensures WholeSession[k] in Transitions(if k == 0 then Idle else WholeSession[k - 1].1)
  {
    assert Transitions(Idle)[0] == WholeSession[0];
    assert Transitions(Connecting)[2] == WholeSession[1] && Transitions(Connecting)[3] == WholeSession[2];
    assert Transitions(ContextActive)[10] == WholeSession[3] && Transitions(HoPending)[0] == WholeSession[4];
    assert Transitions(ContextActive)[14] == WholeSession[5] && Transitions(Releasing)[0] == WholeSession[6];
  }

  lemma WholeSessionIsValid()
    ensures ValidSession(NamesOf(WholeSession)) && Walk(NextState, Idle, NamesOf(WholeSession)) == Done
  {
    WholeSessionPart(|WholeSession|);
    assert WholeSession[..|WholeSession|] == WholeSession;
    PathsAreSessions(Idle, WholeSession);
  }

  /** The name's only digit stands in second place. */
  predicate OneDigit(text: string) {
    |text| > 1 && text[1] == '1' && forall k | 0 <= k < |text| && text[k] == '1' :: k == 1
  }

  lemma ReleaseNamesHaveOneDigit()
    ensures OneDigit(Name(UeContextReleaseCommand)) && OneDigit(Name(UeContextReleaseComplete))
  {
  }

  lemma StrayNamesHaveOneDigit()
    ensures OneDigit(Name(UplinkNasTransport)) && OneDigit(Name(LocationReport))
  {
  }

  /** Such a name is part of another only at its front. */
  lemma InsideMeansInFront(hay: string, needle: string, i: nat)
    requires OneDigit(hay) && OneDigit(needle) && StandsAt(hay, needle, i)
    ensures i == 0
  {
    assert needle[1] == hay[i + 1];
  }

  lemma NotAlike(a: string, b: string, k: nat)
    requires OneDigit(a) && OneDigit(b) && k < |a| && k < |b| && a[k] != b[k]
    ensures !Alike(a, b)
  {
    forall i | 0 <= i <= |a| ensures !StandsAt(a, b, i) {
      if StandsAt(a, b, i) { InsideMeansInFront(a, b, i); }
    }
    forall i | 0 <= i <= |b| ensures !StandsAt(b, a, i) {
      if StandsAt(b, a, i) { InsideMeansInFront(b, a, i); }
    }
  }

  lemma CommandIsUnexpected()
    ensures !Accepts(Releasing, Name(UeContextReleaseCommand))
  {
    ReleaseNamesHaveOneDigit();
    StrayNamesHaveOneDigit();
    NotAlike(Name(UeContextReleaseCommand), Name(UeContextReleaseComplete), 25);
    NotAlike(Name(UeContextReleaseCommand), Name(UplinkNasTransport), 4);
    NotAlike(Name(UeContextReleaseCommand), Name(LocationReport), 3);
  }

  lemma AllowedTwoMore<S>(
    next: (S, string) -> S, ok: (S, string) -> bool, s: S, names: seq<string>, a: string, b: string)
    ensures Allowed(next, ok, s, names + [a, b])
       <==> Allowed(next, ok, s, names) && ok(Walk(next, s, names), a) && ok(next(Walk(next, s, names), a), b)
  {
    AllowedSnoc(next, ok, s, names, a);
    AllowedSnoc(next, ok, s, names + [a], b);
    assert names + [a] + [b] == names + [a, b];
  }

  /**
   A release that the eNodeB asks for first is refused: the request already leads to
   RELEASING, where the command that answers it is not expected.
   */
  lemma CommandAfterRequestIsRefused(names: seq<string>)
    requires Walk(NextState, Idle, names) == ContextActive
    ensures !ValidSession(names + [Name(UeContextReleaseRequest), Name(UeContextReleaseCommand)])
  {
    TableIsFollowed(ContextActive, 13);
    AllowedTwoMore(NextState, Accepts, Idle, names, Name(UeContextReleaseRequest), Name(UeContextReleaseCommand));
    CommandIsUnexpected();
  }

  method Check<S>(next: (S, string) -> S, ok: (S, string) -> bool, s: S, names: seq<string>) returns (valid: bool)
    ensures valid == Allowed(next, ok, s, names)
  {
    var state := s;
    for k := 0 to |names|
      invariant state == Walk(next, s, names[..k]) && Allowed(next, ok, s, names[..k])
    {
      AllowedPrefix(next, ok, s, names, k);
      if !ok(state, names[k]) {
        return false;
      }
      AllowedSnoc(next, ok, s, names[..k], names[k]);
      assert names[..k + 1] == names[..k] + [names[k]];
      state := next(state, names[k]);
    }
    assert names[..|names|] == names;
    return true;
  }

  /** `validate_session` */
  method ValidateSession(names: seq<string>) returns (ok: bool)
    ensures ok == ValidSession(names)
  {
    ok := Check(NextState, Accepts, Idle, names);
  }
}
