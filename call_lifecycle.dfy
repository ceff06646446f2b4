/** The client-side call store (`src/store/callStore.ts`): the lifecycle of
    one outbound call, from `idle` through `initiating` and `testing` to
    `calling`, `retrieving` and finally `completed` or `failed`, driven by
    the relay's answer to the initiate request, by a polling loop over the
    relay's status endpoint, and by cancel and reset.

    The relay client is an oracle: its answers are parameters. The polling
    timer is replaced by a sequence of poll outcomes, one per poll. */
module CallLifecycle {
  import opened Js

  datatype CallStatus =
    | Idle | Initiating | Testing | Calling | Navigating | Retrieving | Completed | Failed

  /** The form data of one call (the `callData` field). */
  datatype CallData = CallData(
    patientName: string,
    patientDOB: string,
    insuranceProvider: string,
    phoneNumber: string,
    memberId: string,
    npiNumber: string,
    taxId: string,
    clinicName: string,
    clinicAddress: string)

  /** The store's five data fields at one moment. */
  datatype Snapshot = Snapshot(
    callSid: Option<string>,
    callStatus: CallStatus,
    statusMessage: string,
    error: Option<string>,
    callData: Option<CallData>)

  /** What the relay answers to a successful initiate request. */
  datatype InitiateResponse = InitiateResponse(callSid: string, status: string, message: string)

  /** What one status request yields: the provider status, or a rejection. */
  datatype PollOutcome = Reported(status: string) | RequestFailed

  /** What an observer of the store sees: each `set()` publishes a new
      snapshot; requests to the relay are recorded in order with them. */
  datatype Event =
    | Published(state: Snapshot)
    | InitiateSent(params: CallData)
    | StatusQueried(callSid: string)
    | EndSent(callSid: string)

  /** The store's initial field values. */
  const Initial := Snapshot(None, Idle, "", None, None)

  /** The error text recorded when the relay rejects the initiate request
      with no `Error` object. */
  const InitiateFallback := "Failed to initiate call"
  const PreparingMessage := "Preparing to make the call..."
  const TestingMessage := "Testing voice agent connection..."
  const ConnectingMessage := "Connecting to insurance provider..."
  const CallFailedMessage := "Call failed"
  const RetrievingMessage := "Retrieving benefits information..."
  const RetrievedMessage := "Benefits information successfully retrieved"
  const StatusCheckError := "Failed to get call status"
  const StatusCheckFailedMessage := "Call status check failed"
  const CancelFallback := "Failed to cancel call"

  /** The provider statuses after which no further poll is scheduled. */
  predicate StopsPolling(status: string)
  {
    status == "completed" || status == "failed" || status == "busy" || status == "no-answer"
  }

  predicate FailureStatus(status: string)
  {
    status == "failed" || status == "busy" || status == "no-answer"
  }

  // ---------------------------------------------------------------------
  // initiateCall, up to the first poll

  datatype InitiateStep = InitiateStep(next: Snapshot, polling: bool, events: seq<Event>)

  /** The state changes of `initiateCall` before polling starts; `polling`
      tells whether `pollStatus` is started. */
  function InitiateEffect(s: Snapshot, data: CallData, relay: Result<InitiateResponse, Thrown>): (r: InitiateStep)
    ensures |r.events| == 4
    ensures r.events[0].Published? && r.events[0].state ==
              s.(callStatus := Initiating, error := None, callData := Some(data),
                 statusMessage := PreparingMessage)
    ensures r.events[1].Published? && r.events[1].state.callStatus == Testing
    ensures r.events[1].state.callSid == s.callSid && r.events[1].state.error == None
    ensures r.events[2] == InitiateSent(data)
    ensures r.events[3] == Published(r.next)
    ensures r.next.callData == Some(data)
    ensures r.polling <==> relay.Success?
    ensures relay.Success? ==>
              r.next.callSid == Some(relay.value.callSid) && r.next.callStatus == Calling && r.next.error == None
    ensures relay.Failure? ==>
              && r.next.callSid == s.callSid
              && r.next.callStatus == Failed
              && r.next.error == Some(MessageOr(relay.error, InitiateFallback))
  {
    var s1 := s.(callStatus := Initiating, statusMessage := PreparingMessage,
                 error := None, callData := Some(data));
    var s2 := s1.(callStatus := Testing, statusMessage := TestingMessage);
    match relay
    case Success(resp) =>
      var s3 := s2.(callSid := Some(resp.callSid), callStatus := Calling,
                    statusMessage := ConnectingMessage);
      InitiateStep(s3, true, [Published(s1), Published(s2), InitiateSent(data), Published(s3)])
    case Failure(e) =>
      var s3 := s2.(callStatus := Failed, error := Some(MessageOr(e, InitiateFallback)),
                    statusMessage := CallFailedMessage);
      InitiateStep(s3, false, [Published(s1), Published(s2), InitiateSent(data), Published(s3)])
  }

  // ---------------------------------------------------------------------
  // pollStatus

  datatype PollStepResult = PollStepResult(next: Snapshot, again: bool, events: seq<Event>)

  /** One run of `pollStatus`: the new state, whether another poll is
      scheduled, and what is observed. */
  function PollEffect(s: Snapshot, o: PollOutcome): (r: PollStepResult)
    ensures r.next.callSid == s.callSid && r.next.callData == s.callData
    ensures r.again ==> Truthy(s.callSid) && r.next.error == s.error
    ensures !r.again && Truthy(s.callSid) ==> r.next.callStatus == Completed || r.next.callStatus == Failed
  {
    if !Truthy(s.callSid) then PollStepResult(s, false, [])
    else
      var q := StatusQueried(s.callSid.value);
      match o
      case RequestFailed =>
        var n := s.(callStatus := Failed, error := Some(StatusCheckError),
                    statusMessage := StatusCheckFailedMessage);
        PollStepResult(n, false, [q, Published(n)])
      case Reported(st) =>
        if st == "in-progress" then
          var n := s.(callStatus := Retrieving, statusMessage := RetrievingMessage);
          PollStepResult(n, true, [q, Published(n)])
        else if st == "completed" then
          var n := s.(callStatus := Completed, statusMessage := RetrievedMessage);
          PollStepResult(n, false, [q, Published(n)])
        else if FailureStatus(st) then
          var n := s.(callStatus := Failed, statusMessage := "Call failed: " + st,
                      error := Some("Call ended with status: " + st));
          PollStepResult(n, false, [q, Published(n)])
        else
          PollStepResult(s, true, [q])
  }

  /** How a poll maps the provider status onto the lifecycle: `in-progress`
      moves to `retrieving` and polls again; `completed` moves to
      `completed` and stops; `failed`, `busy` and `no-answer` move to
      `failed` with the status in the error and stop; any other status
      changes nothing and polls again; a failed request moves to `failed`
      and stops. Without a call id nothing happens. */
  lemma PollEffectMapping(s: Snapshot, o: PollOutcome)
    ensures !Truthy(s.callSid) ==> PollEffect(s, o) == PollStepResult(s, false, [])
    ensures Truthy(s.callSid) ==> |PollEffect(s, o).events| >= 1 && PollEffect(s, o).events[0] == StatusQueried(s.callSid.value)
    ensures Truthy(s.callSid) && o.RequestFailed? ==>
              && PollEffect(s, o).next.callStatus == Failed
              && PollEffect(s, o).next.error == Some(StatusCheckError)
              && !PollEffect(s, o).again
    ensures Truthy(s.callSid) && o.Reported? ==> (PollEffect(s, o).again <==> !StopsPolling(o.status))
    ensures Truthy(s.callSid) && o == Reported("in-progress") ==> PollEffect(s, o).next.callStatus == Retrieving
    ensures Truthy(s.callSid) && o == Reported("completed") ==> PollEffect(s, o).next.callStatus == Completed
    ensures Truthy(s.callSid) && o.Reported? && FailureStatus(o.status) ==>
              && PollEffect(s, o).next.callStatus == Failed
              && PollEffect(s, o).next.error == Some("Call ended with status: " + o.status)
    ensures Truthy(s.callSid) && o.Reported? && !StopsPolling(o.status) && o.status != "in-progress" ==>
              PollEffect(s, o).next == s && PollEffect(s, o).events == [StatusQueried(s.callSid.value)]
  {
  }

  datatype PollRunResult = PollRunResult(final: Snapshot, steps: nat, events: seq<Event>)

  /** Polling until no further poll is scheduled or the given outcomes run
      out; `os[i]` is what the i-th status request yields. */
  function PollRun(s: Snapshot, os: seq<PollOutcome>): (r: PollRunResult)
    ensures r.steps <= |os|
    ensures os != [] ==> 1 <= r.steps
    decreases |os|
  {
    if os == [] then PollRunResult(s, 0, [])
    else
      var step := PollEffect(s, os[0]);
      if !step.again then PollRunResult(step.next, 1, step.events)
      else
        var rest := PollRun(step.next, os[1..]);
        PollRunResult(rest.final, rest.steps + 1, step.events + rest.events)
  }

  /** One step of the poll loop followed by the rest of it. */
  lemma PollRunUnfold(s: Snapshot, os: seq<PollOutcome>)
    requires os != []
    ensures var step := PollEffect(s, os[0]);
            var rest := PollRun(step.next, os[1..]);
            PollRun(s, os) == if step.again then PollRunResult(rest.final, rest.steps + 1, step.events + rest.events)
                              else PollRunResult(step.next, 1, step.events)
  {
  }

  /** Polling never changes the tracked call id or the call data. */
  lemma {:induction false} PollRunKeepsCall(s: Snapshot, os: seq<PollOutcome>)
    ensures PollRun(s, os).final.callSid == s.callSid
    ensures PollRun(s, os).final.callData == s.callData
    decreases |os|
  {
    if os != [] && PollEffect(s, os[0]).again {
      PollRunKeepsCall(PollEffect(s, os[0]).next, os[1..]);
    }
  }

  /** With no call id, the first poll returns at once: nothing changes,
      nothing is queried, nothing is rescheduled. */
  lemma PollRunHaltsWithoutSid(s: Snapshot, os: seq<PollOutcome>)
    requires !Truthy(s.callSid) && os != []
    ensures PollRun(s, os) == PollRunResult(s, 1, [])
  {
  }

  /** If polling stops before the outcomes run out (and there is a call
      id), every poll but the last saw a status that keeps polling, and the
      last one saw a stopping status or a failed request. */
  lemma {:induction false} PollRunStopReason(s: Snapshot, os: seq<PollOutcome>)
    requires Truthy(s.callSid)
    requires PollRun(s, os).steps < |os|
    ensures var k := PollRun(s, os).steps - 1;
            0 <= k && (os[k].RequestFailed? || StopsPolling(os[k].status))
    ensures forall i :: 0 <= i < PollRun(s, os).steps - 1 ==> os[i].Reported? && !StopsPolling(os[i].status)
    decreases |os|
  {
    var step := PollEffect(s, os[0]);
    if step.again {
      PollRunStopReason(step.next, os[1..]);
      var k := PollRun(s, os).steps - 1;
      assert os[1..][k - 1] == os[k];
      forall i | 0 <= i < PollRun(s, os).steps - 1
        ensures os[i].Reported? && !StopsPolling(os[i].status)
      {
        if i > 0 {
          assert os[1..][i - 1] == os[i];
        }
      }
    }
  }

  /** Polling over statuses that never stop it consumes every outcome and
      ends in `retrieving` (if some report was `in-progress`) or in the
      state it started from. */
  lemma {:induction false} PollRunThroughActiveStatuses(s: Snapshot, os: seq<PollOutcome>)
    requires Truthy(s.callSid)
    requires forall i :: 0 <= i < |os| ==> os[i].Reported? && !StopsPolling(os[i].status)
    ensures PollRun(s, os).steps == |os|
    ensures PollRun(s, os).final.callStatus == s.callStatus || PollRun(s, os).final.callStatus == Retrieving
    ensures PollRun(s, os).final.callSid == s.callSid && PollRun(s, os).final.error == s.error
    decreases |os|
  {
    if os != [] {
      var n := PollEffect(s, os[0]).next;
      assert n.error == s.error;
      PollRunThroughActiveStatuses(n, os[1..]);
      if n.callStatus == Retrieving {
        PollRunFromRetrieving(n, os[1..]);
      }
    }
  }

  lemma {:induction false} PollRunFromRetrieving(s: Snapshot, os: seq<PollOutcome>)
    requires Truthy(s.callSid) && s.callStatus == Retrieving
    requires forall i :: 0 <= i < |os| ==> os[i].Reported? && !StopsPolling(os[i].status)
    ensures PollRun(s, os).final.callStatus == Retrieving
    decreases |os|
  {
    if os != [] {
      PollRunFromRetrieving(PollEffect(s, os[0]).next, os[1..]);
    }
  }

  /** Once a poll sees a stopping status, or its request fails, polling
      stops right there: in `completed` after a `completed` report, and
      otherwise in `failed`, with the reported status or the status-check
      error as the error. */
  lemma {:induction false} PollRunStopsAtTerminal(s: Snapshot, os: seq<PollOutcome>, k: nat)
    requires Truthy(s.callSid)
    requires k < |os|
    requires forall i :: 0 <= i < k ==> os[i].Reported? && !StopsPolling(os[i].status)
    requires os[k].RequestFailed? || StopsPolling(os[k].status)
    ensures PollRun(s, os).steps == k + 1
    ensures PollRun(s, os).final.callStatus == Completed || PollRun(s, os).final.callStatus == Failed
    ensures os[k] == Reported("completed") ==> PollRun(s, os).final.callStatus == Completed
    ensures os[k] != Reported("completed") ==> PollRun(s, os).final.callStatus == Failed
    ensures os[k].RequestFailed? ==> PollRun(s, os).final.error == Some(StatusCheckError)
    ensures os[k].Reported? && FailureStatus(os[k].status) ==>
              PollRun(s, os).final.error == Some("Call ended with status: " + os[k].status)
    ensures PollRun(s, os).final.callSid == s.callSid
    decreases k
  {
    if k > 0 {
      assert os[1..][k - 1] == os[k];
      PollRunStopsAtTerminal(PollEffect(s, os[0]).next, os[1..], k - 1);
    }
  }

  // ---------------------------------------------------------------------
  // updateCallStatus, cancelCall, resetCallState

  /** `updateCallStatus(status, message)`: a missing or empty message keeps
      the previous one. */
  function UpdateStatusEffect(s: Snapshot, status: CallStatus, message: Option<string>): (n: Snapshot)
    ensures n.callStatus == status
    ensures Truthy(message) ==> n.statusMessage == message.value
    ensures !Truthy(message) ==> n.statusMessage == s.statusMessage
    ensures n.callSid == s.callSid && n.error == s.error && n.callData == s.callData
  {
    s.(callStatus := status, statusMessage := OrElse(message, s.statusMessage))
  }

  datatype CancelResult = CancelResult(next: Snapshot, ok: bool, events: seq<Event>)

  /** `cancelCall` given what `endCall` yields (it is not called when there
      is no call id). */
  function CancelEffect(s: Snapshot, end: Result<bool, Thrown>): (r: CancelResult)
    ensures r.ok ==> r.next == s.(callStatus := Idle, callSid := None)
    ensures !r.ok <==> Truthy(s.callSid) && end.Failure?
    ensures !r.ok ==> r.next == s.(error := Some(MessageOr(end.error, CancelFallback)))
    ensures Truthy(s.callSid) ==> |r.events| == 2 && r.events[0] == EndSent(s.callSid.value)
    ensures !Truthy(s.callSid) ==> forall e :: e in r.events ==> e.Published?
  {
    if !Truthy(s.callSid) then
      var n := s.(callStatus := Idle, callSid := None);
      CancelResult(n, true, [Published(n)])
    else
      var q := EndSent(s.callSid.value);
      match end
      case Success(_) =>
        var n := s.(callStatus := Idle, callSid := None);
        CancelResult(n, true, [q, Published(n)])
      case Failure(e) =>
        var n := s.(error := Some(MessageOr(e, CancelFallback)));
        CancelResult(n, false, [q, Published(n)])
  }

  /** After a successful cancel no poll changes anything any more. */
  lemma CancelStopsPolling(s: Snapshot, end: Result<bool, Thrown>, os: seq<PollOutcome>)
    requires CancelEffect(s, end).ok && os != []
    ensures PollRun(CancelEffect(s, end).next, os) == PollRunResult(CancelEffect(s, end).next, 1, [])
  {
  }

  /** A failed cancel leaves the call tracked, so polling goes on. */
  lemma CancelFailureKeepsPolling(s: Snapshot, end: Result<bool, Thrown>, o: PollOutcome)
    requires !CancelEffect(s, end).ok
    ensures CancelEffect(s, end).next.callSid == s.callSid
    ensures CancelEffect(s, end).next.callStatus == s.callStatus
    ensures PollEffect(CancelEffect(s, end).next, o).events[0] == StatusQueried(s.callSid.value)
  {
  }

  // ---------------------------------------------------------------------
  // The store

  class CallStore {
    var callSid: Option<string>
    var callStatus: CallStatus
    var statusMessage: string
    var error: Option<string>
    var callData: Option<CallData>
    /** Everything observed so far, oldest first. */
    ghost var trace: seq<Event>

    function State(): Snapshot
      reads this
    {
      Snapshot(callSid, callStatus, statusMessage, error, callData)
    }

    constructor ()
      ensures State() == Initial && trace == []
    {
      callSid, callStatus, statusMessage, error, callData := None, Idle, "", None, None;
      trace := [];
    }

    /** One `set()`: all five fields take the given values (the others are
        copied from the current state by the callers). */
    method Publish(s: Snapshot)
      modifies this
      ensures State() == s && trace == old(trace) + [Published(s)]
    {
      callSid, callStatus, statusMessage, error, callData :=
        s.callSid, s.callStatus, s.statusMessage, s.error, s.callData;
      trace := trace + [Published(s)];
    }

    /** `initiateCall(data)`, with the relay's answer, followed by polling
        over the given outcomes when the relay accepted the call. Returns
        the number of polls run. */
    method InitiateCall(data: CallData, relay: Result<InitiateResponse, Thrown>, polls: seq<PollOutcome>)
      returns (steps: nat)
      modifies this
      ensures var i := InitiateEffect(old(State()), data, relay);
              if i.polling then
                var p := PollRun(i.next, polls);
                State() == p.final && steps == p.steps && trace == old(trace) + i.events + p.events
              else
                State() == i.next && steps == 0 && trace == old(trace) + i.events
    {
      var polling := StartCall(data, relay);
      steps := 0;
      if polling {
        steps := RunPolls(polls);
      }
    }

    /** `initiateCall(data)` up to the first poll; returns whether polling
        starts. */
    method StartCall(data: CallData, relay: Result<InitiateResponse, Thrown>) returns (polling: bool)
      modifies this
      ensures var i := InitiateEffect(old(State()), data, relay);
              State() == i.next && polling == i.polling && trace == old(trace) + i.events
    {
      Publish(State().(callStatus := Initiating, statusMessage := PreparingMessage,
                       error := None, callData := Some(data)));
      Publish(State().(callStatus := Testing, statusMessage := TestingMessage));
      trace := trace + [InitiateSent(data)];
      match relay {
        case Success(resp) =>
          Publish(State().(callSid := Some(resp.callSid), callStatus := Calling,
                           statusMessage := ConnectingMessage));
          polling := true;
        case Failure(e) =>
          Publish(State().(callStatus := Failed, error := Some(MessageOr(e, InitiateFallback)),
                           statusMessage := CallFailedMessage));
          polling := false;
      }
    }

    /** One run of `pollStatus`; returns whether another poll is scheduled. */
    method PollStep(o: PollOutcome) returns (again: bool)
      modifies this
      ensures var r := PollEffect(old(State()), o);
              State() == r.next && again == r.again && trace == old(trace) + r.events
    {
      if !Truthy(callSid) {
        return false;
      }
      trace := trace + [StatusQueried(callSid.value)];
      match o {
        case RequestFailed =>
          Publish(State().(callStatus := Failed, error := Some(StatusCheckError),
                           statusMessage := StatusCheckFailedMessage));
          again := false;
        case Reported(st) =>
          if st == "in-progress" {
            Publish(State().(callStatus := Retrieving, statusMessage := RetrievingMessage));
            again := true;
          } else if st == "completed" {
            Publish(State().(callStatus := Completed,
                             statusMessage := RetrievedMessage));
            again := false;
          } else if FailureStatus(st) {
            Publish(State().(callStatus := Failed, statusMessage := "Call failed: " + st,
                             error := Some("Call ended with status: " + st)));
            again := false;
          } else {
            again := true;
          }
      }
    }

    /** `pollStatus` and the polls it schedules: one poll per outcome,
        each scheduling the next, until a poll schedules no successor or
        the outcomes run out. Returns the number of polls run. */
    method RunPolls(os: seq<PollOutcome>) returns (steps: nat)
      modifies this
      ensures var r := PollRun(old(State()), os);
              State() == r.final && steps == r.steps && trace == old(trace) + r.events
      decreases |os|
    {
      if os == [] {
        return 0;
      }
      ghost var t0 := trace;
      ghost var step := PollEffect(State(), os[0]);
      PollRunUnfold(State(), os);
      var again := PollStep(os[0]);
      if !again {
        return 1;
      }
      ghost var rest := PollRun(step.next, os[1..]);
      var more := RunPolls(os[1..]);
      assert trace == t0 + step.events + rest.events;
      steps := more + 1;
    }

    /** `updateCallStatus(status, message)`. */
    method UpdateCallStatus(status: CallStatus, message: Option<string>)
      modifies this
      ensures State() == UpdateStatusEffect(old(State()), status, message)
      ensures trace == old(trace) + [Published(State())]
    {
      Publish(State().(callStatus := status, statusMessage := OrElse(message, statusMessage)));
    }

    /** `cancelCall()`, given what `endCall` yields. */
    method CancelCall(end: Result<bool, Thrown>) returns (ok: bool)
      modifies this
      ensures var r := CancelEffect(old(State()), end);
              State() == r.next && ok == r.ok && trace == old(trace) + r.events
    {
      if !Truthy(callSid) {
        Publish(State().(callStatus := Idle, callSid := None));
        return true;
      }
      trace := trace + [EndSent(callSid.value)];
      match end {
        case Success(_) =>
          Publish(State().(callStatus := Idle, callSid := None));
          ok := true;
        case Failure(e) =>
          Publish(State().(error := Some(MessageOr(e, CancelFallback))));
          ok := false;
      }
    }

    /** `resetCallState()`: back to exactly the initial values. */
    method ResetCallState()
      modifies this
      ensures State() == Initial
      ensures trace == old(trace) + [Published(Initial)]
    {
      Publish(Initial);
    }
  }

  /** The end-to-end scenario: the relay accepts the call, the provider
      reports `ringing`, then `in-progress`, then `completed`; the store goes
      idle, initiating, testing, calling, retrieving, completed, and stops
      polling after the third poll. */
  lemma HappyPathScenario(data: CallData)
    ensures var i := InitiateEffect(Initial, data, Success(InitiateResponse("CA1", "queued", "ok")));
            var p := PollRun(i.next, [Reported("ringing"), Reported("in-progress"), Reported("completed"), Reported("completed")]);
            && i.events[0].state.callStatus == Initiating
            && i.events[1].state.callStatus == Testing
            && i.next.callStatus == Calling
            && p.steps == 3
            && p.final.callStatus == Completed
            && p.final.callSid == Some("CA1")
  {
    var i := InitiateEffect(Initial, data, Success(InitiateResponse("CA1", "queued", "ok")));
    var os := [Reported("ringing"), Reported("in-progress"), Reported("completed"), Reported("completed")];
    PollRunStopsAtTerminal(i.next, os, 2);
  }
}
