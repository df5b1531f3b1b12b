/** The message envelope of app/protocol.py and the stage names it carries (app/models.py, app/gateway.py). */
module Envelopes {
  import opened Common

  datatype MessageType =
    | Register | RegisterAck | Heartbeat | HeartbeatAck | Capability
    | TaskAssign | TaskAccepted | TaskProgress | TaskLog | TerminalOutput | AIChunk | FileChanged
    | PermissionRequest | PermissionResult | CancelTask
    | TaskCompleted | TaskFailed | TaskCancelled | Reconnect | Ack | Artifact

  /** The payload keys that some branch of the protocol reads; `content` stands for all other content. */
  datatype Payload = Payload(
    ackSeq: Option<nat>,
    accepted: bool,
    reconnected: bool,
    lastSeq: nat,
    version: nat,
    task: TaskId,
    busy: bool,
    persisted: bool,
    step: string,
    percent: Option<int>,
    request: nat,
    content: nat)

  const EMPTY: Payload := Payload(None, false, false, 0, 0, 0, false, false, "", None, 0, 0)

  datatype Envelope = Envelope(num: nat, mtype: MessageType, taskId: Option<TaskId>, payload: Payload)

  /** Register and Reconnect open a session and Ack is never answered; everything else is application traffic. */
  predicate IsApplication(t: MessageType) {
    t != Register && t != Reconnect && t != Ack
  }

  predicate IsHello(t: MessageType) {
    t == Register || t == Reconnect
  }

  /** A RegisterAck that turns the runner away because its version is too low. */
  predicate IsRejection(e: Envelope) {
    e.mtype == RegisterAck && !e.payload.accepted
  }

  datatype Stage = Product | Planner | Reader | Design | Coder | Build | Test | Review | Acceptance | Delivery

  function StageName(s: Stage): string {
    match s
    case Product => "product"
    case Planner => "planner"
    case Reader => "reader"
    case Design => "design"
    case Coder => "coder"
    case Build => "build"
    case Test => "test"
    case Review => "review"
    case Acceptance => "acceptance"
    case Delivery => "delivery"
  }

  /** The enumeration constructor Stage(step): the value with that name, or nothing for a ValueError. */
  function ParseStage(name: string): Option<Stage> {
    if name == "product" then Some(Product)
    else if name == "planner" then Some(Planner)
    else if name == "reader" then Some(Reader)
    else if name == "design" then Some(Design)
    else if name == "coder" then Some(Coder)
    else if name == "build" then Some(Build)
    else if name == "test" then Some(Test)
    else if name == "review" then Some(Review)
    else if name == "acceptance" then Some(Acceptance)
    else if name == "delivery" then Some(Delivery)
    else None
  }

  /** How the gateway reads a progress step: its own step table first, then the stage names. */
  function StepStage(step: string): Option<Stage> {
    if step == "clone" || step == "checkout" then Some(Reader)
    else if step == "generate" then Some(Coder)
    else if step == "build" then Some(Build)
    else if step == "test" then Some(Test)
    else if step == "commit" || step == "push" then Some(Delivery)
    else ParseStage(step)
  }
}
