/** The frames that answer an action request. */
module Frames {
  type RequestId = string
  type Fingerprint = string

  datatype ErrorCode =
    | NoCode
    | NotFound
    | NotGroup
    | PermissionDenied
    | InvalidTarget
    | SendFailed
    | Timeout
    | OtherCode(name: string)

  /** Why the dispatcher refuses a request without executing it. */
  datatype Reason =
    | NotConnected
    | StorageUnreadable
    | BoundToOtherPayload
    | MayHaveCompleted
    | ExecutingOtherPayload
    | StorageUnavailable

  /** The detail text of a frame: one of the dispatcher's own sentences, or any text of a handler. */
  datatype Detail = Refused(reason: Reason) | Free(text: string)

  function Sentence(reason: Reason): string {
    match reason
    case NotConnected =>
      "WhatsApp account " + "is not connected; " + "pair or reconnect " + "it before " + "sending actions."
    case StorageUnreadable => "Action receipt storage " + "is unreadable; " + "action was not executed"
    case BoundToOtherPayload => "requestId is already " + "bound to " + "a different action payload"
    case MayHaveCompleted => "A previous execution " + "may have completed; " + "refusing to " + "execute it again"
    case ExecutingOtherPayload => "requestId is already " + "executing " + "a different action payload"
    case StorageUnavailable => "Action receipt storage " + "is unavailable; " + "action was not executed"
  }

  function Text(detail: Detail): string {
    match detail
    case Refused(reason) => Sentence(reason)
    case Free(text) => text
  }

  /** A frame sent back to the Python client. The request id of the payload is kept beside the frame. */
  datatype Frame =
    | ActionAck(action: string, ok: bool, detail: Detail, code: ErrorCode, result: string)
    | SendAck
    | ErrorFrame(detail: Detail, code: ErrorCode, action: string)
    | OtherFrame(body: string)

  /** A frame that tells the client its action succeeded. */
  predicate IsSuccess(f: Frame) {
    f.SendAck? || (f.ActionAck? && f.ok)
  }

  function RefusalCode(reason: Reason): ErrorCode {
    match reason
    case BoundToOtherPayload => InvalidTarget
    case ExecutingOtherPayload => InvalidTarget
    case _ => SendFailed
  }

  function Refusal(reason: Reason, action: string): Frame {
    ActionAck(action, false, Refused(reason), RefusalCode(reason), "")
  }

  function RefusalError(reason: Reason, action: string): Frame {
    ErrorFrame(Refused(reason), RefusalCode(reason), action)
  }
}
