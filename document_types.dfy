/**
 * The value types the documents hub and its sub-products share: the hub names, the
 * toast messages, and the plans hub's modes and assumptions.
 */
module DocumentTypes {

  /** The four sub-products. The type is closed, so the default branch of the hub's
      dispatch cannot be taken. */
  datatype HubModule = Plans | Decks | Proposals | Forms

  datatype ToastType = Success | Error | Info

  /** A queued toast; its id is the clock reading, in milliseconds, when it was added. */
  datatype ToastMessage = ToastMessage(id: int, message: string, kind: ToastType)

  /** The arguments of one `addToast` call. */
  datatype ToastRequest = ToastRequest(message: string, kind: ToastType)

  datatype Mode = FastTrack | ValidatedMode

  datatype Risk = High | Medium | Low

  datatype AssumptionStatus = Untested | Validated | Invalidated

  datatype Assumption = Assumption(id: string, text: string, risk: Risk, status: AssumptionStatus, sourceSection: string)
}
