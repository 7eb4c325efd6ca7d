/** The SAFE_MODE switch every component shares. */
module SafeMode {
  datatype SafeModeState = Normal | SafeModeActive

  datatype SafeModeReason =
    | RepairLocalOrderMissing(id: string)
    | RepairQueryFailed(id: string)
    | RepairExchangeOrderMissing(id: string)
    | RepairSymbolMismatch(id: string)
    | ReconciliationFetchFailed
    | ReconciliationMismatch
    | PositionFetchFailed
    | PositionMismatch
    | ExitReason(text: string)

  class SafeModeController {
    var state: SafeModeState
    var reasons: seq<SafeModeReason>

    constructor ()
      ensures state == Normal && reasons == []
    {
      state, reasons := Normal, [];
    }

    predicate AllowsNewEntries()
      reads this
    {
      state == Normal
    }

    method Enter(reason: SafeModeReason)
      modifies this
      ensures state == SafeModeActive && reasons == old(reasons) + [reason]
    {
      state := SafeModeActive;
      reasons := reasons + [reason];
    }

    method Exit(text: string)
      modifies this
      ensures state == Normal && reasons == old(reasons) + [ExitReason(text)]
    {
      state := Normal;
      reasons := reasons + [ExitReason(text)];
    }
  }
}
