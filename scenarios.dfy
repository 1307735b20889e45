/** Concrete sessions worked through the reference definitions. */
module Scenarios {
  import opened AuthTypes
  import opened ManagerSpec

  /** A badge whose contract turns the OCPP check off is authorized by the
      card service alone, with the contract's limits. */
  lemma ContractWithoutOcppCheck()
    ensures var o := Login(New(true), Some("ABC123"),
                           Some(Contract(Present(20), Present(11), Present(false))), Unreachable, false, false);
            o.h.state == AuthState(Done, "ABC123", 20, 11, false) &&
            o.h.calls == [GetTagId, GetContract] && o.h.published == [Pending, Done] && o.result == Ok(o.h.state)
  {
  }

  /** A badge with the OCPP check, granted: one transaction start for the
      badge and one energy subscription, with the default limits. */
  lemma GrantedWithDefaultLimits()
    ensures var o := Login(New(true), Some("XYZ"), Some(Contract(Absent, Absent, Present(true))), Answer(true), true, true);
            o.h.state == AuthState(Done, "XYZ", 32, 22, true) &&
            o.h.calls == [GetTagId, GetContract, Authorize("XYZ"), TransactionStart("XYZ"), EnergySubscribe] &&
            o.h.published == [Pending, Done] && o.result == Ok(o.h.state)
  {
  }

  /** An unreadable badge: Fail with no identity. */
  lemma UnreadableBadge()
    ensures var o := Login(New(true), None, None, Unreachable, true, true);
            o.h.state.auth == Fail && o.h.state.tagid == "" && o.h.published == [Pending, Fail] &&
            o.result == Err(IdentityFailure)
  {
  }

  /** Logging out of an OCPP-checked session whose transaction cannot be
      stopped: the record is already idle, and the error is reported. */
  lemma StopFailsAfterReset()
    ensures var o := Logout(Handle(true, AuthState(Done, "XYZ", 32, 22, true), [], []), 7, true, false, true);
            o.h.state == AuthState(Idle, "", 0, 0, true) && o.h.published == [Idle] &&
            o.h.calls == [EnergyUnsubscribe, TransactionStop(7)] && o.result == Err(CleanupFailure)
  {
  }

  /** Logging out of a fresh manager is refused and changes nothing. */
  lemma LogoutBeforeLogin()
    ensures Logout(New(true), 1, true, true, true) == Outcome(New(true), Err(NotActive))
  {
  }
}
