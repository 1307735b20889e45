/** `ManagerHandle`: the object that owns the authorization record and runs the
    login and logout protocols against it, step by step. The remote calls'
    outcomes come in as parameters; `published` and `calls` record, in order,
    the phases pushed to the event and the remote calls issued. */
module Manager {
  import opened AuthTypes
  import ManagerSpec

  class ManagerHandle {
    var auth: AuthMsg
    var tagid: string
    var imax: u32
    var pmax: u32
    var ocppCheck: bool
    /** Whether an OCPP API was given at construction (`ocpp_api.is_some()`). */
    const ocppConfigured: bool
    ghost var published: seq<AuthMsg>
    ghost var calls: seq<Call>

    /** The record, as a value (what `data_set.clone()` returns). */
    function State(): AuthState
      reads this
    {
      AuthState(auth, tagid, imax, pmax, ocppCheck)
    }

    /** The manager as the reference definitions see it. */
    ghost function Model(): ManagerSpec.Handle
      reads this
    {
      ManagerSpec.Handle(ocppConfigured, State(), published, calls)
    }

    /** `ManagerHandle::new`: a fresh manager holds the default record. */
    constructor (ocppConfigured: bool)
      ensures Model() == ManagerSpec.New(ocppConfigured)
    {
      auth, tagid, imax, pmax, ocppCheck := Idle, "", 0, 0, false;
      this.ocppConfigured := ocppConfigured;
      published, calls := [], [];
    }

    /** `ManagerHandle::login`: single sign-on for an authorized record;
        otherwise Pending is announced, the badge is identified, its contract
        read, and the badge confirmed. */
    method Login(idRes: Option<string>, contractRes: Option<Contract>, authRes: AuthorizeReply,
                 startOk: bool, subOk: bool) returns (r: Result<AuthState>)
      modifies this
      ensures ManagerSpec.Outcome(Model(), r) ==
              ManagerSpec.Login(old(Model()), idRes, contractRes, authRes, startOk, subOk)
    {
      if auth == Done {
        // single sign-on
        published := published + [auth];
        return Ok(State());
      }

      published := published + [Pending];
      calls := calls + [GetTagId];
      match idRes {
        case None =>
          published := published + [Fail];
          tagid := "";
          auth := Fail;
          return Err(IdentityFailure);
        case Some(nfcData) =>
          tagid := nfcData;
          imax := DefaultImax;
          pmax := DefaultPmax;
          ocppCheck := DefaultOcppCheck;
      }

      calls := calls + [GetContract];
      match contractRes {
        case None =>
          published := published + [Fail];
          tagid := "";
          auth := Fail;
          return Err(ContractFailure);
        case Some(contract) =>
          var read := ReadContract(contract);
          if read.Err? { return Err(read.error); }
      }
      r := ConfirmBadge(authRes, startOk, subOk);
    }

    /** The three contract fields of `login`, read in order; the first one
        that cannot be read ends `login` with that error. */
    method ReadContract(contract: Contract) returns (r: Result<()>)
      modifies this
      ensures (State(), r.Ok?) == ManagerSpec.ApplyContract(old(State()), contract)
      ensures r.Err? ==> r.error == MalformedReply
      ensures published == old(published) && calls == old(calls)
    {
      var i := FieldOr(contract.imax, DefaultImax);
      if i.Err? { return Err(i.error); }
      imax := i.value;
      var p := FieldOr(contract.pmax, DefaultPmax);
      if p.Err? { return Err(p.error); }
      pmax := p.value;
      var c := FieldOr(contract.ocpp, DefaultOcppCheck);
      if c.Err? { return Err(c.error); }
      ocppCheck := c.value;
      r := Ok(());
    }

    /** The end of `login` once the contract has been read: the OCPP
        confirmation when it applies, then the final publish. */
    method ConfirmBadge(authRes: AuthorizeReply, startOk: bool, subOk: bool) returns (r: Result<AuthState>)
      modifies this
      ensures ManagerSpec.Outcome(Model(), r) == ManagerSpec.Confirm(old(Model()), authRes, startOk, subOk)
    {
      if ocppCheck && ocppConfigured {
        // badge with OCPP check
        calls := calls + [Authorize(tagid)];
        match authRes {
          case Unreachable =>
            auth := Fail;
            published := published + [auth];
            return Err(OcppUnreachable);
          case Malformed =>
            return Err(MalformedReply);
          case Answer(granted) =>
            if granted {
              auth := Done;
            } else {
              auth := Fail;
              published := published + [auth];
              return Err(OcppRejected);
            }
        }

        calls := calls + [TransactionStart(tagid)];
        if !startOk { return Err(PostAuthFailure); }

        calls := calls + [EnergySubscribe];
        if !subOk { return Err(PostAuthFailure); }
      } else {
        // badge without OCPP check
        auth := Done;
      }
      published := published + [auth];
      r := Ok(State());
    }

    /** `ManagerHandle::logout`: an active session is reset and announced,
        then torn down at the OCPP and energy services. */
    method Logout(session: i32, unsubOk: bool, stopOk: bool, availOk: bool) returns (r: Result<AuthState>)
      modifies this
      ensures ManagerSpec.Outcome(Model(), r) == ManagerSpec.Logout(old(Model()), session, unsubOk, stopOk, availOk)
    {
      if auth != Done && auth != Fail {
        return Err(NotActive);
      }

      tagid := "";
      auth := Idle;
      imax := 0;
      pmax := 0;
      published := published + [auth];

      if ocppCheck && ocppConfigured {
        calls := calls + [EnergyUnsubscribe];
        if !unsubOk { return Err(CleanupFailure); }

        calls := calls + [TransactionStop(session)];
        if !stopOk { return Err(CleanupFailure); }

        calls := calls + [StatusAvailable];
        if !availOk { return Err(CleanupFailure); }
      }
      r := Ok(State());
    }

    /** `ManagerHandle::update_engy_state`: a metering snapshot is relayed to
        the OCPP service when one is configured. */
    method UpdateEngyState(measure: EnergyState, pushOk: bool) returns (r: Result<()>)
      modifies this`calls
      ensures ManagerSpec.Outcome(Model(), r) == ManagerSpec.UpdateEngyState(old(Model()), measure, pushOk)
    {
      if ocppConfigured {
        calls := calls + [PushMeasure(measure)];
        if !pushOk { return Err(ForwardFailure); }
      }
      r := Ok(());
    }
  }
}
