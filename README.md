# Charge-point authorization manager, modelled in Dafny

This project models `ManagerHandle`, the session manager of the charge-point
authorization library (`auth-lib/src/manager.rs`). The manager owns one
authorization record (`AuthState`). The record holds four things:

- the phase: `Idle`, `Pending`, `Done` or `Fail`;
- the badge identity `tagid`;
- the current and power limits `imax` and `pmax`;
- whether the badge must be confirmed by an OCPP service (`ocpp_check`).

The manager also knows whether an OCPP API was configured. `login` takes a
badge through the card service (identity, then contract), then optionally
asks the OCPP service to authorize it, start a transaction and subscribe to
energy metering. `logout` resets the record and tears the session down.
`update_engy_state` relays metering snapshots to the OCPP service.

Every remote call is replaced by an outcome given to the operation as a
parameter. Two logs record what an observer sees:

- `published`: the phases pushed to the manager's event, in order;
- `calls`: the remote calls issued, in order, each with its argument.

The project has four modules:

- `AuthTypes` (`auth_types.dfy`): the record, the phases, the remote calls, the
  error causes and the shapes of the replies. A contract field is `Absent`,
  `Present(v)` or `Invalid`, meaning present but of the wrong type. An
  authorize reply is `Unreachable`, `Malformed` or `Answer(b)`.
- `ManagerSpec` (`manager_spec.dfy`): reference definitions. Each operation
  is a function on a `Handle`, which is the OCPP flag, the record and the two
  logs. It returns the new `Handle` and the result. Each function's contract
  states the source's promises. The per-case lemmas spell out each path of
  `login`.
- `Manager` (`manager.dfy`): the class `ManagerHandle`. It has the record's
  fields, a `const ocppConfigured` and ghost logs `published` and `calls`.
  Its methods assign the fields step by step with early returns, as the
  source does. Each method is proved equal to its reference function.
- `Sessions` (`sessions.dfy`): runs of logins, logouts and energy updates
  served one after another, as the manager's lock serializes them, and
  properties proved by induction over every run. `Scenarios`
  (`scenarios.dfy`) works through concrete sessions.

Behaviour reproduced from the code:

- `Pending` is published but never stored in the record.
- A `?` exit does not set `Fail`. This covers an ill-typed contract field
  (manager.rs:170-172) and a non-boolean authorize reply (manager.rs:187).
  Both return `MalformedReply` and leave the phase as it was. Fields written
  before the exit stay written.
- `logout` never resets `ocpp_check`.
- After a positive authorize, the record holds `Done` whatever the
  transaction start and the energy subscription give. If either fails, the
  error is returned and the final publish is skipped.

The manager is meant to keep two invariants of its record, and to fail for
seven causes. The code does not fully meet these intentions, and the model
follows the code:

- The intended invariant is that an `Idle` record has an empty badge and
  zero limits. The `?` exits break this. A login from a fresh manager with
  an ill-typed `imax` leaves an `Idle` record holding the badge and the
  provisional limits 32/22 (`Sessions.MalformedContractLeavesIdleRecordDirty`).
  `Sessions.IdleStaysClean` proves that the invariant holds along any run
  whose replies are all well typed.
- The intended invariant is that a `Done` record holds a non-empty badge.
  The code stores whatever identity the card service returns
  (manager.rs:153-154) and then stores `Done` (manager.rs:189, 227). An
  empty identity with no OCPP check gives `Done` with an empty badge
  (`Sessions.EmptyIdentityLeavesDoneRecordUnbound`).
  `Sessions.DoneStaysBound` proves that the invariant holds along any run in
  which the card service never returns an empty identity.
- The intended error causes are identity failure, contract failure, OCPP
  rejected, OCPP unreachable, post-authorization call failure, not active
  and cleanup failure. The code has two more ways to fail: the `?` exits,
  modelled as `MalformedReply`, and a failed push-measure call in
  `update_engy_state`, modelled as `ForwardFailure`.

## Model

| member | source | states |
|---|---|---|
| AuthTypes.FieldOr | auth-lib/src/manager.rs:170-172 | reading a contract field gives its value when present, the default when missing, and a MalformedReply error exactly when the field has the wrong type |
| ManagerSpec.New | auth-lib/src/manager.rs:26-42 | a fresh manager is Idle with no badge and zero limits, with nothing published or called, and keeps whether an OCPP API was given |
| ManagerSpec.ApplyContract | auth-lib/src/manager.rs:169-173 | the contract is read completely iff every field is well typed; each limit then comes from the contract or from its default 32/22/true; the first ill-typed field stops the reads, leaving earlier fields written and later ones untouched; phase and badge are not changed |
| ManagerSpec.Confirm | auth-lib/src/manager.rs:176-231 | only the phase changes; calls are authorize, transaction start and energy subscribe, in that order, stopping at the first failure; without the OCPP check the result is Done, Done is published and nothing is called; refused or unreachable stores and publishes Fail with a distinct error; a malformed answer changes nothing but the call log; granted commits Done, and a failed start or subscribe returns PostAuthFailure without the final publish; a transaction start implies a granted badge |
| ManagerSpec.Login | auth-lib/src/manager.rs:108-232 | single sign-on on Done: Done is republished, nothing is called, the record is returned unchanged; Pending is never stored; a transaction start implies a granted reply and Done; a phase other than Done or Fail survives only a MalformedReply, unchanged, which arises only from an ill-typed contract or authorize reply; success returns the stored record in Done; ocpp_check changes only after an identified badge |
| ManagerSpec.LoginIdentityFailure | auth-lib/src/manager.rs:142-152 | a failed identity lookup stores Fail and an empty badge, publishes Pending then Fail, calls only get-tagid and returns IdentityFailure |
| ManagerSpec.LoginContractFailure | auth-lib/src/manager.rs:153-167 | a failed contract lookup stores Fail and an empty badge with the provisional limits 32/22/true, publishes Pending then Fail, calls only the card service and returns ContractFailure |
| ManagerSpec.LoginMalformedContract | auth-lib/src/manager.rs:169-173 | an ill-typed contract field keeps the earlier phase and the read badge, publishes only Pending, calls only the card service and returns MalformedReply |
| ManagerSpec.LoginContractLimits | auth-lib/src/manager.rs:153-158 | a readable contract leaves the read badge and sets imax, pmax and ocpp_check from the contract, each falling back to 32/22/true |
| ManagerSpec.LoginWithoutOcpp | auth-lib/src/manager.rs:225-231 | when the check is off or no OCPP API is configured, the badge is Done, Pending then Done are published, only the card service is called, and the record is returned |
| ManagerSpec.LoginOcppRefused | auth-lib/src/manager.rs:186-208 | an authorize answer of false, or a failed authorize call, stores and publishes Fail, makes no start or subscribe call, and returns OcppRejected or OcppUnreachable respectively |
| ManagerSpec.LoginMalformedAnswer | auth-lib/src/manager.rs:186-187 | a non-boolean authorize answer keeps the earlier phase, publishes only Pending, stops after the authorize call and returns MalformedReply |
| ManagerSpec.LoginGranted | auth-lib/src/manager.rs:188-231 | a granted badge is Done; transaction start then energy subscribe are called in order, stopping at a failure; a failure returns PostAuthFailure without the final publish; full success publishes Done and returns the record |
| ManagerSpec.LoginAppends | auth-lib/src/manager.rs:108-232 | every login only appends to both logs; a login that does not find Done appends Pending first and get-tagid first; a successful one appends Done last; the calls it appends are a prefix of the login protocol for the stored badge, and of the card-service calls alone without an OCPP check |
| ManagerSpec.ConfirmedLoginAppends | auth-lib/src/manager.rs:176-224 | with the OCPP check and a readable contract, the appended calls are a prefix of the login protocol for the read badge, and success ends the published phases with Done |
| ManagerSpec.LoginPublishes | auth-lib/src/manager.rs:119-125 | the published phases only grow; a login not in Done first publishes Pending; a successful login last publishes Done |
| ManagerSpec.LoginCallOrder | auth-lib/src/manager.rs:126-224 | the calls issued are a prefix of get-tagid, get-contract, authorize, transaction start, energy subscribe for the stored badge; a login not in Done calls get-tagid first; without an OCPP check only the card service is called |
| ManagerSpec.Logout | auth-lib/src/manager.rs:62-106 | a phase other than Done or Fail is refused with NotActive and nothing changes; otherwise the record is reset to Idle, empty badge and zero limits, and Idle is published whether or not cleanup succeeds; ocpp_check is kept; cleanup calls are unsubscribe, Stop(session), Available, in that order, only with the OCPP check, and the first failure stops them with CleanupFailure; success returns the Idle record |
| ManagerSpec.UpdateEngyState | auth-lib/src/manager.rs:50-60 | record and published phases are untouched; exactly one push-measure call with the given measure is made iff an OCPP API is configured; the result is an error iff that call fails |
| Manager.ManagerHandle.constructor | auth-lib/src/manager.rs:26-42 | the new object is the fresh manager of ManagerSpec.New |
| Manager.ManagerHandle.Login | auth-lib/src/manager.rs:108-232 | the in-place login leaves the object, its logs and its result exactly as ManagerSpec.Login prescribes from the old object |
| Manager.ManagerHandle.ReadContract | auth-lib/src/manager.rs:169-173 | the field-by-field contract read leaves the record as ManagerSpec.ApplyContract does, succeeds iff the contract is well formed, and logs nothing |
| Manager.ManagerHandle.ConfirmBadge | auth-lib/src/manager.rs:176-231 | the in-place confirmation leaves the object, its logs and its result as ManagerSpec.Confirm prescribes |
| Manager.ManagerHandle.Logout | auth-lib/src/manager.rs:62-106 | the in-place logout leaves the object, its logs and its result as ManagerSpec.Logout prescribes |
| Manager.ManagerHandle.UpdateEngyState | auth-lib/src/manager.rs:50-60 | the relay changes only the call log, as ManagerSpec.UpdateEngyState prescribes |
| Sessions.StepExtendsLogs | auth-lib/src/manager.rs:50-232 | no request removes or rewrites anything already published or called, or changes whether an OCPP API is configured |
| Sessions.RunExtendsLogs | auth-lib/src/manager.rs:50-232 | along any run of requests both logs only grow |
| Sessions.PendingNeverStored | auth-lib/src/manager.rs:125 | along any run from a record not in Pending, the record is never in Pending |
| Sessions.RepeatedLoginIsSingleSignOn | auth-lib/src/manager.rs:110-121 | from Done, any number of logins leaves record and call log unchanged and publishes exactly one Done per login |
| Sessions.IdleStaysClean | auth-lib/src/manager.rs:76-79 | along any run whose replies are all well typed, an Idle record has an empty badge and zero limits |
| Sessions.MalformedContractLeavesIdleRecordDirty | auth-lib/src/manager.rs:153-172 | an ill-typed imax read from a fresh manager leaves an Idle record holding the badge and limits 32/22 |
| Sessions.EmptyIdentityLeavesDoneRecordUnbound | auth-lib/src/manager.rs:153-154 | an empty identity from the card service, with no OCPP check, is stored and authorized, giving a Done record without a badge |
| Sessions.DoneStaysBound | auth-lib/src/manager.rs:153-227 | along any run in which the card service never returns an empty identity, a Done record holds a non-empty badge |
| Sessions.StepStartsFollowAuthorize | auth-lib/src/manager.rs:180-217 | any single request keeps the rule that each transaction start comes directly after an authorize call for the same badge |
| Sessions.TransactionStartsAreAuthorized | auth-lib/src/manager.rs:180-217 | along any run, each transaction start comes directly after an authorize call for the same badge |
| Sessions.FreshManagerStartsFollowAuthorize | auth-lib/src/manager.rs:26-42 | from a fresh manager, every run keeps that rule |
| Scenarios.ContractWithoutOcppCheck | auth-lib/src/manager.rs:169-177 | a contract with ocpp false and limits 20/11 gives Done with those limits after only the card-service calls |
| Scenarios.GrantedWithDefaultLimits | auth-lib/src/manager.rs:153-231 | a granted badge with an empty contract gets the limits 32/22 and makes the five login calls in order |
| Scenarios.UnreadableBadge | auth-lib/src/manager.rs:142-152 | a failed identity lookup from a fresh manager gives Fail with no badge and IdentityFailure |
| Scenarios.StopFailsAfterReset | auth-lib/src/manager.rs:76-95 | a failing transaction stop leaves the record Idle and reports CleanupFailure after unsubscribe and stop |
| Scenarios.LogoutBeforeLogin | auth-lib/src/manager.rs:64-73 | logging out of a fresh manager is refused with NotActive and changes nothing |

## Left out

- `AfbSubCall::call_sync`, the event API, `response.get` and `jsonc.default` are foreign runtime calls. Each one's outcome is a parameter of the operation. The call's order and argument are recorded in the call log.
- The `Mutex` and `get_state` are left out. Each operation owns the object for its whole run, and `Sessions.Run` serves requests one after another. Concurrency and the lock's poisoning panic are not modelled.
- `Box::leak` and the `'static` lifetime of the manager are memory plumbing with no observable behaviour.
- The service names `scard_api` and `engy_api` are left out. They only address the remote calls, which the model names by verb.
- `afb_log_msg!` logging and the error message strings are left out. Errors are an enumeration of causes.
- The content of `EnergyState` is relayed untouched, so it is kept as an uninterpreted payload.
- `AuthState::default()` and the type definitions are not part of this model. The initial record is an assumption: Idle, empty badge, zero limits and no OCPP check. The choice of `ocpp_check` matters. From a fresh manager, a failed identity lookup followed by a logout skips the cleanup calls only because the initial `ocpp_check` is false (manager.rs:82).
- `afb-types/src/libso.rs` holds only crate attributes and re-exports, with no logic.
- ManagerSpec.Logout: the two logs, `published` and `calls`, do not record the order of a publish relative to a remote call. The contract states that Idle is published whether or not cleanup succeeds. It does not state that the Idle push comes before the cleanup calls (manager.rs:80-102). The same holds for Pending relative to get-tagid in `login` (manager.rs:125-128), and for the final Done push relative to the start and subscribe calls (manager.rs:212-230).
