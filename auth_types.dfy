/** The data the authorization manager works on: the authorization record
    (`AuthState`), the phases it publishes (`AuthMsg`), and the outcomes of the
    remote calls it makes, which the model receives as parameters. */
module AuthTypes {

  /** Rust `u32`, the type of the current and power limits. */
  newtype u32 = x: int | 0 <= x < 0x1_0000_0000

  /** Rust `i32`, the type of the energy session identifier given to logout. */
  newtype i32 = x: int | -0x8000_0000 <= x < 0x8000_0000

  datatype Option<T> = None | Some(value: T)

  /** The authorization phase, published to the event's subscribers. */
  datatype AuthMsg = Idle | Pending | Done | Fail

  /** The one record the manager owns: phase, badge identity, limits and
      whether the badge must be confirmed by the OCPP service. */
  datatype AuthState = AuthState(auth: AuthMsg, tagid: string, imax: u32, pmax: u32, ocppCheck: bool)

  /** The record a fresh manager starts from: the derived default of
      `AuthState`, idle with nothing bound. */
  const InitialState := AuthState(Idle, "", 0, 0, false)

  /** Provisional limits set once the badge is identified, and the defaults
      used for a field the contract does not carry. */
  const DefaultImax: u32 := 32
  const DefaultPmax: u32 := 22
  const DefaultOcppCheck := true

  /** Why an operation failed. `MalformedReply` is a reply whose payload could
      not be read as the expected type; it leaves through a `?` exit. */
  datatype Error =
    | IdentityFailure
    | ContractFailure
    | MalformedReply
    | OcppRejected
    | OcppUnreachable
    | PostAuthFailure
    | NotActive
    | CleanupFailure
    | ForwardFailure

  datatype Result<T> = Ok(value: T) | Err(error: Error)

  /** One field of a JSON contract as the reply carries it: missing, present
      with a value of the expected type, or present with a value that is not. */
  datatype Field<T> = Absent | Present(value: T) | Invalid

  /** The subscription contract returned by the card service's `get-contract`. */
  datatype Contract = Contract(imax: Field<u32>, pmax: Field<u32>, ocpp: Field<bool>)

  /** How the OCPP `authorize` call ended: the call failed, its reply was not a
      boolean, or it answered with a boolean. */
  datatype AuthorizeReply = Unreachable | Malformed | Answer(granted: bool)

  /** A metering snapshot relayed by `update_engy_state`; its content is passed
      through untouched, so the model keeps it as an uninterpreted payload. */
  datatype EnergyState = EnergyState(payload: seq<int>)

  /** The remote calls the manager issues, by API verb and argument. */
  datatype Call =
    | GetTagId                      // card service, "get-tagid"
    | GetContract                   // card service, "get-contract"
    | Authorize(tag: string)        // OCPP service, "authorize"
    | TransactionStart(tag: string) // OCPP service, "transaction" Start
    | TransactionStop(session: i32) // OCPP service, "transaction" Stop
    | StatusAvailable               // OCPP service, "status-notification" Available
    | EnergySubscribe               // energy service, "state" SUBSCRIBE
    | EnergyUnsubscribe             // energy service, "state" UNSUBSCRIBE
    | PushMeasure(measure: EnergyState) // OCPP service, "push-measure"

  /** The value of a field that is known not to be `Invalid`. */
  function ValueOr<T>(f: Field<T>, default: T): T {
    match f
    case Present(v) => v
    case _ => default
  }

  /** `jsonc.default(key, default)`: the default for a missing field, the
      value for a well-typed one, and an error for an ill-typed one. */
  function FieldOr<T>(f: Field<T>, default: T): (r: Result<T>)
    ensures r.Ok? <==> !f.Invalid?
    ensures r.Ok? ==> r.value == ValueOr(f, default)
    ensures r.Err? ==> r.error == MalformedReply
  {
    match f
    case Absent => Ok(default)
    case Present(v) => Ok(v)
    case Invalid => Err(MalformedReply)
  }

  /** Every field of the contract can be read. */
  predicate WellFormed(c: Contract) {
    !c.imax.Invalid? && !c.pmax.Invalid? && !c.ocpp.Invalid?
  }
}
