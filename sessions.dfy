/** Sequences of requests served by one manager: the manager after any run of
    logins, logouts and energy updates, and the properties that hold along
    every such run. */
module Sessions {
  import opened AuthTypes
  import opened ManagerSpec

  /** One request to the manager, together with the outcomes of the remote
      calls the request may make. */
  datatype Event =
    | LoginEvent(idRes: Option<string>, contractRes: Option<Contract>, authRes: AuthorizeReply, startOk: bool, subOk: bool)
    | LogoutEvent(session: i32, unsubOk: bool, stopOk: bool, availOk: bool)
    | MeasureEvent(measure: EnergyState, pushOk: bool)

  /** Serving one request. */
  function Step(h: Handle, e: Event): Handle {
    match e
    case LoginEvent(id, contract, authRes, startOk, subOk) => Login(h, id, contract, authRes, startOk, subOk).h
    case LogoutEvent(session, unsubOk, stopOk, availOk) => Logout(h, session, unsubOk, stopOk, availOk).h
    case MeasureEvent(measure, pushOk) => UpdateEngyState(h, measure, pushOk).h
  }

  /** Serving the requests one after the other, as the manager's lock does. */
  function Run(h: Handle, events: seq<Event>): Handle
    decreases |events|
  {
    if events == [] then h else Run(Step(h, events[0]), events[1..])
  }

  /** `b` extends `a` by what follows `a` in it. */
  lemma SplitAfterPrefix<T>(a: seq<T>, b: seq<T>)
    requires a <= b
    ensures b == a + b[|a|..]
  {
  }

  /** The prefix order is transitive. */
  lemma PrefixTransitive<T>(a: seq<T>, b: seq<T>, c: seq<T>)
    requires a <= b && b <= c
    ensures a <= c
  {
    assert forall i :: 0 <= i < |a| ==> a[i] == b[i] == c[i];
  }

  /** A request only appends to the logs, and never changes whether an OCPP
      API is configured. */
  lemma StepExtendsLogs(h: Handle, e: Event)
    ensures var n := Step(h, e);
            n.ocppConfigured == h.ocppConfigured && h.published <= n.published && h.calls <= n.calls
  {
    match e
    case LoginEvent(id, contract, authRes, startOk, subOk) =>
      LoginPublishes(h, id, contract, authRes, startOk, subOk);
      LoginCallOrder(h, id, contract, authRes, startOk, subOk);
    case LogoutEvent(_, _, _, _) =>
    case MeasureEvent(_, _) =>
  }

  /** Along any run the logs only grow: nothing published or called is ever
      taken back. */
  lemma {:induction false} RunExtendsLogs(h: Handle, events: seq<Event>)
    ensures var n := Run(h, events);
            n.ocppConfigured == h.ocppConfigured && h.published <= n.published && h.calls <= n.calls
    decreases |events|
  {
    if events != [] {
      var first := Step(h, events[0]);
      StepExtendsLogs(h, events[0]);
      RunExtendsLogs(first, events[1..]);
      var n := Run(first, events[1..]);
      PrefixTransitive(h.published, first.published, n.published);
      PrefixTransitive(h.calls, first.calls, n.calls);
    }
  }

  /** Pending is only ever announced: no run stores it in the record. */
  lemma {:induction false} PendingNeverStored(h: Handle, events: seq<Event>)
    requires h.state.auth != Pending
    ensures Run(h, events).state.auth != Pending
    decreases |events|
  {
    if events != [] {
      PendingNeverStored(Step(h, events[0]), events[1..]);
    }
  }

  predicate AllLogins(events: seq<Event>) {
    forall i :: 0 <= i < |events| ==> events[i].LoginEvent?
  }

  /** Once authorized, any number of further logins leaves the record as it
      is, makes no remote call and republishes Done once per login. */
  lemma {:induction false} RepeatedLoginIsSingleSignOn(h: Handle, events: seq<Event>)
    requires h.state.auth == Done
    requires AllLogins(events)
    ensures Run(h, events) == h.(published := h.published + seq(|events|, _ => Done))
    decreases |events|
  {
    if events != [] {
      assert events[0].LoginEvent?;
      var first := Step(h, events[0]);
      assert first == Push(h, Done);
      assert AllLogins(events[1..]) by {
        forall i | 0 <= i < |events[1..]| ensures events[1..][i].LoginEvent? {
          assert events[1..][i] == events[i + 1];
        }
      }
      RepeatedLoginIsSingleSignOn(first, events[1..]);
      assert h.published + [Done] + seq(|events| - 1, _ => Done) == h.published + seq(|events|, _ => Done);
    }
  }

  /** An idle record holds no badge and no limits. */
  predicate IdleIsClean(s: AuthState) {
    s.auth == Idle ==> s.tagid == "" && s.imax == 0 && s.pmax == 0
  }

  /** Every reply of the request can be read as the type the manager expects. */
  predicate WellFormedEvent(e: Event) {
    e.LoginEvent? ==> (e.contractRes.Some? ==> WellFormed(e.contractRes.value)) && !e.authRes.Malformed?
  }

  /** While every reply can be read, an idle record stays clean along any run. */
  lemma {:induction false} IdleStaysClean(h: Handle, events: seq<Event>)
    requires IdleIsClean(h.state)
    requires forall i :: 0 <= i < |events| ==> WellFormedEvent(events[i])
    ensures IdleIsClean(Run(h, events).state)
    decreases |events|
  {
    if events != [] {
      var e := events[0];
      assert WellFormedEvent(e);
      if e.LoginEvent? {
        var o := Login(h, e.idRes, e.contractRes, e.authRes, e.startOk, e.subOk);
        assert o.result != Err(MalformedReply);
      }
      assert forall i :: 0 <= i < |events[1..]| ==> events[1..][i] == events[i + 1];
      IdleStaysClean(Step(h, e), events[1..]);
    }
  }

  /** An unreadable contract field, served from a fresh manager, leaves an
      idle record that holds a badge and the provisional limits. */
  lemma MalformedContractLeavesIdleRecordDirty()
    ensures var o := Login(New(false), Some("A"), Some(Contract(Invalid, Absent, Absent)), Malformed, true, true);
            o.h.state == AuthState(Idle, "A", DefaultImax, DefaultPmax, DefaultOcppCheck) &&
            !IdleIsClean(o.h.state) && o.result == Err(MalformedReply)
  {
  }

  /** An authorized record holds a badge. */
  predicate DoneIsBound(s: AuthState) {
    s.auth == Done ==> s.tagid != ""
  }

  /** The card service returns a non-empty identity whenever it returns one. */
  predicate NonEmptyIdentity(e: Event) {
    e.LoginEvent? ==> e.idRes != Some("")
  }

  /** The card service's identity is taken as it comes: an empty one, served
      from a fresh manager with no OCPP check, gives an authorized record
      without a badge. */
  lemma EmptyIdentityLeavesDoneRecordUnbound()
    ensures var o := Login(New(false), Some(""), Some(Contract(Absent, Absent, Absent)), Unreachable, true, true);
            o.h.state.auth == Done && o.h.state.tagid == "" && !DoneIsBound(o.h.state) && o.result.Ok?
  {
  }

  /** While the card service never returns an empty identity, an authorized
      record holds a badge along any run. */
  lemma {:induction false} DoneStaysBound(h: Handle, events: seq<Event>)
    requires DoneIsBound(h.state)
    requires forall i :: 0 <= i < |events| ==> NonEmptyIdentity(events[i])
    ensures DoneIsBound(Run(h, events).state)
    decreases |events|
  {
    if events != [] {
      var e := events[0];
      assert NonEmptyIdentity(e);
      if e.LoginEvent? && h.state.auth != Done && e.idRes.Some? && e.contractRes.Some? {
        var tag, contract := e.idRes.value, e.contractRes.value;
        if WellFormed(contract) {
          LoginContractLimits(h, tag, contract, e.authRes, e.startOk, e.subOk);
        } else {
          LoginMalformedContract(h, tag, contract, e.authRes, e.startOk, e.subOk);
        }
      }
      assert forall i :: 0 <= i < |events[1..]| ==> events[1..][i] == events[i + 1];
      DoneStaysBound(Step(h, e), events[1..]);
    }
  }

  /** Every transaction start is issued right after an authorize call for
      the same badge. */
  predicate StartsFollowAuthorize(calls: seq<Call>) {
    forall i :: 0 <= i < |calls| && calls[i].TransactionStart? ==> 0 < i && calls[i - 1] == Authorize(calls[i].tag)
  }

  /** Appending calls that keep the rule, and do not open with a transaction
      start, keeps the rule. */
  lemma StartsFollowAuthorizeAppend(a: seq<Call>, b: seq<Call>)
    requires StartsFollowAuthorize(a) && StartsFollowAuthorize(b)
    requires b != [] ==> !b[0].TransactionStart?
    ensures StartsFollowAuthorize(a + b)
  {
    forall i | 0 <= i < |a + b| && (a + b)[i].TransactionStart?
      ensures 0 < i && (a + b)[i - 1] == Authorize((a + b)[i].tag)
    {
      if i >= |a| {
        assert (a + b)[i] == b[i - |a|];
        assert (a + b)[i - 1] == b[i - |a| - 1];
      }
    }
  }

  /** What one login calls keeps the rule. */
  lemma LoginCallsFollowAuthorize(cs: seq<Call>, tag: string)
    requires cs <= LoginCalls(tag)
    ensures StartsFollowAuthorize(cs) && (cs != [] ==> !cs[0].TransactionStart?)
  {
    forall i | 0 <= i < |cs| && cs[i].TransactionStart?
      ensures 0 < i && cs[i - 1] == Authorize(cs[i].tag)
    {
      assert cs[i] == LoginCalls(tag)[i];
      assert cs[i - 1] == LoginCalls(tag)[i - 1];
    }
  }

  /** What any request appends keeps the rule. */
  lemma StepStartsFollowAuthorize(h: Handle, e: Event)
    requires StartsFollowAuthorize(h.calls)
    ensures StartsFollowAuthorize(Step(h, e).calls)
  {
    var n := Step(h, e);
    match e
    case LoginEvent(id, contract, authRes, startOk, subOk) =>
      LoginCallOrder(h, id, contract, authRes, startOk, subOk);
      SplitAfterPrefix(h.calls, n.calls);
      LoginCallsFollowAuthorize(n.calls[|h.calls|..], n.state.tagid);
      StartsFollowAuthorizeAppend(h.calls, n.calls[|h.calls|..]);
    case LogoutEvent(session, _, _, _) =>
      var added := n.calls[|h.calls|..];
      SplitAfterPrefix(h.calls, n.calls);
      assert forall i :: 0 <= i < |added| ==> added[i] == Cleanup(session)[i];
      StartsFollowAuthorizeAppend(h.calls, added);
    case MeasureEvent(measure, _) =>
      if h.ocppConfigured {
        StartsFollowAuthorizeAppend(h.calls, [PushMeasure(measure)]);
      }
  }

  /** Along any run, a charging transaction is only ever started directly
      after the OCPP service was asked to authorize that very badge. */
  lemma {:induction false} TransactionStartsAreAuthorized(h: Handle, events: seq<Event>)
    requires StartsFollowAuthorize(h.calls)
    ensures StartsFollowAuthorize(Run(h, events).calls)
    decreases |events|
  {
    if events != [] {
      StepStartsFollowAuthorize(h, events[0]);
      TransactionStartsAreAuthorized(Step(h, events[0]), events[1..]);
    }
  }

  /** A fresh manager keeps the rule along any run. */
  lemma FreshManagerStartsFollowAuthorize(ocppConfigured: bool, events: seq<Event>)
    ensures StartsFollowAuthorize(Run(New(ocppConfigured), events).calls)
  {
    TransactionStartsAreAuthorized(New(ocppConfigured), events);
  }
}
