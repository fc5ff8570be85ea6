/**
  The provider over time. React scheduling is made explicit: a `Render` event
  delivers the auth helpers' current signal and re-runs the effect only when its
  dependency array `[user, isLoadingUser]` changed since the last run; a `Settle`
  event delivers the `Promise.allSettled` pair of a fetch cycle still in flight.
*/
module Lifecycle {
  import opened Wrappers
  import opened JsValues
  import opened UserContext

  /** What `useSessionContext` and the auth `useUser` report on a render. */
  datatype Signal = Signal(session: Option<Session>, user: Option<User>, isLoadingUser: bool)

  /** The effect's dependency array, compared by identity: `User` carries its object's identity. */
  datatype Deps = Deps(user: Option<User>, isLoadingUser: bool)

  /**
    A mounted provider: its state, the latest auth signal, the dependencies of
    the last effect run (None before the first), the number of fetch cycles whose
    callback has not yet run, and the number of cycles issued so far.
  */
  datatype Provider = Provider(state: State, auth: Signal, lastDeps: Option<Deps>, pending: nat, fetches: nat)

  datatype Event = Render(signal: Signal) | Settle(profile: Settlement, subscription: Settlement)

  function DepsOf(sig: Signal): Deps {
    Deps(sig.user, sig.isLoadingUser)
  }

  /**
    The invariant of every reachable provider: slots hold null or a record, at
    most one fetch cycle is in flight, and while it is, data is loading and both
    records are null.
  */
  predicate Inv(p: Provider) {
    && WellFormed(p.state)
    && p.pending <= 1
    && (p.pending == 1 ==> p.state.isLoadingData && p.state.userDetails == Null && p.state.subscription == Null)
  }

  /** The context value this provider publishes. */
  function View(p: Provider): SessionView {
    Publish(p.state, p.auth.session, p.auth.user, p.auth.isLoadingUser)
  }

  /** One event. A settle with no cycle in flight has no callback to run. */
  function Step(p: Provider, e: Event): (r: Provider)
    ensures Inv(p) ==> Inv(r)
    ensures r.fetches == p.fetches || r.fetches == p.fetches + 1
    ensures r.fetches == p.fetches + 1 ==> e.Render? && p.lastDeps != Some(DepsOf(e.signal))
    ensures Inv(p) && p.pending == 1 ==> r.fetches == p.fetches
    ensures e.Render? ==> r.auth == e.signal && r.lastDeps == Some(DepsOf(e.signal))
    ensures e.Settle? ==> r.auth == p.auth && r.lastDeps == p.lastDeps && r.fetches == p.fetches
  {
    match e
    case Render(sig) =>
      if p.lastDeps == Some(DepsOf(sig)) then
        p.(auth := sig)
      else
        var eff := EffectStep(p.state, sig.user, sig.isLoadingUser);
        Provider(eff.next, sig, Some(DepsOf(sig)),
                 if eff.fetchIssued then p.pending + 1 else p.pending,
                 if eff.fetchIssued then p.fetches + 1 else p.fetches)
    case Settle(profile, subscription) =>
      if p.pending == 0 then p
      else p.(state := SettleStep(p.state, profile, subscription).state, pending := p.pending - 1)
  }

  /** A sequence of events, in order. */
  function Run(p: Provider, events: seq<Event>): (r: Provider)
    ensures Inv(p) ==> Inv(r)
    ensures p.fetches <= r.fetches <= p.fetches + |events|
    decreases |events|
  {
    if events == [] then p else Run(Step(p, events[0]), events[1..])
  }

  /** The first render: the state is initial and the effect runs unconditionally. */
  function Mount(sig: Signal): (r: Provider)
    ensures Inv(r)
    ensures r.fetches <= 1
    ensures r.fetches == 1 <==> sig.user.Some?
  {
    Step(Provider(InitialState, sig, None, 0, 0), Render(sig))
  }

  /** Running a non-empty sequence is one step followed by the rest. */
  lemma RunSteps(p: Provider, events: seq<Event>)
    requires events != []
    ensures Run(p, events) == Run(Step(p, events[0]), events[1..])
  {
  }

  /** Running three events is stepping through them one at a time. */
  lemma RunThree(p: Provider, e1: Event, e2: Event, e3: Event)
    ensures Run(p, [e1, e2, e3]) == Step(Step(Step(p, e1), e2), e3)
  {
    RunSteps(p, [e1, e2, e3]);
    assert [e1, e2, e3][1..] == [e2, e3];
    RunSteps(Step(p, e1), [e2, e3]);
    assert [e2, e3][1..] == [e3];
  }

  /** Every provider reachable from a mount satisfies the invariant. */
  lemma ReachableInv(sig: Signal, events: seq<Event>)
    ensures Inv(Run(Mount(sig), events))
  {
  }

  /** Re-delivering the same signal is a no-op: the dependencies did not change. */
  lemma RenderIdempotent(p: Provider, sig: Signal)
    ensures Step(Step(p, Render(sig)), Render(sig)) == Step(p, Render(sig))
  {
  }

  /**
    While either record is held, no render issues a fetch, whatever the signal,
    including a switch to another account without an intermediate sign-out.
  */
  lemma NoRefetchWhileRecordHeld(p: Provider, sig: Signal)
    requires Inv(p)
    requires p.state.userDetails.Obj? || p.state.subscription.Obj?
    ensures Step(p, Render(sig)).fetches == p.fetches
    ensures Step(p, Render(sig)).state == p.state || sig.user.None?
  {
  }

  /** While a cycle is in flight the published view reports loading. */
  lemma NoTornReads(p: Provider)
    requires Inv(p) && p.pending == 1
    ensures View(p).isLoading
  {
  }

  /**
    A settle whose two responses are objects ends the cycle: data loading drops
    and the view's loading flag falls back to the auth flag.
  */
  lemma SettleEndsCycle(p: Provider, profile: Settlement, subscription: Settlement)
    requires Inv(p) && p.pending == 1
    requires profile.Rejected? || IsObject(profile.value)
    requires subscription.Rejected? || IsObject(subscription.value)
    ensures Step(p, Settle(profile, subscription)).pending == 0
    ensures !Step(p, Settle(profile, subscription)).state.isLoadingData
    ensures View(Step(p, Settle(profile, subscription))).isLoading == p.auth.isLoadingUser
  {
  }

  /**
    A failed profile fetch next to a valid subscription: the profile stays null
    (it was null when the cycle started) and the subscription is published.
  */
  lemma PartialFailure(p: Provider, reason: Json, response: map<string, Json>)
    requires Inv(p) && p.pending == 1
    requires "data" in response && IsSubscription(response["data"])
    ensures Step(p, Settle(Rejected(reason), Fulfilled(Obj(response)))).state
         == State(Null, response["data"], false)
  {
  }

  /**
    Sign-out with nothing loading clears both records at once, and the view is
    empty when the session is gone too.
  */
  lemma SignOutClears(p: Provider, sig: Signal)
    requires Inv(p) && !p.state.isLoadingData
    requires sig.user.None? && !sig.isLoadingUser
    requires p.lastDeps != Some(DepsOf(sig))
    ensures Step(p, Render(sig)).state == State(Null, Null, false)
    ensures sig.session.None? ==> View(Step(p, Render(sig))) == SessionView(None, None, Null, false, Null)
  {
  }

  /**
    A signal whose dependencies did not change does not re-run the effect, so
    delivering the same signed-out signal again clears nothing.
  */
  lemma UnchangedDepsClearNothing(p: Provider, sig: Signal)
    requires p.lastDeps == Some(DepsOf(sig))
    ensures Step(p, Render(sig)).state == p.state
    ensures Step(p, Render(sig)).fetches == p.fetches
  {
  }

  /**
    A profile response lacking `last_name` publishes a null profile, whatever
    the subscription outcome.
  */
  lemma ProfileWithoutLastNameIsDropped(p: Provider, fields: map<string, Json>, subscription: Settlement)
    requires Inv(p) && p.pending == 1 && "last_name" !in fields
    ensures Step(p, Settle(Fulfilled(Response(Obj(fields))), subscription)).state.userDetails == Null
  {
  }

  /**
    A callback that raised leaves data loading up for good: no later event
    lowers it or issues another fetch.
  */
  lemma {:induction false} AbortedCycleNeverRecovers(p: Provider, events: seq<Event>)
    requires Inv(p) && p.pending == 0 && p.state.isLoadingData
    ensures Run(p, events).state.isLoadingData
    ensures Run(p, events).fetches == p.fetches
    ensures Run(p, events).pending == 0
    decreases |events|
  {
    if events != [] {
      var q := Step(p, events[0]);
      assert q.state.isLoadingData && q.pending == 0 && q.fetches == p.fetches;
      AbortedCycleNeverRecovers(q, events[1..]);
    }
  }

  /**
    Signing in, settling any pair that does not raise, and re-rendering with the
    same signal issues exactly one fetch cycle.
  */
  lemma SignInFetchesOnce(sig: Signal, profile: Settlement, subscription: Settlement)
    requires sig.user.Some? && !Raises(profile) && !Raises(subscription)
    ensures Run(Mount(sig), [Settle(profile, subscription), Render(sig), Render(sig)]).fetches == 1
  {
    RunThree(Mount(sig), Settle(profile, subscription), Render(sig), Render(sig));
  }

  /**
    There is no identity guard: when the user signs out while a cycle is in
    flight, the sign-out render clears nothing and the late settle is applied
    as if the user were still signed in.
  */
  lemma LateResultsAppliedAfterSignOut(p: Provider, sig: Signal, profile: Settlement, subscription: Settlement)
    requires Inv(p) && p.pending == 1 && sig.user.None?
    ensures Step(Step(p, Render(sig)), Settle(profile, subscription)).state == SettleStep(p.state, profile, subscription).state
    ensures View(Step(Step(p, Render(sig)), Settle(profile, subscription))).user.None?
  {
  }

  /**
    A cycle that leaves both records null does not suppress the next one: a
    render carrying a fresh user object, even for the same user id, re-runs the
    effect and issues a second cycle.
  */
  lemma FreshUserObjectRefetchesAfterEmptyCycle(p: Provider, sig: Signal)
    requires Inv(p) && p.pending == 0 && !p.state.isLoadingData
    requires p.state.userDetails == Null && p.state.subscription == Null
    requires sig.user.Some? && p.lastDeps.Some? && p.lastDeps.value.user != sig.user
    ensures Step(p, Render(sig)).fetches == p.fetches + 1
    ensures Step(p, Render(sig)).state.isLoadingData
  {
  }

  // Scenarios.

  const SignedIn := Signal(Some(Session("t1")), Some(User("u1", 0)), false)
  const SignedOut := Signal(None, None, false)

  /** A complete profile record: the three required keys plus an unchecked extra. */
  const ProfileRecord := Obj(map["id" := Str("u1"), "first_name" := Str("A"), "last_name" := Str("B")])

  const SubscriptionRecord := Obj(map[
    "id" := Str("sub_1"), "user_id" := Str("u1"), "created" := Str("2024-01-01"),
    "current_period_start" := Str("2024-01-01"), "current_period_end" := Str("2024-02-01")])

  /** A data-service response carrying `data`. */
  function Response(data: Json): Json {
    Obj(map["data" := data, "error" := Null])
  }

  /** A witness of `SignInFetchesOnce`: both records are published after one fetch. */
  lemma SignInFetchesOnceWitness()
    ensures var p := Run(Mount(SignedIn),
                         [Settle(Fulfilled(Response(ProfileRecord)), Fulfilled(Response(SubscriptionRecord))),
                          Render(SignedIn), Render(SignedIn)]);
            p.fetches == 1 && View(p) == SessionView(Some("t1"), Some(User("u1", 0)), ProfileRecord, false, SubscriptionRecord)
  {
    var settle := Settle(Fulfilled(Response(ProfileRecord)), Fulfilled(Response(SubscriptionRecord)));
    var p0 := Mount(SignedIn);
    assert p0.state == State(Null, Null, true) && p0.pending == 1 && p0.fetches == 1;
    var p1 := Step(p0, settle);
    assert IsUserDetails(ProfileRecord) && IsSubscription(SubscriptionRecord);
    assert p1.state == State(ProfileRecord, SubscriptionRecord, false);
    var p2 := Step(p1, Render(SignedIn));
    assert p2 == p1;
    RunThree(p0, settle, Render(SignedIn), Render(SignedIn));
    assert Step(p2, Render(SignedIn)) == p1;
  }

  /**
    A witness of `LateResultsAppliedAfterSignOut`: the signed-out view keeps the
    late records until the dependencies change again.
  */
  lemma LateResultsAppliedAfterSignOutWitness()
    ensures var p := Run(Mount(SignedIn),
                         [Render(SignedOut),
                          Settle(Fulfilled(Response(ProfileRecord)), Fulfilled(Response(SubscriptionRecord))),
                          Render(SignedOut)]);
            View(p) == SessionView(None, None, ProfileRecord, false, SubscriptionRecord)
  {
    var settle := Settle(Fulfilled(Response(ProfileRecord)), Fulfilled(Response(SubscriptionRecord)));
    var p0 := Mount(SignedIn);
    assert p0.state == State(Null, Null, true) && p0.pending == 1;
    var p1 := Step(p0, Render(SignedOut));
    assert p1.state == p0.state && p1.pending == 1 && p1.auth == SignedOut;
    var p2 := Step(p1, settle);
    assert IsUserDetails(ProfileRecord) && IsSubscription(SubscriptionRecord);
    assert p2.state == State(ProfileRecord, SubscriptionRecord, false);
    assert Step(p2, Render(SignedOut)) == p2;
    RunThree(p0, Render(SignedOut), settle, Render(SignedOut));
  }

  /**
    A token refresh hands over a new user object with the same id. After a cycle
    that found no profile and no subscription row, that render starts a second cycle.
  */
  lemma TokenRefreshRefetchesAfterEmptyCycle()
    ensures var refreshed := Signal(Some(Session("t2")), Some(User("u1", 1)), false);
            Run(Mount(SignedIn), [Settle(Fulfilled(Response(Null)), Fulfilled(Response(Null))), Render(refreshed)]).fetches == 2
  {
    var refreshed := Signal(Some(Session("t2")), Some(User("u1", 1)), false);
    var settle := Settle(Fulfilled(Response(Null)), Fulfilled(Response(Null)));
    var p0 := Mount(SignedIn);
    var p1 := Step(p0, settle);
    assert p1.state == State(Null, Null, false) && p1.fetches == 1;
    RunSteps(p0, [settle, Render(refreshed)]);
    assert [settle, Render(refreshed)][1..] == [Render(refreshed)];
    RunSteps(p1, [Render(refreshed)]);
  }

  /**
    A profile with only `id` and `first_name`, next to a subscription query that
    found no row (`data` null), publishes neither record: the profile check also
    requires `last_name`.
  */
  lemma ProfileWithoutLastNameIsDroppedWitness()
    ensures var p := Run(Mount(SignedIn),
                         [Settle(Fulfilled(Response(Obj(map["id" := Str("u1"), "first_name" := Str("A")]))),
                                 Fulfilled(Response(Null)))]);
            View(p) == SessionView(Some("t1"), Some(User("u1", 0)), Null, false, Null)
  {
  }
}
