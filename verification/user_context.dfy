/**
  The user context of hooks/useUser.tsx: the subscription and profile shape
  checks, the two steps of the provider's effect (starting a fetch cycle or
  clearing on sign-out, and reconciling the `Promise.allSettled` pair), the
  published context value, and the `useUser` accessor.
*/
module UserContext {
  import opened Wrappers
  import opened JsValues

  /**
    The user object the auth helpers report. React compares effect dependencies
    with `Object.is`, so two user objects with the same id are still different
    dependencies; `instance` stands for the object's identity, and the helpers
    hand over a fresh one whenever they replace the session (a token refresh, say).
  */
  datatype User = User(id: string, instance: nat)

  /** The auth session; only its access token is read. */
  datatype Session = Session(accessToken: string)

  /** The provider's own React state: the three `useState` slots. */
  datatype State = State(userDetails: Json, subscription: Json, isLoadingData: bool)

  /** The state before any effect has run: both records null, not loading. */
  const InitialState := State(Null, Null, false)

  /** The keys a subscription record must carry, each holding a string. */
  const SubscriptionFields: set<string> :=
    {"id", "user_id", "created", "current_period_start", "current_period_end"}

  /** The keys a profile record must carry (their types are not checked). */
  const UserDetailsFields: set<string> := {"id", "first_name", "last_name"}

  /** `k in data && typeof data[k] === 'string'` for an object `data`. */
  predicate HasStringMember(data: Json, k: string)
    requires IsObject(data)
  {
    KeyIn(k, data) == Success(true) && TypeOf(Member(data, k)) == "string"
  }

  /**
    The `isSubscription` guard, written as the source's chain of JavaScript tests.
    It holds exactly of an object whose five subscription fields are all present
    and hold strings.
  */
  function IsSubscription(data: Json): (r: bool)
    ensures r <==> data.Obj? && forall k | k in SubscriptionFields :: k in data.fields && data.fields[k].Str?
  {
    TruthyObjectIsObject(data);
    && Truthy(data)
    && TypeOf(data) == "object"
    && HasStringMember(data, "id")
    && HasStringMember(data, "user_id")
    && HasStringMember(data, "created")
    && HasStringMember(data, "current_period_start")
    && HasStringMember(data, "current_period_end")
  }

  /**
    The profile check of the settle callback: a truthy object having the keys
    `id`, `first_name` and `last_name`, whatever they hold.
  */
  function IsUserDetails(data: Json): (r: bool)
    ensures r <==> data.Obj? && UserDetailsFields <= data.fields.Keys
  {
    TruthyObjectIsObject(data);
    && Truthy(data)
    && TypeOf(data) == "object"
    && KeyIn("id", data) == Success(true)
    && KeyIn("first_name", data) == Success(true)
    && KeyIn("last_name", data) == Success(true)
  }

  /** A value a slot can hold after any step: null or an accepted record. */
  predicate SlotValue(v: Json) {
    v.Null? || v.Obj?
  }

  predicate WellFormed(s: State) {
    SlotValue(s.userDetails) && SlotValue(s.subscription)
  }

  /** One entry of the array `Promise.allSettled` resolves with. */
  datatype Settlement = Fulfilled(value: Json) | Rejected(reason: Json)

  /** The two slots the settle callback reconciles. */
  datatype Slot = ProfileSlot | SubscriptionSlot

  /** The shape check that guards each slot. */
  function Accepts(slot: Slot, data: Json): (r: bool)
    ensures r ==> data.Obj?
  {
    match slot
    case ProfileSlot => IsUserDetails(data)
    case SubscriptionSlot => IsSubscription(data)
  }

  /**
    Whether the guard `o.status === "fulfilled" && o.value && 'data' in o.value`
    raises: the value is truthy but not an object, so `in` throws a TypeError.
  */
  predicate Raises(o: Settlement) {
    o.Fulfilled? && Truthy(o.value) && !IsObject(o.value)
  }

  /** A fulfilled outcome whose response object has a `data` key. */
  predicate CarriesData(o: Settlement) {
    o.Fulfilled? && o.value.Obj? && "data" in o.value.fields
  }

  function DataOf(o: Settlement): Json
    requires CarriesData(o)
  {
    o.value.fields["data"]
  }

  /**
    One reconciliation block of the settle callback: the new value of `slot`,
    given its current value and the outcome of its fetch, or the TypeError the
    guard raises.
  */
  function SlotUpdate(slot: Slot, current: Json, o: Settlement): (r: Result<Json, JsError>)
    ensures r.Failure? <==> Raises(o)
    ensures o.Rejected? ==> r == Success(current)
    ensures o.Fulfilled? && !Truthy(o.value) ==> r == Success(current)
    ensures o.Fulfilled? && IsObject(o.value) && !CarriesData(o) ==> r == Success(current)
    ensures CarriesData(o) && Accepts(slot, DataOf(o)) ==> r == Success(DataOf(o))
    ensures CarriesData(o) && !Accepts(slot, DataOf(o)) ==> r == Success(Null)
    ensures r.Success? && SlotValue(current) ==> SlotValue(r.value)
  {
    if o.Fulfilled? && Truthy(o.value) then
      match KeyIn("data", o.value)
      case Failure(e) => Failure(e)
      case Success(present) =>
        if present then
          var data := Member(o.value, "data");
          Success(if Accepts(slot, data) then data else Null)
        else
          Success(current)
    else
      Success(current)
  }

  /**
    How the `.then` callback ended. `Aborted` means a guard raised: the slot
    updates issued before the throw still take effect, but `setIsLoadingData(false)`
    is never reached.
  */
  datatype Callback = Completed(state: State) | Aborted(state: State)

  /**
    The `.then` callback of `Promise.allSettled([getUserDetails(), getSubscription()])`.
    The pair arrives in array order whatever order the fetches settled in.
  */
  function SettleStep(s: State, profile: Settlement, subscription: Settlement): (r: Callback)
    ensures r.Completed? <==> !Raises(profile) && !Raises(subscription)
    ensures r.Completed? ==> !r.state.isLoadingData
    ensures r.Aborted? ==> r.state.isLoadingData == s.isLoadingData
    ensures Raises(profile) ==> r.state == s
    ensures !Raises(profile) ==> r.state.userDetails == SlotUpdate(ProfileSlot, s.userDetails, profile).value
    ensures !Raises(profile) && !Raises(subscription) ==>
      r.state.subscription == SlotUpdate(SubscriptionSlot, s.subscription, subscription).value
    ensures Raises(subscription) ==> r.state.subscription == s.subscription
    ensures WellFormed(s) ==> WellFormed(r.state)
  {
    match SlotUpdate(ProfileSlot, s.userDetails, profile)
    case Failure(_) => Aborted(s)
    case Success(details) =>
      match SlotUpdate(SubscriptionSlot, s.subscription, subscription)
      case Failure(_) => Aborted(s.(userDetails := details))
      case Success(sub) => Completed(State(details, sub, false))
  }

  /** What one run of the effect decided, and whether it issued the two fetches. */
  datatype Effect = Effect(next: State, fetchIssued: bool)

  /**
    The body of the provider's `useEffect`: start a fetch cycle when a user is
    present, nothing is loading and both records are empty; clear both records
    when there is no user and neither auth nor data is loading; otherwise do nothing.
  */
  function EffectStep(s: State, user: Option<User>, isLoadingUser: bool): (r: Effect)
    ensures r.fetchIssued <==> user.Some? && !s.isLoadingData && !Truthy(s.userDetails) && !Truthy(s.subscription)
    ensures WellFormed(s) ==>
      (r.fetchIssued <==> user.Some? && !s.isLoadingData && s.userDetails == Null && s.subscription == Null)
    ensures r.fetchIssued ==> r.next == s.(isLoadingData := true)
    ensures !r.fetchIssued ==> r.next.isLoadingData == s.isLoadingData
    ensures user.Some? && !r.fetchIssued ==> r.next == s
    ensures user.None? && !isLoadingUser && !s.isLoadingData ==> r.next == State(Null, Null, false)
    ensures user.None? && (isLoadingUser || s.isLoadingData) ==> r.next == s
    ensures WellFormed(s) ==> WellFormed(r.next)
  {
    if user.Some? && !s.isLoadingData && !Truthy(s.userDetails) && !Truthy(s.subscription) then
      Effect(s.(isLoadingData := true), true)
    else if user.None? && !isLoadingUser && !s.isLoadingData then
      Effect(s.(userDetails := Null, subscription := Null), false)
    else
      Effect(s, false)
  }

  /** The value the provider publishes through the context. */
  datatype SessionView = SessionView(
    accessToken: Option<string>,
    user: Option<User>,
    userDetails: Json,
    isLoading: bool,
    subscription: Json)

  /** `session?.access_token ?? null`. */
  function AccessToken(session: Option<Session>): (t: Option<string>)
    ensures t.Some? <==> session.Some?
    ensures t.Some? ==> t.value == session.value.accessToken
  {
    match session
    case None => None
    case Some(sn) => Some(sn.accessToken)
  }

  /**
    The context value: the records from the provider's state, the user and token
    from the auth helpers, and a single loading flag that is up while either auth
    or the data cycle is still loading.
  */
  function Publish(s: State, session: Option<Session>, user: Option<User>, isLoadingUser: bool): (v: SessionView)
    ensures v.isLoading <==> isLoadingUser || s.isLoadingData
    ensures v.accessToken.Some? <==> session.Some?
    ensures session.Some? ==> v.accessToken == Some(session.value.accessToken)
    ensures v.user == user
    ensures v.userDetails == s.userDetails && v.subscription == s.subscription
  {
    SessionView(AccessToken(session), user, s.userDetails, isLoadingUser || s.isLoadingData, s.subscription)
  }

  const MissingProviderMessage := "useUser must be used within a MyUserContextProvider"

  /**
    `useUser`: read the context, failing when no provider is above the caller
    (the context is still its default, `undefined`).
  */
  function UseUser(context: Option<SessionView>): (r: Result<SessionView, string>)
    ensures r.Failure? <==> context.None?
    ensures r.Failure? ==> r.error == MissingProviderMessage
    ensures context.Some? ==> r == Success(context.value)
  {
    match context
    case None => Failure(MissingProviderMessage)
    case Some(v) => Success(v)
  }

  // Properties of the shape checks.

  /** A payload lacking `current_period_end` is not a subscription. */
  lemma RejectsMissingPeriodEnd(fields: map<string, Json>)
    requires "current_period_end" !in fields
    ensures !IsSubscription(Obj(fields))
  {
  }

  /** A payload holding a non-string in any of the five fields is not a subscription. */
  lemma RejectsNonStringField(fields: map<string, Json>, k: string, v: Json)
    requires k in SubscriptionFields && !v.Str?
    ensures !IsSubscription(Obj(fields[k := v]))
  {
  }

  /** Null, primitives and arrays are never subscriptions. */
  lemma RejectsNonObjectSubscription(data: Json)
    requires !data.Obj?
    ensures !IsSubscription(data)
  {
  }

  /** Null, primitives and arrays never pass the profile check. */
  lemma RejectsNonObjectProfile(data: Json)
    requires !data.Obj?
    ensures !IsUserDetails(data)
  {
  }

  /** Adding extra keys (such as the joined `prices`) never changes the verdict. */
  lemma SubscriptionIgnoresExtraKeys(fields: map<string, Json>, k: string, v: Json)
    requires k !in SubscriptionFields
    ensures IsSubscription(Obj(fields[k := v])) == IsSubscription(Obj(fields))
  {
  }

  // Properties of the settle step.

  /** The profile slot never depends on the subscription outcome. */
  lemma ProfileIndependentOfSubscription(s: State, profile: Settlement, sub1: Settlement, sub2: Settlement)
    ensures SettleStep(s, profile, sub1).state.userDetails == SettleStep(s, profile, sub2).state.userDetails
  {
  }

  /**
    The subscription slot depends on the profile outcome only through a raise in
    the profile guard, which aborts the callback before the subscription is reached.
  */
  lemma SubscriptionIndependentOfProfile(s: State, p1: Settlement, p2: Settlement, sub: Settlement)
    requires !Raises(p1) && !Raises(p2)
    ensures SettleStep(s, p1, sub).state.subscription == SettleStep(s, p2, sub).state.subscription
  {
  }

  /** Loading drops for every combination of fulfilled and rejected response objects. */
  lemma SettleEndsLoading(s: State, profile: Settlement, subscription: Settlement)
    requires profile.Rejected? || IsObject(profile.value) || !Truthy(profile.value)
    requires subscription.Rejected? || IsObject(subscription.value) || !Truthy(subscription.value)
    ensures SettleStep(s, profile, subscription).Completed?
    ensures !SettleStep(s, profile, subscription).state.isLoadingData
  {
  }
}
