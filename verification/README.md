# User context aggregator — Dafny model

This project models the user context of a Next.js music app (`hooks/useUser.tsx`).
The `MyUserContextProvider` component watches the Supabase auth session. When a
user appears, it fetches that user's profile row (`users`) and active
subscription row (`subscriptions`) together with `Promise.allSettled`. It then
reconciles the two outcomes into its state and publishes
`{ accessToken, user, userDetails, isLoading, subscription }` through a React
context. `useUser` reads that context.

The model has four modules:

- `Wrappers` (`wrappers.dfy`): `Option` and `Result`.
- `JsValues` (`js_values.dfy`): the JSON-shaped values the hook inspects. It also
  defines the three JavaScript operators the hook applies to them: truthiness,
  `typeof`, and `in`. `in` raises a `TypeError` on anything that is not an object.
- `UserContext` (`user_context.dfy`): the hook file's logic as pure functions.
  - `IsSubscription` is the subscription shape guard.
  - `IsUserDetails` is the inline profile check.
  - `SlotUpdate` is one reconciliation block.
  - `SettleStep` is the `.then` callback of `allSettled`.
  - `EffectStep` is the `useEffect` body.
  - `Publish` computes the context value, and `UseUser` reads it.
- `Lifecycle` (`lifecycle.dfy`): React scheduling as explicit events.
  - `Render` delivers the current auth signal. It re-runs the effect only when
    the dependency array `[user, isLoadingUser]` changed.
  - `Settle` delivers the `allSettled` pair of a cycle that is in flight.
  - `Inv` is the invariant of every reachable provider: at most one cycle is in
    flight, and while one is, data is loading and both records are null.

The two outcomes reach the callback in array order (profile, subscription),
whatever order the fetches settled in. So the model takes them as one ordered
pair, and the settle order plays no part.

## Behaviour the model follows from the code

- There is no identity guard. A cycle that settles after sign-out is still
  applied. The sign-out branch was skipped while data was loading, and a
  loading change alone does not re-run the effect
  (`Lifecycle.LateResultsAppliedAfterSignOut`).
- A rejected fetch, or a response without a `data` key, leaves its slot as it
  was. Because a cycle only starts when both slots are null, such a slot ends
  the cycle as null (`Lifecycle.PartialFailure`).
- A fetch starts only when both records are empty. So switching directly to
  another account keeps the previous account's records
  (`Lifecycle.NoRefetchWhileRecordHeld`).
- React compares the dependencies `[user, isLoadingUser]` by object identity. So
  after a cycle that left both records null, a fresh user object with the same
  id (as handed over on a token refresh) starts another cycle
  (`Lifecycle.FreshUserObjectRefetchesAfterEmptyCycle`). `User.instance` stands for
  that identity.
- The profile check requires the keys `id`, `first_name` and `last_name`. A
  record with only `id` and `first_name` publishes a null profile
  (`Lifecycle.ProfileWithoutLastNameIsDropped`).
- If a fetch fulfils with a truthy value that is not an object, the
  `'data' in value` guard throws. The slot updates issued before the throw still
  take effect, but `isLoadingData` is never lowered, and no later event lowers
  it or starts another cycle (`Lifecycle.AbortedCycleNeverRecovers`). The Supabase
  client always resolves with a response object, so `SettleEndsLoading` and
  `SettleEndsCycle` assume outcomes of that kind.

## Model

| member | source | states |
|---|---|---|
| `UserContext.IsSubscription` | hooks/useUser.tsx:21-36 | the guard holds exactly when the value is an object whose `id`, `user_id`, `created`, `current_period_start` and `current_period_end` are all present and strings |
| `UserContext.RejectsMissingPeriodEnd` | hooks/useUser.tsx:33-34 | a payload without `current_period_end` is not a subscription |
| `UserContext.RejectsNonStringField` | hooks/useUser.tsx:25-34 | a non-string in any one of the five fields makes the payload fail the guard |
| `UserContext.RejectsNonObjectSubscription` | hooks/useUser.tsx:23-24 | null, primitives and arrays fail the subscription guard |
| `UserContext.RejectsNonObjectProfile` | hooks/useUser.tsx:64 | null, primitives and arrays fail the profile check |
| `UserContext.SubscriptionIgnoresExtraKeys` | hooks/useUser.tsx:21-36 | keys other than the five, such as the joined `prices`, never change the verdict |
| `UserContext.IsUserDetails` | hooks/useUser.tsx:64 | the profile check holds exactly when the data is an object having the keys `id`, `first_name` and `last_name`, whatever their values |
| `JsValues.KeyIn` | hooks/useUser.tsx:60 | `k in v` raises exactly when `v` is not a non-null object, and answers true exactly for an object owning the key |
| `UserContext.Accepts` | hooks/useUser.tsx:64-78 | a slot accepts only objects: the profile check for the profile slot, the subscription guard for the subscription slot |
| `UserContext.SlotUpdate` | hooks/useUser.tsx:60-86 | an accepted record replaces the slot, other data nulls it, a rejection or a response without `data` leaves it unchanged, a truthy non-object value raises, and a null-or-record slot stays null-or-record |
| `UserContext.SettleStep` | hooks/useUser.tsx:55-89 | the callback completes exactly when neither guard raises, and then loading is off; each slot takes its own reconciled value; a raise in the profile guard changes nothing; a raise in the subscription guard keeps the subscription and the loading flag |
| `UserContext.ProfileIndependentOfSubscription` | hooks/useUser.tsx:60-72 | the profile slot after settling never depends on the subscription outcome |
| `UserContext.SubscriptionIndependentOfProfile` | hooks/useUser.tsx:74-86 | the subscription slot after settling does not depend on the profile outcome unless the profile guard raises |
| `UserContext.SettleEndsLoading` | hooks/useUser.tsx:55-88 | for every combination of rejected outcomes and fulfilled object or falsy responses, the callback completes and loading drops |
| `UserContext.EffectStep` | hooks/useUser.tsx:51-94 | a fetch is issued exactly when a user is present, data is not loading and both records are falsy, and starting only raises the loading flag; with a user present and no fetch, nothing changes; with no user and nothing loading, both records are cleared; otherwise nothing changes |
| `UserContext.AccessToken` | hooks/useUser.tsx:42 | the token is present exactly when a session is, and is then the session's access token |
| `UserContext.Publish` | hooks/useUser.tsx:97-103 | the published loading flag is the disjunction of auth loading and data loading; the records and user pass through unchanged |
| `UserContext.UseUser` | hooks/useUser.tsx:108-114 | reading the context fails, with the source's message, exactly when no provider value is present, and otherwise returns the value unchanged |
| `Lifecycle.Step` | hooks/useUser.tsx:51-95 | every event preserves the invariant; a fetch is counted only on a render whose dependencies changed, and never while a cycle is in flight |
| `Lifecycle.Run` | hooks/useUser.tsx:51-95 | any sequence of events preserves the invariant and issues at most one cycle per event |
| `Lifecycle.Mount` | hooks/useUser.tsx:43-53 | the first render satisfies the invariant and issues one cycle exactly when a user is present |
| `Lifecycle.ReachableInv` | hooks/useUser.tsx:51-95 | every provider reachable from a mount satisfies the invariant |
| `Lifecycle.RenderIdempotent` | hooks/useUser.tsx:95 | re-delivering the same auth signal changes nothing |
| `Lifecycle.NoRefetchWhileRecordHeld` | hooks/useUser.tsx:52 | while either record is held, no render issues a fetch, and only a signed-out render can change the state |
| `Lifecycle.NoTornReads` | hooks/useUser.tsx:53 | while a cycle is in flight, the published view reports loading |
| `Lifecycle.SettleEndsCycle` | hooks/useUser.tsx:88 | settling object responses ends the cycle, and the view's loading flag falls back to the auth flag |
| `Lifecycle.PartialFailure` | hooks/useUser.tsx:70-79 | a rejected profile fetch next to a valid subscription yields a null profile, the subscription record, and loading off |
| `Lifecycle.SignOutClears` | hooks/useUser.tsx:91-95 | a signed-out render whose dependencies changed, with nothing loading, clears both records; with no session the view is then entirely empty |
| `Lifecycle.UnchangedDepsClearNothing` | hooks/useUser.tsx:95 | a render whose dependencies did not change leaves the state and fetch count as they were, so a repeated signed-out signal clears no stale record |
| `Lifecycle.AbortedCycleNeverRecovers` | hooks/useUser.tsx:52-91 | after a callback raised, no sequence of events lowers the loading flag or issues another fetch |
| `Lifecycle.SignInFetchesOnce` | hooks/useUser.tsx:51-95 | for every signed-in signal and every outcome pair that does not raise, signing in, settling and re-rendering twice with the same signal issues exactly one cycle |
| `Lifecycle.SignInFetchesOnceWitness` | hooks/useUser.tsx:51-95 | one such run publishes both records with loading off |
| `Lifecycle.LateResultsAppliedAfterSignOut` | hooks/useUser.tsx:91-95 | for every provider with a cycle in flight, every signed-out signal and every outcome pair, the late settle writes exactly what it would have written had the user stayed signed in, while the view shows no user |
| `Lifecycle.LateResultsAppliedAfterSignOutWitness` | hooks/useUser.tsx:91-95 | in one such run the signed-out view keeps the late records after a further identical render |
| `Lifecycle.FreshUserObjectRefetchesAfterEmptyCycle` | hooks/useUser.tsx:52-95 | after a cycle that left both records null, a render with a different user object, even one with the same id, starts a new cycle |
| `Lifecycle.TokenRefreshRefetchesAfterEmptyCycle` | hooks/useUser.tsx:41-95 | in one scenario, a token refresh that hands over a new user object after an empty cycle issues a second fetch (the general rule is `FreshUserObjectRefetchesAfterEmptyCycle`) |
| `Lifecycle.ProfileWithoutLastNameIsDropped` | hooks/useUser.tsx:60-68 | for every provider with a cycle in flight, a profile response whose data lacks `last_name` leaves the profile null, whatever the subscription outcome |
| `Lifecycle.ProfileWithoutLastNameIsDroppedWitness` | hooks/useUser.tsx:64-68 | in one scenario, an `{id, first_name}` profile next to a subscription query with no row publishes neither record |

## Left out

- `components/Header.tsx` is not part of this model: it renders UI and calls router and auth-modal callbacks.
- The two Supabase queries (`hooks/useUser.tsx:47-49`) are remote calls. Their results enter the model only as `Settlement` values.
- React plumbing is not modelled: `createContext`, `useState`, the Provider JSX, and when React schedules renders. The state is an explicit record, and an effect run is a `Render` event.
- Promise concurrency is not modelled. A cycle's two outcomes arrive together in one `Settle` event.
- The `console.error` diagnostics are not modelled. They only log and do not change state.
- `JsValues.KeyIn` answers false for arrays and sees only an object's own keys. Arrays own only `length` and index keys, and none of the keys the hook asks about is inherited from `Object.prototype`, so no answer the hook depends on changes.
- Numbers are reals without NaN, because JSON has no NaN.
- No epoch guard, fetch timeout or invalidation hook is modelled. The code has none, and the model shows their absence instead (see above).
- UserContext.SettleEndsLoading: covers only rejections and response objects or falsy values. For a truthy non-object value the source's own guard throws, and loading stays up (`Lifecycle.AbortedCycleNeverRecovers`).
