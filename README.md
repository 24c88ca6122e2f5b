# API health monitor: key store, session state and alert selection in Dafny

This project models the three pieces of the API health dashboard that hold logic:

- **The API service layer** (`api_service.dfy`, module `ApiService`).
  - Provider API keys live in one map. It is stored as JSON text under the browser storage slot `pulseapi_api_keys`.
  - `getStoredKeys` reads the map. It falls back to the empty map when the slot is absent, empty or unparsable.
  - `storeApiKey` and `removeApiKey` each read the map, change one entry and write the map back.
  - `isProviderConnected` asks whether a provider has a truthy key.
  - `getProvidersData` copies the fixture provider list. When a truthy OpenAI key is stored and the usage request resolves to a truthy value, it marks the first `openai` provider with `_source: 'live'`.
  - The `get*` getters hand out the fixture data unchanged; the model reads the `MockData` fields directly.
- **The authentication provider** (`auth_context.dfy`, module `Auth`).
  - It holds the persisted user slot `pulseapi_user`, the current user and the `loading` flag.
  - These change through the mount effect, `signUp`, `signIn`, `signOut` and `updateUser`.
  - The derived fields `name` and `initials` come from the email and the typed name.
- **The Alerts page** (`alerts.dfy`, module `Alerts`).
  - The severity filter has an `'all'` tab.
  - The page shows the Unresolved, Critical, Warnings and Active Rules counts.
  - It offers the Acknowledge/Dismiss actions.
  - The same unresolved rule drives the dashboard's "recent alerts" panel.
- **The sidebar** (`layout.dfy`, module `Layout`).
  - Its mount effect tries to fill the alert list from `getAlerts()` and throws, because `getAlerts()` returns an array rather than a promise. With no error boundary above the layout, the whole screen goes blank after the first paint. The badge counts the unresolved alerts of the list it holds and is drawn only when that count is positive.

`json.dfy` holds the shared pieces:
- an `Option` type;
- JSON values;
- JavaScript truthiness;
- the `Codec`, which stands for `JSON.parse`/`JSON.stringify`.

The browser's JSON is not implemented. It is a parameter. The ghost predicate `Sound` states the three facts the code relies on:
- `{}` is what the empty object is written as;
- no object is written as the empty string;
- parsing what was written gives the object back.

JSON numbers are integers, so every value is built from integers, characters, finite sequences and finite maps. Distinct objects can therefore be written as distinct texts, and codecs with these three properties exist.

Storage slots are `Option<string>` values (`None` means the slot is absent). Inputs from outside are method parameters:
- the OpenAI usage request's outcome, as `Option<Json>`, where `None` is the `null` returned on a non-ok response or a thrown error;
- `crypto.randomUUID()`;
- `new Date().toISOString()`.

Storage methods are stated against value-level functions such as `GetStoredKeys`, `SlotAfterStore` and `SlotAfterRemove`. The properties are lemmas about those functions. The session methods carry the class invariant `AuthProvider.Valid`. It says that a current user is always the one the slot describes. Once the mount effect has run, it also says that the slot is readable and mirrors the current user exactly. As a consequence, `signIn` never fails after mounting.

## Model

| member | source | states |
|---|---|---|
| `Alerts.Filter` | src/pages/Alerts.jsx:20 | `xs.filter(keep)` keeps only elements that satisfy `keep`, keeps every such element, and is never longer than the input |
| `Alerts.FilterAppend` | src/pages/Alerts.jsx:20 | filtering a concatenation is the concatenation of the filtered parts, so kept elements stay in their original order |
| `Alerts.FilterMultiplicity` | src/pages/Alerts.jsx:20 | each element occurs in the filtered list as often as in the input when it is kept, and never otherwise |
| `Alerts.FilterLengthCountsIndices` | src/pages/Alerts.jsx:22 | the length of a filtered list equals the number of input positions whose element satisfies the predicate |
| `Alerts.DisjointFiltersFit` | src/pages/Alerts.jsx:49-56 | two filters that no element satisfies together select at most as many elements as the input has |
| `Alerts.FilterOfFilterFits` | src/pages/Alerts.jsx:98-121 | filtering a sub-selection never finds more elements than filtering the whole list |
| `Alerts.FilteredAlerts` | src/pages/Alerts.jsx:18-20 | the `'all'` tab shows the whole alert list; any other tab shows exactly the alerts of that severity; the result is never longer than the list |
| `Alerts.SeverityTabExact` | src/pages/Alerts.jsx:20 | a severity tab keeps each alert of that severity with its full multiplicity, drops all others, and keeps the list order across concatenation |
| `Alerts.SeverityTabsDisjoint` | src/pages/Alerts.jsx:20 | two different severity tabs share no alert, and their lengths add up to at most the list length |
| `Alerts.UnresolvedCount` | src/pages/Alerts.jsx:22 | the Unresolved card equals the number of positions holding an unacknowledged alert |
| `Alerts.SeverityCount` | src/pages/Alerts.jsx:49-56 | a severity card equals the number of positions holding an alert of that severity |
| `Alerts.CriticalCount` | src/pages/Alerts.jsx:49 | the Critical Alerts card equals the number of critical alerts |
| `Alerts.WarningCount` | src/pages/Alerts.jsx:56 | the Warnings card equals the number of warning alerts |
| `Alerts.CriticalAndWarningsFit` | src/pages/Alerts.jsx:49-56 | the Critical and Warnings counts add up to at most the number of alerts |
| `Alerts.ActiveRulesCount` | src/pages/Alerts.jsx:70 | the Active Rules card equals the number of rules whose `enabled` is true, and is at most the number of rules |
| `Alerts.ActionsMatchUnresolved` | src/pages/Alerts.jsx:121-130 | Acknowledge/Dismiss appear only on unacknowledged alerts; under any tab there are at most as many as the Unresolved count, and under `'all'` exactly as many |
| `Alerts.RecentAlerts` | src/pages/Dashboard.jsx:73 | the dashboard panel is a prefix of the unresolved alerts, of length min(4, unresolved count), and every alert in it is unacknowledged |
| `ApiService.GetStoredKeys` | src/services/apiService.js:20-25 | the keys read are either the empty map or the map the slot text (`'{}'` for an absent or empty slot) parses to, and always the empty map when parsing throws; with the browser's JSON an absent or empty slot reads as the empty map (the exact cases are `ApiService.GetStoredKeysCases`) |
| `ApiService.GetStoredKeysCases` | src/services/apiService.js:20-25 | an absent or empty slot and an unparsable slot read as the empty map; a parsable slot reads as its parsed map; a written map reads back unchanged |
| `ApiService.SlotAfterStore` | src/services/apiService.js:31-35 | `storeApiKey` always writes the slot, never as empty text, and the map read back is the old map with `provider` set to `key` |
| `ApiService.SlotAfterRemove` | src/services/apiService.js:40-44 | `removeApiKey` always writes the slot, never as empty text, and the map read back is the old map without `provider` |
| `ApiService.StoreApiKeyFrame` | src/services/apiService.js:31-35 | after `storeApiKey(p, k)` the map sends `p` to `k` and every other provider's entry, or its absence, is unchanged |
| `ApiService.RemoveApiKeyFrame` | src/services/apiService.js:40-44 | after `removeApiKey(p)` the map has no `p` and every other provider's entry is unchanged; removing an absent provider leaves the map as it was |
| `ApiService.RemoveApiKeyIdempotent` | src/services/apiService.js:40-44 | removing the same provider twice writes the same slot as removing it once |
| `ApiService.StoreThenRemoveRestores` | src/services/apiService.js:31-44 | storing then removing a key gives the original map without that provider, and gives the original map itself when the provider had no key |
| `ApiService.IsProviderConnected` | src/services/apiService.js:49-52 | corrected reading: a connected provider has an own stored entry that is not the empty string; with the slot absent or empty no provider is connected |
| `ApiService.IsProviderConnectedAsWritten` | src/services/apiService.js:49-52 | `!!keys[providerId]` holds whenever the corrected test does; it holds beyond it exactly for names with no own entry that are inherited Object.prototype members, and for all of those |
| `ApiService.ConnectedRoundTrip` | src/services/apiService.js:31-52 | after storing a key a provider is connected exactly when the key is non-empty; after removing it, it is not connected; storing or removing another provider's key does not change its status |
| `ApiService.AsWrittenInheritedMembersConnect` | src/services/apiService.js:49-52 | as written, `isProviderConnected('constructor')` is true with nothing stored, and `'toString'` stays connected after its key is removed |
| `ApiService.WithLiveSource` | src/services/apiService.js:100-104 | the merged provider keeps every original field, gains `_source` and sets it to `'live'` |
| `ApiService.FindIndexById` | src/services/apiService.js:98 | `findIndex` returns the first position whose provider has the id, or -1 exactly when no provider has it |
| `ApiService.MarkFirstLive` | src/services/apiService.js:98-105 | the merged list has the original length, and equals the original when no provider has the id |
| `ApiService.MarkFirstLiveAt` | src/services/apiService.js:98-105 | marking replaces exactly the first provider with the id, and nothing else |
| `ApiService.MarkFirstLiveFrame` | src/services/apiService.js:89-110 | the merged list has the fixture list's length and order; providers without the id are unchanged; the only entry that can differ is the first with the id, and it differs only by gaining `_source: 'live'` |
| `ApiService.LiveUsage` | src/services/apiService.js:94-96 | live data is merged exactly when `!!keys.openai` holds and the usage outcome is truthy; with nothing stored it is never merged |
| `ApiService.ApiKeyStore.constructor` | src/services/apiService.js:15 | the store starts with the given slot content and a sound codec |
| `ApiService.ApiKeyStore.StoreApiKey` | src/services/apiService.js:31-35 | the slot becomes the JSON of the old map with `provider` set to `key`, so the stored map is the old one updated at `provider` |
| `ApiService.ApiKeyStore.RemoveApiKey` | src/services/apiService.js:40-44 | the slot becomes the JSON of the old map without `provider`, so the stored map is the old one minus `provider` |
| `ApiService.ApiKeyStore.GetProvidersData` | src/services/apiService.js:89-110 | the result is the fixture list, with the first `openai` provider marked live exactly when a truthy OpenAI key is stored and the usage result is truthy; same length; non-`openai` entries unchanged; changed entries only gain `_source: 'live'` |
| `Auth.LocalPart` | src/context/AuthContext.jsx:29 | `email.split('@')[0]` is a prefix of the email without '@', followed in the email by '@' or by nothing |
| `Auth.DisplayName` | src/context/AuthContext.jsx:29 | a non-empty name is kept; an empty name gives the prefix of the email up to its first '@', or the whole email when it has none |
| `Auth.ToUpperCase` | src/context/AuthContext.jsx:30 | upper-casing keeps the length and maps each character through the ASCII upper-case mapping |
| `Auth.Initials` | src/context/AuthContext.jsx:30 | initials are the first two characters, or fewer, of the name, or of the whole email when the name is empty, upper-cased, with no ASCII lower-case letter left |
| `Auth.NewUser` | src/context/AuthContext.jsx:24-33 | the new user has exactly the fields id, email, name, initials, plan and createdAt; name is the given name or else the email's local part; plan is `'free'` |
| `Auth.SignInInitials` | src/context/AuthContext.jsx:29-50 | a user created by `signIn` gets the same initials as `signUp` with an empty name exactly when the local part is empty, has at least two characters, or is the whole email |
| `Auth.NewUserMatchesOwnEmail` | src/context/AuthContext.jsx:26-44 | a user built by `signUp` passes `existingUser.email === email` exactly for its own email |
| `Auth.StoredUser` | src/context/AuthContext.jsx:13-16 | an absent or empty slot describes no user; a user described by the slot is what JSON.parse gives for its text |
| `Auth.Readable` | src/context/AuthContext.jsx:41-43 | `JSON.parse(stored)` does not throw where `if (stored)` lets it run exactly when the slot is absent, empty, or describes a user |
| `Auth.WrittenUserReadsBack` | src/context/AuthContext.jsx:34-35 | a user written to the slot is the user the slot then describes, and the slot is readable |
| `Auth.AuthProvider.constructor` | src/context/AuthContext.jsx:8-9 | on mount there is no current user and `loading` is true |
| `Auth.AuthProvider.Init` | src/context/AuthContext.jsx:11-22 | a parsable stored user becomes current with the slot untouched; an unparsable slot is removed and the user stays null; an absent or empty slot leaves no user; `loading` is false afterwards |
| `Auth.AuthProvider.SignUp` | src/context/AuthContext.jsx:24-37 | the result is `{success: true, user}` with the new user; the slot holds its JSON and it is the current user; `loading` is untouched |
| `Auth.AuthProvider.SignIn` | src/context/AuthContext.jsx:39-51 | a stored user with a matching email is returned and made current without writing the slot; otherwise a sign-up under the email's local part overwrites the slot; the only failure is JSON.parse throwing on an unreadable slot, which cannot happen once mounted; the password plays no part |
| `Auth.AuthProvider.SignOut` | src/context/AuthContext.jsx:53-56 | both the slot and the current user are emptied |
| `Auth.AuthProvider.UpdateUser` | src/context/AuthContext.jsx:58-62 | the new user is `{...user, ...updates}`: fields in `updates` override, every other old field keeps its value, and the slot holds the new user's JSON |
| `Auth.SignInFindsSignedUpUser` | src/context/AuthContext.jsx:39-47 | after mounting and signing up, signing in with the same email returns exactly the signed-up user, whatever the password |
| `Layout.AsWrittenLayoutBlanks` | src/components/Layout/Layout.jsx:32-77 | as written, the first paint's badge count is 0, so no badge is drawn (Layout.jsx:77 hides a zero count) even when the Unresolved card is positive; the effect then throws, and with no error boundary (src/App.jsx:78-86) the screen is blank: no badge and no page |
| `Layout.Badge` | src/components/Layout/Layout.jsx:42 | the badge count equals the number of positions holding an unacknowledged alert |
| `Layout.BadgeMatchesAlertsPage` | src/components/Layout/Layout.jsx:32-77 | as intended, once the effect has run the page is shown; its badge is drawn exactly when some alert is unacknowledged, and then shows the Alerts page's Unresolved count, at most the number of alerts and at least the length of the dashboard's recent panel |
| `Auth.SignOutForgetsAccount` | src/context/AuthContext.jsx:49-56 | after signing up and signing out, signing in with the same email creates a fresh user with the new id, the local part as name and the free plan, distinct from the first when the ids differ |

## Findings

| source | as written | input that shows it | evidently intended | confidence | as-written member | corrected member |
|---|---|---|---|---|---|---|
| src/components/Layout/Layout.jsx:35 | `getAlerts().then(setAlerts)`, but `getAlerts` (src/services/apiService.js:136-138) is synchronous and returns the fixture array, which has no `then` | any mount of the layout, which every protected route renders (src/App.jsx:46-70): the first paint's badge count is 0, so no badge is drawn (Layout.jsx:77 hides a zero count) while the Unresolved card would show 3; then the effect throws a TypeError, and with no error boundary (src/App.jsx:78-86) React unmounts the tree and the screen goes blank, the Alerts page included | the effect delivers the fixture alerts, and the badge shows the same count as the Alerts page's Unresolved card | not executed; follows from the text of the three files | `Layout.AsWrittenLayoutBlanks` (about `Layout.SidebarAsWritten`) | `Layout.BadgeMatchesAlertsPage` (about `Layout.Sidebar`) |
| src/services/apiService.js:49-52 | `!!keys[providerId]` also reads members that every object inherits from Object.prototype, and those are truthy | `isProviderConnected('constructor')` with nothing stored gives true; `removeApiKey('toString')` followed by `isProviderConnected('toString')` gives true | true only when the provider has a stored, non-empty key of its own | not executed; follows from JavaScript property lookup; no provider id in the fixture list is such a name | `ApiService.AsWrittenInheritedMembersConnect` (about `ApiService.IsProviderConnectedAsWritten`) | `ApiService.ConnectedRoundTrip` (about `ApiService.IsProviderConnected`) |

## Left out

- Rendering is not modelled: JSX, styling, charts, hover handlers, tabs as UI state, routing and the page shells (Landing, Settings, AuthPage, Providers). It is display code.
- The cost analytics arithmetic is not modelled. It is floating-point percentages and projections.
- The fixture values are not modelled. Fixtures are opaque `MockData` inputs. Their random jitter, date labels and rounding are not part of the logic.
- The network request inside `fetchOpenAIUsage` is not modelled. Only its outcome is an input, and the API key it sends plays no further part.
- The async order of `getProvidersData` is not modelled. It is one synchronous call with the usage outcome as an input.
- `localStorage` itself is not modelled: each slot is an `Option<string>` value.
- JSON is the `Codec` parameter. A slot text that parses to a value other than an object (`null`, a number, an array) is not modelled, because this code only ever writes objects into the slots.
- The order of keys in an object is not modelled: objects are maps.
- `storeApiKey('__proto__', k)`: in JavaScript the assignment goes to the inherited `__proto__` setter, which ignores a string value, so nothing is stored. The model adds an entry.
- Auth.ToUpperCase: `toUpperCase` is modelled for ASCII letters only. Full Unicode case mapping, which can change the length (`ß` becomes `SS`), is not modelled.
- Auth.Initials: `slice(0, 2)` counts UTF-16 code units, and the model counts characters; upper-casing is ASCII only, as for `Auth.ToUpperCase`.
- The sidebar badge (Layout.jsx:42) and the dashboard's recent panel (Dashboard.jsx:73) use `a?.acknowledged` and would count a `null` entry as unresolved. Modelled alerts are never `null`.
- The Acknowledge and Dismiss buttons have no click handlers in the source, so no alert ever changes state. Only whether they are offered is modelled.
- `useAuth` throwing outside the provider is not modelled. It is context plumbing.
- These files have no per-identity provider table, no demo-account branch and no alert dispatch, so none is modelled. The model follows the code: a local key map and the fixture list.
- `getKPIData`, `getCostTrendData`, `getSpendBreakdown` and `getAlerts` return the fixture exports unchanged. The model uses the `MockData` fields directly, and there is nothing to prove about them.
- `AuthProvider.UpdateUser`: React's state timing is not modelled. In the source, `updateUser` merges into the `user` of the render that created it, and `setUser` takes effect only at the next render. In the model each method runs against the state of the latest render, so a handler that called `signUp` or `signIn` and then `updateUser` in one go would merge into the stale user in the source but into the new one in the model. No shown caller makes two of these calls in one handler.
- JSON numbers are integers (`Json.Num` holds an `int`). Fractional numbers are not modelled. The slots this code writes hold only strings. The fixture providers do have fractional fields (`uptime`, `spend`), but no member reads any provider field other than `id`, and `_source` is added beside the others.
- React's error handling is modelled only by its outcome: an uncaught error in the layout's effect leaves a blank screen. The unmount itself and the console report are not modelled.
- The server functions and the client construction are not modelled. They are HTTP handlers, environment lookups and database calls.
