# Session and request layer of the NFT marketplace front end, in Dafny

This project models the client-side core of the marketplace's browser front end. The core has three parts:

- **Session store** (`src/services/auth.ts`). One persisted slot, keyed `'user'` in `localStorage`. `register` and `login` post credentials and save the whole reply when it carries a truthy token. `logout` removes the slot. `getCurrentUser` parses the slot. `getAuthHeader` derives `Authorization: Bearer <token>` from it. The model is the class `AuthService.SessionStore`. Its field `slot` is the stored text, and its constants say whether a window exists and which JSON implementation is used.
- **Admin guard** (`src/components/AdminGuard.tsx`). One mount has two flags, `loading` and `authorized`. One effect reads the session and either authorizes an admin or pushes `'/'` on the router. Rendering is a function of the two flags. The model is the class `AccessGate.AdminGuard`, with `AccessGate.Router` as the navigation primitive.
- **Request client** (`src/lib/api.ts`). `apiClient.request` concatenates the base address and the endpoint, merges headers by object spread, calls fetch once, and classifies the reply by `response.ok`. It builds the error message from the body's `message`, or else from the status line, and rethrows every error unchanged. `get`, `post`, `put` and `delete` are shorthands over it. The model is the module `ApiClient`.

The models rest on two supporting modules. `JsValues` gives the JavaScript semantics the code relies on: JSON values, property reads (reading a property of `null` throws), truthiness, `String(v)` as `+` and `new Error(v)` use it, and the exceptions the layer can raise. `Decimal` gives the decimal text of an integer. JSON text is an abstract codec: `stringify` and `parse`, with `parse` allowed to fail. The predicate `Lawful` states what every JSON implementation guarantees: parsing what was stringified gives the value back, and empty text is not JSON. Collaborators become parameters. axios's `post` is a function from URL and body to the reply data or a rejection. fetch is the class `ApiClient.Network`. It records every call made through it and answers each attempt with a reply, which is either a rejection or a status, a status text and a body that is JSON or not. `process.env.NEXT_PUBLIC_API_URL` is an optional string.

Several behaviours of the code are easy to miss:

- Both readers call `JSON.parse` without a `try`. Corrupt stored text therefore throws `SyntaxError` and is not treated as "no session" (`AuthService.CorruptSlotThrows`). A stored `null` makes `getAuthHeader` throw `TypeError`.
- `register`, `login` and `logout` reach `localStorage` without the window check. Outside a browser `logout` always throws `ReferenceError`. `register` and `login` throw it only when a reply with a truthy token is due to be saved. Without a token they return `response.data` as usual, and a rejected post throws its own rejection (`AuthService.AfterReply`).
- A network failure is not turned into a distinct outcome. fetch's rejection is rethrown as it is. A rejection that carries the status-line `Error` therefore throws exactly what that status throws (`ApiClient.RejectionMatchesStatusFailure`).
- The error message has two tiers, not three: the JSON `message`, then the status line. There is no raw-text tier.
- The error message can be empty. `new Error([])` has the message `""`, so a body `{"message": []}` gives an empty message (`ApiClient.EmptyArrayMessage`). So do other arrays whose text is empty, such as `[""]`, `[null]` and `[[]]`. The message is non-empty whenever `message` is not an array.
- Headers supplied by the caller replace the merged headers completely, because `...options` is spread after `headers`. The JSON content type is then sent only if the caller included it (`ApiClient.SentInit`).
- The default base address has no `/api` suffix. `auth.ts` appends `/api/auth/...` itself, and `apiClient` callers pass endpoints that start with `/api/`. When `NEXT_PUBLIC_API_URL` is set, the address is whatever the deployment put there. `src/services/nft.ts` reads the same variable, but its default ends in `/api`, so a set address can suit only one of the two conventions.
- A second run of the effect, for example after the router changes, never resets `authorized` to false. A denial after an earlier authorization redirects but keeps `authorized` true. Only a fresh mount starts unauthorized (`AccessGate.AdminGuard.RunEffect`).

## Model

| member | source | states |
|---|---|---|
| Decimal.NatText | src/lib/api.ts:32 | the status is written as non-empty decimal text made only of digits, one digit exactly for 0..9 |
| Decimal.NatTextInjective | src/lib/api.ts:32 | different natural numbers have different decimal text |
| Decimal.IntTextInjective | src/lib/api.ts:32 | different integers have different decimal text |
| JsValues.GetProp | src/services/auth.ts:12 | reading a property throws TypeError exactly on `null`, and it yields a value exactly when an object holds that key |
| JsValues.TruthyTextNonEmpty | src/lib/api.ts:35-40 | every truthy value except an array converts to non-empty text |
| JsValues.Parse | src/services/auth.ts:36 | JSON.parse yields the parsed value, or throws SyntaxError exactly when the text is not JSON |
| JsValues.StringifiedNonEmpty | src/services/auth.ts:13 | the JSON text of a reply is never empty, so a saved reply always passes the `if (userStr)` test |
| Config.BaseUrl | src/lib/api.ts:2 | the configured address when it is set and non-empty, else `http://localhost:5000`; never empty |
| AuthService.HasToken | src/services/auth.ts:12 | `response.data.token` is truthy exactly for an object holding a truthy `token`; reading it throws TypeError exactly on a `null` body |
| AuthService.AfterReply | src/services/auth.ts:12-15 | the slot changes only to the JSON text of the whole reply, and only under a truthy token; a value returned is always the reply data; a failed post stores nothing and is passed on; the only new failures are a `null` body or a save with no storage |
| AuthService.SessionStore.Register | src/services/auth.ts:6-16 | posts `{username, email, password}` to `<base>/api/auth/register`; the new slot and the result are those AfterReply gives; keeps the slot consistent |
| AuthService.SessionStore.Login | src/services/auth.ts:18-27 | posts `{email, password}` to `<base>/api/auth/login`; the new slot and the result are those AfterReply gives; keeps the slot consistent |
| AuthService.SessionStore.SaveIfToken | src/services/auth.ts:23-26 | the shared tail of register and login: saves the reply under a truthy token and returns it, with the new slot as AfterReply gives |
| AuthService.SessionStore.Logout | src/services/auth.ts:29-31 | removes the slot whatever it held, so it is idempotent; afterwards getCurrentUser gives `null` and getAuthHeader `{}`; throws ReferenceError without a window |
| AuthService.SessionStore.CurrentUser | src/services/auth.ts:33-39 | `null` when there is no window or the slot is absent or empty; otherwise exactly the parsed slot, or SyntaxError when it is not JSON; reading never changes storage |
| AuthService.SessionStore.AuthHeader | src/services/auth.ts:41-50 | at most the one key `Authorization`; `{}` exactly when there is nothing stored; otherwise `Bearer ` plus the token of the very record getCurrentUser returns, SyntaxError for corrupt text and TypeError for a stored `null` |
| AuthService.SavedReplyReadsBack | src/services/auth.ts:13-36 | after a reply is saved, getCurrentUser returns a value equal to it |
| AuthService.SavedReplyHeader | src/services/auth.ts:41-46 | after a reply is saved, getAuthHeader is `Bearer ` plus that reply's token, and the token itself when it is a string |
| AuthService.ConsistentStoreReadsCleanly | src/services/auth.ts:33-50 | while only register, login and logout have written the slot, neither reader throws, and there is no user exactly when there is no header |
| AuthService.CorruptSlotThrows | src/services/auth.ts:36-45 | stored text that is not JSON makes both readers throw SyntaxError rather than report no session |
| AccessGate.IsAdmin | src/components/AdminGuard.tsx:15 | the effect's test passes exactly for an object whose `role` is the string `admin` |
| AccessGate.Router.Push | src/components/AdminGuard.tsx:18 | a navigation appends its path to the router's history |
| AccessGate.AdminGuard.constructor | src/components/AdminGuard.tsx:9-10 | a mount starts loading and unauthorized, and renders the placeholder |
| AccessGate.AdminGuard.Render | src/components/AdminGuard.tsx:25-37 | the placeholder exactly while loading; the children exactly when loading is over and authorized; nothing exactly when loading is over and not authorized |
| AccessGate.AdminGuard.RunEffect | src/components/AdminGuard.tsx:12-23 | never writes the session; ends loading; authorizes an admin without navigating, or pushes `/` exactly once; never clears an earlier authorization; when reading the session throws, the effect throws, does not navigate and the flags keep their values |
| AccessGate.MountAndCheck | src/components/AdminGuard.tsx:7-38 | after mount and one effect, the children render exactly for an admin session; any other session renders nothing and is redirected to `/` exactly once; when reading the session throws, the effect throws before any navigation and the flags keep their initial values |
| ApiClient.SentInit | src/lib/api.ts:18-24 | method and body pass through; without caller headers exactly `Content-Type: application/json` is sent; caller headers replace the merged ones, so the content type is sent only if the caller gave it |
| ApiClient.ErrorMessage | src/lib/api.ts:32-40 | the body's truthy `message` as text, else `API Error: <status> <statusText>`; a body that is not JSON or is `null` only selects the status line; empty only for an array-valued `message` |
| ApiClient.Classify | src/lib/api.ts:29-50 | a payload exactly for a status in 200..299 with a JSON body, and it is that body; any other status throws an Error with ErrorMessage; fetch's rejection and an unparsable ok body are rethrown unchanged |
| ApiClient.Network.Fetch | src/lib/api.ts:18 | each fetch appends its call to the network's history and is answered by the reply for that attempt |
| ApiClient.Request | src/lib/api.ts:9-52 | the network's history grows by exactly one call, to `base ++ endpoint` with the init SentInit gives, so there is no retry; the outcome is what Classify gives for the reply to that one attempt |
| ApiClient.Get | src/lib/api.ts:55-57 | one fetch with method GET, no body and the JSON content type; the outcome as in request |
| ApiClient.Post | src/lib/api.ts:59-64 | one fetch with method POST, the data's JSON text as body and the JSON content type; the outcome as in request |
| ApiClient.Put | src/lib/api.ts:66-71 | one fetch with method PUT, the data's JSON text as body and the JSON content type; the outcome as in request |
| ApiClient.Delete | src/lib/api.ts:73-75 | one fetch with method DELETE, no body and the JSON content type; the outcome as in request |
| ApiClient.FallbackIdentifiesResponse | src/lib/api.ts:32 | two status-line messages are equal only for equal status and status text |
| ApiClient.EmptyArrayMessage | src/lib/api.ts:35-40 | a 500 whose body is `{"message": []}` throws an Error with an empty message |
| ApiClient.RejectionMatchesStatusFailure | src/lib/api.ts:46-50 | for every status outside 200..299 whose body gives no usable `message`, a rejection from fetch carrying that status line throws exactly what the status failure throws |

## Left out

- JSON text is not modelled. `stringify` and `parse` are an abstract codec. The round-trip results assume the codec is `Lawful`.
- JSON numbers are unbounded integers. Fractional numbers, and the loss of precision past 2^53 in JavaScript's numbers, are not modelled.
- JsValues.ToJsString: writes every integer in plain decimal, and so do `ErrorMessage` and the `Bearer` header. JavaScript writes integers of magnitude 10^21 or more in exponent form (`new Error(1e21).message` is `"1e+21"`). For such a `message` or `token` the model's text differs from the code's.
- `String(v)` of an object is taken to be `[object Object]`. In JavaScript an object with an own `toString` key cannot be converted, because a JSON value is never callable. Such an object, alone or inside an array, makes `new Error(...)` (`src/lib/api.ts:40`) and `'Bearer ' + user.token` (`src/services/auth.ts:46`) throw TypeError. The model writes `[object Object]`, so `ErrorMessage`, `Classify`, `AuthHeader` and `ConsistentStoreReadsCleanly` do not cover that case. An own `valueOf` key changes nothing, since the prototype's `toString` is tried first.
- Property reads see only a parsed object's own keys. Prototype properties do not matter for the keys read here (`token`, `role`, `message`).
- Only `method`, `headers` and `body` of RequestInit are modelled. Headers are a plain string map. Headers objects, header arrays, case-insensitive header names, and keys present with the value `undefined` are not modelled.
- axios is not modelled. Its reply is an input, and its own failures are opaque rejections. The request body it serialises is given as a JSON object.
- `post` and `put` take JSON values. `JSON.stringify` of `undefined` or of functions is not modelled.
- `localStorage` exists exactly when `window` does. Quota and security errors from `setItem` are not modelled.
- `console.log` and `console.error` are not modelled. They have no effect on results.
- React's handling of an error thrown in an effect is not modelled. React passes it to the nearest error boundary, which replaces the guard's subtree. The model only says that the effect throws and the flags keep their values.
- Async suspension and React's effect scheduling are not modelled. Each call is one sequential step. A re-run of the effect is a second call of `RunEffect`. Unmounting is not modelled.
- `src/services/nft.ts` and the page components (`src/app/...`) are not part of this model.
