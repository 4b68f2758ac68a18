# PayPal setup guide and client helper — Dafny model

This project models the two pieces of logic in a small Next.js site that helps an operator configure PayPal payments.

- **The setup checklist** (`checklist.dfy`, module `Checklist`). The guide page shows four fixed onboarding steps. It keeps one piece of state, `completedSteps`, the list of indices of ticked steps. A click on a step's button toggles its index: the index is removed (by `filter`) when present and appended when absent. The "n/4" counter, the progress bar, each step's badge and the completion banner are derived from that list. The state is the class `SetupGuide` with a `seq<int>` field and a `ToggleStep` method. The derived views are pure functions. The lemmas prove the invariants of reachable states:
  - no duplicates;
  - every index is in `[0, 4)`;
  - at most four entries;
  - each toggle flips exactly one index;
  - two toggles restore membership;
  - the parity law for any sequence of clicks;
  - the banner shows exactly when every step is ticked.
- **The PayPal client helper** (`paypal_config.dfy`, module `PayPalConfig`). This covers:
  - the `||` fallbacks of the environment variables;
  - selecting the live or sandbox API host;
  - the credential guard;
  - the token request: the endpoint and `grant_type=client_credentials` parameter of the OAuth 2.0 client-credentials grant (section 4.4.2 of RFC 6749), authenticated with HTTP Basic (section 2 of RFC 7617), with the parameter sent as a plain string body;
  - the order-creation payload and request;
  - the capture URL and request;
  - the status classification of `handleResponse`.

  The HTTP layer is abstract. Each operation is a function of the configuration, its arguments and the replies it would get. Its value is a `Call`: the requests sent, in order, and the outcome (`Ok` or a JavaScript `Error` with its message).

Behaviour of the code that the model keeps on purpose:
- A missing `access_token` in the token reply is not detected. The later request carries `Bearer undefined`, because `${undefined}` is interpolated.
- `generateAccessToken` does not look at the token reply's status.
- An unset `NEXT_PUBLIC_VERCEL_URL` gives the redirect URL `undefined/paypal-success`.
- The currency default `"EUR"` applies only when the argument is omitted. An explicit empty string is sent as it is, unlike the `||` fallbacks.
- The credentials are module constants with non-empty placeholder fallbacks. So the `MISSING_API_CREDENTIALS` guard cannot fire from any environment (`GuardUnreachableFromEnvironment`). It is still modelled for an arbitrary `Config`.

## Model

| member | source | states |
|---|---|---|
| `Checklist.SetupGuide.constructor` | components/paypal-setup-guide.tsx:12 | The list starts empty: no step is completed and the banner is hidden. |
| `Checklist.SetupGuide.ToggleStep` | components/paypal-setup-guide.tsx:14-16 | A click replaces the list with its toggle. It keeps the reachable-state invariant, flips the clicked step's completed flag and leaves every other step's flag unchanged. |
| `Checklist.Without` | components/paypal-setup-guide.tsx:15 | `filter(i => i !== x)` drops every `x` and keeps every other value. It returns the list unchanged when `x` is absent. |
| `Checklist.Toggled` | components/paypal-setup-guide.tsx:15 | After a toggle of `i`, `j` is in the list iff exactly one holds: `j` was in it, or `j == i`. |
| `Checklist.WithoutConcat` | components/paypal-setup-guide.tsx:15 | `filter` works element by element: filtering a concatenation is the concatenation of the filtered parts. |
| `Checklist.WithoutAt` | components/paypal-setup-guide.tsx:15 | In a duplicate-free list, filtering out the value at position `k` gives the list with that one position cut out, the others in their order. |
| `Checklist.ToggleShape` | components/paypal-setup-guide.tsx:15 | Toggling an absent index appends it at the end. Toggling a present index removes it in place and keeps the others' relative order. |
| `Checklist.WithoutKeepsNoDuplicates` | components/paypal-setup-guide.tsx:15 | Filtering keeps a list free of duplicates. |
| `Checklist.ToggleKeepsNoDuplicates` | components/paypal-setup-guide.tsx:15 | A toggle keeps a list free of duplicates. |
| `Checklist.ToggleKeepsWellFormed` | components/paypal-setup-guide.tsx:15 | A toggle of a step position keeps the list duplicate-free with all entries in `[0, 4)`. |
| `Checklist.WithoutAppended` | components/paypal-setup-guide.tsx:15 | Filtering out an index that was just appended to a list not containing it gives back the list. |
| `Checklist.ToggleTwice` | components/paypal-setup-guide.tsx:15 | Two toggles of the same index restore membership of every index. When the index was absent they restore the list exactly. |
| `Checklist.ClickParity` | components/paypal-setup-guide.tsx:14-16 | After any sequence of clicks, step `j` is ticked iff its initial state differs from "clicked an odd number of times". |
| `Checklist.ClicksKeepWellFormed` | components/paypal-setup-guide.tsx:130-143 | Any sequence of clicks on step buttons, whose indices come from the four step positions, keeps the list well formed. |
| `Checklist.Steps` | components/paypal-setup-guide.tsx:22-82 | The step indices are exactly `0..3`, four of them. |
| `Checklist.IsCompleted` | components/paypal-setup-guide.tsx:131 | Step `i` is completed iff some position of the list holds `i`. |
| `Checklist.Badge` | components/paypal-setup-guide.tsx:162-164 | The badge reads "Terminé" iff the step is completed and "En attente" iff it is not. |
| `Checklist.ProgressPercent` | components/paypal-setup-guide.tsx:107 | The width is exactly `length / 4 * 100` percent, with no rounding. |
| `Checklist.DistinctCardinality` | components/paypal-setup-guide.tsx:101 | A duplicate-free list has as many distinct values as entries, so the counter counts distinct steps. |
| `Checklist.WellFormedBounded` | components/paypal-setup-guide.tsx:101 | A reachable list has at most four entries. |
| `Checklist.Counter` | components/paypal-setup-guide.tsx:101 | The "n/4" counter shows the list length out of 4. On a reachable list that length is the number of distinct ticked steps and never more than 4. |
| `Checklist.ProgressBounds` | components/paypal-setup-guide.tsx:104-108 | The progress width stays within 0..100 and is 100 iff every step is ticked. |
| `Checklist.FullCountIffAllDone` | components/paypal-setup-guide.tsx:254 | A reachable list has four entries iff every step 0..3 is in it. |
| `Checklist.BannerShown` | components/paypal-setup-guide.tsx:254 | On a reachable list, the banner (shown when the count equals the number of steps) appears iff every step 0..3 is completed. |
| `PayPalConfig.OrElse` | lib/paypal-config.ts:4-6 | `value \|\| fallback` gives the value when it is set and non-empty, and the fallback when it is unset or empty. |
| `PayPalConfig.LoadConfig` | lib/paypal-config.ts:4-6 | Each constant is its variable when that is set and non-empty, and its placeholder default otherwise (`OrElse`). So none of them is ever empty. |
| `PayPalConfig.ApiUrl` | lib/paypal-config.ts:8-10 | The host is the live one iff the environment is "production"; otherwise it is the sandbox host. |
| `PayPalConfig.Base` | lib/paypal-config.ts:12 | The module-level base is one of the two hosts, the live one iff the loaded environment is "production". |
| `PayPalConfig.HostSelection` | lib/paypal-config.ts:6-12 | From the process environment, the live host is chosen iff `PAYPAL_ENVIRONMENT` is "production". An unset or empty value gives the sandbox host. |
| `PayPalConfig.Interpolated` | lib/paypal-config.ts:53-54 | Template interpolation keeps a set value and prints an unset one as "undefined". |
| `PayPalConfig.TokenRequest` | lib/paypal-config.ts:19-26 | The token request is a POST to `base + /v1/oauth2/token` without a JSON content type. Its body is the plain string `grant_type=client_credentials` and its Basic credential is `clientId:clientSecret`. |
| `PayPalConfig.SplitUserPass` | lib/paypal-config.ts:19 | Reading a Basic credential splits at the first colon. The parts rejoin to the input, and the user-id has no colon. |
| `PayPalConfig.BasicCredentialsRoundTrip` | lib/paypal-config.ts:19 | A credential built from a colon-free user-id and any secret splits back into that pair. |
| `PayPalConfig.TokenRequestCarriesCredentials` | lib/paypal-config.ts:19-24 | When the client id contains no colon, the token request's Basic credential splits back into exactly the configured client id and secret. The code does not check for a colon; an id containing one would be read back as a different pair. |
| `PayPalConfig.AccessToken` | lib/paypal-config.ts:28-29 | The token is the reply's `access_token` field when present, and undefined (no check) when absent. |
| `PayPalConfig.GenerateAccessToken` | lib/paypal-config.ts:14-34 | It fails with `MISSING_API_CREDENTIALS`, sending nothing, iff the id or the secret is empty. Otherwise it sends exactly the token request and returns the reply's `access_token`. |
| `PayPalConfig.GuardUnreachableFromEnvironment` | lib/paypal-config.ts:4-5 | With the loaded configuration, token generation never fails the guard. |
| `PayPalConfig.OrderPayloadFor` | lib/paypal-config.ts:39-61 | The payload has intent `CAPTURE` and exactly one purchase unit. The unit's value is the amount unchanged. Its currency is the argument, or `EUR` when omitted. The return and cancel URLs are the public URL followed by `/paypal-success` and `/paypal-cancel`. The brand name is "Votre Business Digital", the locale "fr-FR", the landing page "BILLING", the shipping preference "NO_SHIPPING" and the user action "PAY_NOW". |
| `PayPalConfig.CreateOrder` | lib/paypal-config.ts:39-73 | Without credentials it fails with the guard's error and sends no request. Otherwise it sends the token request, then one JSON POST to `base + /v2/checkout/orders` carrying `Bearer <token>` and the payload, and ends as `handleResponse` of the reply. |
| `PayPalConfig.CaptureUrl` | lib/paypal-config.ts:77 | The order id read back from `base + /v2/checkout/orders/ + id + /capture` is `id`. |
| `PayPalConfig.CaptureUrlInjective` | lib/paypal-config.ts:77 | Distinct order ids give distinct capture URLs. |
| `PayPalConfig.CaptureOrder` | lib/paypal-config.ts:75-88 | Without credentials it fails with the guard's error and sends no request. Otherwise it sends the token request, then one body-less JSON POST to the URL from which that order's id reads back, carrying `Bearer <token>`, and ends as `handleResponse` of the reply. |
| `PayPalConfig.MissingTokenIsForwarded` | lib/paypal-config.ts:28-29 | A token reply without `access_token` makes the next request carry `Bearer undefined`. |
| `PayPalConfig.HandleResponse` | lib/paypal-config.ts:90-97 | Success iff the status is 200 or 201, with the body unchanged. Any other status fails with an error whose message is the body text. |

## Left out

- The JSX rendering, CSS classes, icons, step titles, descriptions and instructions of the guide page are presentational and not modelled. Only the number of steps and the badge texts are kept.
- `copyToClipboard` and `window.open` are browser APIs and are not modelled.
- `fetch`, `response.json()` and `response.text()` are not modelled. Replies are inputs: the parsed token reply as a map of string fields, and other replies as a status with a body text. A successful `handleResponse` returns that body, and JSON parsing is not modelled.
- Base64 encoding (`Buffer.from(...).toString("base64")`) is not modelled. The Basic credential is kept as the `id:secret` string before encoding.
- JSON serialisation of the order payload is not modelled. The payload is kept as a datatype.
- Header spelling is not modelled. The Authorization header is a datatype. The JSON content type is a flag.
- Network and JSON parse failures are not modelled. The `console.error` logging in `generateAccessToken` is not modelled either. Its re-throw is: the guard's `MISSING_API_CREDENTIALS` error passes unchanged out of `GenerateAccessToken`, `CreateOrder` and `CaptureOrder`.
- The media type of the token request is not modelled. The code sets no Content-Type, so `fetch` sends the string body as `text/plain;charset=UTF-8`, not as `application/x-www-form-urlencoded`. The body is modelled as `PlainText`.
- Async scheduling and React's state batching are not modelled. Each click is one synchronous call of `ToggleStep`.
- The progress width is an integer percentage, not the floating-point CSS string. With four steps the quotient is exact.
- `Checklist.SetupGuide.ToggleStep` requires a step position in `[0, 4)`. Its only caller is the button built from the step list. The pure `Toggled` takes any integer.
- The settings page that hosts the guide is only a layout wrapper and is not modelled.
