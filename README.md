# Bao Cafe loyalty checker: a Dafny model

The system is a one-page web form and a one-route server. The page filters
what is typed into the mobile-number field. It checks that the value is ten
digits and asks the server's `/api/check-loyalty` endpoint for the number's
loyalty record. It then switches between four sections (form, loading,
success, error) and shows one toast at a time. The server checks the number
again. It calls a third-party customer-search API with a configurable
address and auth key, and classifies the upstream outcome into a 200, 400 or
500 reply.

The model has five modules:

- `Wrappers` (wrappers.dfy): `Option`.
- `JsValues` (jsvalues.dfy): the JavaScript values the code inspects. It covers parsed JSON plus `undefined`, truthiness, property access with and without `?.`, and `String(v)`.
- `MobileInput` (mobile.dfy): the input filter and the ten-digit validator, as pure functions with their properties.
- `LoyaltyServer` (server.js → server.dfy): the handler as a total function `Handle(mobile, env, upstream)`. `env` is the process environment. `upstream` is what the awaited `fetch` produced: a transport error, or a status with a body that does or does not parse. The reply records the upstream request it made, so "no upstream call" is `request == None`.
- `LoyaltyPage` (public/script.js → page.dfy): a class `Page` whose fields are the parts of the page the script changes. These are the visible sections, `currentLoyaltyData`, the button's `disabled` flag, the field's value, the `.toast` elements, the menu class and icon, the name, points and error texts, and the log of lookup URLs requested. `checkLoyalty` is split at its `await` into `BeginLookup` and `SettleLookup`. The fetch's outcome is a parameter.

Four behaviours of the code worth noting:

- A reply with `success: false` shows the error section but raises no toast (public/script.js:58-60). Only a thrown error raises one (line 64).
- `loyaltyPoints: null` counts as found, because the test is `!== undefined` (server.js:43).
- An empty environment variable falls back to the default, because of `||` (server.js:25-26).
- A 400 or 500 reply still reaches the page as parsed JSON. The page shows that reply's message without a toast, because `fetch` does not reject on an HTTP error status.

## Model

| member | source | states |
|---|---|---|
| MobileInput.Digits | public/script.js:24 | removing the non-digits gives only digits and never lengthens the string |
| MobileInput.DigitPositions | public/script.js:24 | the ascending positions of exactly the digit characters of the input |
| MobileInput.DigitsAtPositions | public/script.js:24 | the filter keeps every digit, in its original order, and nothing else: it reads the input at DigitPositions, and its length is the independently counted number of digits |
| MobileInput.DigitsAppend | public/script.js:24 | filtering a concatenation filters each part |
| MobileInput.DigitsOfDigits | public/script.js:24 | a string of digits passes through the filter unchanged |
| MobileInput.Sanitise | public/script.js:22-30 | the field value after an input event has at most 10 characters, all ASCII digits |
| MobileInput.SanitiseKeepsLeadingDigits | public/script.js:24-28 | the field keeps the first min(10, k) digits of the input, where k is its digit count, in their original order |
| MobileInput.SanitiseIdempotent | public/script.js:24-29 | filtering an already filtered value changes nothing |
| MobileInput.SanitiseIncremental | public/script.js:22-30 | filtering the field's value plus newly typed text equals filtering everything typed at once |
| MobileInput.IsValidMobile | public/script.js:41 | `/^\d{10}$/` (also server.js:17) holds iff the string has ten characters and ten digits, counted independently |
| MobileInput.ValidIffFullAndFiltered | public/script.js:41 | `/^\d{10}$/` accepts exactly the 10-character strings the filter leaves unchanged |
| MobileInput.SanitisedValidIff | public/script.js:24-41 | a filtered value passes the submit check iff at least ten digits were typed |
| JsValues.ToText | public/script.js:57 | `String(v)` keeps a string as is and writes a number in decimal: "0" for zero, otherwise digits with no leading zero that read back as the number, after a '-' when negative. It never gives "" for a truthy value other than an array |
| JsValues.TextOf | public/script.js:76 | assigning `textContent` clears the text for `null` and `undefined` and converts every other value, `0` and `false` included, as `String` does. A string is kept as is, and a truthy value other than an array never gives "" |
| LoyaltyServer.Setting | server.js:25-26 | a setting is the variable's value when it is set and non-empty, otherwise the default, and never empty when the default is not |
| LoyaltyServer.RequestFor | server.js:25-34 | the upstream URL is the configured (or default) base, `?contactNumber=` and the mobile. The `AuthKey` header is the configured (or default) key, never empty |
| LoyaltyServer.IsOk | server.js:36 | `response.ok` holds exactly for a 2xx status |
| LoyaltyServer.IsCustomerRecord | server.js:43 | the optional-chained test can only pass on an object whose `data` is an object with both a `name` and a `loyaltyPoints` key |
| LoyaltyServer.Handle | server.js:14-63 | status is 200, 400 or 500. An upstream request is made iff the mobile is valid, and it is the configured one. Every failure body has a non-empty message. A found body has status 200 and echoes the input mobile |
| LoyaltyServer.BodyJson | server.js:44-54 | a found reply is exactly `{success: true, name, points, mobile}` carrying the record's name and points and the mobile. A failure is exactly `{success: false, message}` |
| LoyaltyServer.InvalidMobileRejected | server.js:17-22 | an invalid mobile gives 400 with the validation message and no upstream request, whatever the upstream would have answered |
| LoyaltyServer.UpstreamFailureIs500 | server.js:28-61 | for a valid mobile, status 500 iff a transport error, a status outside 200-299 or an unparsable body; then the body is the retry message |
| LoyaltyServer.RecordIsFound | server.js:43-49 | a payload with a truthy `data.name` and defined `data.loyaltyPoints` gives 200 with that name and those points and the input mobile |
| LoyaltyServer.ZeroPointsStillFound | server.js:43 | zero points still count as found |
| LoyaltyServer.MissingFieldsNotFound | server.js:43-55 | a falsy name or undefined points gives 200 with the not-found message |
| LoyaltyServer.Status200Iff | server.js:17-62 | status 200 iff the mobile is valid and the upstream answered with an ok status and a parsable body |
| LoyaltyServer.UpstreamUrlCarriesMobile | server.js:25-28 | the upstream URL is the base address, then `?contactNumber=`, then the mobile, which can be read back from its end |
| LoyaltyServer.DefaultsWithoutConfig | server.js:25-26 | with no variables set, the hard-coded address and key are used |
| LoyaltyPage.ToastColor | public/script.js:171 | error, success and info toasts get red, green and blue respectively, and no two types share a colour |
| LoyaltyPage.Settle | public/script.js:50-64 | the lookup crashes iff the fetch failed or the body is null. It welcomes iff `data.success` is truthy, keeping the data. Otherwise it shows `data.message` when truthy and 'Customer not found' when not |
| LoyaltyPage.ServerRepliesSettle | public/script.js:54-59 | every reply of the server's handler is read by the page the way the server meant it. A failure shows the server's own message, so the fallback text is never reached. A found customer's name and points reach the page's texts and the welcome toast as the server took them from upstream |
| LoyaltyPage.Page.constructor | public/script.js:1-2 | the page as loaded: form visible, nothing held, button enabled, empty field, no toast, menu closed |
| LoyaltyPage.Page.ToggleMobileMenu | public/script.js:5-16 | the menu's `show` flag flips and the icon is '✕' iff the menu is shown |
| LoyaltyPage.ToggleTwiceRestores | public/script.js:5-16 | toggling the menu twice restores its flag and icon |
| LoyaltyPage.Page.OnDocumentClick | public/script.js:194-203 | a click outside the open menu and its button closes it; any other click changes nothing |
| LoyaltyPage.Page.OnInput | public/script.js:22-30 | the field holds the filtered value of what the browser put there |
| LoyaltyPage.Page.ShowSection | public/script.js:92-107 | all four sections are hidden, then the named one is revealed. From a state showing only sections, exactly that one is visible, or none if the id is not a section |
| LoyaltyPage.Page.ShowToast | public/script.js:145-175 | the first existing toast is removed and the new one appended. With at most one before, exactly the new one remains |
| LoyaltyPage.SecondToastReplacesFirst | public/script.js:147-175 | a second toast of any type issued while one of any type is showing leaves only the newest, with its type |
| LoyaltyPage.ZeroPointsShownAsZero | public/script.js:54-79 | a found customer with zero points is welcomed and the points display reads "0" |
| LoyaltyPage.Page.DisplaySuccessState | public/script.js:71-82 | name and final points text are written, and only the success section is shown |
| LoyaltyPage.Page.DisplayErrorState | public/script.js:85-89 | the error text is written and only the error section is shown |
| LoyaltyPage.Page.BeginLookup | public/script.js:34-51 | an invalid value raises the error toast and changes no section, button flag, held data or request log. A valid one shows loading, disables the button and requests `/api/check-loyalty?mobile=` plus the value |
| LoyaltyPage.Page.Welcome | public/script.js:54-57 | the data is held, the name and points are written, only the success section shows, and the one toast is "Welcome back, <name>!" |
| LoyaltyPage.Page.Crash | public/script.js:61-64 | only the error section shows, with the retry text, and the one toast is the error toast |
| LoyaltyPage.Page.SettleLookup | public/script.js:53-67 | the button is re-enabled. A welcome shows success, holds the data and raises the welcome toast. A decline shows the error text with no toast. A crash shows the retry text and the error toast. Held data is unchanged except on a welcome |
| LoyaltyPage.Page.CheckLoyalty | public/script.js:34-68 | the whole submit handler with the fetch outcome given. An invalid value only raises the error toast. A started lookup logs the request and re-enables the button, and each way it settles gives the sections, held data, name, points, error text and toast. The field and the menu never change |
| LoyaltyPage.Page.ResetForm | public/script.js:138-142 | the field is cleared, held data is dropped and only the form is shown |

## Left out

- Express setup, static file serving, `res.sendFile` and `app.listen` (server.js:1-11, 65-73): framework plumbing.
- The real `fetch` calls and JSON parsing (server.js:28-40, public/script.js:51-52): replaced by the `Upstream` and `FetchOutcome` parameters.
- `console.log` and `console.error`: logging only.
- `animateCounter` (public/script.js:112-135): floating-point easing driven by `requestAnimationFrame`. The model keeps only its last frame, which writes the target itself (`pointsShown`).
- The toast's slide-in and removal timers and its inline styles (public/script.js:157-190): timer-driven presentation. Only the synchronous remove-then-append step and the colour choice are modelled, so a toast in the model never expires.
- The floating chat and call buttons (public/script.js:206-224): they only call `showToast`.
- JavaScript coercion of a non-string `req.query.mobile` (an array, or `undefined`): `mobile` is a string.
- JSON numbers are integers: floating-point values, `NaN` and the exponent notation of `String(n)` are not modelled.
- JsValues.ToText: an object converts to "[object Object]". A parsed object with an own non-callable `toString` key, which would make the conversion throw, is not modelled.
- The HTML page is not part of this model. The constructor assumes that the page loads with the form visible, the menu closed and its icon '☰'. `ShowSection` assumes that all four section elements exist and that no other id names an element it could reveal.
- The `async` interleaving inside `checkLoyalty`: other events may run between `BeginLookup` and `SettleLookup`, and the model lets a caller do the same, but nothing is proved about overlapping lookups.
