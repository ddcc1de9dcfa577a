# SafeChain wallet bind and tab selection, modelled in Dafny

This project models the client-side core of the SafeChain Telegram web app.

- **The wallet page** (`wallet.js`) holds one mutable session record (`STATE`: config, provider, signer, account, chain id, prepared message, Telegram id). Four handlers drive it:
  - *connect* reads the account and network from the injected wallet and flags a network that differs from the backend's configured chain;
  - *switch network* asks the wallet to move to the configured chain and then re-reads the network;
  - *prepare message* builds the bind challenge, a fixed seven-line text;
  - *sign and bind* checks three guards, has the wallet sign the challenge, posts `{tg_user_id, address, message, signature}` to `/api/bind`, and sorts the reply into bound, ambiguous (a 2xx without the success marker) or API error.
- **The two tab scripts** (`app.js`, `nav.js`) turn `location.pathname`, `location.hash` and the list of tab links into the set of active tabs and their `aria-current` attributes.

Everything outside the page is a parameter of the methods:

- the wallet provider: where a provider call threw, the address and network it reports, and a signing function that returns a signature or nothing when the user declines;
- `fetch`: an `HttpReply`, either a network failure or a status with a body that may not parse;
- the clock and `Math.random`: the ISO timestamp and the nonce, passed in as strings;
- the Telegram runtime and the query string: optional integers.

The status chips and buttons are kept as abstract values (`WalletChip`, `BindChip`) and enabled flags. A tab link is a record of `href`, `data-tab`, whether its class list holds `active`, and its `aria-current` attribute. Both tab handlers update an `array` of these records in place.

Modules:

- `Wrappers`: Option and Result.
- `Text`: line splitting and joining, the decimal rendering of integers, ASCII lower-casing.
- `Json`: JavaScript values, truthiness, and `apiGet`/`apiPost` as a reply classifier.
- `BindMessage`: the challenge template, its decoder, and their round trips.
- `Wallet`: the pure helpers and the `Session` class.
- `Page`: the tab record and the file name taken from a path.
- `AppTabs`: app.js.
- `NavTabs`: nav.js.

Behaviour of the code that the model keeps as written:

- `connect` stores the provider, signer and account as soon as each is obtained. If reading the network then fails, the new account sits beside the old chain id; a failed connect can leave this partial state.
- Switching networks only requests a switch and re-reads the chain id. The code has no add-network path, no chain registry and no "unsupported chain" error.
- Preparing a message without a Telegram id only raises an alert. The challenge is still built, with `null` as the id. Only sign-and-bind refuses to go on without an id.
- Neither preparing nor signing checks that the wallet is on the configured chain.
- A bind reply counts as success when `res.ok === true` or `res.status === "ok"`. Both legacy markers are accepted.

## Model

| member | source | states |
|---|---|---|
| `Wallet.Short` | wallet.js:22 | an absent or empty address gives "—"; otherwise the result is the first min(6, n) characters, "…", then the last min(4, n) characters |
| `Wallet.ShortOfLongAddress` | wallet.js:22 | for an address of at least 10 characters the short form has 11 characters, keeps the first six and last four, and never equals the "absent" marker |
| `Wallet.GetTgId` | wallet.js:30-39 | a truthy Telegram runtime user id wins over the `tg_user_id` query parameter; the result is null exactly when neither is present |
| `Wallet.ExpectedChainId` | wallet.js:99 | the configured chain counts only when a config is loaded and its `chainId` is truthy (non-zero) |
| `Wallet.ConfigOf` | wallet.js:61-62 | the stored config carries a chain id exactly when the reply's `chainId` is a number, and then it is that number unchanged |
| `Json.ApiCall` | wallet.js:41-54 | a reply yields a value iff the fetch succeeded, the status is 2xx and the body parsed; a non-2xx status is reported with its code; a failed fetch is distinct from both |
| `Wallet.BindConfirmed` | wallet.js:196 | a reply confirms the binding iff it is an object whose `ok` member is `true` or whose `status` member is the string "ok"; a falsy or non-object reply never does |
| `Wallet.ClassifyBindReply` | wallet.js:188-206 | the bind is Bound iff the reply is 2xx with a parsed body whose `ok` is `true` or whose `status` is `"ok"`; Ambiguous iff 2xx, parsed and neither marker is present; API error iff the fetch failed, the status is not 2xx, or the body did not parse |
| `Wallet.OkFalseIsAmbiguous` | wallet.js:196-202 | a 200 reply `{ok: false}` is Ambiguous, neither a binding nor a transport error |
| `Wallet.Session.constructor` | wallet.js:10-18 | every session field starts null, all controls disabled |
| `Wallet.Session.LoadConfig` | wallet.js:57-71 | a good reply replaces the config; a failed one keeps the previous config |
| `Wallet.Session.Connect` | wallet.js:74-109 | without a wallet provider only the status chip changes. Otherwise the provider, signer and account are each stored exactly when their call completed, so a failure while reading the network leaves the new account beside the stale chain id. On success the chain id is the provider's network, copy and prepare are enabled, and the switch control is enabled iff a configured chain is set and differs from it. On failure the controls are unchanged |
| `Wallet.Session.SwitchNetwork` | wallet.js:111-128 | no-op when no chain is configured; otherwise requests the configured chain; on success the chain id is the re-read network (not the requested target) and the switch control is disabled iff they agree; on any failure the chain id and switch control are unchanged |
| `Wallet.Session.PrepareMessage` | wallet.js:143-161 | always refreshes the Telegram id (a falsy id becomes null). Without an account the message is unchanged. With an account the message is always replaced by a fresh challenge built from the session's account and chain id, even when the Telegram id is missing (alert only). The challenge decodes back to exactly those fields |
| `Wallet.Session.SignAndBind` | wallet.js:163-207 | the guards give "connect first", "no Telegram id" and "prepare first", in that order. A POST happens iff signer, account, Telegram id and message are present and the wallet signs. A declined signature means no POST. The posted message is exactly the signed one, with the session's account and id. The outcome is the reply's classification, and the bindings list is reloaded only when Bound. Only the bind chip changes |
| `Wallet.ConnectAndSwitchScenario` | wallet.js:74-128 | config on chain 1, wallet on chain 5: connect enables the switch, and a successful switch lands on chain 1 with the switch control disabled |
| `Wallet.PrepareAndBindScenario` | wallet.js:143-207 | after that, preparing with Telegram id 42 and signing, a 200 `{ok: false}` reply ends Ambiguous with no reload of the bindings |
| `BindMessage.BuildBindMessage` | wallet.js:131-141 | the message opens with the header line "SafeChain Wallet Bind" and closes with the line "Nonce: " followed by the nonce |
| `BindMessage.BindMessageLines` | wallet.js:134-140 | the built message splits into the header "SafeChain Wallet Bind", a blank line, then "Bind Telegram ID", "Address", "ChainId", "Timestamp" and "Nonce" lines in that order, provided no text field holds a newline |
| `BindMessage.BindMessageRoundTrip` | wallet.js:131-141 | decoding a built message gives back every field unchanged (ids and chain id as numbers or null), provided no text field holds a newline |
| `BindMessage.DecodedMessageRebuilds` | wallet.js:131-141 | conversely, any text that decodes is exactly the message built from the decoded fields, so the signed text can be re-derived from them |
| `BindMessage.NonceDistinguishes` | wallet.js:133-140 | two messages built from identical other inputs are equal iff their nonces are equal |
| `BindMessage.BuildInjective` | wallet.js:134-140 | two well-formed challenges with the same message text have the same fields |
| `BindMessage.OptIntRoundTrip` | wallet.js:136-138 | the rendering of a number or `null` in the template is one line and parses back to the same value |
| `Text.IntToDecimalRoundTrip` | wallet.js:138 | the decimal rendering of an integer reads back as that integer and is never the text "null" |
| `Page.LastSegment` | app.js:7 | the result is the longest slash-free suffix of the pathname: a suffix, without '/', preceded by '/' unless it is the whole pathname |
| `Page.PagePath` | app.js:7 | the file name is never empty and never contains '/'; it is the last segment when that is non-empty, and "index.html" when the pathname ends in '/' or is empty |
| `AppTabs.FirstHrefMatch` | app.js:11-17 | the matched tab, if any, is the first whose non-empty `href` equals the file name; none is returned iff no tab matches |
| `AppTabs.FirstTabNamed` | app.js:25 | the fallback's target is the first tab with `data-tab="mine"`; none iff no tab has it |
| `AppTabs.AfterLoopsShape` | app.js:9-21 | after both loops only the matched tab is active, `aria-current` is "page" on it and absent on every other tab, and no `href` or `data-tab` changes |
| `AppTabs.MarkOnly` | app.js:26-29 | marking one tab in a cleared list leaves exactly that tab active, with `aria-current="page"` |
| `AppTabs.ActiveTabs` | app.js:5-40 | after the handler at most one tab is active, `aria-current` is "page" exactly on active tabs and absent elsewhere, and no label changes |
| `AppTabs.HrefMatchDecides` | app.js:24-33 | when a tab matched by `href`, it alone is active and neither fallback changes any tab |
| `AppTabs.MineFallbackOnly` | app.js:24-30 | without an href match a tab is active iff no tab matched, the hash is non-empty, the raw pathname ends with index.html, and it is the first "mine" tab |
| `AppTabs.HomeFallbackUnreachable` | app.js:33-39 | the file name is never "" nor "/", so the home fallback can never fire |
| `AppTabs.SameLabelsFirstHrefMatch` | app.js:11-17 | the href match depends only on the tabs' labels, not on their classes or attributes |
| `AppTabs.ActiveTabsIdempotent` | app.js:5-40 | running the handler again on its own result changes nothing |
| `AppTabs.ClearAndMatch` | app.js:9-21 | the two in-place loops leave the tab array equal to `AfterLoops` of its previous contents for the first `href` match, and report a match iff there is one |
| `AppTabs.SetActiveTab` | app.js:5-40 | the in-place handler leaves the tab array equal to `ActiveTabs` of its previous contents |
| `NavTabs.NavFile` | nav.js:5 | the file is the lower-cased `PagePath` of the pathname (the last segment, or "index.html"); it is never empty and never contains '/', so the `file === ""` test is dead |
| `NavTabs.CurrentTab` | nav.js:8-15 | the chosen tab is one of home, mine, wallet, profile; mine iff the file is index.html (or "") and the hash is "#mine"; wallet iff wallet.html; profile iff profile.html |
| `NavTabs.NavCurrent` | nav.js:5-15 | for an address, mine iff the lower-cased file is index.html and the lower-cased hash is exactly "#mine"; home iff the file is neither wallet.html nor profile.html and the address does not select mine |
| `NavTabs.NavCaseInsensitive` | nav.js:5-6 | for every pathname and hash, lower-casing both first selects the same tab: file and hash are matched case-insensitively |
| `NavTabs.LastSegmentLower` | nav.js:5 | taking the last path segment commutes with lower-casing, since '/' is not a letter |
| `NavTabs.UpperCaseWallet` | nav.js:5-12 | "/app/WALLET.HTML" selects the wallet tab |
| `NavTabs.UpperCaseMine` | nav.js:5-10 | "/app/" with hash "#MINE" selects the mine tab |
| `NavTabs.SwitchAllSelects` | nav.js:17-21 | after the loop each tab is active iff its `data-tab` equals the current name, `aria-current` is "page" for those and "false" for all others, and no label changes |
| `NavTabs.OnlyKnownTabsActive` | nav.js:8-21 | an active tab's `data-tab` is one of the four names, and an unrecognised file name leaves only "home" tabs active |
| `NavTabs.SwitchAllIdempotent` | nav.js:17-21 | running the loop again on its own result changes nothing |
| `NavTabs.SwitchTabs` | nav.js:17-21 | the in-place `forEach` leaves the tab array equal to `SwitchAll` of its previous contents |
| `NavTabs.UpdateNavTabs` | nav.js:1-22 | an empty tab list is left unchanged; otherwise the in-place handler leaves the array equal to `SwitchAll` of its previous contents for the address's current tab |

## Left out

- Rendering and wiring: `$` and `setChip`, the text fields the handlers fill (address, chain info, message preview, Telegram id view), `loadMy`'s list rendering, `copyAddr`, `initUi` and the page bootstrap. Chips and buttons appear only as abstract values and flags.
- Wallet and ethers calls (`eth_requestAccounts`, `getSigner`, `getAddress`, `getNetwork`, `signMessage`, `wallet_switchEthereumChain`, `toBeHex`): each is reduced to its outcome. Signature cryptography and hex encoding are not modelled.
- `Date`/`toISOString` and `Math.random().toString(36)`: the timestamp and nonce are parameters.
- JavaScript `Number(...)` coercion. Telegram ids and chain ids are optional integers; NaN, non-integral numbers and numbers of 1e21 or more are not modelled.
- `Wallet.ConfigOf`: a `chainId` sent as a JSON string or boolean is treated as absent rather than coerced.
- `Text.Lower`: only ASCII letters are lower-cased; the rest of Unicode case mapping is not modelled.
- `Wallet.Short`, `NavTabs.NavFile`: strings are sequences of Unicode scalar values, while JavaScript's `slice`, `split`, `length` and `toLowerCase` work on UTF-16 code units with full Unicode case mapping. The short address and the file name agree with the source only on text without characters outside the Basic Multilingual Plane, and lower-casing only on ASCII letters.
- Property look-ups that would reach the prototype chain: `res.ok` and `res.status` on a non-object reply are taken as undefined.
- Asynchronous interleaving of the handlers: each handler is one sequential step.
- The Telegram host script (`tg-webapp-init.js`): host plumbing with no decision logic. It is not part of this model.
- Token allowances, token metadata, discovery and adding an unknown network: the modelled files contain no code for them.
