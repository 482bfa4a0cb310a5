# Georgia State Roleplay portal: login gate and Discord log formatting

This project models two parts of the portal in Dafny and proves properties of them.

- **The Discord login gate of `server.js`.** The server runs the authorization-code grant of RFC 6749:
  - the authorize redirect (section 4.1.1);
  - the callback with its error response (section 4.1.2.1);
  - the token request (section 4.1.3).

  After the grant it fetches the user's profile and guild membership and applies the configured role gate. Then it stores the user in the session. On every `GET /api/me` it fetches the membership again. That re-check either refreshes the stored display name or destroys the session. `POST /api/logout` destroys the session.
- **The text of the Discord webhook message built by `public/script.js`.** This covers:
  - the rewrite of Discord ids into `<@id>` mentions in fields labelled "Discord ID";
  - the per-field blocks and the `*n/a*` placeholder;
  - the description, the title and the footer;
  - the guard of the submit handler that decides whether a message is sent at all.

Modules:

- `Js` (`js.dfy`): the JavaScript value and string operations the code relies on. These are truthiness, `|| null`, `trim`, `toLowerCase`, `startsWith`, `includes`, `split` on one character, and `join`.
- `Access` (`access.dfy`): the pure decisions of `server.js`:
  - the allowed-role list parsed from `DISCORD_ALLOWED_ROLE_IDS`;
  - the role gate;
  - the `displayName` fallback chain.
- `Gateway` (`gateway.dfy`): the four routes.
  - Each call to Discord is an abstract outcome, `Ok(body)`, `NotOk` (a non-2xx status) or `Threw` (an exception). A `Provider` value supplies these outcomes.
  - The gateway records every outbound call it makes, in order. So "no token exchange is attempted" is a statement about that record.
  - The pure step functions (`CallbackStep`, `MeStep`, `LogoutStep`) give the decision table.
  - The class `SessionStore` holds the express-session store as a map from session handle to stored user. Its methods change that map step by step, as the handlers do. Each method is proved equal to its step function.
  - `Run` replays a sequence of requests; the trace lemmas (`NoResurrection`, `RevokedStaysRevoked`) are stated over it.
  - `Configure` builds the configuration, with the allowed roles parsed from the setting by `Access`.
- `Mentions` (`mentions.dfy`): `formatDiscordIdsInValue`. The global replace of `/\d{15,20}/g` is modelled as the regular-expression engine performs it: a left-to-right scan that takes the greedy match at each position.
- `Notify` (`notify.dfy`): the text and payload of `sendToDiscord`, and the submit guard of `attachFormHandlers`.

## Model

| member | source | states |
|---|---|---|
| Js.Truthy | server.js:70-74 | JavaScript truthiness of an optional string: a value is truthy exactly when it is present and not `""`, as `if (error)` and `if (!code)` test it (also used at public/script.js:47, 57, 75 and 103) |
| Js.OrNull | server.js:139 | the value or `null` (a logical or with `null`) is the value itself exactly when the value is present and non-empty, and null otherwise |
| Js.Split | server.js:16 | `split(",")` gives at least one piece; no piece holds the separator; joining the pieces with it gives the string back |
| Js.SplitJoin | server.js:16 | the other round trip: splitting a join of separator-free pieces gives the pieces back |
| Js.Trim | server.js:17 | `trim()` is the slice of the string left once a whitespace-only prefix and a whitespace-only suffix are cut off; the slice has no whitespace at either end, and is `""` exactly when the string is blank |
| Js.TrimIdempotent | server.js:17 | trimming twice is trimming once |
| Js.Lower | public/script.js:48 | `toLowerCase()` keeps the length and lowers each letter A–Z, leaving every other character alone |
| Js.StartsWith | public/script.js:103 | `s.startsWith(p)`: `p` is no longer than `s` and equals the prefix of `s` of its own length |
| Js.Join | public/script.js:76 | `xs.join(sep)`: the elements in order with `sep` between each two; no element gives `""` and one element gives that element |
| Js.Includes | public/script.js:49 | `includes(p)` is true exactly when `p` occurs at some offset |
| Access.TrimAll | server.js:17 | `.map((s) => s.trim())`: one trimmed piece per piece, in order |
| Access.DropEmpty | server.js:18 | `.filter(Boolean)` keeps exactly the non-empty strings |
| Access.ParseRoleIds | server.js:16-18 | `.split(",").map(trim).filter(Boolean)`: the comma pieces of the raw string, each trimmed, with the empty ones dropped |
| Access.AllowedRoleIds | server.js:15-18 | the list is the setting (unset reads as `""`) split on commas, each piece trimmed, empties dropped; an unset or empty setting gives no ids |
| Access.AllowedRoleIdsClean | server.js:15-18 | every id of the parsed setting is non-empty, has no surrounding whitespace and holds no comma |
| Access.RoleIdsClean | server.js:15-18 | every allowed id is non-empty, has no surrounding whitespace and holds no comma |
| Access.RoleIdsMembership | server.js:15-18 | a string is an allowed id if and only if it is non-empty and is the trimmed form of some comma-separated piece |
| Access.MemberRoles | server.js:123 | the roles of a guild member, defaulting to `[]`, as read at server.js:123 and 178: a missing `roles` field reads as no roles, a present one as itself |
| Access.SomeAllowed | server.js:126 | `memberRoles.some((id) => allowed.includes(id))` is true exactly when some held role is in the allowed list |
| Access.RoleGate | server.js:122-131 | the gate passes if and only if the allowed list is empty or some held role is allowed; a missing `roles` field counts as no roles |
| Access.RoleGateExamples | server.js:123-131 | an empty list admits a member without roles; `[A, B]` admits a holder of `B` and refuses holders of `C`, of nothing, and a member without `roles` |
| Access.DisplayName | server.js:133 | the nickname, else the global name, else the username: the first truthy of the three, in that order; the name is empty only when all three are falsy |
| Access.DisplayNameFromStored | server.js:196-199 | recomputing the name from the stored `globalName` (kept as the global name or null) gives the name the callback would compute |
| Gateway.Configure | server.js:9-18 | the configuration read at start-up: the allowed roles are exactly the parsed `DISCORD_ALLOWED_ROLE_IDS` setting, so each is a clean id; the other settings are taken as given |
| Gateway.UnsetSettingAdmitsAll | server.js:15-18 | with the role setting unset or empty, the gate admits every guild member, whatever roles it holds |
| Gateway.AuthorizeParams | server.js:53-59 | the authorize query has exactly the five parameters `client_id`, `redirect_uri`, `response_type=code`, `scope=identify`, `prompt=none` |
| Gateway.Login | server.js:52-63 | `/api/login` redirects to Discord's authorize endpoint with exactly the authorize query: the configured client id and redirect URI, `response_type=code`, `scope=identify` and `prompt=none` |
| Gateway.TokenForm | server.js:83-89 | the token request carries `grant_type=authorization_code`, the received code and the client secret |
| Gateway.TokenFormMatchesAuthorize | server.js:53-59 | the token request names the same client id and redirect URI as the authorize redirect |
| Gateway.Authenticate | server.js:66-149 | no outbound call when an `error` is present or the `code` is missing; otherwise the token exchange comes first. A user is admitted if and only if the token exchange, profile fetch, member fetch and role gate all succeed. The admitted record is `{id, username, discriminator, global_name or null, displayName, avatar or null}`, reached through exactly those three calls. Every failure ends the request at once, with no retry: a failed token exchange leaves only that call on record, a failed profile fetch the two calls so far, and after a successful profile fetch exactly the three calls are made |
| Gateway.SessionRecord | server.js:135-142 | the stored user: id, username and discriminator of the profile, the global name or null, the display name from the member nickname, global name and username, and the avatar or null |
| Gateway.CallbackStep | server.js:66-149 | admission redirects to `/` and writes the user under the handle; every other outcome redirects to `/unauthorized.html` and leaves the store exactly as it was |
| Gateway.CallbackErrorDenies | server.js:70-73 | a callback carrying `error` makes no call, writes nothing and redirects to `/unauthorized.html` |
| Gateway.SessionStore.Callback | server.js:66-149 | the handler, with its early returns, leaves the store, answer and calls that `CallbackStep` gives; on success only the handle's entry changes |
| Gateway.Recheck | server.js:177-203 | the session survives if and only if the member re-fetch succeeds and the role gate passes; only `displayName` changes, recomputed from the fresh nickname |
| Gateway.MeStep | server.js:151-210 | no stored user: 401, nothing fetched or destroyed. Otherwise the member is fetched once; failure, exception or a denied gate destroys the session and answers 401; success answers `{ok: true, user}` with the refreshed record. Other sessions are never touched |
| Gateway.SessionStore.Me | server.js:151-210 | the handler changes the store as `MeStep` says; a 401 removes the handle and nothing else; a success changes only the handle's `displayName` |
| Gateway.LogoutStep | server.js:212-216 | logout removes the handle whether or not it had a session, touches no other session and always answers `{ok: true}` |
| Gateway.SessionStore.Logout | server.js:212-216 | the handler leaves no session under the handle and answers `{ok: true}`, as `LogoutStep` says |
| Gateway.Serve | server.js:52-216 | the route table: `GET /api/login` answers the login redirect and changes nothing; `GET /api/callback`, `GET /api/me` and `POST /api/logout` are their step functions |
| Gateway.LogoutIdempotent | server.js:212-216 | logging out twice is the same as logging out once |
| Gateway.Admits | server.js:66-145 | a request that writes a user under its handle: a callback whose authentication admits the user |
| Gateway.ServeCreatesOnlyByCallback | server.js:135 | only a callback on a handle whose authentication admits the user can give that handle a session |
| Gateway.ServeKeepsOut | server.js:66-150 | a request that does not admit on a handle without a session, a denied callback included, leaves it without one |
| Gateway.NoResurrection | server.js:152-154 | a handle without a session keeps none across any requests that hold no admitting callback on it (denied callbacks may occur), and each of its `/api/me` requests answers 401 |
| Gateway.RevokedStaysRevoked | server.js:165-193 | after a re-check answers 401, every later `/api/me` on that handle answers 401 until a callback on it admits the user; denied callbacks in between change nothing |
| Gateway.RoleLossRevokes | server.js:180-192 | a member whose only allowed role is removed passes one re-check and loses the session on the next |
| Mentions.IsDigit | public/script.js:50 | the regex class `\d`: the ASCII digits `0` to `9` |
| Mentions.DigitRun | public/script.js:50 | the length of the digit run a string starts with: all digits up to it, a non-digit (or the end) at it |
| Mentions.Step | public/script.js:50 | each step of the global search advances by at least one character and at most to the end |
| Mentions.Scan | public/script.js:50 | the global search for `\d{15,20}`, left to right and greedy: the value cut into passed-over characters and matches, in order |
| Mentions.Replaced | public/script.js:50 | the replacer callback: a match `id` becomes `<@id>`, a passed-over character stays as it is |
| Mentions.WrapIds | public/script.js:50 | `value.replace(/\d{15,20}/g, …)`: each piece of the search replaced and the results joined in order |
| Mentions.ScanUnwrap | public/script.js:50 | the rewrite only inserts wrappers: deleting each `<@`…`>` pair gives the original value, with nothing dropped or reordered |
| Mentions.ScanMatchesAreIds | public/script.js:50 | every match the search finds is 15 to 20 ASCII digits |
| Mentions.ScanAppend | public/script.js:50 | the search never looks past a non-digit: scanning a value cut right after one scans the two parts separately |
| Mentions.WrapIdsAppend | public/script.js:50 | the replacement works on the parts either side of a non-digit independently |
| Mentions.WrapIdsRun | public/script.js:50 | a digit run shorter than 15 stays as it is; 15 to 20 digits become one mention; a longer run has its first 20 digits wrapped, and the rest is searched again |
| Mentions.ScanRunThen | public/script.js:50 | a digit run ended by a non-digit is searched as if it stood alone, and the non-digit is passed over |
| Mentions.WrapIdsRunThen | public/script.js:50 | inside a value, a digit run followed by a non-digit is replaced as a whole run is, the non-digit is kept, and the rest of the value is replaced on its own |
| Mentions.WrapTwoIds | public/script.js:50 | two ids separated by `", "` are each wrapped as a mention |
| Mentions.WrapIdsNoIdRun | public/script.js:50 | a value with no run of 15 or more digits comes back unchanged |
| Mentions.FormatDiscordIds | public/script.js:46-51 | a falsy value, or a label whose lower-cased form does not contain "discord id", comes back unchanged; otherwise every id is wrapped |
| Mentions.FormatOnlyInserts | public/script.js:46-51 | for any label, formatting keeps a value present or absent, and the formatted value is the original with wrappers inserted |
| Mentions.FormatExample | public/script.js:46-51 | an 18-digit id in a "Discord ID" field becomes `<@id>`; in a "Callsign" field it is left alone |
| Notify.ShownValue | public/script.js:56-59 | a value that is missing, empty or whitespace only shows as `*n/a*`; any other is shown verbatim; the shown text is never blank |
| Notify.Block | public/script.js:54-61 | a block is `**key:**` and a line break followed by the shown, mention-formatted value |
| Notify.Blocks | public/script.js:54-61 | exactly one block per field, in the order of the fields |
| Notify.Description | public/script.js:63-76 | the header, an empty line and the blocks joined with `"\n\n"`: header plus one separator with no field, otherwise header, two separators and the joined blocks |
| Notify.Title | public/script.js:75 | the form name when it is truthy, else `Portal Submission` |
| Notify.Signature | public/script.js:69 | the display name when it is non-empty, else the username |
| Notify.Footer | public/script.js:69 | `Submitted by <name> (<username>#<discriminator>)`, then the vertical-bar separator, `ID: ` and the id, slice by slice |
| Notify.BuildPayload | public/script.js:71-82 | the webhook message: username `Portal Logs` and one embed with the title, the description, colour `0xf97316` and the footer |
| Notify.Submit | public/script.js:97-120 | refused if and only if no user is logged in (checked first); refused if and only if the webhook is missing, empty or starts with `YOUR_`; otherwise posted to that webhook with username `Portal Logs`, the title, description, footer and colour `0xf97316` |

## Left out

- Session ids: after `req.session.destroy`, express-session gives the browser a new session id on its next saved session, and the old id maps to nothing. Here a `Handle` names one browser's session across destroy and re-login, so `NoResurrection` and `RevokedStaysRevoked` are statements about that browser's session, not about one cookie value.
- Session expiry (the 10-minute `maxAge`), cookie signing and the MemoryStore belong to express-session, whose code is not part of this model. A session handle is an opaque string, and a session never expires on its own here.
- The percent-encoding that `URLSearchParams` applies to the authorize URL and the token form. Only the parameter set and its values are modelled.
- Concurrency: `async`/`await`, overlapping requests, and the callbacks of `req.session.destroy`. Each request is served whole, one after another.
- Gateway.Configure: settings other than the role list are taken as strings. An unset client id, secret, bot token or guild id, which JavaScript would turn into the text `undefined` in a URL or form, is not modelled.
- Logging, warnings, the text bodies of failed Discord replies, and configuration loading. This includes `dotenv`, the default redirect URI at server.js:11-12, and the missing-setting warnings at server.js:20-27. `express.static` and `app.listen` are also left out. The configuration is a `Config` value.
- The HTTP calls to Discord. Each is an abstract outcome supplied by a `Provider`, and one `Provider` answers for one request. A token reply without `access_token` is modelled as whatever string the reply carries.
- Gateway.Authenticate: a query parameter that arrives as an array (`?code=a&code=b`) is not modelled. The query holds at most one string per key.
- The webhook POST, its error on a non-2xx status, and the status text, button disabling and `form.reset` of the submit handler. So are the UI functions of public/script.js (`checkAuth`, the overlays, `showPage`, the tabs) and the `currentUser` global, which is a parameter here.
- The embed `timestamp` (`new Date().toISOString()`) and the JSON serialisation of the payload.
- Notify.Blocks: form values that are `File` objects are not modelled; every field value is a string or absent.
- Js.Trim: whitespace is the ASCII set (space, tab, line feed, carriage return, vertical tab, form feed). Unicode spaces that `trim` also removes are not modelled.
- Js.Lower: only the letters A–Z are lowered. The full Unicode case mapping of `toLowerCase` is not modelled.
