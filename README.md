# Provisioning core of a VPN-key Telegram bot, in Dafny

The bot lets its admins hand out VPN keys from two panels. The first is a 3x-ui panel, which
serves VLESS tunnels. The second is a Marzban panel, which serves Shadowsocks ("Outline") keys.
This project models the logic behind the chat:

- `config.dfy` (module `Config`): the admin list parsed from the comma-separated `ADMIN_IDS`
  setting, and `is_admin`.
- `vless_link.dfy` (module `VlessLink`): the typed `streamSettings` of a 3x-ui inbound and
  the builder of the `vless://<uuid>@<host>:<port>?<params>#<remark>` link. Every optional
  key is an `Option`, so "key absent, default used" is kept apart from "key present but
  empty". The query is built step by step, as the source builds it. It is proved equal to
  a reference list: the keys in their one fixed order, each present exactly when its
  transport or security kind calls for it. The link is also proved to read back, through
  a client-side parser, into its uuid, host, port, parameters and remark, when the uuid
  has no `@` and no parameter value holds `&` or `#`. The source joins the values as they
  are, with no percent-encoding, so a value such as the ws path `/ray#1` does not read back.
- `xui_panel.dfy` (module `XuiPanel`): the 3x-ui client class `VlessClient`. It covers the
  session cookie, lazy login, and a single re-login and resend when the answer's `msg`
  mentions "login". It also covers `create_client` and `get_client_link`.
- `marzban_panel.dfy` (module `MarzbanPanel`): the Marzban client class `MarzbanClient`. It
  covers the bearer token, and a single re-login and resend on HTTP 401. It also covers
  the status mapping, and `create_user` with its catalogue fold and shadowsocks fallback.
- `bot.dfy` (module `Bot`): the plans, `sanitize_username`, the data label, and the
  pending-plan state set by the buttons and read by the text handler. It also covers the
  VLESS key flow, the multi-key Outline batch, and the quick commands.
- `text.dfy`, `units.dfy`, `wrappers.dfy`: ASCII models of the Python string methods used,
  the byte and timestamp arithmetic, and `Option`.

Each panel's HTTP client is modelled as an oracle. The panel is a sequence of replies,
handed out one per exchange in order. Once the sequence is used up, every exchange fails
as a refused connection. Each client object keeps a ghost log of its exchanges. Each
method is proved equal to a pure step function over the client's `State`. The properties
are proved about those step functions:

- Resend at most once.
- No request without a prior successful login.
- Every request carries the credential that the most recent login stored.
- The result is the last reply's answer.

Where the code and its design description disagree, the model follows the code:

- The clients let transport exceptions escape `_request`, so the model returns them as a
  `Raised` outcome rather than a failure result.
- `_request` returns the second reply as it is, even when it is unsuccessful again.
- There is no guard against concurrent re-logins, and none is modelled.
- `sanitize_username` promises 3 to 32 characters, but the proved contract is weaker: at
  most 32 characters, all from `[a-z0-9_]`. An empty name at clock second 7 gives `"_7"`
  (`Bot.SanitizeBelowMinimum`).
- `get_client_link` takes the host from `VLESS_PANEL_URL`, which is also the client's
  `base_url`. The model reads it from `baseUrl`.
- `config.py` defines `VLESS_INBOUND_ID`, but the other files import `VLESS_INBOUND_IDS`.
  The plan-to-inbound map is therefore an input (`Bot.Chat.inboundIds`).

## Model

| member | source | states |
|---|---|---|
| `Config.AdminId` | config.py:10-14 | a token gives an id exactly when, stripped, it is a non-empty run of ASCII digits; the id is non-negative |
| `Config.AdminIdPadded` | config.py:11-13 | whitespace around a token does not change the id it gives |
| `Config.AdminIdOfNumber` | config.py:10-14 | a rendered natural number, however padded, is read back as that number |
| `Config.IdsOf` | config.py:10-14 | an id is in the list exactly when some token gives it; there are no more ids than tokens |
| `Config.IdsOfAppend` | config.py:10-14 | the list of ids follows token order (concatenation of tokens gives concatenation of ids) |
| `Config.AdminIds` | config.py:10-14 | every admin id is non-negative (a sign makes a token invalid) |
| `Config.AdminIdsOfEmpty` | config.py:10-14 | an empty setting gives no admins |
| `Config.AdminIdsOfToken` | config.py:10-14 | a setting without a comma gives its own id or nothing |
| `Config.AdminIdsGlued` | config.py:10-14 | the ids of `a,b` are the ids of `a` followed by those of `b` |
| `Config.IsAdmin` | config.py:31-33 | a user is admin exactly when some comma-separated token of the setting gives their id |
| `Units.CapBytes` | vless_api.py:116 | the cap is non-negative, 0 exactly for a non-positive plan value, and otherwise exactly `gb * 1024^3` bytes |
| `Units.ExpiryMillis` | vless_api.py:115 | the 3x-ui expiry is `(now + days*86400) * 1000` truncated to whole milliseconds |
| `Units.ExpirySeconds` | marzban_api.py:121 | the Marzban expiry is `now + days*86400` truncated to whole seconds |
| `Units.SameExpiryInstant` | vless_api.py:115 | the 3x-ui milliseconds, cut to seconds, equal the Marzban seconds for the same plan and clock |
| `Units.HalfGigabyte` | marzban_api.py:122 | the trial plans' 0.5 GB is exactly 2^29 bytes |
| `VlessLink.KeyNamesDistinct` | vless_api.py:177-216 | different link parameters have different names |
| `VlessLink.BuildParams` | vless_api.py:174-218 | the step-by-step parameter list equals the reference list: type, security, then the transport's and security layer's keys in the one fixed order |
| `VlessLink.AppendTransportParams` | vless_api.py:179-192 | the transport part appends exactly the reference transport entries after the given list |
| `VlessLink.AppendSecurityParams` | vless_api.py:194-216 | the security part appends exactly the reference security entries after the given list |
| `VlessLink.TransportEntriesByNetwork` | vless_api.py:180-192 | ws gives path (default `/`) and host (default the server); grpc gives serviceName (default empty); tcp gives headerType (default `none`); any other network gives nothing |
| `VlessLink.SecurityEntriesTls` | vless_api.py:195-204 | TLS gives sni (default the server), then fp only if non-empty, then the comma-joined alpn only if non-empty |
| `VlessLink.SecurityEntriesReality` | vless_api.py:205-216 | Reality gives sni (first server name or empty), fp (default `chrome`) and pbk, then sid and spx only if non-empty |
| `VlessLink.SecurityEntriesOther` | vless_api.py:194-216 | any other security value gives no security parameters |
| `VlessLink.CanonicalParamsEntries` | vless_api.py:177-216 | every parameter of the query is a known key that is present, with its value |
| `VlessLink.CanonicalParamsComplete` | vless_api.py:177-216 | every known key that is present appears in the query with its value |
| `VlessLink.ServerAddress` | vless_api.py:171 | the host is the text after the first `://` up to the next `:`, has no `:`, and is absent exactly when the URL has no `://` |
| `VlessLink.ServerAddressOfUrl` | vless_api.py:171 | `scheme://host` followed by nothing or by `:port...` gives `host` |
| `VlessLink.ParseLinkOfPieces` | vless_api.py:218-219 | a link assembled from pieces free of the later separators parses back into those pieces |
| `VlessLink.LinkRoundTrip` | vless_api.py:218-219 | the link of a uuid and an inbound parses back to the uuid, host, port (default 443), parameters in order and remark (default `vless`), when the uuid has no `@` and no parameter value holds `&` or `#` (values are not percent-encoded) |
| `XuiPanel.LoginFacts` | vless_api.py:30-53 | a refused login leaves the cookie unchanged; a successful one keeps the non-empty `3x-ui` cookie, else the first cookie set, and keeps one exactly when the reply set one |
| `XuiPanel.RequestNeedsSession` | vless_api.py:55-64 | with no cookie held, the first exchange is a login; if that login is refused, nothing is sent, AuthFailed is raised and the cookie is unchanged |
| `XuiPanel.RequestSendsCall` | vless_api.py:62-80 | `_request` sends only the call it was given |
| `XuiPanel.RequestRetriesOnce` | vless_api.py:72-80 | the call is sent at most twice; a second send is the last exchange, follows a "login"-mentioning failure and a successful re-login, and carries that login's cookie |
| `XuiPanel.RequestResult` | vless_api.py:62-83 | an answer is the last request's reply as-is (never an expired one when sent once); AuthFailed iff the last login was refused; a transport failure is the last request's exception |
| `XuiPanel.RequestKeepsSession` | vless_api.py:55-80 | every request ever sent carries the cookie stored by the most recent successful login before it |
| `XuiPanel.CreateClientFacts` | vless_api.py:92-155 | only addClient requests to the inbound, each with exactly one client whose id is the generated uuid and whose email is the label, with the cap and expiry, enabled, and with empty flow, tgId and subId and reset 0; success iff the panel's last answer is success, otherwise its `msg` or "Unknown error" |
| `XuiPanel.CreateClientEchoes` | vless_api.py:142-151 | a reported client echoes the uuid, email, IP limit, traffic cap and expiry days it was created with |
| `XuiPanel.GetClientLinkPrefix` | vless_api.py:219 | a found link starts with `vless://<uuid>@` |
| `XuiPanel.GetClientLinkFacts` | vless_api.py:157-221 | only the inbound is fetched; None exactly when its answer is unsuccessful; otherwise the link of the inbound sent (empty defaults when missing), which parses back to its parts when the uuid has no `@` and no parameter value holds `&` or `#` |
| `XuiPanel.VlessClient.constructor` | vless_api.py:22-28 | a new client holds no cookie and has made no exchange |
| `XuiPanel.VlessClient.Login` | vless_api.py:30-53 | behaves as the login step and keeps the session invariant |
| `XuiPanel.VlessClient.EnsureLoggedIn` | vless_api.py:55-60 | behaves as the ensure step; after success the held cookie is the last login's |
| `XuiPanel.VlessClient.Send` | vless_api.py:69 | one exchange carrying the held cookie |
| `XuiPanel.VlessClient.Request` | vless_api.py:62-83 | behaves as the request step and keeps the session invariant |
| `XuiPanel.VlessClient.CreateClient` | vless_api.py:92-155 | behaves as the create-client step and keeps the session invariant |
| `XuiPanel.VlessClient.GetClientLink` | vless_api.py:157-221 | builds the link with the step-by-step parameter list; equals the get-link step |
| `MarzbanPanel.HttpErrorParts` | marzban_api.py:89-92 | the error text `HTTP <code>: <text>` splits back into its code part and body part at its first colon |
| `MarzbanPanel.LoginFacts` | marzban_api.py:27-54 | the token is set only on a 200 with a JSON object, and then to its `access_token`; otherwise it is unchanged and login is false |
| `MarzbanPanel.RequestNeedsSession` | marzban_api.py:56-65 | with no token held, the first exchange is a login; if it fails, nothing is sent and AuthFailed is raised |
| `MarzbanPanel.RequestSendsCall` | marzban_api.py:63-84 | `_request` sends only the call it was given |
| `MarzbanPanel.RequestRetriesOnce` | marzban_api.py:77-84 | the call is sent at most twice; a second send is the last exchange, follows a 401 and a successful re-login, and carries that login's token |
| `MarzbanPanel.RequestResult` | marzban_api.py:63-95 | success with the data iff the last reply is 200 or 201 with JSON; `HTTP <code>: <text>` iff any other status, a second 401 included |
| `MarzbanPanel.RequestKeepsSession` | marzban_api.py:56-84 | every call ever sent carries the token stored by the most recent successful login before it |
| `MarzbanPanel.NormaliseTags` | marzban_api.py:137-140 | one output per element, in order: an object's `tag`, else the element itself |
| `MarzbanPanel.NormaliseTagsIdempotent` | marzban_api.py:137-140 | normalising twice equals normalising once |
| `MarzbanPanel.ProtocolNamedKey` | marzban_api.py:133-153 | a catalogue key names a protocol exactly when its lower-cased form is that protocol's key |
| `MarzbanPanel.FoldKey` | marzban_api.py:132-158 | a protocol gets a proxy and a tag list exactly when some catalogue entry names it, and the proxy has that protocol's fixed settings |
| `MarzbanPanel.FoldTags` | marzban_api.py:132-158 | a protocol's tags are the normalised tags of the last entry naming it |
| `MarzbanPanel.ProxyConfigFacts` | marzban_api.py:129-163 | there is always a proxy; tags only for proxied protocols; no known protocol gives shadowsocks alone with no inbounds; otherwise exactly the named protocols |
| `MarzbanPanel.FixSubscriptionUrl` | marzban_api.py:186-187 | the URL is kept or prefixed with the base URL |
| `MarzbanPanel.FixSubscriptionUrlFacts` | marzban_api.py:185-187 | with an http base, the result is empty or starts with `http`; fixing again changes nothing; an `http` URL and an empty URL are kept |
| `MarzbanPanel.CreateUserPayload` | marzban_api.py:121-175 | every posted user has the username, expiry in whole seconds, cap in bytes, `no_reset`, `active`, a non-empty proxies map, and inbounds only for proxied protocols |
| `MarzbanPanel.CreateUserNamed` | marzban_api.py:189-197 | a created user carries the requested username |
| `MarzbanPanel.CreateUserResult` | marzban_api.py:175-201 | success iff the user post got 200 or 201 with a JSON object, with the plan echoed, the fixed subscription URL and the links; otherwise the `_request` error |
| `MarzbanPanel.MarzbanClient.constructor` | marzban_api.py:20-25 | a new client holds no token and has made no exchange |
| `MarzbanPanel.MarzbanClient.Login` | marzban_api.py:27-54 | behaves as the login step and keeps the session invariant |
| `MarzbanPanel.MarzbanClient.EnsureLoggedIn` | marzban_api.py:56-61 | behaves as the ensure step and keeps the session invariant |
| `MarzbanPanel.MarzbanClient.Send` | marzban_api.py:73-75 | one exchange carrying the held token |
| `MarzbanPanel.MarzbanClient.Request` | marzban_api.py:63-95 | behaves as the request step and keeps the session invariant |
| `MarzbanPanel.MarzbanClient.GetInbounds` | marzban_api.py:97-102 | the catalogue on success, and empty on any failure |
| `MarzbanPanel.MarzbanClient.BuildProxyConfig` | marzban_api.py:127-163 | the in-place loop over the catalogue and the fallback give exactly the reference proxy configuration |
| `MarzbanPanel.MarzbanClient.CreateUser` | marzban_api.py:104-201 | behaves as the create-user step and keeps the session invariant |
| `MarzbanPanel.MarzbanClient.PostUser` | marzban_api.py:165-201 | posts the payload built from the catalogue and reads the reply |
| `Bot.DataLabelUnlimited` | bot.py:383 | the label is "Unlimited" exactly when the plan's cap is 0 |
| `Bot.TrialPlanData` | bot.py:79-85 | both trial plans are 0.5 GB, shown as "512 MB" and sent as 2^29 bytes |
| `Bot.PlansWellFormed` | bot.py:57-117 | every VLESS plan has a device limit of at least 1; every Outline plan has a key count of at least 1 |
| `Bot.PlanPrefixes` | bot.py:57-117 | every VLESS plan key starts with `vless_` and not `outline_`, every Outline plan key the other way round, so the callback's prefix test reaches the right plan table |
| `Bot.KeepAllowed` | bot.py:124 | only characters of `[a-z0-9_]` are kept; the result is no longer than the input |
| `Bot.Sanitize` | bot.py:122-127 | the result has at most 32 characters, all from `[a-z0-9_]` |
| `Bot.SanitizeLong` | bot.py:124-127 | with at least 3 kept characters, the result is their first 32 |
| `Bot.SanitizeShort` | bot.py:125-127 | with fewer than 3, the result is those characters, `_` and the clock's seconds mod 10000; its length is 2 to 7 |
| `Bot.SanitizeBelowMinimum` | bot.py:123-127 | an empty name at clock second 7 gives `_7`, which is shorter than the documented minimum of 3 |
| `Bot.SanitizeIdempotent` | bot.py:124-127 | sanitising a result of 3 or more characters again changes nothing, whatever the clock |
| `Bot.ButtonFacts` | bot.py:235-316 | only an admin's press of a known plan sets the pending state, to that plan and the creation its prefix calls for; non-admins are denied |
| `Bot.DispatchFacts` | bot.py:319-338 | the support text always shows support; a key is created from text only for an admin, as `pending_action` says, with the stripped text |
| `Bot.VlessKeyPending` | bot.py:341-358 | with no plan, or a plan with no inbound id, the flow replies with an error, makes no exchange and keeps the pending keys; otherwise it clears all three |
| `Bot.VlessKeyReport` | bot.py:360-402 | a created key reports the sanitised name, the generated uuid and the plan's numbers; its link starts with `vless://<uuid>@` |
| `Bot.KeyUsernamesDistinct` | bot.py:448-453 | with several keys, different attempts use different usernames |
| `Bot.Partition` | bot.py:462-468 | every attempt ends in exactly one of the created and error lists, so their sizes add up to the number of attempts |
| `Bot.Attempts` | bot.py:448-469 | the batch makes exactly `n` attempts, numbered in order; attempt `i` reports the username `base_i` (or `base` for one key) |
| `Bot.OutlineKeyFacts` | bot.py:424-508 | without a plan nothing is sent; with one, the pending state is cleared, one attempt is made per key, the client's state and exchanges are the attempts', and the reply reports them as `Bot.ReportFacts` states |
| `Bot.ReportFacts` | bot.py:462-490 | the success report shows iff some attempt succeeded; it lists exactly the successful users in attempt order and one `Key <i>: <reason>` line per failed attempt `i` in order, with the plan's data label and days; when every attempt failed, the lines are `Key 1` to `Key n`, one per attempt |
| `Bot.Picked` | bot.py:450-468 | the positions of the successful (or failed) attempts, increasing, each with that outcome |
| `Bot.PickedCovers` | bot.py:450-468 | every attempt with that outcome is among those positions |
| `Bot.SuccessesInOrder` | bot.py:462-463 | `created_users` is the successful results, position by position in attempt order |
| `Bot.FailureLinesInOrder` | bot.py:464-468 | `errors` holds, position by position, `Key <i>: <reason>` for the failed attempts `i` in attempt order |
| `Bot.AllFailedLines` | bot.py:464-468 | when no attempt succeeded, `errors` is `Key 1: …` to `Key n: …`, one line per attempt |
| `Bot.PlanKeyFound` | bot.py:534-538 | a quick command finds a plan exactly for basic, silver, golden or trial, in any ASCII case |
| `Bot.Chat.constructor` | bot.py:53-54 | a chat starts with no pending action, plan or plan info |
| `Bot.Chat.ButtonCallback` | bot.py:235-316 | updates the pending state as the button step says |
| `Bot.Chat.CreateVlessKey` | bot.py:341-421 | behaves as the VLESS-key step on the pending state and the 3x-ui client |
| `Bot.Chat.CreateOutlineKey` | bot.py:424-514 | behaves as the Outline-key step on the pending state and the Marzban client |
| `Bot.Chat.MakeKeys` | bot.py:445-469 | the loop's created and error lists are exactly the successes and numbered failures of the attempts |
| `Bot.Chat.HandleText` | bot.py:319-338 | routes the text as the dispatch says; support and ignored texts leave the pending state and both clients as they were, the VLESS flow leaves the Marzban client untouched and the Outline flow the 3x-ui client |
| `Bot.Chat.QuickCreateVless` | bot.py:519-546 | refuses non-admins, short argument lists and unknown plans, leaving the pending state and the 3x-ui client as they were; otherwise selects the plan and runs the VLESS-key flow |
| `Bot.Chat.QuickCreateOutline` | bot.py:549-575 | the same for the Outline flow and the Marzban client, setting only the plan info |

## Left out

- HTTP, JSON and cookies: requests, response objects, the cookie jar, the 30-second
  timeout and TLS verification are not modelled. Panel replies are abstract values from
  an oracle, and `streamSettings` arrive already decoded into a typed record. A body that
  is not JSON, or a non-object where an object is read, is modelled only where the code
  branches on it.
- Randomness and the clock: `uuid.uuid4()` and `time.time()` are method parameters
  (`clientUuid`, `now`).
- One clock reading per handler: the source calls `time.time()` several times in one
  flow (sanitising, the stamped name, each `create_user`). The model uses one `now` for
  all of them.
- Floats: plan caps are exact `real`s and `int()` is truncation toward zero. IEEE
  rounding is not modelled.
- Python `str.lower`, `str.isdigit` and `str.strip` are modelled for ASCII only. Non-ASCII
  case mappings, digits and whitespace (such as U+00A0) are left out.
- Telegram UI: keyboards, Markdown texts, progress-message edits, `start_command`,
  `help_command`, `support_message`, `error_handler` and `main` are not modelled. Handlers
  return the kind of reply they send, with the values it shows.
- Concurrency: the handlers and clients are async, but the model is sequential. The
  source has no lock around re-login, and the model adds none.
- Environment reading: the `ADMIN_IDS` setting, the panel URLs and the plan-to-inbound
  map are inputs. `os.getenv` and `load_dotenv` are not modelled.
- `get_inbounds` of the 3x-ui client, and `get_user`, `delete_user` and `close` of both
  clients, are thin wrappers. They are not modelled.
- Logging is not modelled.
- `Bot.FailureMessage`: for exceptions raised by libraries, the model uses a stand-in
  text. Only the authentication message is the source's own.
- `Bot.Sanitize`: its contract is weaker than the docstring's "3-32 chars" because the
  code does not meet that minimum (see `Bot.SanitizeBelowMinimum`).
