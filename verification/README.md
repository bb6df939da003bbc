# WireGuard panel and V2Ray sales bot — a Dafny model

The repository is a VPN business in three parts:

- **The WireGuard admin API** (FastAPI, MongoDB). Administrators log in with JWT bearer tokens. They create WireGuard clients, and each new client gets the next free address of the server network. The API reads per-peer traffic and handshakes from `wg show <if> dump`, classifies every client as active, disabled, expired or over its data limit, and keeps server settings behind a key whitelist.
- **The Telegram sales bot.** It sells V2Ray subscription plans. A reseller discount and a discount code lower the price; the buyer then pays from a wallet or uploads a card-to-card receipt. Referral links bind a referrer once.
- **A React admin front end.** It has pages for clients, plans, discount codes, payments, orders and bot users, plus a public subscription page, shared formatting helpers and page-by-page list requests with 50 rows per page.

The model covers the rules these parts apply:

- **The WireGuard manager** (`wireguard.dfy`): the next-address allocator, the dump parser and the client configuration writer.
- **The admin API handlers** (`admin_api.dfy`): the stores are maps inside a class, and the clock is a parameter.
- **The role gates and token claims** (`auth.dfy`).
- **The sales bot's commerce rules** (`sales_bot.dfy`): pricing, codes, orders, wallet, receipts, referrals and the conversation table.
- **The front-end helpers and page state** (`helpers.dfy` and one `*_page.dfy` per page). `pagination.dfy` holds what the list pages share.
- **Support modules:**
  - `wrappers.dfy`: `Option` and `Result`.
  - `text.dfy`: decimal text, splitting, case and trimming.
  - `js_values.dfy`: JavaScript's `parseFloat`, `parseInt` and `toFixed(2)` on exact rationals.
  - `models.dfy`: the enums of the data model.

Two points about the source itself:

- `backend/server.py` imports names that `backend/models.py` and `backend/auth.py` do not define. From `models`: `User`, `UserCreate`, `UserUpdate`, `UserInDB`, `Client`, `ClientCreate`, `ClientUpdate`, `ClientStatus` and `ServerSettings`; the `DashboardStats` that `models.py` does define has the bot's fields, not the client counts the dashboard handler fills in. From `auth`: `require_viewer`.
  - The model defines `ClientStatus` from the values the handlers and `helpers.js` use: active, disabled, expired and data_limit_reached.
  - The record shapes `ClientCreate`, `ClientUpdate` and `UserUpdate` are reconstructed from the fields the handlers read from them.
  - The handlers gated by `require_viewer` are modelled without a gate.
- Prices in the bot are `real`.

## Model

| member | source | states |
|---|---|---|
| WireGuard.NetworkOf | backend/wireguard.py:55 | the network `ip_network(.., strict=False)` builds lies inside the IPv4 space and contains the given address |
| WireGuard.BlockInRange | backend/wireguard.py:55 | a network's block (base plus size) never runs past the end of the IPv4 space |
| WireGuard.Hosts | backend/wireguard.py:56 | `hosts()` is non-empty, strictly ascending, and every host lies inside the network's block |
| WireGuard.ParseOctet | backend/wireguard.py:55 | an accepted octet is at most 255 |
| WireGuard.ParseAddress | backend/wireguard.py:55 | an accepted dotted quad is a 32-bit address |
| WireGuard.ParseAddressOfQuad | backend/wireguard.py:60 | parsing `str(host)` gives the host back |
| WireGuard.QuadInjective | backend/wireguard.py:60-61 | two hosts with the same string are the same host, so the `not in used_ips` test on strings is a test on addresses |
| WireGuard.ParsePrefix | backend/wireguard.py:55 | an accepted prefix length is at most 32 |
| WireGuard.ParseCidr | backend/wireguard.py:55 | every network the parser accepts is well formed |
| WireGuard.HostNames | backend/wireguard.py:56-60 | there is one host string per host, in `hosts()` order |
| WireGuard.ScanHosts | backend/wireguard.py:59-64 | the loop's answer is the lowest unused host after the first, with `/32` appended; every host it passes over is used; it fails only when every host after the first is used |
| WireGuard.GetNextIp | backend/wireguard.py:53-64 | a network that does not parse is an error. Otherwise the answer is the lowest free host after the first, as `<host>/32`; its address part is not in `used_ips` and is never the first host. Exhaustion is an error |
| WireGuard.HostNameAddressPart | backend/wireguard.py:62 | the text before `/` of `<host>/32` is the host string |
| WireGuard.NextIpNotFirst | backend/wireguard.py:58-59 | no host after the first renders like the first host |
| WireGuard.Unless | backend/wireguard.py:85-91 | a field equal to its sentinel is `None`; any other field is kept as it is |
| WireGuard.PeerSentinels | backend/wireguard.py:83-92 | a peer line builds an entry exactly when `int()` accepts the handshake (unless it is "0") and both byte counters; `(none)`, `0` and `off` become `None`; rx and tx are the parsed integers |
| WireGuard.ErrorSticks | backend/wireguard.py:80-92 | a `ValueError` from one line escapes the loop: the whole parse fails with it, whatever follows |
| WireGuard.GetInterfaceStats | backend/wireguard.py:66-96 | the loop computes the specified map; `wg` missing or a non-zero exit code gives the empty map |
| WireGuard.InterfaceLineSkipped | backend/wireguard.py:77-80 | a dump that holds only the interface line yields no peers |
| WireGuard.ShortLineIgnored | backend/wireguard.py:81-82 | a line with fewer than eight tab-separated fields leaves the map unchanged |
| WireGuard.StepFailsOnBadLine | backend/wireguard.py:81-92 | one line fails exactly when it is a peer line with a field `int()` rejects |
| WireGuard.StatsFailIff | backend/wireguard.py:80-92 | the parse fails if and only if some peer line has a field `int()` rejects |
| WireGuard.KeysFromPeerLines | backend/wireguard.py:80-84 | every key of the map is the first field of some peer line |
| WireGuard.LastLineWins | backend/wireguard.py:83-84 | for a repeated public key, the entry is the one built from the last line that names it |
| WireGuard.UsageOfLastLine | backend/wireguard.py:98-103 | the usage reported for a key is the rx and tx of the last dump line naming it |
| WireGuard.UsageOfUnknownKey | backend/wireguard.py:101-103 | a key no peer line names reports (0, 0) |
| WireGuard.DefaultConfig | backend/wireguard.py:169-171 | the defaults are DNS `1.1.1.1,8.8.8.8`, MTU 1420 and keepalive 25 |
| WireGuard.ConfigLinesSingle | backend/wireguard.py:174-186 | when the arguments hold no newline, no line of the configuration does |
| WireGuard.ConfigLayout | backend/wireguard.py:174-186 | the text splits into the thirteen lines: `[Interface]` first, then `[Peer]`, each argument verbatim and `AllowedIPs = 0.0.0.0/0, ::/0` |
| WireGuard.ConfigRoundTrip | backend/wireguard.py:162-187 | reading the generated configuration back gives every argument back |
| Auth.AccessClaims | backend/auth.py:31-37 | the signed claims are the input plus `exp`; `exp` is now plus the delta, or now plus `JWT_EXPIRATION_HOURS` hours when there is no delta or a zero delta |
| Auth.DecodeToken | backend/auth.py:42-52 | a decode failure or a missing `user_id`/`username` is rejected; a token is accepted exactly when all three claims are strings; the user data are those claims |
| Auth.DecodeIssued | backend/auth.py:31-52 | a token issued for a user's claims decodes back to that user, whatever its expiry |
| Auth.GetCurrentUser | backend/auth.py:55-64 | the answer is 401 exactly when the token is rejected; otherwise it is the decoded user |
| Auth.RequireSuperAdmin | backend/auth.py:67-73 | only `super_admin` passes, with the user unchanged; anyone else gets 403 |
| Auth.RequireAdmin | backend/auth.py:76-82 | exactly `super_admin` and `admin` pass; anyone else gets 403 |
| Auth.RequireSupport | backend/auth.py:85-91 | exactly the three roles pass; any other role string gets 403 |
| Auth.GatesNested | backend/auth.py:67-91 | passing the super-admin gate implies passing the admin gate, which implies passing the support gate |
| Auth.GatesStrict | backend/auth.py:67-91 | the nesting is strict: an admin fails the super-admin gate, and a support user fails the admin gate but passes the support gate |
| Auth.UnauthorizedBeforeForbidden | backend/auth.py:55-73 | a rejected token is answered with 401 before any role gate runs |
| AdminApi.StatusOf | backend/server.py:249-257 | the four statuses are exclusive and total, decided in order: disabled, expired, data limit reached, active |
| AdminApi.NoLimitNeverReached | backend/server.py:254-255 | a data limit of 0 or none never yields `data_limit_reached` |
| AdminApi.ExpiryBeforeDataLimit | backend/server.py:252-255 | an expired client is expired however much data it used |
| AdminApi.OnlineRulesAgree | backend/server.py:244-245 | the list's rule ("not `None`") and the dashboard's rule (truthy) for "online" agree once the clock is past 180 s |
| AdminApi.Annotate | backend/server.py:240-257 | a client whose key is in the stats gets rx+tx as its usage, and any other keeps its stored usage. It is online exactly by the 180 s rule, its status is computed on the new usage, and no other field changes |
| AdminApi.UnknownPeerOffline | backend/server.py:246-247 | a client missing from the stats is offline and keeps its stored usage |
| AdminApi.DashboardStatus | backend/server.py:505-510 | the dashboard never counts `data_limit_reached`: such clients are counted as active |
| AdminApi.CountStatus | backend/server.py:505-510 | a status count never exceeds the number of clients |
| AdminApi.CountOnline | backend/server.py:518-521 | the online count never exceeds the number of clients |
| AdminApi.DashboardPartition | backend/server.py:496-511 | disabled + expired + active equals the number of clients |
| AdminApi.DashboardWithoutStats | backend/server.py:513-521 | without peer statistics the usage total and the online count are 0 |
| AdminApi.ApplyClientUpdate | backend/server.py:339-351 | each field given (not `None`) replaces the stored one; every other field is unchanged |
| AdminApi.ClientUpdateLaws | backend/server.py:339-364 | an update that gives nothing changes nothing, and applying an update twice is the same as applying it once |
| AdminApi.ApplyUserUpdate | backend/server.py:196-211 | each given field replaces the stored one; a password is stored as its hash |
| AdminApi.UserUpdateNothing | backend/server.py:213-214 | an update that gives nothing leaves the user as it was |
| AdminApi.Whitelisted | backend/server.py:474-477 | the kept keys are exactly the given keys that are among the six allowed ones, with their values |
| AdminApi.WhitelistProtects | backend/server.py:474-477 | no update can reach the server keys, the server address or the network; whitelisting twice is whitelisting once |
| AdminApi.WithoutPrivateKey | backend/server.py:468 | `pop("server_private_key")` removes that key and keeps every other key and value |
| AdminApi.UsedBy | backend/server.py:277-278 | every client's address part, and the server's, is counted as used |
| AdminApi.ServerPart | backend/server.py:278 | a server address part exists only when the settings hold `server_address` |
| AdminApi.WhitelistKeepsServer | backend/server.py:474-484 | an update through the whitelist leaves the server address part alone |
| AdminApi.KeepAddresses | backend/server.py:339-364 | changing clients without changing any address keeps all addresses distinct |
| AdminApi.InsertUnused | backend/server.py:277-308 | inserting a client whose address part is unused keeps all addresses distinct from each other and from the server's |
| AdminApi.Allocate | backend/server.py:280-284 | an unparsable network is an error; otherwise the answer is the lowest host after the first whose address is not used, as `<host>/32`, and an exhausted network fails with "No available IP addresses in the network" |
| AdminApi.AnnotateClient | backend/server.py:240-257 | one loop iteration computes `Annotate` |
| AdminApi.TallyStep | backend/server.py:503-521 | each counter of a prefix of the clients grows by the next client's contribution |
| AdminApi.Panel.ServerAddressPart | backend/server.py:278 | the server's address part comes from `settings["server_address"]` |
| AdminApi.Panel.UsedAddresses | backend/server.py:277-278 | the used set holds every client's address part and the server's |
| AdminApi.Panel.ListClients | backend/server.py:236 | the listing holds every client document exactly once |
| AdminApi.Panel.GetClients | backend/server.py:234-259 | every client appears once, annotated with its usage, online flag and status |
| AdminApi.Panel.GetDashboardStats | backend/server.py:492-530 | the loop's counters are those of the client list; the total is the number of clients, and disabled + expired + active equals the total |
| AdminApi.Panel.CreateClient | backend/server.py:262-318 | missing settings give 500 and a missing endpoint 400. A missing or non-string server address gives 500 with the uncaught error's text. A missing or non-string network gives 400 with `get_next_ip`'s error, and an unparsable network 400. Nothing is stored in these cases. Otherwise the client is created exactly when some host after the first is free: it gets the lowest such host as `<host>/32`, is enabled, active and at usage 0, and its peer is added; an exhausted network gives 400. Addresses stay distinct |
| AdminApi.ServerAddressFault | backend/server.py:277-278 | the split of the server address fails exactly when the key is missing or its value is not a string, with the KeyError or AttributeError text |
| AdminApi.NetworkFault | backend/server.py:280-284 | for a network that is not a string: the missing key's KeyError, `ip_network(None)`'s ValueError, and for a bool or an integer below 2^128 the exhaustion error of a one-address network |
| AdminApi.Panel.AddClient | backend/server.py:306-308 | the peer is added and the document inserted; addresses stay distinct |
| AdminApi.Panel.UpdateUser | backend/server.py:186-217 | an unknown id gives 404 and a username held by another user gives 400, with nothing changed; the update succeeds exactly in every other case, and the stored user is then the partial update |
| AdminApi.Panel.DeleteUser | backend/server.py:220-229 | deleting one's own account gives 400 and an unknown id gives 404; otherwise exactly that user goes |
| AdminApi.Panel.UpdateClient | backend/server.py:329-366 | the update succeeds exactly for a known id, and an unknown id gives 404; on success the partial update is stored and returned. A given `is_enabled` adds or removes the peer, and addresses stay distinct |
| AdminApi.Panel.SetPeer | backend/server.py:352-360 | enabling adds the peer at the client's address; disabling removes it |
| AdminApi.Panel.DeleteClient | backend/server.py:369-379 | an unknown id gives 404; otherwise the document and its peer go |
| AdminApi.Panel.ResetClientData | backend/server.py:447-457 | an unknown id gives 404; otherwise `data_used` becomes 0 and nothing else changes |
| AdminApi.Panel.GetSettings | backend/server.py:462-469 | missing settings give 404; the answer never holds the private key |
| AdminApi.Panel.UpdateSettings | backend/server.py:472-487 | the update succeeds exactly when a settings document exists; only whitelisted keys are written, and every other stored key keeps its value; the answer never holds the private key |
| SalesBot.ResellerPrice | backend/telegram_bot.py:293-294 | the price changes only for a reseller with a non-zero discount, and a discount between 0 and 100 keeps it between 0 and the price |
| SalesBot.CodeDiscount | backend/telegram_bot.py:297-302 | a truthy percentage takes that share of the price; otherwise a truthy amount is taken as is; otherwise nothing is taken |
| SalesBot.QuoteOf | backend/telegram_bot.py:293-307 | the final price is never negative and the original price is the plan price. The discount is taken from the reseller price; the final price is that price minus the discount, or 0 when the discount covers the whole price |
| SalesBot.QuoteWithoutDiscounts | backend/telegram_bot.py:293-304 | with no reseller discount and no code, the final price is the plan price |
| SalesBot.PercentOnResellerPrice | backend/telegram_bot.py:293-302 | a percentage applies to the reseller price, so both discounts multiply, and a fixed amount given beside it is ignored |
| SalesBot.AmountBeyondPrice | backend/telegram_bot.py:301-304 | an amount above the price makes the order free, never negative |
| SalesBot.NormalizeCode | backend/telegram_bot.py:253 | the code neither starts nor ends with white space (as `str.isspace()` defines it) and holds no lower-case letter |
| SalesBot.NormalizeIdempotent | backend/telegram_bot.py:253 | normalising an already normalised code changes nothing |
| SalesBot.Used | backend/telegram_bot.py:425 | `$inc` on `used_count` adds one, starting from 0, and changes nothing else |
| SalesBot.ExhaustionSticks | backend/telegram_bot.py:271 | a used-up code stays used up after another use, and the last allowed use exhausts a limited code |
| SalesBot.UnlimitedNeverExhausted | backend/telegram_bot.py:271 | a code without a truthy `max_uses` is never rejected as used up |
| SalesBot.ReferrerOf | backend/telegram_bot.py:107-109 | a referrer is read exactly when the first argument is `ref_` followed by an integer |
| SalesBot.NewUser | backend/telegram_bot.py:50-62 | a new user has a zero wallet, is neither banned nor a reseller, and has no referrer |
| SalesBot.MainKeyboard | backend/telegram_bot.py:81-92 | resellers get the base keyboard with their panel row inserted third; others get the base keyboard; the panel button appears exactly for resellers |
| SalesBot.Dispatch | backend/telegram_bot.py:935-951 | with re-entry, the entry points win in every state; outside the conversation only they apply; a receipt is handled only as a photo in the receipt state |
| SalesBot.DispatchTable | backend/telegram_bot.py:940-950 | each state's update reaches that state's handler, and a plain text while a receipt is awaited reaches none |
| SalesBot.NewOrder | backend/telegram_bot.py:410-421 | the new order is `pending` and carries the session's final price, original price (the plan price by default), discount amount and code |
| SalesBot.CountUse | backend/telegram_bot.py:424-425 | the session's code, if stored, counts one more use; every other code is unchanged |
| SalesBot.CountSale | backend/telegram_bot.py:458 | the plan's `sales_count` grows by one, and every other plan and field is unchanged |
| SalesBot.SubscriptionFor | backend/telegram_bot.py:443-455 | a subscription expires `duration_days` after now, has used nothing, is active, and belongs to the order's user |
| SalesBot.StoredOrNew | backend/telegram_bot.py:47-66 | the stored user when there is one, else a new user |
| SalesBot.Bot.GetOrCreateUser | backend/telegram_bot.py:47-66 | a stored user is returned unchanged; otherwise a new user is stored and returned |
| SalesBot.Bot.Start | backend/telegram_bot.py:95-123 | a banned user changes nothing. `referred_by` is set once, to a referrer other than the user, and never overwritten; no other user and no other field changes; the keyboard is the user's main keyboard |
| SalesBot.Bot.ShowOrderSummary | backend/telegram_bot.py:281-335 | the session gets the quote of the selected plan and code, and nothing else in it changes; the user is the stored one or the new one `get_or_create_user` inserts; the final price is never negative |
| SalesBot.Bot.ProcessDiscountCode | backend/telegram_bot.py:251-278 | an unknown, inactive or expired code, or one whose every match is used up, keeps the discount state and changes nothing. When some stored code matches the normalised text and no match is used up, the code is accepted; an accepted code matches, is not used up, and is quoted. On acceptance only the stored code and the three prices of the session change, and the user is the stored one or the new one `get_or_create_user` inserts |
| SalesBot.Bot.ConfirmOrder | backend/telegram_bot.py:392-490 | cancelling changes nothing. Otherwise one pending order is stored, the code counts one use and no other user changes. A card payment waits for a receipt. A wallet payment succeeds exactly when the balance covers the final price: it charges that price once, confirms the order, opens the subscription and counts the plan's sale; otherwise nothing more changes |
| SalesBot.Bot.PlaceOrder | backend/telegram_bot.py:401-427 | the stored order is the new pending order; the code's use is counted and the wallet is untouched |
| SalesBot.Bot.PayWithWallet | backend/telegram_bot.py:429-473 | a balance covering the final price is charged exactly that price: the order is confirmed by wallet, a subscription starts and the plan counts a sale. A smaller balance changes nothing; balances stay non-negative |
| SalesBot.Bot.PayFromWallet | backend/telegram_bot.py:431-435 | the balance drops by exactly the amount and stays non-negative |
| SalesBot.Bot.ReceiveReceipt | backend/telegram_bot.py:493-530 | without an order the conversation ends, and without a photo it keeps waiting, with nothing stored. A photo records a pending payment of the final price and marks the order paid |
| Helpers.UnitIndexUnique | frontend/src/utils/helpers.js:9 | at most one `i` satisfies `1024^i <= b < 1024^(i+1)` |
| Helpers.LogUp | frontend/src/utils/helpers.js:9 | for `b >= 1` the index `i` satisfies `1024^i <= b < 1024^(i+1)` |
| Helpers.LogDown | frontend/src/utils/helpers.js:9 | for `0 < b < 1` the index is negative and satisfies the same bounds |
| Helpers.UnitIndex | frontend/src/utils/helpers.js:9 | `floor(log(b) / log(1024))` for every positive size |
| Helpers.UnitIndexOf | frontend/src/utils/helpers.js:9 | a size between `1024^k` and `1024^(k+1)` has unit index `k` |
| Helpers.Magnitude | frontend/src/utils/helpers.js:11 | the magnitude at the unit index lies in [1, 1024) and scales back to the size |
| Helpers.FormatBytesWith | frontend/src/utils/helpers.js:2-12 | a falsy size gives the zero text and a negative size gives `NaN`. Otherwise the magnitude is rounded to `max(decimals, 0)` places, and a label exists exactly for the indices the table has |
| Helpers.FormatBytes | frontend/src/utils/helpers.js:2-12 | the zero text is `0 Bytes`; only indices 0 to 4 have a label, and index 5 or more means at least `1024^5` bytes |
| Helpers.ParseBytes | frontend/src/utils/helpers.js:15-24 | the k-th unit multiplies by `1024^k`; any other unit multiplies by 1 |
| Helpers.FormatOfParse | frontend/src/utils/helpers.js:2-24 | a magnitude in [1, 1024) entered with a unit is shown again with that unit and that magnitude, rounded |
| Helpers.FormatDateForInput | frontend/src/utils/helpers.js:38-42 | a falsy date gives ''; otherwise the result is a prefix of the ISO text and holds no `T` |
| Helpers.DateOfTimestamp | frontend/src/utils/helpers.js:41 | of `<date>T<time>` the input shows exactly `<date>` |
| Helpers.GetStatusColor | frontend/src/utils/helpers.js:45-53 | active, expired and data_limit_reached get their colours; grey is returned exactly for any other status |
| Helpers.StatusColorsDistinct | frontend/src/utils/helpers.js:45-53 | distinct statuses other than disabled get distinct colours; disabled looks like an unknown status |
| Helpers.GetRoleDisplayName | frontend/src/utils/helpers.js:56-63 | the three roles get their (non-empty) translations; any other role is shown as it is |
| Helpers.SupportShownRaw | frontend/src/utils/helpers.js:56-63 | the API's `support` role has no entry and is shown raw |
| ClientsPage.UnitMultiplier | frontend/src/pages/Clients.js:201-204 | every multiplier is at least 1 |
| ClientsPage.UnitMultiplierIsParseBytes | frontend/src/pages/Clients.js:201-204 | for every unit, including `Bytes` and unknown ones, the page's multiplier agrees with `parseBytes`: KB to TB are `1024^1` to `1024^4` |
| ClientsPage.LimitOfNumber | frontend/src/pages/Clients.js:70-72 | a field that parses to `v` is sent as `v` times the unit's multiplier |
| ClientsPage.LimitOfNoNumber | frontend/src/pages/Clients.js:70-72 | an empty field, or one that parses to `NaN`, is sent as `null` |
| ClientsPage.Payload | frontend/src/pages/Clients.js:67-75 | the name is kept; empty email, expiry and note become `null`, exactly when they are empty |
| ClientsPage.EditForm | frontend/src/pages/Clients.js:176-187 | `\|\| ''` fallbacks; the unit is GB; the limit field is empty exactly when the limit is falsy; the expiry goes through `formatDateForInput` |
| ClientsPage.EditLimitRounded | frontend/src/pages/Clients.js:181 | resubmitting an untouched form sends `round2(limit / GiB) * GiB`, not the stored limit |
| ClientsPage.RoundedLimitClose | frontend/src/pages/Clients.js:181 | the limit sent back is within 0.005 GiB of the stored one |
| ClientsPage.EditRoundTrip | frontend/src/pages/Clients.js:178-185 | with an untouched form, no limit stays `null` and the name is kept; an empty email or note becomes `null` |
| ClientsPage.SmallLimitBecomesUnlimited | frontend/src/pages/Clients.js:181 | a limit under 0.005 GiB comes back as 0, which the API treats as no limit |
| ClientsPage.KeepingPayload | frontend/src/pages/Clients.js:67-75 | while the limit text is the one the edit form opened with, the limit is left out (`null`, so kept); otherwise this is `handleSubmit`'s payload |
| ClientsPage.KeepingEditKeepsLimit | frontend/src/pages/Clients.js:181 | with the keeping payload, an untouched edit never changes the stored limit |
| ClientsPage.Filter | frontend/src/pages/Clients.js:216-220 | the result keeps the list's order, and a client is in it exactly when it is in the list and matches the query |
| ClientsPage.FilterEmptyQuery | frontend/src/pages/Clients.js:216-220 | the empty query keeps every client |
| ClientsPage.NameAndEmailIgnoreCase | frontend/src/pages/Clients.js:217-218 | name and email matching ignores the case of the query |
| ClientsPage.AddressIsCaseSensitive | frontend/src/pages/Clients.js:219 | the address is matched as typed: an upper-cased query can miss an address that its lower-case form finds |
| ClientsPage.TierColor | frontend/src/pages/Clients.js:388-393 | red exactly above 0.9, yellow exactly in (0.7, 0.9], green otherwise |
| ClientsPage.CappedPercent | frontend/src/pages/Clients.js:396 | the width is at most 100 and is 100 from ratio 1 on; its thresholds match the colour tiers |
| ClientsPage.UsageBarOf | frontend/src/pages/Clients.js:385-396 | no bar without a limit, a `0` text for a zero limit, otherwise a bar of the tier colour with a width of at most 100 |
| ClientsPage.GetStatusLabel | frontend/src/pages/Clients.js:206-214 | known statuses get their (non-empty) translation; any other status is shown as it is |
| ClientsPage.Page.constructor | frontend/src/pages/Clients.js:31-44 | no clients, an empty query, the empty form, no selection, no menu, no modal |
| ClientsPage.Page.Shown | frontend/src/pages/Clients.js:216-220 | the shown clients are an order-preserving sublist of the loaded ones |
| ClientsPage.Page.ToggleMenu | frontend/src/pages/Clients.js:293 | the open menu becomes this client's exactly when it was not already open, so at most one menu is open |
| ClientsPage.Page.CloseMenu | frontend/src/pages/Clients.js:523 | the menu closes and nothing else changes |
| ClientsPage.Page.ResetForm | frontend/src/pages/Clients.js:189-199 | the empty form with unit GB and no selected client |
| ClientsPage.Page.OpenCreate | frontend/src/pages/Clients.js:240 | a reset form in an open modal |
| ClientsPage.Page.HandleEdit | frontend/src/pages/Clients.js:176-187 | the client's edit form in an open modal |
| ClientsPage.Page.SubmitRequest | frontend/src/pages/Clients.js:77-83 | an update of the selected client exactly when one is selected, otherwise a create, with the form's payload |
| ClientsPage.Page.SubmitSucceeded | frontend/src/pages/Clients.js:85-86 | the modal closes and the form is reset |
| ClientsPage.Page.Loaded | frontend/src/pages/Clients.js:52-55 | the loaded list replaces the clients; nothing else changes |
| SubscriptionPage.FormatBytes | frontend/src/pages/Subscription.js:23-30 | the zero text is the Persian `0 بایت`; only indices 0 to 4 have a label |
| SubscriptionPage.SameScaleAsAdmin | frontend/src/pages/Subscription.js:23-30 | for every size this picks the same case, magnitude and unit index as the admin `formatBytes`; only the labels differ |
| SubscriptionPage.CeilDiv | frontend/src/pages/Subscription.js:51 | `Math.ceil(a / d)` is the `q` with `(q-1)*d < a <= q*d` |
| SubscriptionPage.RemainingDays | frontend/src/pages/Subscription.js:46-53 | `null` exactly without an expiry; otherwise the whole days until it, rounded up |
| SubscriptionPage.RemainingWhileAhead | frontend/src/pages/Subscription.js:46-53 | the count is positive exactly while the expiry lies ahead; one day ahead counts 1 |
| SubscriptionPage.RemainingTextOf | frontend/src/pages/Subscription.js:240-241 | days are shown exactly when positive; otherwise "expired" |
| SubscriptionPage.GetStatusInfo | frontend/src/pages/Subscription.js:80-88 | each known status gets its entry; any other status gets the `active` entry |
| SubscriptionPage.StatusCardsDistinct | frontend/src/pages/Subscription.js:80-88 | the four statuses get four different cards, and an unknown status looks active |
| SubscriptionPage.UsagePercent | frontend/src/pages/Subscription.js:116 | 0 without a truthy limit; never above 100; never negative for non-negative inputs |
| SubscriptionPage.BarColor | frontend/src/pages/Subscription.js:174 | red exactly above 90, yellow exactly in (70, 90], green otherwise |
| SubscriptionPage.BarAgreesWithAdmin | frontend/src/pages/Subscription.js:116 | for every client with a limit, this bar and the admin page's bar have the same width and colour |
| SubscriptionPage.DataCardOf | frontend/src/pages/Subscription.js:165-192 | unlimited exactly without a truthy limit; otherwise a capped percentage with its colour, the remaining data only when positive, and the limit formatted |
| SubscriptionPage.ExpiryLineOf | frontend/src/pages/Subscription.js:232-247 | "no time limit" exactly without a date; otherwise days are shown exactly while the expiry lies ahead |
| SubscriptionPage.TimePanelOf | frontend/src/pages/Subscription.js:220-256 | the waiting panel replaces the expiry display exactly when the timer starts on first connect and has not started; it shows `expiry_days` |
| SubscriptionPage.RenewBoxOf | frontend/src/pages/Subscription.js:260-275 | the box appears exactly with auto-renew on, and shows the count only when it is positive |
| SubscriptionPage.View.constructor | frontend/src/pages/Subscription.js:57-59 | loading, with no data and no error |
| SubscriptionPage.View.Screen | frontend/src/pages/Subscription.js:90-113 | the spinner while loading, then the error card, then the details of the data |
| SubscriptionPage.View.FetchData | frontend/src/pages/Subscription.js:68-78 | a response replaces the data and clears the error; a failure keeps the data and shows the server's `detail` or the fixed message; loading ends either way |
| Pagination.Skip | frontend/src/pages/Payments.js:30 | `skip` is a multiple of 50 whose quotient is the page |
| Pagination.PreviousPage | frontend/src/pages/Payments.js:171 | `max(0, page - 1)` |
| Pagination.PageCount | frontend/src/pages/Payments.js:174 | `ceil(total / 50)`: the fewest pages of 50 holding every row |
| Pagination.NextPage | frontend/src/pages/Payments.js:175 | "next" moves at most one page on |
| Pagination.NextDisabledOnLastPage | frontend/src/pages/Payments.js:175 | "next" is disabled exactly on the last page |
| Pagination.ButtonsKeepValidPage | frontend/src/pages/Payments.js:169-178 | from a page that holds rows, both buttons land on one; "next" never passes `ceil(total/50) - 1` |
| Pagination.RowOnOnePage | frontend/src/pages/Payments.js:30-31 | the windows of the existing pages cover every row exactly once |
| Pagination.SinglePageWithoutControls | frontend/src/pages/Payments.js:169 | when the controls are hidden there is one page, and both buttons would be disabled on it |
| Pagination.OptionalParam | frontend/src/pages/Payments.js:29 | a filter entry is present exactly when the filter is set, and no other key is present |
| Pagination.PageParams | frontend/src/pages/Payments.js:30-31 | `skip` is `page*50`, `limit` is 50, and no other key is present |
| Pagination.GetOfPaged | frontend/src/pages/Payments.js:28-31 | the filter entries are read as given, then the window |
| Pagination.KeptPageStranded | frontend/src/pages/Payments.js:73 | a kept page past the new filter's rows holds none, and with at most 50 rows there are no controls to leave it |
| Pagination.FilterChangeStrandsPage | frontend/src/pages/Payments.js:73 | page 3 of 200 rows is valid; after a filter change to 40 rows it is empty and has no controls |
| Pagination.FirstPageAlwaysValid | frontend/src/pages/Payments.js:16 | the first page is valid for every total and has "previous" disabled |
| Pagination.SearchParams.constructor | frontend/src/pages/Payments.js:28 | `new URLSearchParams()` has no entries |
| Pagination.SearchParams.Append | frontend/src/pages/Payments.js:29 | `append` adds one entry at the end |
| Pagination.AppendPage | frontend/src/pages/Payments.js:30-31 | the two paging entries are appended last |
| PlansPage.Remove | frontend/src/pages/Plans.js:125 | an id stays exactly when it was there and is not the removed one |
| PlansPage.Toggle | frontend/src/pages/Plans.js:121-128 | the id is present exactly when it was absent, and every other id keeps its membership |
| PlansPage.ToggleTwiceAbsent | frontend/src/pages/Plans.js:124-126 | toggling an absent id twice restores the list |
| PlansPage.ToggleTwicePresent | frontend/src/pages/Plans.js:124-126 | toggling a present id twice moves it to the end |
| PlansPage.ToggleKeepsOthers | frontend/src/pages/Plans.js:124-126 | a toggle leaves the other ids in their order |
| PlansPage.Payload | frontend/src/pages/Plans.js:53-60 | name, description, servers and flags are kept; an empty traffic field is `null` (unlimited), and otherwise it is parsed |
| PlansPage.EditForm | frontend/src/pages/Plans.js:90-101 | a missing description becomes ''; the traffic field is empty exactly without traffic; servers default to `[]` |
| PlansPage.EditRoundTrip | frontend/src/pages/Plans.js:53-101 | saving an untouched edit form sends the plan back: every number as stored, no traffic as `null` (a 0 stays 0) |
| PlansPage.DefaultPayload | frontend/src/pages/Plans.js:105-119 | submitting the reset form sends one user and sort order 0, but no price or duration |
| PlansPage.Page.constructor | frontend/src/pages/Plans.js:18-29 | no plans, the default form, nothing edited, no modal |
| PlansPage.Page.OpenEditModal | frontend/src/pages/Plans.js:88-103 | the plan's edit form in an open modal, with the plan remembered |
| PlansPage.Page.ResetForm | frontend/src/pages/Plans.js:105-119 | the default form, with no plan being edited |
| PlansPage.Page.ToggleServer | frontend/src/pages/Plans.js:121-128 | only the form's server list changes, by `Toggle` |
| PlansPage.Page.SubmitRequest | frontend/src/pages/Plans.js:62-68 | a PUT of the edited plan exactly when one is edited, otherwise a POST, with the form's payload |
| PlansPage.Page.SubmitSucceeded | frontend/src/pages/Plans.js:69-70 | the modal closes and the form is reset |
| PlansPage.Page.Loaded | frontend/src/pages/Plans.js:41 | the plans are replaced and nothing else changes |
| DiscountCodesPage.FloatOrNull | frontend/src/pages/DiscountCodes.js:47 | an empty field is `null` |
| DiscountCodesPage.IntOrNull | frontend/src/pages/DiscountCodes.js:49 | an empty field is `null` |
| DiscountCodesPage.Payload | frontend/src/pages/DiscountCodes.js:45-52 | code and flag are kept; empty number fields are `null`; the date is `null` exactly when empty |
| DiscountCodesPage.NumberText | frontend/src/pages/DiscountCodes.js:89 | `?.toString() \|\| ''` is '' exactly for a missing number, so 0 gives "0" |
| DiscountCodesPage.Take | frontend/src/pages/DiscountCodes.js:92 | `slice(0, n)` is a prefix of at most `n` characters, and exactly `n` when the text is long enough |
| DiscountCodesPage.EditForm | frontend/src/pages/DiscountCodes.js:85-97 | each number field is empty exactly when the number is missing; the date is cut to at most 10 characters |
| DiscountCodesPage.FloatOfNumberText | frontend/src/pages/DiscountCodes.js:89-93 | a number shown in the form is parsed back by `parseFloat` to itself |
| DiscountCodesPage.IntOfNumberText | frontend/src/pages/DiscountCodes.js:91 | a use limit shown in the form is parsed back by `parseInt` to itself |
| DiscountCodesPage.EditRoundTrip | frontend/src/pages/DiscountCodes.js:45-97 | saving an untouched edit form sends the code back, with every number as stored; the expiry becomes its day |
| DiscountCodesPage.WithPercent | frontend/src/pages/DiscountCodes.js:258 | typing a percentage empties the amount; nothing else changes |
| DiscountCodesPage.WithAmount | frontend/src/pages/DiscountCodes.js:271 | typing an amount empties the percentage; nothing else changes |
| DiscountCodesPage.DiscountInputsExclusive | frontend/src/pages/DiscountCodes.js:258-271 | after either input the form holds at most one kind of discount, and the payload sends at most one |
| DiscountCodesPage.CharIndex | frontend/src/pages/DiscountCodes.js:116 | `floor(d * 36)` is a valid index of the alphabet |
| DiscountCodesPage.CharOf | frontend/src/pages/DiscountCodes.js:116 | each draw picks a character of `A-Z0-9` |
| DiscountCodesPage.RandomCode | frontend/src/pages/DiscountCodes.js:113-117 | the loop yields exactly eight characters from `A-Z0-9`, the i-th picked by the i-th draw |
| DiscountCodesPage.DrawFor | frontend/src/pages/DiscountCodes.js:116 | every character of the alphabet has a draw that picks it |
| DiscountCodesPage.EveryCodeReachable | frontend/src/pages/DiscountCodes.js:112-119 | every eight-character code over `A-Z0-9` can be generated |
| DiscountCodesPage.GeneratedIsUpper | frontend/src/pages/DiscountCodes.js:241 | a generated code is already upper case, so the code input leaves it unchanged |
| DiscountCodesPage.DiscountCell | frontend/src/pages/DiscountCodes.js:183-187 | a truthy percent is shown, else a truthy amount, else '-' |
| DiscountCodesPage.DiscountCellAgreesWithBot | frontend/src/pages/DiscountCodes.js:183-187 | the discount the table shows is the one the bot takes off an order |
| DiscountCodesPage.UnlimitedForBot | frontend/src/pages/DiscountCodes.js:191 | a code without a truthy `max_uses` is never used up for the bot |
| DiscountCodesPage.UsageCellAsWritten | frontend/src/pages/DiscountCodes.js:189-191 | the cell starts with the count, and `max_uses` 0 appends a stray "0" |
| DiscountCodesPage.UsageCell | frontend/src/pages/DiscountCodes.js:189-191 | the cell starts with the count and holds " / max" exactly for a code the bot limits |
| DiscountCodesPage.UsageCellsAgree | frontend/src/pages/DiscountCodes.js:189-191 | the two cells agree unless `max_uses` is 0 |
| DiscountCodesPage.StrayZeroReadsAsCount | frontend/src/pages/DiscountCodes.js:190-191 | an unlimited code used 3 times with `max_uses` 0 reads "30", like one used 30 times |
| DiscountCodesPage.Page.constructor | frontend/src/pages/DiscountCodes.js:13-25 | no codes, the empty form, nothing edited, no modal |
| DiscountCodesPage.Page.OpenEditModal | frontend/src/pages/DiscountCodes.js:85-97 | the code's edit form in an open modal |
| DiscountCodesPage.Page.ResetForm | frontend/src/pages/DiscountCodes.js:99-110 | the empty form, with no code being edited |
| DiscountCodesPage.Page.SetCode | frontend/src/pages/DiscountCodes.js:241 | the typed code is stored in upper case, which upper-casing again leaves unchanged |
| DiscountCodesPage.Page.SetPercent | frontend/src/pages/DiscountCodes.js:258 | the percentage is set, the amount emptied, and at most one discount is left |
| DiscountCodesPage.Page.SetAmount | frontend/src/pages/DiscountCodes.js:271 | the amount is set, the percentage emptied, and at most one discount is left |
| DiscountCodesPage.Page.GenerateCode | frontend/src/pages/DiscountCodes.js:112-119 | the code becomes eight characters of `A-Z0-9`, one per draw; every other field is unchanged |
| DiscountCodesPage.Page.SubmitRequest | frontend/src/pages/DiscountCodes.js:54-60 | a PUT of the edited code exactly when one is edited, otherwise a POST, with the form's payload |
| DiscountCodesPage.Page.SubmitSucceeded | frontend/src/pages/DiscountCodes.js:61-62 | the modal closes and the form is reset |
| DiscountCodesPage.Page.Loaded | frontend/src/pages/DiscountCodes.js:34 | the codes are replaced and nothing else changes |
| PaymentsPage.BadgeOf | frontend/src/pages/Payments.js:140-142 | warning exactly for pending, success exactly for approved, error for anything else |
| PaymentsPage.StatusText | frontend/src/pages/Payments.js:144-145 | the caption follows the badge |
| PaymentsPage.PaymentStatusBadges | frontend/src/pages/Payments.js:140-145 | the three payment statuses get three different badges, each by its name |
| PaymentsPage.Page.constructor | frontend/src/pages/Payments.js:13-20 | the first page of the pending payments, with nothing selected |
| PaymentsPage.Page.FetchParams | frontend/src/pages/Payments.js:28-31 | `status` only when a filter is chosen; `skip` is `page*50`; `limit` is 50 |
| PaymentsPage.Page.Loaded | frontend/src/pages/Payments.js:34-35 | payments and total are replaced; nothing else changes |
| PaymentsPage.Page.Previous | frontend/src/pages/Payments.js:171 | the page becomes `max(0, page-1)`, staying valid |
| PaymentsPage.Page.Next | frontend/src/pages/Payments.js:175 | the page moves on unless "next" is disabled, staying valid |
| PaymentsPage.Page.SetStatusFilter | frontend/src/pages/Payments.js:73 | as written: the filter changes and the page is kept |
| PaymentsPage.Page.SelectStatus | frontend/src/pages/Payments.js:73 | the filter changes and the page restarts at 0, which is valid for any new total |
| PaymentsPage.Page.Select | frontend/src/pages/Payments.js:153 | the payment opens in the review modal |
| PaymentsPage.Page.SetReviewNote | frontend/src/pages/Payments.js:217 | only the note changes |
| PaymentsPage.Page.HandleReview | frontend/src/pages/Payments.js:43-60 | without a selection nothing is sent or changed. Otherwise the selected payment's review is sent with the note; success clears the selection and the note, and `processing` ends off |
| OrdersPage.StatusCaption | frontend/src/pages/Orders.js:126 | the table's caption for a known status, the raw status otherwise |
| OrdersPage.StatusBadge | frontend/src/pages/Orders.js:125 | the table's badge for a known status, `badge-default` otherwise |
| OrdersPage.CaptionsDistinct | frontend/src/pages/Orders.js:12-18 | distinct order statuses get distinct captions |
| OrdersPage.LabelsCoverOrderStatuses | frontend/src/pages/Orders.js:12-18 | the table's keys are exactly the order statuses of the data model |
| OrdersPage.UnknownStatusShownRaw | frontend/src/pages/Orders.js:125-126 | a status outside the model is shown raw, with the neutral badge |
| OrdersPage.DetailsOf | frontend/src/pages/Orders.js:182-192 | missing prices show as 0; the discount line appears exactly for an amount above 0 |
| OrdersPage.DiscountColumn | frontend/src/pages/Orders.js:118-122 | a non-empty code is shown, '-' otherwise |
| OrdersPage.Page.constructor | frontend/src/pages/Orders.js:21-26 | the first page of all orders, nothing selected |
| OrdersPage.Page.FetchParams | frontend/src/pages/Orders.js:34-37 | `status` only when a filter is chosen; `skip` is `page*50`; `limit` is 50 |
| OrdersPage.Page.Loaded | frontend/src/pages/Orders.js:40-41 | orders and total are replaced; nothing else changes |
| OrdersPage.Page.Previous | frontend/src/pages/Orders.js:152 | the page becomes `max(0, page-1)`, staying valid |
| OrdersPage.Page.Next | frontend/src/pages/Orders.js:156 | the page moves on unless "next" is disabled, staying valid |
| OrdersPage.Page.SetStatusFilter | frontend/src/pages/Orders.js:60 | the filter changes and the page is kept |
| OrdersPage.Page.Select | frontend/src/pages/Orders.js:134 | the details open for the order (and the overlay closes them) |
| UsersPage.EncodeTri | frontend/src/pages/Users.js:99 | '' exactly for "any" |
| UsersPage.DecodeTri | frontend/src/pages/Users.js:100 | "any" exactly for '' |
| UsersPage.DecodeOfEncode | frontend/src/pages/Users.js:99-100 | every filter value reads back as itself |
| UsersPage.EncodeOfDecode | frontend/src/pages/Users.js:99-106 | the three options read back as the text that shows them; any other text reads as `false` |
| UsersPage.TriParam | frontend/src/pages/Users.js:28 | an entry is present exactly when the filter is set, with "true" or "false" as its value |
| UsersPage.GetOfFilterParams | frontend/src/pages/Users.js:27-29 | each filter entry is present exactly when its filter is set; no paging entry is among them |
| UsersPage.GetOfUsersQuery | frontend/src/pages/Users.js:26-31 | the request carries each set filter, then `skip = page*50` and `limit = 50` |
| UsersPage.WalletRequestOf | frontend/src/pages/Users.js:53-58 | a cancelled prompt sends nothing; any answer is sent through `parseFloat` |
| UsersPage.WalletOfWholeAnswer | frontend/src/pages/Users.js:58 | an integer answer sets the wallet to exactly that number |
| UsersPage.Page.constructor | frontend/src/pages/Users.js:15-18 | the first page of all users |
| UsersPage.Page.FetchParams | frontend/src/pages/Users.js:24-31 | the set filters in order, then `skip = page*50` and `limit = 50` |
| UsersPage.Page.Loaded | frontend/src/pages/Users.js:35 | only the total changes |
| UsersPage.Page.SetSearch | frontend/src/pages/Users.js:93 | only the search text changes |
| UsersPage.Page.SetResellerFilter | frontend/src/pages/Users.js:100 | only the reseller filter changes, and the banned filter is kept |
| UsersPage.Page.SetBannedFilter | frontend/src/pages/Users.js:110 | only the banned filter changes, and the reseller filter is kept |
| UsersPage.Page.Previous | frontend/src/pages/Users.js:202-203 | the page becomes `max(0, page-1)`, staying valid |
| UsersPage.Page.Next | frontend/src/pages/Users.js:212-213 | the page moves on unless "next" is disabled, staying valid |

## Left out

- Database, network and subprocess I/O are left out. The Mongo collections are maps inside the `Panel` and `Bot` classes, and requests are method calls. The `wg` run is an input value; peers added or removed are a map of public keys to addresses.
- Crypto and randomness are left out. JWT signing and verification, bcrypt, key generation, `uuid4` and QR rendering become parameters: the decoded claims, the password hash, the keys and the ids. `Math.random()` draws are a parameter of `generateCode`.
- Time is left out. `now` is a parameter; dates are integers (seconds in the backends, milliseconds on the subscription page). `new Date(..).toISOString()` is the parameter `toIso`, so the `RangeError` it throws for an invalid date is not modelled (Helpers.FormatDateForInput, DiscountCodesPage.EditForm).
- Floating point is left out. Numbers are exact rationals:
  - `Math.log` is replaced by the exact integer logarithm.
  - `toFixed` is exact rounding to hundredths.
  - `parseFloat`/`parseInt` read decimal text without exponents, `Infinity` or `NaN` literals; a `NaN` result is `None`, which is what it serialises to.
  - `toFixed` output above 1e21 is out of scope.
- Locale formatting is left out: `format_price`, `format_traffic`, `formatPrice`, `formatDate` and `toLocaleDateString`.
- The async engines are left out: the Telegram `ConversationHandler` engine beyond its state table, `Promise.all`, and the 30-second polling of the subscription page.
- UI rendering is left out: JSX, toasts, loading spinners, `window.confirm`, the clipboard and blob downloads. `prompt` is an optional answer.
- The operations with no modelled rule are left out: the ban, delete, QR and config-download handlers of the pages; `select_plan`, `select_server` and `handle_discount` of the bot, beyond the state table; and the support and wallet top-up conversations, beyond their states.
- `get_client_last_handshake`, `add_peer`, `remove_peer`, `save_config` and `restart_interface` of `wireguard.py` are subprocess calls; only their effect on the peer map is modelled.
- Look-ups of prototype keys such as `constructor` in the JavaScript tables (`statusLabels`, `getUnitMultiplier`, `getStatusColor`) are left out; the tables are exact maps.
- WireGuard.ParseCidr: the netmask form `a.b.c.d/255.255.255.0` and IPv6 networks are not accepted.
- Helpers.FormatBytes: the string rendering (`parseFloat(..) + ' ' + label`) is a structured result (magnitude, unit index, label), not text.
- PlansPage.EditRoundTrip: prices and traffic are whole numbers, because `toString` of a fraction is not modelled.
- DiscountCodesPage.EditRoundTrip: numbers are whole, for the same reason, and a stored date is assumed to be ISO text whose first 10 characters are the day.
- Null fields of a client document are left out: a null `is_enabled` or `data_used` is treated like a missing one, although Python reads the first as disabled and fails on the second with a TypeError.
- AdminApi.Panel.CreateClient: a missing or non-string server address raises an uncaught KeyError or AttributeError. The model answers it as a 500 carrying the exception's text; the framework's own error body is not modelled.
- AdminApi.Panel.UpdateSettings: without a settings document the handler fails on `settings.pop` with an uncaught `AttributeError`. The model answers it as the server's generic 500 carrying the exception's text; the framework's own error body is not modelled. Nothing is written, because `update_one` matches no document.
- The Orders page's filter select does not offer `expired`; the model does not restrict the filter text.
- SalesBot.NormalizeCode: upper-casing covers the ASCII letters only. Python's `str.upper()` maps every cased letter, and some to longer text (`ß` becomes `SS`). White space is Python's full set.
- SalesBot.Bot.ProcessDiscountCode: codes are looked up under the same ASCII-only upper-casing, so a code typed with non-ASCII lower-case letters is not matched the way the source matches it.
- ClientsPage.Filter: the search lower-cases the ASCII letters only; JavaScript's `toLowerCase()` also folds letters such as `É`, so "él" finds "Élan" in the source but not in the model.
- ClientsPage.NameAndEmailIgnoreCase: holds for ASCII case mapping only. With JavaScript's full mapping, upper-casing can change the length of the query (`ß` becomes `SS`), and the upper-cased query can then stop matching.
- DiscountCodesPage.Page.SetCode: `toUpperCase()` is modelled on the ASCII letters only.
- SalesBot.ReferrerOf: Python's `int()` also accepts `_` between digits and non-ASCII decimal digits (`ref_1_2` gives 12); the model reads ASCII digits only.
- WireGuard.PeerSentinels: `int()` is modelled as an optional sign and ASCII decimal digits inside Python white space. `_` separators and non-ASCII digits, which `int()` also accepts, make the model reject a field the source reads. 
- WireGuard.StatsFailIff: the failure condition uses the same ASCII-digit `int()`, so a field with `_` separators or non-ASCII digits counts as a failure here where the source reads it.
- SalesBot.Dispatch: the `/cancel` fallback matches that exact text. The library's command handler also takes `/cancel@<bot name>` and `/cancel <arguments>`, and `IsCommand` approximates the command filter by a leading `/`.

## Findings

| source | as written | input that shows it | evidently intended | confidence | as-written member | corrected member |
|---|---|---|---|---|---|---|
| frontend/src/pages/Clients.js:181 | the edit form shows the limit as `(limit / 1024^3).toFixed(2)` GB, and saving sends that text back through `parseFloat * GiB` | a client with a 1 MiB limit: the form shows "0.00", and saving without touching the field sends `data_limit` 0, which the API treats as no limit | an untouched limit is kept (left out of the update) | not executed | ClientsPage.SmallLimitBecomesUnlimited | ClientsPage.KeepingEditKeepsLimit |
| frontend/src/pages/DiscountCodes.js:191 | `{code.max_uses && <span> / max</span>}` renders the `0` that `0 && ..` yields | a code with `used_count` 3 and `max_uses` 0 reads "30" in the usage column | "3", with no use limit shown | not executed | DiscountCodesPage.StrayZeroReadsAsCount | DiscountCodesPage.UsageCell |
| frontend/src/pages/Payments.js:73 | changing the status filter keeps the page number (the same holds at Orders.js:60 and Users.js:93, 100, 110) | on page 3 (rows 151-200) of 200 payments, choosing a filter with 40 payments requests `skip=150`: the table is empty and, with 40 rows, no pagination controls are shown | the page restarts at 0 when a filter changes | not executed | Pagination.FilterChangeStrandsPage | PaymentsPage.Page.SelectStatus |
