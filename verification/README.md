# pulumi-events core in Dafny

pulumi-events is an MCP server that lets an assistant manage community events on
Meetup (GraphQL, OAuth2 with browser login) and Luma (REST, API key). This project
models the part of it that makes decisions. It covers:

- **Tokens**: the file-backed Meetup token store. It holds one record, treats the
  record as expired 300 seconds early, refreshes it with the refresh grant, and
  replaces it wholesale.
- **MeetupTransport**: the Meetup GraphQL transport. It logs in and then polls once
  per second for up to 120 seconds. It sends a Bearer header and treats any
  `errors` entry in a response as a failure.
- **LumaTransport**: the Luma REST transport. It checks the API key lazily and turns
  any status of 400 or more into a provider error that names the status.
- **MeetupAdapter** and **LumaAdapter**: the two provider adapters. They hold the
  dispatch tables, the mutation-error check, the injected `eventId` / `event_id`,
  and the unwrap-with-fallback.
- **OAuth**: building the authorization URL and the token-request forms.
  Form encoding is proved to round-trip through a decoder.
- **Registry**: the provider registry.
- **SearchTools**, **EventTools**, **LumaTools**, **VenueTools**, **MemberTools**,
  **GroupTools** and **PlatformTools**: the tools. Each builds a request map by
  conditional inserts, calls an adapter, and turns provider errors into tool errors.

Supporting modules:

- **Json** holds JSON values. It also has `Given`, the dict that a run of
  `if arg is not None: d[key] = arg` inserts builds, with its presence lemmas.
- **Errors** holds the exception kinds and the two tool boundaries.
- **Config** holds the settings fields that are read, with their defaults.
- **Providers** holds the capability enum and the order of Python strings.

Network replies, the clock and the OAuth callback are inputs to the model. An
adapter operation records the one call it makes (`Step`, `Exchange`) and takes
what that call returned as a parameter. The token store and the GraphQL client
are classes whose methods change the held record and the cache file.

## Model

| member | source | states |
|---|---|---|
| Errors.CheckedJson | src/pulumi_events/providers/meetup/client.py:89-90 | the body is returned exactly when the status is 2xx and the body is JSON; otherwise an HTTP-status error or a decode error |
| Errors.ToolBoundary | src/pulumi_events/tools/event_tools.py:81-86 | results pass unchanged; provider errors (including GraphQL errors) become tool errors with the same message; every other error propagates |
| Errors.ActionToolBoundary | src/pulumi_events/tools/event_tools.py:167-172 | like the tool boundary, except that a ValueError also becomes a tool error |
| Errors.ValueErrorOnlyCaughtByAction | src/pulumi_events/tools/event_tools.py:83-86 | a ValueError crosses the create/edit boundary unchanged but becomes a tool error at the event-action boundary |
| Errors.BoundariesAgreeOffValueError | src/pulumi_events/tools/event_tools.py:169-172 | apart from ValueError, the two boundaries agree on every result |
| Json.Put | src/pulumi_events/tools/event_tools.py:63-64 | one conditional insert extends the dict built so far by exactly one argument of the run |
| Json.GivenKeys | src/pulumi_events/tools/event_tools.py:122-142 | a key is in the built dict exactly when some argument under that key was given |
| Json.GivenField | src/pulumi_events/tools/event_tools.py:122-142 | an argument whose key occurs once is present exactly when given, with its value |
| Json.AllFieldsGiven | src/pulumi_events/tools/event_tools.py:122-142 | with distinct keys, every argument is present exactly when given, with its value |
| OAuth.Utf8RoundTrip | src/pulumi_events/auth/oauth.py:21-27 | the UTF-8 decoder recovers every string from its encoding |
| OAuth.Utf8DecodeChar | src/pulumi_events/auth/oauth.py:21-27 | the encoding of one character decodes to that character, whatever follows |
| OAuth.UnquoteQuotePlus | src/pulumi_events/auth/oauth.py:21-27 | percent-decoding undoes `quote_plus` for every string |
| OAuth.QuotePlusNoSeparators | src/pulumi_events/auth/oauth.py:21-27 | an encoded key or value never contains `&` or `=` |
| OAuth.SplitJoin | src/pulumi_events/auth/oauth.py:21-27 | joining pieces that contain no `&` with `&` and splitting again gives back the pieces |
| OAuth.ParsePieceRoundTrip | src/pulumi_events/auth/oauth.py:21-27 | one encoded `key=value` piece decodes to its pair |
| OAuth.UrlEncodeRoundTrip | src/pulumi_events/auth/oauth.py:21-27 | every form survives `urlencode` and decoding, pairs and order intact |
| OAuth.AuthUrlRoundTrip | src/pulumi_events/auth/oauth.py:19-28 | the URL is the authorize endpoint, then `?`, then a query that decodes to exactly `client_id`, `response_type=code` and `redirect_uri`, in order, with the values unchanged |
| OAuth.ExchangeRequestFields | src/pulumi_events/auth/oauth.py:39-47 | the code exchange goes to the token endpoint; its five-field form carries `grant_type=authorization_code`, the code, the redirect URI and both client credentials |
| OAuth.ExchangeRequest | src/pulumi_events/auth/oauth.py:39-47 | the exchange goes to the token endpoint and its form carries the authorization-code grant, the code and both client credentials |
| OAuth.RefreshRequestFields | src/pulumi_events/auth/token_store.py:92-103 | the refresh goes to the token endpoint with `grant_type=refresh_token`, the old refresh token and both client credentials |
| OAuth.RefreshRequest | src/pulumi_events/auth/token_store.py:92-103 | the refresh goes to the token endpoint and its form carries the refresh-token grant and the token |
| Tokens.TokenOf | src/pulumi_events/auth/token_store.py:62-66 | a token is returned exactly when `access_token` is a string, and it is returned unchanged; otherwise the corrupt-cache authentication error |
| Tokens.IsExpired | src/pulumi_events/auth/token_store.py:79-84 | no record counts as expired; a record whose fields convert to numbers is expired exactly when the clock is strictly past `obtained_at + expires_in - 300`, absent fields reading as 0; a field that does not convert raises |
| Tokens.RefreshSpec | src/pulumi_events/auth/token_store.py:86-108 | a refresh stores a record exactly when it raises nothing |
| Tokens.TokenStore.constructor | src/pulumi_events/auth/token_store.py:30-37 | starts with no record, then loads the cache file |
| Tokens.TokenStore.IsAuthenticated | src/pulumi_events/auth/token_store.py:43-46 | a record is held, whether or not it has expired |
| Tokens.TokenStore.LoadFromDisk | src/pulumi_events/auth/token_store.py:111-117 | a missing file keeps the held record, an unreadable or unparsable file yields no record, a parsed object is held |
| Tokens.TokenStore.StoreToken | src/pulumi_events/auth/token_store.py:68-72 | the held record and the cache file both become the response stamped with `obtained_at = now` |
| Tokens.TokenStore.Refresh | src/pulumi_events/auth/token_store.py:86-108 | the error, the request sent and the new record and file are those of the refresh specification |
| Tokens.TokenStore.GetAccessToken | src/pulumi_events/auth/token_store.py:48-66 | the token, the refresh request and the new record and file are those of the access specification |
| Tokens.NotAuthenticatedIffNoRecord | src/pulumi_events/auth/token_store.py:43-46 | "not authenticated" is raised exactly when no record is held, whatever the expiry |
| Tokens.NoRecordNoRefresh | src/pulumi_events/auth/token_store.py:55-57 | without a record it fails with an authentication error, sends nothing and stores nothing |
| Tokens.RefreshIffExpired | src/pulumi_events/auth/token_store.py:59-60 | a refresh request is sent exactly when the record is expired and holds a string refresh token, and it carries that token |
| Tokens.ExpiryBoundary | src/pulumi_events/auth/token_store.py:79-84 | the test is strict: no refresh at `now == obtained_at + expires_in - 300`, a refresh one second later |
| Tokens.MissingFieldsReadAsZero | src/pulumi_events/auth/token_store.py:82-83 | absent `obtained_at` and `expires_in` read as 0 |
| Tokens.FreshRecordServed | src/pulumi_events/auth/token_store.py:62-66 | a record that is not expired yields its own string token without any refresh, or else the corrupt-cache error |
| Tokens.MissingRefreshTokenFails | src/pulumi_events/auth/token_store.py:87-90 | an expired record without a string refresh token fails, sends nothing and keeps the record |
| Tokens.RejectedRefreshFails | src/pulumi_events/auth/token_store.py:104-106 | a refresh answered with any status but 200 fails naming the status and body, and stores nothing |
| Tokens.AcceptedRefreshReplacesRecord | src/pulumi_events/auth/token_store.py:95-108 | a refresh answered with 200 replaces the record by the response plus a fresh `obtained_at`, so a refresh token the response omits is dropped |
| Tokens.StampOverwrites | src/pulumi_events/auth/token_store.py:68-72 | storing overwrites `obtained_at` with the clock and keeps every other field |
| Tokens.JustStoredExpiry | src/pulumi_events/auth/token_store.py:70 | a record just stored is already expired only when it lives less than the 300-second margin |
| Tokens.ReloadAfterStore | src/pulumi_events/auth/token_store.py:111-121 | what a store writes, a later load reads back; an unreadable file reads as no record; no file changes nothing |
| MeetupTransport.PollStep | src/pulumi_events/providers/meetup/client.py:57-62 | the poll sees a record within steps 1..120: at step 1 when one is already held, otherwise at the callback's step when that is in range |
| MeetupTransport.MessageValues | src/pulumi_events/providers/meetup/client.py:94 | each entry contributes its `message`, or its string form, provided every entry is a dict |
| MeetupTransport.AllStrings | src/pulumi_events/providers/meetup/client.py:94 | the join succeeds exactly when every text is a string |
| MeetupTransport.BearerHeader | src/pulumi_events/providers/meetup/client.py:87 | the only header is `Authorization`, holding `Bearer ` followed by the token |
| MeetupTransport.BuildPayload | src/pulumi_events/providers/meetup/client.py:80-82 | the payload holds `query`, and it holds `variables` exactly when they are given and non-empty |
| MeetupTransport.ReadResponse | src/pulumi_events/providers/meetup/client.py:89-98 | a status or decoding error comes first; data is returned exactly when the body is a dict without `errors`, and it is the `data` entry or `{}` |
| MeetupTransport.Login | src/pulumi_events/providers/meetup/client.py:44-65 | a token obtained implies a held record, and a held record is never dropped by a login |
| MeetupTransport.MeetupGraphQLClient.AwaitRecord | src/pulumi_events/providers/meetup/client.py:57-63 | the loop stops at the poll step of the specification, and the store then holds the callback's stamped record; when it times out the store is unchanged |
| MeetupTransport.MeetupGraphQLClient.IsAuthenticated | src/pulumi_events/providers/meetup/client.py:40-42 | the token store's authentication, unchanged |
| MeetupTransport.MeetupGraphQLClient.EnsureAuthenticated | src/pulumi_events/providers/meetup/client.py:44-65 | the token, the URL opened in the browser, the refresh requests, and the new record and file are those of the login specification; a token obtained leaves the client authenticated |
| MeetupTransport.MeetupGraphQLClient.Execute | src/pulumi_events/providers/meetup/client.py:67-98 | a login failure is returned and nothing is posted; otherwise it posts the payload to the GraphQL endpoint with the Bearer header and returns the classified response |
| MeetupTransport.LoginOnlyOnAuthenticationError | src/pulumi_events/providers/meetup/client.py:46-54 | the browser is opened exactly when the first attempt raised an authentication error; any other outcome, a token included, is returned as it is |
| MeetupTransport.LoginTimesOut | src/pulumi_events/providers/meetup/client.py:57-65 | with no record and no callback within 120 steps, the login times out and stores nothing |
| MeetupTransport.LoginPicksUpArrival | src/pulumi_events/providers/meetup/client.py:58-62 | a callback arriving at step k is picked up at step k, and the token is then asked for from its stamped record |
| MeetupTransport.ArrivedTokenServed | src/pulumi_events/providers/meetup/client.py:61-62 | a stored record still valid at the retry yields its access token |
| MeetupTransport.HeldRecordEndsPollAtFirstStep | src/pulumi_events/providers/meetup/client.py:48-62 | a record still held after a failed first attempt ends the poll after one second and retries at once |
| MeetupTransport.ErrorsKeyNeverYieldsData | src/pulumi_events/providers/meetup/client.py:92-96 | a response with an `errors` entry never yields data, even when the list is empty |
| MeetupTransport.GraphQLErrorRaised | src/pulumi_events/providers/meetup/client.py:92-96 | the messages are joined with "; " after the prefix, and the error keeps the `errors` value as a provider error |
| MeetupTransport.MessagesOfEntries | src/pulumi_events/providers/meetup/client.py:94 | dict entries with string messages contribute exactly those messages |
| MeetupTransport.MissingMessageShowsEntry | src/pulumi_events/providers/meetup/client.py:94 | an entry without `message` contributes its string form |
| MeetupTransport.DataReturned | src/pulumi_events/providers/meetup/client.py:98 | without `errors` the result is `data`, or `{}` when it is absent |
| MeetupTransport.StatusCheckedFirst | src/pulumi_events/providers/meetup/client.py:89 | a status outside 2xx fails before the body is read |
| LumaTransport.HandleResponse | src/pulumi_events/providers/luma/client.py:56-66 | the decoded body is returned exactly when the status is below 400; from 400 up, a provider error naming the status and the message |
| LumaTransport.LumaClient.Headers | src/pulumi_events/providers/luma/client.py:32-36 | an authentication error exactly when the key is empty; otherwise exactly the `x-luma-api-key` header |
| LumaTransport.LumaClient.IsAuthenticated | src/pulumi_events/providers/luma/client.py:28-30 | the key is non-empty |
| LumaTransport.LumaClient.Url | src/pulumi_events/providers/luma/client.py:41 | the URL is the base endpoint followed by the path |
| LumaTransport.LumaClient.Send | src/pulumi_events/providers/luma/client.py:38-54 | a request is sent exactly when authenticated, to the formed URL with the data and key header; the result is then the handled reply |
| LumaTransport.LumaClient.Get | src/pulumi_events/providers/luma/client.py:38-45 | a GET of the formed URL with the parameters, sent exactly when authenticated |
| LumaTransport.LumaClient.Post | src/pulumi_events/providers/luma/client.py:47-54 | a POST to the formed URL with the JSON body, sent exactly when authenticated |
| LumaTransport.FromSettings | src/pulumi_events/providers/luma/client.py:23-26 | construction copies the endpoint and key and never fails |
| LumaTransport.NoKeyNoRequest | src/pulumi_events/providers/luma/client.py:40-53 | without a key neither GET nor POST sends anything |
| LumaTransport.DefaultClientUnauthenticated | src/pulumi_events/providers/luma/client.py:28-30 | the default settings carry no key, so the client is unauthenticated |
| LumaTransport.ErrorReportsMessage | src/pulumi_events/providers/luma/client.py:58-65 | a failure whose JSON object has a string `message` reports that message |
| LumaTransport.ErrorReportsText | src/pulumi_events/providers/luma/client.py:62-65 | a failure without a usable `message` reports the raw text |
| LumaTransport.BelowFourHundredPassesThrough | src/pulumi_events/providers/luma/client.py:66 | any status below 400 returns the decoded body unchanged |
| LumaTransport.StatusReadBack | src/pulumi_events/providers/luma/client.py:64 | the status can be read back from every Luma error message |
| Providers.ValuesIn | src/pulumi_events/tools/platform_tools.py:34 | lists exactly the values of the capabilities that are in the set |
| Providers.StrLessTransitive | src/pulumi_events/tools/platform_tools.py:34 | the string order is transitive |
| Providers.ValuesInAscending | src/pulumi_events/tools/platform_tools.py:34 | values drawn in an ascending order are strictly ascending |
| Providers.CapabilityValueInjective | src/pulumi_events/providers/base.py:11-25 | no two capabilities share a value |
| Providers.SortedValuesSpec | src/pulumi_events/tools/platform_tools.py:34 | `sorted(c.value for c in caps)` is strictly ascending, free of duplicates, and holds exactly the values of the set |
| MeetupAdapter.View | src/pulumi_events/providers/meetup/provider.py:24-47 | the name is "meetup", all twelve capabilities are reported, and the provider is authenticated exactly when the client's token store holds a record |
| MeetupAdapter.Pick | src/pulumi_events/providers/meetup/provider.py:87 | `data[key]` succeeds exactly on a dict holding the key |
| MeetupAdapter.CheckMutationErrors | src/pulumi_events/providers/meetup/provider.py:152-159 | a mutation passes exactly when its result is a dict whose `errors` entry is falsy |
| MeetupAdapter.Mutated | src/pulumi_events/providers/meetup/provider.py:85-124 | a mutation result is returned exactly when the named entry is a dict with falsy `errors` (holding the unwrap key when one is read), and it is that entry or its unwrap key's value |
| MeetupAdapter.CreateEventOp | src/pulumi_events/providers/meetup/provider.py:85-89 | sends `{input: kwargs}` with the create mutation; succeeds exactly when `createEvent` is a dict with falsy `errors` holding `event`, and returns that `event` |
| MeetupAdapter.CreateVenueOp | src/pulumi_events/providers/meetup/provider.py:120-124 | sends `{input: kwargs}` with the venue mutation; succeeds exactly when `createVenue` is a dict with falsy `errors` holding `venue`, and returns that `venue` |
| MeetupAdapter.LookupsReadTheirKey | src/pulumi_events/providers/meetup/provider.py:53-83 | every lookup returns exactly the entry it names, and fails when that entry is missing |
| MeetupAdapter.EditEventOp | src/pulumi_events/providers/meetup/provider.py:91-96 | the input is the caller's fields plus `eventId`, which overrides any caller value; the result is the checked `editEvent.event` |
| MeetupAdapter.EventAction | src/pulumi_events/providers/meetup/provider.py:98-118 | an unknown action is a ValueError and no call; a known one sends `{input: {eventId}}` with its mutation and returns the whole checked result |
| MeetupAdapter.SearchFor | src/pulumi_events/providers/meetup/provider.py:135-147 | exactly events, groups and members are accepted, each read from `<type>Search`; an unhashable type is a TypeError and any other a ValueError |
| MeetupAdapter.NetworkSearchOp | src/pulumi_events/providers/meetup/provider.py:134-149 | pops `search_type` (default "events"); an unknown type raises and sends nothing; the variables are `urlname` overlaid by the remaining kwargs |
| MeetupAdapter.ActionTableExact | src/pulumi_events/providers/meetup/provider.py:99-106 | exactly the five listed actions are accepted |
| MeetupAdapter.UnknownActionSendsNothing | src/pulumi_events/providers/meetup/provider.py:106-108 | an unknown action raises ValueError before any call |
| MeetupAdapter.ActionReturnsWholeResult | src/pulumi_events/providers/meetup/provider.py:110-114 | a known action sends `{input: {eventId}}` and returns the whole result once it passes the check |
| MeetupAdapter.EmptyMutationErrorsPass | src/pulumi_events/providers/meetup/provider.py:156-157 | an empty mutation `errors` list is not a failure |
| MeetupAdapter.MutationErrorsJoined | src/pulumi_events/providers/meetup/provider.py:157-159 | non-empty mutation errors are raised as one provider error: "Mutation failed: " and the joined messages |
| MeetupAdapter.MutationUnwraps | src/pulumi_events/providers/meetup/provider.py:85-89 | a create that passes the check sends `{input: kwargs}` and returns `createEvent.event` |
| MeetupAdapter.FailedMutationNotUnwrapped | src/pulumi_events/providers/meetup/provider.py:120-124 | a failed venue mutation yields the provider error, not the venue |
| MeetupAdapter.SearchTableExact | src/pulumi_events/providers/meetup/provider.py:138-145 | exactly the three search types are accepted |
| LumaAdapter.View | src/pulumi_events/providers/luma/provider.py:23-41 | the name is "luma", authentication is the client's, and reading the capabilities raises |
| LumaAdapter.Unwrap | src/pulumi_events/providers/luma/provider.py:49 | `data.get(key, data)`: the entry when present, else the whole reply; errors pass through |
| LumaAdapter.PageParams | src/pulumi_events/providers/luma/provider.py:62-67 | `pagination_cursor` and `limit` are present exactly when given, and `None` replaces an empty dict |
| LumaAdapter.ListPage | src/pulumi_events/providers/luma/provider.py:62-67 | a GET of the path with the pagination parameters, sent exactly when authenticated |
| LumaAdapter.ListEvents | src/pulumi_events/providers/luma/provider.py:55-67 | a GET of `/calendar/list-events` with the pagination parameters, sent exactly when authenticated; the reply is returned unchanged |
| LumaAdapter.ListPeople | src/pulumi_events/providers/luma/provider.py:104-116 | a GET of `/calendar/list-people` with the pagination parameters, sent exactly when authenticated; the reply is returned unchanged |
| LumaAdapter.ListGuests | src/pulumi_events/providers/luma/provider.py:133-146 | `event_api_id` is always sent, so the parameters are never `None`; the cursor and limit are sent exactly when given |
| LumaAdapter.GetEvent | src/pulumi_events/providers/luma/provider.py:84-86 | a GET of `/event/get` with exactly `{api_id}`; the reply's `event` entry, or the whole reply |
| LumaAdapter.CreateEventOp | src/pulumi_events/providers/luma/provider.py:88-90 | a POST to `/event/create` with the fields as given; the reply's `event` entry, or the whole reply |
| LumaAdapter.UpdateEventOp | src/pulumi_events/providers/luma/provider.py:92-95 | the body is the caller's fields plus `event_id`, which overrides any caller value; the reply is unwrapped |
| LumaAdapter.CancelEvent | src/pulumi_events/providers/luma/provider.py:97-98 | a POST to `/event/cancel` with exactly `{event_id}`; the reply returned unchanged |
| LumaAdapter.NoPageArgumentsNoParams | src/pulumi_events/providers/luma/provider.py:67 | with neither argument the parameters are `None`, not `{}` |
| LumaAdapter.EventUnwrapped | src/pulumi_events/providers/luma/provider.py:84-86 | `get_event` sends `{api_id}` and returns `event` when present, else the whole reply |
| LumaAdapter.CancelPassesReplyThrough | src/pulumi_events/providers/luma/provider.py:97-98 | cancel posts exactly `{event_id}` and returns the reply unchanged |
| LumaAdapter.ErrorNotUnwrapped | src/pulumi_events/providers/luma/provider.py:88-90 | a Luma error reply reaches the caller as a provider error |
| Registry.ProviderRegistry.constructor | src/pulumi_events/providers/registry.py:16-17 | a new registry is empty |
| Registry.ProviderRegistry.Register | src/pulumi_events/providers/registry.py:19-20 | stores the provider under its name, replacing any earlier one, and leaves other names unchanged |
| Registry.ProviderRegistry.Get | src/pulumi_events/providers/registry.py:22-23 | the provider registered under the name, or `None` exactly when there is none |
| Registry.ProviderRegistry.All | src/pulumi_events/providers/registry.py:25-26 | returns a copy equal to the current map |
| Registry.RegisterThenGet | src/pulumi_events/providers/registry.py:19-23 | two providers with different names can both be read back |
| Registry.ReRegisterReplaces | src/pulumi_events/providers/registry.py:19-26 | a second registration under the same name wins, and one entry remains |
| SearchTools.SearchEventsVariables | src/pulumi_events/tools/search_tools.py:46-56 | the filter always holds `query`, `lat` and `lon`, and holds the date range and event type exactly when given; the variables hold `filter` and `first`, and `after` exactly when given |
| SearchTools.MeetupSearchEvents | src/pulumi_events/tools/search_tools.py:46-64 | the built variables go to the search-events query; the tool boundary is applied to `searchEvents` |
| SearchTools.SearchEventsDefaults | src/pulumi_events/tools/search_tools.py:30 | with only the required arguments, 20 results are asked for and no optional key is sent |
| SearchTools.AsWrittenFallbackFails | src/pulumi_events/tools/search_tools.py:102 | as written, an omitted or empty network name raises instead of falling back |
| SearchTools.NetworkUrlname | src/pulumi_events/tools/search_tools.py:102 | a truthy argument is used; otherwise the configured network |
| SearchTools.CorrectedAgreesWhenGiven | src/pulumi_events/tools/search_tools.py:102 | the corrected resolution agrees with the code as written wherever the latter succeeds |
| SearchTools.MemberFilter | src/pulumi_events/tools/search_tools.py:106-112 | holds exactly the given fields among `query`, `roles` and `eventsAttendedMin`, and is non-empty exactly when one is given |
| SearchTools.MemberVariables | src/pulumi_events/tools/search_tools.py:105-117 | `filter` is present exactly when non-empty; `sort` and `desc` are present together, exactly when `sort` is given |
| SearchTools.NetworkSearchVariables | src/pulumi_events/tools/search_tools.py:103-123 | `search_type` and `first` are always sent, and `after` exactly when given; the members branch as above; otherwise only `query`, exactly when given |
| SearchTools.MeetupNetworkSearch | src/pulumi_events/tools/search_tools.py:102-131 | a call is made exactly for events, groups and members, with that type's query; it carries the resolved `urlname` in place of `search_type` and otherwise exactly the variables of its branch; the result is that type's entry of `proNetworkByUrlname` behind the tool boundary; an unknown type is a ValueError and no call |
| SearchTools.NonMemberSearchIgnoresMemberArguments | src/pulumi_events/tools/search_tools.py:118-120 | a groups search never sends `roles`, `eventsAttendedMin`, `filter`, `sort` or `desc` |
| EventTools.DisplayIsGiven | src/pulumi_events/tools/event_tools.py:55-62 | the six-entry dict display equals the run of its six given entries |
| EventTools.CreateEventInput | src/pulumi_events/tools/event_tools.py:55-78 | the input is the run of the six required fields followed by the eight conditional inserts |
| EventTools.EditEventKwargs | src/pulumi_events/tools/event_tools.py:122-142 | the kwargs are the run of the ten conditional inserts |
| EventTools.MeetupCreateEvent | src/pulumi_events/tools/event_tools.py:19-86 | sends the built input to the create mutation; the result is the checked `createEvent.event` behind the tool boundary |
| EventTools.MeetupEditEvent | src/pulumi_events/tools/event_tools.py:92-150 | the input holds the given fields plus `eventId`; the result is the checked `editEvent.event` behind the tool boundary |
| EventTools.MeetupEventAction | src/pulumi_events/tools/event_tools.py:154-172 | the adapter's action call behind the wider boundary |
| EventTools.CreateInputFields | src/pulumi_events/tools/event_tools.py:55-78 | the six required fields are always present; each optional field is under its camelCase key exactly when given; the RSVP limit is nested as `rsvpSettings.rsvpLimit` |
| EventTools.CreateInputKeys | src/pulumi_events/tools/event_tools.py:55-78 | the create input holds no key outside the fourteen it writes |
| EventTools.EditKwargsFields | src/pulumi_events/tools/event_tools.py:122-142 | each edit field is sent exactly when given; the RSVP limit is nested as `rsvpSettings.rsvpLimit` |
| EventTools.EditKwargsKeys | src/pulumi_events/tools/event_tools.py:122-142 | an edit never sends `eventId`, `groupUrlname`, `publishStatus` or the pro-network fields |
| EventTools.EmptyEditSendsOnlyId | src/pulumi_events/tools/event_tools.py:122 | with no field given the kwargs are empty |
| EventTools.CreateEventDefaults | src/pulumi_events/tools/event_tools.py:25-28 | by default an event lasts `PT2H`, is a `DRAFT`, and carries only the six required fields |
| EventTools.UnknownActionIsToolError | src/pulumi_events/tools/event_tools.py:169-172 | an unknown action reaches the client as a tool error with the same message, and no call is made |
| LumaTools.DisplayIsGiven | src/pulumi_events/tools/luma_tools.py:71-76 | the four-entry dict display equals the run of its four given entries |
| LumaTools.CreateEventInput | src/pulumi_events/tools/luma_tools.py:71-88 | the input is the run of name, times and visibility, followed by the six conditional inserts |
| LumaTools.UpdateEventKwargs | src/pulumi_events/tools/luma_tools.py:132-152 | the kwargs are the run of the ten conditional inserts |
| LumaTools.LumaListEvents | src/pulumi_events/tools/luma_tools.py:21-39 | a GET of `/calendar/list-events` where `after` and `limit` become the pagination parameters; the reply is behind the tool boundary |
| LumaTools.LumaCreateEvent | src/pulumi_events/tools/luma_tools.py:43-96 | the adapter's create with the built input, behind the tool boundary |
| LumaTools.LumaUpdateEvent | src/pulumi_events/tools/luma_tools.py:102-160 | a POST to `/event/update` whose body holds the given fields plus `event_id`; the unwrapped reply is behind the tool boundary |
| LumaTools.LumaCancelEvent | src/pulumi_events/tools/luma_tools.py:164-180 | the adapter's cancel with the event id unchanged, behind the tool boundary |
| LumaTools.LumaListPeople | src/pulumi_events/tools/luma_tools.py:186-206 | a GET of `/calendar/list-people` where `after` and `limit` become the pagination parameters; the reply is behind the tool boundary |
| LumaTools.LumaListGuests | src/pulumi_events/tools/luma_tools.py:212-232 | a GET of `/event/get-guests` carrying the event id always and the cursor and limit exactly when given; the reply is behind the tool boundary |
| LumaTools.CreateInputFields | src/pulumi_events/tools/luma_tools.py:71-88 | name, times and visibility are always present; `description` travels as `description_md`; every other field is present exactly when given |
| LumaTools.CreateInputKeys | src/pulumi_events/tools/luma_tools.py:71-88 | the create body never holds a plain `description`, nor anything outside its ten fields |
| LumaTools.CreateEventDefaults | src/pulumi_events/tools/luma_tools.py:54 | by default an event is `public` and carries only the four required fields |
| LumaTools.UpdateKwargsFields | src/pulumi_events/tools/luma_tools.py:132-152 | each update field is sent exactly when given, visibility included, with `description` as `description_md` |
| LumaTools.UpdateKwargsKeys | src/pulumi_events/tools/luma_tools.py:132-152 | the update kwargs never hold `event_id` or a plain `description` |
| VenueTools.DisplayIsGiven | src/pulumi_events/tools/venue_tools.py:43-49 | the five-entry dict display equals the run of its five given entries |
| VenueTools.VenueInput | src/pulumi_events/tools/venue_tools.py:43-55 | the input is the run of the five required fields followed by `state`, `lat` and `lng` |
| VenueTools.MeetupCreateVenue | src/pulumi_events/tools/venue_tools.py:19-63 | sends the built input to the create-venue mutation; the result is the checked `createVenue.venue` behind the tool boundary |
| VenueTools.VenueInputFields | src/pulumi_events/tools/venue_tools.py:43-55 | the five required fields are always present; `state` and `lat` exactly when given; longitude under `lng` exactly when given; never `lon` |
| MemberTools.MemberVariables | src/pulumi_events/tools/member_tools.py:37-41 | the variables are the run of `first` and the two conditional inserts |
| MemberTools.MeetupListGroupMembers | src/pulumi_events/tools/member_tools.py:21-49 | builds the variables; the provider's outcome is behind the tool boundary |
| MemberTools.MeetupGetMember | src/pulumi_events/tools/member_tools.py:71-76 | the provider's outcome passes unchanged; a provider error becomes a tool error; any other error propagates |
| MemberTools.MemberVariablesFields | src/pulumi_events/tools/member_tools.py:37-41 | `first` is always sent, `after` exactly when given, and the status exactly when given, as a one-element list |
| GroupTools.SearchGroupsVariables | src/pulumi_events/tools/group_tools.py:39-45 | the variables are the run of `query` and `first`, then `lat`, `lon` and `after` when given |
| GroupTools.MeetupSearchGroups | src/pulumi_events/tools/group_tools.py:21-53 | sends the built variables to the group search; `searchGroups` is behind the tool boundary |
| GroupTools.MeetupListMyGroups | src/pulumi_events/tools/group_tools.py:74-81 | with all pages, the all-pages outcome is behind the boundary and no single-page call is made; otherwise one call with `first = 50` |
| GroupTools.SinglePageIgnoresLimit | src/pulumi_events/tools/group_tools.py:77 | the single-page branch gives the same result whatever the limit |
| GroupTools.GroupVariablesFields | src/pulumi_events/tools/group_tools.py:39-45 | `query` and `first` are always sent; `lat`, `lon` and `after` exactly when given; nothing else |
| PlatformTools.Entry | src/pulumi_events/tools/platform_tools.py:30-36 | an entry is built exactly when the capabilities can be read, with `name`, `authenticated` and `capabilities`; otherwise that error |
| PlatformTools.EntriesErrorPersists | src/pulumi_events/tools/platform_tools.py:29-36 | once a provider fails, the whole listing fails with its error |
| PlatformTools.ListPlatforms | src/pulumi_events/tools/platform_tools.py:23-37 | the loop collects one entry per provider, meetup then luma, or fails with the first error |
| PlatformTools.EntriesInOrder | src/pulumi_events/tools/platform_tools.py:28-37 | a successful listing has one entry per provider, in provider order, each built from its provider |
| PlatformTools.EntryFields | src/pulumi_events/tools/platform_tools.py:31-34 | name and authentication are copied; the capability values are ascending, free of duplicates, and exactly those of the provider |
| PlatformTools.MeetupReportsEveryCapability | src/pulumi_events/providers/meetup/provider.py:28-43 | the Meetup entry lists all twelve capability values, in ascending order |
| PlatformTools.ListingFailsOnLuma | src/pulumi_events/providers/luma/provider.py:27-37 | as written, the listing fails with the Luma capabilities error |
| PlatformTools.MeetupLogin | src/pulumi_events/tools/platform_tools.py:51-59 | `auth_url` is the authorization URL of the configured client, next to the fixed instruction |
| PlatformTools.LoginUrlDecodes | src/pulumi_events/tools/platform_tools.py:51-54 | the returned URL decodes back to the configured client id and redirect URI |

## Left out

- The `asyncio.Lock` around check, refresh and return (token_store.py:34, 54) is not modelled. `GetAccessToken` is one atomic sequential step.
- `time.time()` is not modelled. The clock is an integer-seconds parameter, and one access call reads it once.
- The login poll's float `elapsed` and its `asyncio.sleep` are counted as integer steps. The clock of the second token request is a separate parameter (`LoginScript.retryAt`).
- The OAuth callback, which runs concurrently in the server, is an input: the poll step during whose sleep it stores a record.
- File I/O, JSON encoding and `chmod` of the cache file are not modelled. The file is a field holding nothing, something unreadable, or the last record stored.
- httpx requests, `raise_for_status` and `resp.json()` are not modelled. Each reply is an input carrying its status, text and decoded body. `exchange_code`'s network call is left out; only its request is modelled.
- `webbrowser.open` is recorded as the URL opened. Logging and the tools' `ctx.info` are left out.
- Python's `str()`/`repr()` of JSON values are not modelled. They come from a `show` parameter.
- Python's `float()` of a numeric string is not modelled: `float` of a string fails.
- `get_all_pages`, `list_all_my_groups`, `list_group_members` and `get_group_member` are called but not defined. Their outcome is a parameter: of `MeetupListGroupMembers` and `MeetupGetMember`, and of `MeetupListMyGroups` with `all_pages`. The Luma adapter's `list_all_events`, `list_all_people` and `list_all_guests` call them, so they are not modelled. In Python these calls raise AttributeError; the model does not say so.
- Dict insertion order is not modelled, since maps have no order. Only the OAuth forms, which are ordered, are sequences.
- `kwargs` aliasing between a tool and an adapter is not modelled. Dafny maps are values, so an in-place insert cannot be seen by the caller.
- The GraphQL documents of queries.py are opaque identifiers. Result-key lookups are modelled as written (`searchEvents`, `proNetworkByUrlname`, …), and whether the documents select those keys is not modelled.
- Server wiring (lifespan, routes, dependency injection) is not modelled.
- The settings fields the core does not read (`token_cache_dir`, `server_host`, `server_port`) are not modelled.
- LumaAdapter.View: the capabilities name enum members base.py does not define, so reading them raises AttributeError. This is modelled as written.
- SearchTools.MeetupSearchEvents: ensures only the `first`, `after` and `query` entries of the call, while SearchTools.SearchEventsVariables ensures the complete variables.
- SearchTools.MeetupNetworkSearch: uses the corrected network resolution (see Findings); the as-written resolution is the separate member SearchTools.NetworkUrlnameAsWritten.
- Tokens.TokenStore.LoadFromDisk: the cache file is modelled as absent, unreadable or unparsable, or a JSON object. Two files are not represented. A file that is not UTF-8 makes `read_text` raise UnicodeDecodeError, which the `except` does not catch, so constructing the store raises. A file holding JSON that is not an object is kept as the record, and the next `get_access_token` raises AttributeError. Holding those would need a record type other than a JSON object throughout the login model.

## Findings

| source | as written | input that shows it | evidently intended | confidence | as-written member | corrected member |
|---|---|---|---|---|---|---|
| src/pulumi_events/tools/search_tools.py:102 | falls back to `settings.meetup_pro_network_urlname`, which settings.py:17-27 does not define, so the fallback raises AttributeError | `meetup_network_search("events")` with `network_urlname` omitted (or `""`) | fall back to a configured default network name, as the argument's documentation says | not executed | SearchTools.AsWrittenFallbackFails | SearchTools.CorrectedAgreesWhenGiven |
