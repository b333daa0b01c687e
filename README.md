# Optimistic message cache of the OpenPhone conversation view

This project models, in Dafny, the part of the OpenPhone messaging UI that
keeps a conversation's paginated message history consistent while a message
is being sent:

- **Paged-collection algebra** (`optimistic.dfy`, module `Optimistic`).
  The infinite query caches a collection of pages, newest first, each with
  its messages (`data`), a running `totalItems` and a `nextPageToken`
  cursor, plus the `pageParams` each page was fetched with.
  `MergeOptimisticMessage` puts a speculative message at the head of the
  newest page, or builds a one-page collection when there is nothing to
  insert into. `ReplaceOptimisticMessage` swaps every message carrying the
  speculative id for the server's message. Both are functions. Lemmas
  prove what each does to the list of messages the view renders,
  idempotence of the replacement, and that confirming a fresh speculative
  message equals inserting the server's message directly.
- **Send coordinator** (`use_messages.dfy`, module `UseMessages`).
  The query cache is a class `QueryClient`. It holds the cached collections
  by key, the keys whose in-flight fetches were cancelled, an invalidation
  count per key, and a log of the cache calls in order. The class
  `SendMessageMutation` holds the conversation's two phone ids and the
  pending mutation context. Its methods `OnMutate`, `OnError`, `OnSuccess`
  and `OnSettled` are the four mutation callbacks. `Mutate` runs one send
  in the order React Query uses: `onMutate`, then the client's
  `sendMessage`, then `onSuccess` or `onError`, then `onSettled`. The
  clock readings (`Date.now()` and the two ISO timestamps) and the
  server's answer are parameters. `GetNextPageParam` is the
  backward-pagination cursor rule, and `FetchMessagesParams` gives the
  parameters of a page fetch.
- **HTTP client guards and query building** (`client.dfy`, module `Client`).
  `CheckSendMessage` holds the guards of `sendMessage`, and
  `ListMessagesAccepted` the guard of `listMessages`. The query-parameter
  lists of `listMessages` and `listConversations` are built by methods that
  append to a sequence of key/value pairs, proved equal to specification
  functions whose layout is proved in lemmas. The network is abstract:
  `OpenPhoneClient` logs each request it hands over, and the caller
  supplies the reply.
- `decimal.dfy` (module `Decimal`) renders integers as JavaScript's
  `String(n)` does for magnitudes up to 2^53, where every integer is an
  exact double. The client needs it for `maxResults` and the hook for
  the `temp-<milliseconds>` id. A parse-back round trip shows that distinct
  clock readings give distinct speculative ids.
- `types.dfy` (module `ApiTypes`) holds the message, page, collection and
  parameter records. JavaScript `null`/`undefined` is `Option.None`.

## Behaviour worth noting

- React Query calls `onMutate` before `mutationFn`. So the speculative
  message is written into the cache before `sendMessage` checks the draft
  (src/features/messages/hooks/useMessages.ts:50-54,
  src/common/api/client.ts:148-162). An invalid draft sends no request.
  So a draft the client rejects still passes through the cache: `onError`
  restores the snapshot if one existed, and `onSettled` invalidates the
  entry. `UseMessages.EmptyDraftOnLoadedConversation` exercises this.
- `onError` restores only when the snapshot is truthy
  (src/features/messages/hooks/useMessages.ts:116). So a failed first
  send into an empty cache leaves the speculative message until the
  refetch that the invalidation triggers. `UseMessages.FirstSendFails`
  exercises this.
- The content guard rejects only empty content and content longer than
  1600. Whitespace-only content passes it.

## Model

| member | source | states |
|---|---|---|
| Optimistic.MergeOptimisticMessage | src/features/messages/domain/optimisitic.ts:10-34 | With no collection, no `pages` or zero pages the result is exactly one page `[m]` with `totalItems` 1 and a null cursor, and `pageParams` `[undefined]`. Otherwise page 0's messages become `m` followed by the old ones, and its `totalItems` grows by 1. Its cursor, the page count, every later page and `pageParams` are unchanged. |
| Optimistic.ReplaceInData | src/features/messages/domain/optimisitic.ts:51-56 | The inner map keeps the length; each message whose id matches becomes `actual`, every other is kept. |
| Optimistic.ReplaceInPages | src/features/messages/domain/optimisitic.ts:50-58 | The outer map keeps the page count, each page's `totalItems` and `nextPageToken`, and replaces inside each page's messages. |
| Optimistic.ReplaceOptimisticMessage | src/features/messages/domain/optimisitic.ts:43-61 | With no collection or no `pages` the input comes back unchanged. Otherwise `pageParams`, the page count and each page's length, `totalItems` and cursor are kept. Each message with the target id becomes `actual`, and every other message stays. |
| Optimistic.ReplaceAbsentIsIdentity | src/features/messages/domain/optimisitic.ts:50-60 | Replacing an id that occurs in no page returns a collection equal to the input. |
| Optimistic.ReplaceRemovesId | src/features/messages/domain/optimisitic.ts:51-56 | If the server message's id differs from the target, the target id occurs nowhere after the replacement. |
| Optimistic.ReplaceIdempotent | src/features/messages/domain/optimisitic.ts:51-56 | For every collection, id and message, replacing twice equals replacing once. |
| Optimistic.ReplaceAfterMerge | src/features/messages/domain/optimisitic.ts:23-60 | For a speculative id that occurs nowhere in the collection, inserting `m` and then replacing `m.id` by `r` equals inserting `r`. |
| Optimistic.MergeListsMessageFirst | src/features/messages/domain/optimisitic.ts:14-33 | The messages the view lists after the insert are `m` followed by every earlier message, in order. |
| Optimistic.ReplaceListsReplacedMessages | src/features/messages/domain/optimisitic.ts:50-60 | The view's flattened message list after the replacement is the old list with each matching message swapped for `actual`. |
| Decimal.NatToString | src/common/api/client.ts:124 | `String(n)` of a natural number is a non-empty run of decimal digits with no leading zero. |
| Decimal.ParseNatToString | src/common/api/client.ts:124 | Reading the rendered digits back gives the number. |
| Decimal.NatToStringInjective | src/features/messages/hooks/useMessages.ts:67 | Two numbers render to the same string exactly when they are equal. |
| Decimal.IntToString | src/common/api/client.ts:124 | `String(i)` starts with a minus sign exactly when `i` is negative; the rest is digits. |
| Decimal.ParseIntToString | src/common/api/client.ts:124 | The digits after the sign read back as the magnitude of `i`, so the `maxResults` entry carries the value asked for. |
| Client.CheckSendMessage | src/common/api/client.ts:148-162 | A draft passes exactly when its content has 1 to 1600 characters, `from` is non-empty and `to` is non-empty. The content error takes precedence, then the missing sender, then the missing recipient. |
| Client.OptionalParam | src/common/api/client.ts:117-122 | A `(key, v)` entry is present exactly when the optional value is the non-empty string `v`; there is at most one. |
| Client.RepeatedParam | src/common/api/client.ts:115 | One `(key, value)` entry per value, in order. |
| Client.AppendIfPresent | src/common/api/client.ts:117-122 | `if (value) urlParams.append(key, value)` appends exactly the optional entry. |
| Client.AppendEach | src/common/api/client.ts:115 | The `forEach` loop appends one entry per value, in order. |
| Client.BuildListMessagesQuery | src/common/api/client.ts:112-124 | The append sequence of `listMessages` builds the query function `ListMessagesQuery`. |
| Client.BuildListConversationsQuery | src/common/api/client.ts:59-81 | The append sequence of `listConversations` builds the query function `ListConversationsQuery`. |
| Client.ListMessagesQueryLayout | src/common/api/client.ts:114-124 | `phoneNumberId` comes first, then one `participants` entry per participant in order. At most four optional filters follow. `maxResults` comes last and nowhere else, defaulting to 100. Each of `userId`, `createdAfter`, `createdBefore` and `pageToken` has an entry exactly when it is a non-empty string, and that entry carries its value. |
| Client.ListConversationsQueryLayout | src/common/api/client.ts:59-81 | `maxResults` (default 100) follows every filter and `excludeInactive`. The phone numbers are exactly the entries after it, in order. |
| Client.OpenPhoneClient.constructor | src/common/api/client.ts:16-18 | The base URL is `http://localhost:3001/api`, and no request has been sent. |
| Client.OpenPhoneClient.ListMessages | src/common/api/client.ts:99-140 | A missing phone number id or an empty participant list fails before any request. Otherwise one GET to `/v1/messages` carrying the built query is sent, and its reply or its error is returned. |
| Client.OpenPhoneClient.ListConversations | src/common/api/client.ts:56-97 | One GET to `/v1/conversations` carrying the built query; reply or error returned. |
| Client.OpenPhoneClient.SendMessage | src/common/api/client.ts:142-185 | Every guard runs before the request: a rejected draft fails with its guard's error and sends nothing. An accepted draft is POSTed once, as it is, and the reply or the error is returned. |
| UseMessages.GetNextPageParam | src/features/messages/hooks/useMessages.ts:42-44 | The cursor is the last page's `nextPageToken`; a null token means no further page. |
| UseMessages.FetchMessagesRequest | src/features/messages/hooks/useMessages.ts:26-37 | Of the parameters `FetchMessagesParams` builds and the guard `Client.ListMessagesAccepted` (src/common/api/client.ts:102-110): a page fetch passes the client's guard exactly when the local phone id is non-empty. Its query starts with the phone id and the one participant and ends with `maxResults=100`. |
| UseMessages.NextPageRequestCarriesCursor | src/features/messages/hooks/useMessages.ts:31-44 | The request for the next older page carries `pageToken=v` exactly when the last page's cursor is the non-empty string `v`. |
| UseMessages.OptimisticWritesKeepCursor | src/features/messages/hooks/useMessages.ts:39-46 | For every collection, neither the optimistic insert nor the replacement changes the next-page cursor. A first send into an empty collection leaves no older page to fetch. |
| UseMessages.TempIdsDistinct | src/features/messages/hooks/useMessages.ts:67 | Of `TempId`: two `temp-${Date.now()}` ids are equal exactly when the clock readings are equal. |
| UseMessages.QueryClient.CancelQueries | src/features/messages/hooks/useMessages.ts:56-58 | The key is marked cancelled and the call is logged. Data and invalidation counts are unchanged. |
| UseMessages.QueryClient.GetQueryData | src/features/messages/hooks/useMessages.ts:60-64 | Returns the cached value, or none, and changes nothing but the log. |
| UseMessages.QueryClient.SetQueryData | src/features/messages/hooks/useMessages.ts:128-146 | Writes the value under the key. An updater that returns `undefined` writes nothing. |
| UseMessages.QueryClient.InvalidateQueries | src/features/messages/hooks/useMessages.ts:151-153 | Adds one to the key's invalidation count; data is unchanged. |
| UseMessages.SendMessageMutation.constructor | src/features/messages/hooks/useMessages.ts:22-25 | Binds the conversation's phone ids; no context is pending. |
| UseMessages.SendMessageMutation.OnMutate | src/features/messages/hooks/useMessages.ts:54-114 | The calls run in the order cancel, read, write, all on the conversation key. The snapshot is the value before the write. The optimistic message (`OptimisticMessage`, lines 66-77) has the `TempId(clock)` id, `to=[participant]`, `from = phoneNumberId = phoneId`, the draft's text, outgoing direction, status "sent", a null userId and the given timestamps. The entry becomes `MergeOptimisticMessage(snapshot, message)`. |
| UseMessages.SendMessageMutation.OnError | src/features/messages/hooks/useMessages.ts:115-124 | If a snapshot exists, the entry is overwritten with it verbatim. Otherwise the cache is left as it is, so the speculative message survives. |
| UseMessages.SendMessageMutation.OnSuccess | src/features/messages/hooks/useMessages.ts:125-148 | The current entry, not the snapshot, has the speculative id replaced by the server's message. An absent entry stays absent. |
| UseMessages.SendMessageMutation.OnSettled | src/features/messages/hooks/useMessages.ts:149-154 | The conversation key's invalidation count grows by one; data is unchanged. |
| UseMessages.SendMessageMutation.Mutate | src/features/messages/hooks/useMessages.ts:50-155 | On success the entry is the speculative insert with the id replaced; if the id was fresh, that equals inserting the server's message. On failure with a snapshot the cache is exactly as before; without one it keeps the speculative insert. The result is the guard's error, the transport's error or the reply. A request goes out exactly when the draft passes the guards. The key is invalidated once on both paths. No other key is read or written. |

## Left out

- `fetch`, `response.json()`, `response.text()` and HTTP status handling: network I/O. The server's answer is a parameter, and a failure is carried as the text of the error.
- The URL string and its `URLSearchParams` encoding: a library. The query is the ordered list of key/value pairs, beside the path.
- `OpenPhoneClient.getInstance` (src/common/api/client.ts:20-25): a singleton, so the client is an explicit object.
- `listPhoneNumbers` (src/common/api/client.ts:27-47): one optional `userId` filter and a fetch, not part of this model.
- React Query internals: what a cancelled fetch does when its result arrives late, the refetch an invalidation starts, how `fetchNextPage` appends a page, and the `isPending`/`isLoading` flags. The cache records cancellations and invalidations without running them.
- `Date.now()` and `new Date().toISOString()`: clock readings, taken as parameters.
- `alert` and `console.error` in `onError`: UI side effects.
- The message texts of the errors the client throws: the guard errors are told apart by their `ClientError` constructor, and a failed request carries its error text.
- Route and component files: view rendering and routing. `FormattedDate`: locale-dependent formatting.
- Client.CheckSendMessage: counts characters. JavaScript's `length` counts UTF-16 code units, so a character outside the Basic Multilingual Plane counts as two in the source and as one here.
- Client.OpenPhoneClient.ListConversations: the conversation record is not modelled, so the reply type is generic.
- Optimistic.MergeOptimisticMessage: `totalItems` is an unbounded integer. The source's IEEE double would lose precision above 2^53.
- Decimal.NatToString: matches JavaScript's `String(n)` only up to 2^53. Above that JavaScript prints the shortest digits that read back to the same double, padded with zeros (`String(2**64)` is `"18446744073709552000"`), and from 10^21 on it uses exponent form (`"1e+21"`). The only callers render `Date.now()`, which stays below 2^53, and the default `maxResults` of 100.
- Decimal.IntToString: matches JavaScript's `String(i)` only for integer magnitudes up to 2^53, for the same reason. Non-integer numbers and `NaN` are not modelled.
- `listConversations` with `excludeInactive: null`: JavaScript appends `"null"` (the test is `!== undefined`); the model's `Option<bool>` has no separate null, so it is not modelled.
