/** The `useMessages` hook: the backward-pagination cursor of the
    conversation's infinite query, and the send mutation that writes a
    speculative message into the cached pages before the server answers,
    then swaps it for the server's message, or restores the snapshot, and
    finally marks the entry stale.

    The query cache is a class holding the cached collections by key, the
    keys whose in-flight fetches were cancelled, the number of times each
    key was invalidated, and the log of the cache calls made, in order. */
module UseMessages {
  import opened ApiTypes
  import opened Optimistic
  import Decimal
  import Client

  /** The query key `["messages", phoneId, participantPhoneId]`. */
  datatype QueryKey = QueryKey(scope: string, phoneId: string, participantPhoneId: string)

  function MessagesKey(phoneId: string, participantPhoneId: string): QueryKey {
    QueryKey("messages", phoneId, participantPhoneId)
  }

  /** `getNextPageParam`: the cursor of the oldest loaded page, with `null`
      turned into `undefined`, which tells the query there is no more. */
  function GetNextPageParam(lastPage: Page): (r: Option<string>)
    ensures r.None? <==> lastPage.nextPageToken.None?
    ensures r.Some? ==> lastPage.nextPageToken == Some(r.value)
  {
    if lastPage.nextPageToken.Some? then Some(lastPage.nextPageToken.value) else None
  }

  /** The cursor the infinite query fetches the next older page with: it
      asks `getNextPageParam` about the last loaded page; `None` means
      there is no next page. */
  function NextPageParam(d: PagedData): Option<string> {
    if d.pages.Some? && |d.pages.value| > 0 then GetNextPageParam(d.pages.value[|d.pages.value| - 1]) else None
  }

  /** `fetchMessages`: the `listMessages` parameters for the page whose
      cursor is `pageParam`. */
  function FetchMessagesParams(phoneId: string, participantPhoneId: string, pageParam: Option<string>): ListMessagesParams {
    ListMessagesParams(phoneId, [participantPhoneId], None, None, None, pageParam, None)
  }

  /** A page fetch passes the client's guard exactly when the local phone
      id is not empty, and asks for one participant and 100 results. */
  lemma FetchMessagesRequest(phoneId: string, participantPhoneId: string, pageParam: Option<string>)
    ensures var p := FetchMessagesParams(phoneId, participantPhoneId, pageParam);
      && (Client.ListMessagesAccepted(p) <==> phoneId != "")
      && var q := Client.ListMessagesQuery(p);
      && q[..2] == [("phoneNumberId", phoneId), ("participants", participantPhoneId)]
      && q[|q| - 1] == ("maxResults", "100")
  {
    var p := FetchMessagesParams(phoneId, participantPhoneId, pageParam);
    Client.ListMessagesQueryLayout(p);
    assert Decimal.DigitChar(0) == '0' && Decimal.DigitChar(1) == '1';
    assert Decimal.NatToString(10) == "10";
    assert Decimal.IntToString(100) == "100";
    var q := Client.ListMessagesQuery(p);
    assert q[..2] == [q[0], q[1]];
  }

  /** The request for the next older page carries the last page's cursor
      exactly when that cursor is a non-empty string. */
  lemma NextPageRequestCarriesCursor(phoneId: string, participantPhoneId: string, lastPage: Page)
    ensures var q := Client.ListMessagesQuery(FetchMessagesParams(phoneId, participantPhoneId, GetNextPageParam(lastPage)));
      forall v :: ("pageToken", v) in q <==> lastPage.nextPageToken == Some(v) && v != ""
  {
  }

  /** Neither optimistic write moves the pagination cursor: inserting
      (into a loaded collection, or as the first page of an empty one) and
      replacing by id keep whether, and from which token, an older page is
      fetched. */
  lemma OptimisticWritesKeepCursor(existing: PagedData, m: Message, id: string, actual: Message)
    ensures NextPageParam(MergeOptimisticMessage(Some(existing), m)) == NextPageParam(existing)
    ensures NextPageParam(ReplaceOptimisticMessage(Some(existing), id, actual).value) == NextPageParam(existing)
  {
  }

  /** The identifier `temp-${Date.now()}` of a speculative message. */
  function TempId(clock: nat): string {
    "temp-" + Decimal.NatToString(clock)
  }

  /** Speculative ids collide exactly when the clock reads the same
      millisecond twice. */
  lemma TempIdsDistinct(a: nat, b: nat)
    ensures TempId(a) == TempId(b) <==> a == b
  {
    if TempId(a) == TempId(b) {
      assert TempId(a)[5..] == Decimal.NatToString(a);
      assert TempId(b)[5..] == Decimal.NatToString(b);
      Decimal.NatToStringInjective(a, b);
    }
  }

  /** The speculative message `onMutate` builds from the draft. */
  function OptimisticMessage(phoneId: string, participantPhoneId: string, content: string,
                             clock: nat, createdAt: string, updatedAt: string): Message {
    Message(TempId(clock), [participantPhoneId], phoneId, content, phoneId,
            Outgoing, None, "sent", createdAt, updatedAt)
  }

  /** The calls made on the query cache. */
  datatype CacheCall = Cancel(key: QueryKey) | Get(key: QueryKey) | Set(key: QueryKey) | Invalidate(key: QueryKey)

  /** The cache after `setQueryData(key, v)`: an updater that returns
      `undefined` leaves the entry as it was. */
  function Written(data: map<QueryKey, PagedData>, key: QueryKey, v: Option<PagedData>): map<QueryKey, PagedData> {
    if v.Some? then data[key := v.value] else data
  }

  function Invalidations(counts: map<QueryKey, nat>, key: QueryKey): nat {
    if key in counts then counts[key] else 0
  }

  /** The shared query cache. */
  class QueryClient {
    var data: map<QueryKey, PagedData>
    var cancelled: set<QueryKey>
    var invalidations: map<QueryKey, nat>
    var log: seq<CacheCall>

    constructor ()
      ensures data == map[] && cancelled == {} && invalidations == map[] && log == []
    {
      data, cancelled, invalidations, log := map[], {}, map[], [];
    }

    /** The value cached under `key`, `None` when there is none. */
    function Peek(key: QueryKey): Option<PagedData>
      reads this
    {
      if key in data then Some(data[key]) else None
    }

    /** `cancelQueries`: the in-flight fetch for `key` is dropped. */
    method CancelQueries(key: QueryKey)
      modifies this
      ensures cancelled == old(cancelled) + {key} && log == old(log) + [Cancel(key)]
      ensures data == old(data) && invalidations == old(invalidations)
    {
      cancelled := cancelled + {key};
      log := log + [Cancel(key)];
    }

    /** `getQueryData`; the call is logged so that its order relative to
        the other calls can be stated. */
    method GetQueryData(key: QueryKey) returns (v: Option<PagedData>)
      modifies this
      ensures v == Peek(key) && log == old(log) + [Get(key)]
      ensures data == old(data) && cancelled == old(cancelled) && invalidations == old(invalidations)
    {
      v := Peek(key);
      log := log + [Get(key)];
    }

    /** `setQueryData(key, value)`, or with an updater whose result is `v`:
        `undefined` writes nothing. */
    method SetQueryData(key: QueryKey, v: Option<PagedData>)
      modifies this
      ensures data == Written(old(data), key, v)
      ensures log == old(log) + (if v.Some? then [Set(key)] else [])
      ensures cancelled == old(cancelled) && invalidations == old(invalidations)
    {
      if v.Some? {
        data := data[key := v.value];
        log := log + [Set(key)];
      }
    }

    /** `invalidateQueries`: the entry is marked stale and refetched. */
    method InvalidateQueries(key: QueryKey)
      modifies this
      ensures invalidations == old(invalidations)[key := Invalidations(old(invalidations), key) + 1]
      ensures log == old(log) + [Invalidate(key)]
      ensures data == old(data) && cancelled == old(cancelled)
    {
      invalidations := invalidations[key := Invalidations(invalidations, key) + 1];
      log := log + [Invalidate(key)];
    }
  }

  /** What `onMutate` hands to the later callbacks. */
  datatype MutationContext = MutationContext(previousMessages: Option<PagedData>, optimisticMessage: Message)

  /** The send mutation of one conversation. */
  class SendMessageMutation {
    const phoneId: string
    const participantPhoneId: string
    const queryClient: QueryClient
    const api: Client.OpenPhoneClient
    var context: Option<MutationContext>

    /** The one cache entry the mutation reads and writes. */
    function Key(): QueryKey {
      MessagesKey(phoneId, participantPhoneId)
    }

    constructor (phoneId: string, participantPhoneId: string, queryClient: QueryClient, api: Client.OpenPhoneClient)
      ensures this.phoneId == phoneId && this.participantPhoneId == participantPhoneId
      ensures this.queryClient == queryClient && this.api == api && context == None
    {
      this.phoneId := phoneId;
      this.participantPhoneId := participantPhoneId;
      this.queryClient := queryClient;
      this.api := api;
      context := None;
    }

    /** `onMutate`: cancel the fetch, snapshot the entry, then write the
        speculative message at the head of the newest page. */
    method OnMutate(newMessage: SendMessageParams, clock: nat, createdAt: string, updatedAt: string)
      returns (ctx: MutationContext)
      modifies this, queryClient
      ensures ctx.previousMessages == old(queryClient.Peek(Key()))
      ensures var m := ctx.optimisticMessage;
        && m.id == TempId(clock) && m.to == [participantPhoneId]
        && m.from == phoneId && m.phoneNumberId == phoneId
        && m.text == newMessage.content && m.direction == Outgoing
        && m.userId == None && m.status == "sent"
        && m.createdAt == createdAt && m.updatedAt == updatedAt
      ensures queryClient.data
           == old(queryClient.data)[Key() := MergeOptimisticMessage(ctx.previousMessages, ctx.optimisticMessage)]
      ensures queryClient.log == old(queryClient.log) + [Cancel(Key()), Get(Key()), Set(Key())]
      ensures queryClient.cancelled == old(queryClient.cancelled) + {Key()}
      ensures queryClient.invalidations == old(queryClient.invalidations)
      ensures context == Some(ctx)
    {
      queryClient.CancelQueries(Key());
      var previousMessages := queryClient.GetQueryData(Key());
      var optimisticMessage := OptimisticMessage(phoneId, participantPhoneId, newMessage.content, clock, createdAt, updatedAt);
      queryClient.SetQueryData(Key(), Some(MergeOptimisticMessage(previousMessages, optimisticMessage)));
      ctx := MutationContext(previousMessages, optimisticMessage);
      context := Some(ctx);
    }

    /** `onError`: put the snapshot back, but only when there was one; an
        entry that was empty before the send keeps the speculative message. */
    method OnError()
      modifies queryClient
      ensures context.Some? && context.value.previousMessages.Some? ==>
        && queryClient.data == old(queryClient.data)[Key() := context.value.previousMessages.value]
        && queryClient.log == old(queryClient.log) + [Set(Key())]
      ensures !(context.Some? && context.value.previousMessages.Some?) ==>
        queryClient.data == old(queryClient.data) && queryClient.log == old(queryClient.log)
      ensures queryClient.cancelled == old(queryClient.cancelled)
      ensures queryClient.invalidations == old(queryClient.invalidations)
    {
      if context.Some? && context.value.previousMessages.Some? {
        queryClient.SetQueryData(Key(), context.value.previousMessages);
      }
    }

    /** `onSuccess`: in the entry as it is now, not as it was at the
        snapshot, swap the speculative message for the server's; an absent
        entry stays absent. */
    method OnSuccess(result: SendMessageResponse)
      modifies queryClient
      ensures context.Some? ==>
        queryClient.data == Written(old(queryClient.data), Key(),
          ReplaceOptimisticMessage(old(queryClient.Peek(Key())), context.value.optimisticMessage.id, result.data))
      ensures context.Some? && Key() !in old(queryClient.data) ==> Key() !in queryClient.data
      ensures context.None? ==> queryClient.data == old(queryClient.data)
      ensures queryClient.log == old(queryClient.log) + (if context.Some? && Key() in old(queryClient.data) then [Set(Key())] else [])
      ensures queryClient.cancelled == old(queryClient.cancelled)
      ensures queryClient.invalidations == old(queryClient.invalidations)
    {
      if context.Some? {
        var current := queryClient.Peek(Key());
        queryClient.SetQueryData(Key(), ReplaceOptimisticMessage(current, context.value.optimisticMessage.id, result.data));
      }
    }

    /** `onSettled`: whatever the outcome, the entry is invalidated. */
    method OnSettled()
      modifies queryClient
      ensures queryClient.invalidations
           == old(queryClient.invalidations)[Key() := Invalidations(old(queryClient.invalidations), Key()) + 1]
      ensures queryClient.log == old(queryClient.log) + [Invalidate(Key())]
      ensures queryClient.data == old(queryClient.data) && queryClient.cancelled == old(queryClient.cancelled)
    {
      queryClient.InvalidateQueries(Key());
    }

    /** One send from start to settlement, with the order React Query runs
        the callbacks in: `onMutate`, then `sendMessage` (whose guards
        therefore run after the speculative write), then `onSuccess` or
        `onError`, then `onSettled`. `reply` is what the server answers. */
    method Mutate(newMessage: SendMessageParams, clock: nat, createdAt: string, updatedAt: string,
                  reply: Result<SendMessageResponse, string>)
      returns (r: Result<SendMessageResponse, Client.ClientError>)
      modifies this, queryClient, api
      ensures var before := old(queryClient.Peek(Key()));
        var m := OptimisticMessage(phoneId, participantPhoneId, newMessage.content, clock, createdAt, updatedAt);
        var speculative := old(queryClient.data)[Key() := MergeOptimisticMessage(before, m)];
        && (r.Success? ==>
              queryClient.data
              == speculative[Key() := ReplaceOptimisticMessage(Some(MergeOptimisticMessage(before, m)), m.id, r.value.data).value])
        && (r.Success? && !Occurs(before, m.id) ==>
              queryClient.data == old(queryClient.data)[Key() := MergeOptimisticMessage(before, r.value.data)])
        && (r.Failure? && before.Some? ==> queryClient.data == old(queryClient.data))
        && (r.Failure? && before.None? ==> queryClient.data == speculative)
      ensures r == match Client.CheckSendMessage(newMessage)
                   case Some(e) => Failure(e)
                   case None => if reply.Success? then Success(reply.value) else Failure(Client.ApiError(reply.error))
      ensures api.requests == old(api.requests)
        + (if Client.CheckSendMessage(newMessage).None?
           then [Client.Request("POST", api.baseUrl + "/v1/messages", [], Some(newMessage))] else [])
      ensures queryClient.invalidations
           == old(queryClient.invalidations)[Key() := Invalidations(old(queryClient.invalidations), Key()) + 1]
      ensures queryClient.cancelled == old(queryClient.cancelled) + {Key()}
      ensures queryClient.data - {Key()} == old(queryClient.data) - {Key()}
      ensures forall i :: |old(queryClient.log)| <= i < |queryClient.log| ==> queryClient.log[i].key == Key()
    {
      ghost var before := queryClient.Peek(Key());
      var ctx := OnMutate(newMessage, clock, createdAt, updatedAt);
      ghost var afterMutate := queryClient.log;
      r := api.SendMessage(newMessage, reply);
      if r.Success? {
        OnSuccess(r.value);
        if !Occurs(before, ctx.optimisticMessage.id) {
          ReplaceAfterMerge(before, ctx.optimisticMessage, r.value.data);
        }
      } else {
        OnError();
      }
      OnSettled();
    }
  }

  /** An empty conversation, a send the server accepts: the cache ends with
      the server's message alone on one page. */
  method FirstSendSucceeds(server: Message)
  {
    var cache := new QueryClient();
    var api := new Client.OpenPhoneClient();
    var mutation := new SendMessageMutation("+1A", "+1B", cache, api);
    var key := mutation.Key();
    var r := mutation.Mutate(SendMessageParams("hi", "+1A", ["+1B"]), 1, "t", "t",
                             Success(SendMessageResponse(server)));
    assert r.Success?;
    assert cache.data[key] == PagedData(Some([Page([server], 1, None)]), [None]);
    assert cache.invalidations[key] == 1;
  }

  /** An empty conversation, a send the server rejects: there is no
      snapshot to restore, so the speculative message stays in the cache
      until the refetch that the invalidation starts. */
  method FirstSendFails()
  {
    var cache := new QueryClient();
    var api := new Client.OpenPhoneClient();
    var mutation := new SendMessageMutation("+1A", "+1B", cache, api);
    var key := mutation.Key();
    var r := mutation.Mutate(SendMessageParams("hi", "+1A", ["+1B"]), 1, "t", "t", Failure("500"));
    assert r.Failure?;
    var m := OptimisticMessage("+1A", "+1B", "hi", 1, "t", "t");
    assert cache.data[key] == PagedData(Some([Page([m], 1, None)]), [None]);
    assert cache.invalidations[key] == 1;
  }

  /** An empty draft is refused by the client, but only after `onMutate`
      has written it into the cache: no request is sent, and with a
      snapshot the cache is restored. */
  method EmptyDraftOnLoadedConversation(loaded: PagedData)
  {
    var cache := new QueryClient();
    var api := new Client.OpenPhoneClient();
    var mutation := new SendMessageMutation("+1A", "+1B", cache, api);
    var key := mutation.Key();
    cache.SetQueryData(key, Some(loaded));
    var r := mutation.Mutate(SendMessageParams("", "+1A", ["+1B"]), 1, "t", "t", Failure("unused"));
    assert r == Failure(Client.BadContentLength);
    assert api.requests == [];
    assert cache.data[key] == loaded;
  }
}
