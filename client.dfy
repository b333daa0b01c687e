/** The HTTP client of the messaging backend: the pre-flight guards of
    `sendMessage` and `listMessages`, the query-parameter lists that
    `listMessages` and `listConversations` build, and the order in which a
    call checks, then hands one request to the network. The network is a
    request log plus the reply passed in by the caller. */
module Client {
  import opened ApiTypes
  import Decimal

  const BaseUrl := "http://localhost:3001/api"

  /** The longest message content `sendMessage` lets through. */
  const MaxContentLength := 1600

  /** `maxResults` when the caller gives none. */
  const DefaultMaxResults := 100

  /** The errors the client throws. */
  datatype ClientError =
    | BadContentLength
    | MissingFrom
    | MissingRecipient
    | MissingListMessagesParams
    | ApiError(text: string)  // a failed request, with the text it failed with

  /** The guards of `sendMessage`, in the order the source runs them:
      the content length first, then the sender, then the recipients. */
  function CheckSendMessage(p: SendMessageParams): (r: Option<ClientError>)
    ensures r.None? <==> 1 <= |p.content| <= MaxContentLength && p.from != "" && |p.to| > 0
    ensures r == Some(BadContentLength) <==> !(1 <= |p.content| <= MaxContentLength)
    ensures r == Some(MissingFrom) <==> 1 <= |p.content| <= MaxContentLength && p.from == ""
    ensures r == Some(MissingRecipient) <==>
      1 <= |p.content| <= MaxContentLength && p.from != "" && |p.to| == 0
  {
    if p.content == [] || |p.content| > MaxContentLength then Some(BadContentLength)
    else if p.from == "" then Some(MissingFrom)
    else if p.to == [] then Some(MissingRecipient)
    else None
  }

  /** The guard of `listMessages`. */
  predicate ListMessagesAccepted(p: ListMessagesParams) {
    p.phoneNumberId != "" && p.participants != []
  }

  type QueryParam = (string, string)

  /** `params.maxResults ?? 100`: only an absent value takes the default. */
  function MaxResults(maxResults: Option<int>): int {
    if maxResults.Some? then maxResults.value else DefaultMaxResults
  }

  /** The entry `if (params.x) urlParams.append("x", params.x)` adds. */
  function OptionalParam(key: string, value: Option<string>): (r: seq<QueryParam>)
    ensures |r| <= 1
    ensures forall v :: (key, v) in r <==> value == Some(v) && v != ""
  {
    if Truthy(value) then [(key, value.value)] else []
  }

  /** The entries `values.forEach(v => urlParams.append(key, v))` adds. */
  function RepeatedParam(key: string, values: seq<string>): (r: seq<QueryParam>)
    ensures |r| == |values|
    ensures forall i :: 0 <= i < |values| ==> r[i] == (key, values[i])
  {
    if values == [] then [] else [(key, values[0])] + RepeatedParam(key, values[1..])
  }

  /** The query of `listMessages`, in the order the entries are appended. */
  function ListMessagesQuery(p: ListMessagesParams): seq<QueryParam> {
    [("phoneNumberId", p.phoneNumberId)]
    + RepeatedParam("participants", p.participants)
    + OptionalParam("userId", p.userId)
    + OptionalParam("createdAfter", p.createdAfter)
    + OptionalParam("createdBefore", p.createdBefore)
    + OptionalParam("pageToken", p.pageToken)
    + [("maxResults", Decimal.IntToString(MaxResults(p.maxResults)))]
  }

  /** The query of `listConversations`, in the order the entries are
      appended: the phone numbers come after `maxResults`. */
  function ListConversationsQuery(p: ListConversationsParams): seq<QueryParam> {
    ConversationFilters(p)
    + ExcludeInactiveParam(p.excludeInactive)
    + [("maxResults", Decimal.IntToString(MaxResults(p.maxResults)))]
    + (if p.phoneNumbers.Some? then RepeatedParam("phoneNumbers", p.phoneNumbers.value) else [])
  }

  /** The optional filters of `listConversations`, each only when truthy. */
  function ConversationFilters(p: ListConversationsParams): seq<QueryParam> {
    OptionalParam("userId", p.userId)
    + OptionalParam("createdAfter", p.createdAfter)
    + OptionalParam("createdBefore", p.createdBefore)
    + OptionalParam("updatedAfter", p.updatedAfter)
    + OptionalParam("updatedBefore", p.updatedBefore)
    + OptionalParam("pageToken", p.pageToken)
  }

  /** `excludeInactive`, appended whenever it is not `undefined`, as
      `String(flag)`. */
  function ExcludeInactiveParam(excludeInactive: Option<bool>): seq<QueryParam> {
    if excludeInactive.Some? then [("excludeInactive", if excludeInactive.value then "true" else "false")] else []
  }

  /** `listMessages` growing its `URLSearchParams` buffer append by append. */
  method BuildListMessagesQuery(p: ListMessagesParams) returns (q: seq<QueryParam>)
    ensures q == ListMessagesQuery(p)
  {
    q := [("phoneNumberId", p.phoneNumberId)];
    q := AppendEach(q, "participants", p.participants);
    q := AppendIfPresent(q, "userId", p.userId);
    q := AppendIfPresent(q, "createdAfter", p.createdAfter);
    q := AppendIfPresent(q, "createdBefore", p.createdBefore);
    q := AppendIfPresent(q, "pageToken", p.pageToken);
    q := q + [("maxResults", Decimal.IntToString(MaxResults(p.maxResults)))];
  }

  /** `if (value) urlParams.append(key, value)`. */
  method AppendIfPresent(q: seq<QueryParam>, key: string, value: Option<string>) returns (q': seq<QueryParam>)
    ensures q' == q + OptionalParam(key, value)
  {
    q' := q;
    if Truthy(value) {
      q' := q' + [(key, value.value)];
    }
  }

  /** `values.forEach(v => urlParams.append(key, v))`. */
  method AppendEach(q: seq<QueryParam>, key: string, values: seq<string>) returns (q': seq<QueryParam>)
    ensures q' == q + RepeatedParam(key, values)
  {
    q' := q;
    var i := 0;
    while i < |values|
      invariant i <= |values|
      invariant q' == q + RepeatedParam(key, values[..i])
    {
      q' := q' + [(key, values[i])];
      i := i + 1;
    }
    assert values[..i] == values;
  }

  /** `listConversations` growing its `URLSearchParams` buffer. */
  method BuildListConversationsQuery(p: ListConversationsParams) returns (q: seq<QueryParam>)
    ensures q == ListConversationsQuery(p)
  {
    q := [];
    q := AppendIfPresent(q, "userId", p.userId);
    q := AppendIfPresent(q, "createdAfter", p.createdAfter);
    q := AppendIfPresent(q, "createdBefore", p.createdBefore);
    q := AppendIfPresent(q, "updatedAfter", p.updatedAfter);
    q := AppendIfPresent(q, "updatedBefore", p.updatedBefore);
    q := AppendIfPresent(q, "pageToken", p.pageToken);
    assert q == ConversationFilters(p);
    if p.excludeInactive.Some? {
      q := q + [("excludeInactive", if p.excludeInactive.value then "true" else "false")];
    }
    assert q == ConversationFilters(p) + ExcludeInactiveParam(p.excludeInactive);
    q := q + [("maxResults", Decimal.IntToString(MaxResults(p.maxResults)))];
    if p.phoneNumbers.Some? && |p.phoneNumbers.value| > 0 {
      q := AppendEach(q, "phoneNumbers", p.phoneNumbers.value);
    } else {
      assert q + [] == q;
    }
  }

  /** The layout of the `listMessages` query: the phone number first, one
      entry per participant in order, at most four optional filters, and
      `maxResults` last and only there; each optional filter travels
      exactly when it is a non-empty string. */
  lemma ListMessagesQueryLayout(p: ListMessagesParams)
    ensures var q := ListMessagesQuery(p);
      && |p.participants| + 2 <= |q| <= |p.participants| + 6
      && q[0] == ("phoneNumberId", p.phoneNumberId)
      && (forall i :: 0 <= i < |p.participants| ==> q[1 + i] == ("participants", p.participants[i]))
      && q[|q| - 1] == ("maxResults", Decimal.IntToString(MaxResults(p.maxResults)))
      && (forall i :: 0 <= i < |q| - 1 ==> q[i].0 != "maxResults")
      && (forall v :: ("userId", v) in q <==> p.userId == Some(v) && v != "")
      && (forall v :: ("createdAfter", v) in q <==> p.createdAfter == Some(v) && v != "")
      && (forall v :: ("createdBefore", v) in q <==> p.createdBefore == Some(v) && v != "")
      && (forall v :: ("pageToken", v) in q <==> p.pageToken == Some(v) && v != "")
  {
    ListMessagesQueryShape(p);
    ListMessagesQueryFilters(p);
  }

  /** Where the fixed entries of the `listMessages` query sit. */
  lemma ListMessagesQueryShape(p: ListMessagesParams)
    ensures var q := ListMessagesQuery(p);
      && |p.participants| + 2 <= |q| <= |p.participants| + 6
      && q[0] == ("phoneNumberId", p.phoneNumberId)
      && (forall i :: 0 <= i < |p.participants| ==> q[1 + i] == ("participants", p.participants[i]))
      && q[|q| - 1] == ("maxResults", Decimal.IntToString(MaxResults(p.maxResults)))
      && (forall i :: 0 <= i < |q| - 1 ==> q[i].0 != "maxResults")
  {
  }

  /** Each optional filter of the `listMessages` query is the only entry
      with its key. */
  lemma ListMessagesQueryFilters(p: ListMessagesParams)
    ensures forall v :: ("userId", v) in ListMessagesQuery(p) <==> p.userId == Some(v) && v != ""
    ensures forall v :: ("createdAfter", v) in ListMessagesQuery(p) <==> p.createdAfter == Some(v) && v != ""
    ensures forall v :: ("createdBefore", v) in ListMessagesQuery(p) <==> p.createdBefore == Some(v) && v != ""
    ensures forall v :: ("pageToken", v) in ListMessagesQuery(p) <==> p.pageToken == Some(v) && v != ""
  {
    var head := [("phoneNumberId", p.phoneNumberId)] + RepeatedParam("participants", p.participants);
    var u := OptionalParam("userId", p.userId);
    var ca := OptionalParam("createdAfter", p.createdAfter);
    var cb := OptionalParam("createdBefore", p.createdBefore);
    var pt := OptionalParam("pageToken", p.pageToken);
    var tail := [("maxResults", Decimal.IntToString(MaxResults(p.maxResults)))];
    assert ListMessagesQuery(p) == head + u + ca + cb + pt + tail;
    forall key | key in ["userId", "createdAfter", "createdBefore", "pageToken"]
      ensures NoKey(head, key) && NoKey(tail, key)
    {
    }
    UserIdEntry(head, u, ca, cb, pt, tail, p.userId);
    CreatedAfterEntry(head, u, ca, cb, pt, tail, p.createdAfter);
    CreatedBeforeEntry(head, u, ca, cb, pt, tail, p.createdBefore);
    PageTokenEntry(head, u, ca, cb, pt, tail, p.pageToken);
  }

  /** Each filter's entry, set among the other parts of the query, none of
      which has its key: the filter travels exactly when it is a non-empty
      string. One lemma per filter keeps each proof small. */
  lemma UserIdEntry(head: seq<QueryParam>, u: seq<QueryParam>, ca: seq<QueryParam>, cb: seq<QueryParam>,
                    pt: seq<QueryParam>, tail: seq<QueryParam>, value: Option<string>)
    requires u == OptionalParam("userId", value)
    requires NoKey(head, "userId") && NoKey(ca, "userId") && NoKey(cb, "userId")
    requires NoKey(pt, "userId") && NoKey(tail, "userId")
    ensures forall v :: ("userId", v) in head + u + ca + cb + pt + tail <==> value == Some(v) && v != ""
  {
  }

  lemma CreatedAfterEntry(head: seq<QueryParam>, u: seq<QueryParam>, ca: seq<QueryParam>, cb: seq<QueryParam>,
                          pt: seq<QueryParam>, tail: seq<QueryParam>, value: Option<string>)
    requires ca == OptionalParam("createdAfter", value)
    requires NoKey(head, "createdAfter") && NoKey(u, "createdAfter") && NoKey(cb, "createdAfter")
    requires NoKey(pt, "createdAfter") && NoKey(tail, "createdAfter")
    ensures forall v :: ("createdAfter", v) in head + u + ca + cb + pt + tail <==> value == Some(v) && v != ""
  {
  }

  lemma CreatedBeforeEntry(head: seq<QueryParam>, u: seq<QueryParam>, ca: seq<QueryParam>, cb: seq<QueryParam>,
                           pt: seq<QueryParam>, tail: seq<QueryParam>, value: Option<string>)
    requires cb == OptionalParam("createdBefore", value)
    requires NoKey(head, "createdBefore") && NoKey(u, "createdBefore") && NoKey(ca, "createdBefore")
    requires NoKey(pt, "createdBefore") && NoKey(tail, "createdBefore")
    ensures forall v :: ("createdBefore", v) in head + u + ca + cb + pt + tail <==> value == Some(v) && v != ""
  {
  }

  lemma PageTokenEntry(head: seq<QueryParam>, u: seq<QueryParam>, ca: seq<QueryParam>, cb: seq<QueryParam>,
                       pt: seq<QueryParam>, tail: seq<QueryParam>, value: Option<string>)
    requires pt == OptionalParam("pageToken", value)
    requires NoKey(head, "pageToken") && NoKey(u, "pageToken") && NoKey(ca, "pageToken")
    requires NoKey(cb, "pageToken") && NoKey(tail, "pageToken")
    ensures forall v :: ("pageToken", v) in head + u + ca + cb + pt + tail <==> value == Some(v) && v != ""
  {
  }

  /** No entry of `q` has the key `key`. */
  predicate NoKey(q: seq<QueryParam>, key: string) {
    forall i :: 0 <= i < |q| ==> q[i].0 != key
  }

  /** The layout of the `listConversations` query: `maxResults` (with the
      same default of 100) follows every filter, and the phone numbers are
      the entries after it, in order. */
  lemma ListConversationsQueryLayout(p: ListConversationsParams)
    ensures var q := ListConversationsQuery(p);
      var numbers := if p.phoneNumbers.Some? then p.phoneNumbers.value else [];
      var k := |q| - |numbers| - 1;
      && 0 <= k
      && q[k] == ("maxResults", Decimal.IntToString(MaxResults(p.maxResults)))
      && (forall i :: 0 <= i < k ==> q[i].0 != "maxResults" && q[i].0 != "phoneNumbers")
      && (forall i :: 0 <= i < |numbers| ==> q[k + 1 + i] == ("phoneNumbers", numbers[i]))
  {
  }

  /** A request handed to the network. */
  datatype Request = Request(verb: string, url: string, query: seq<QueryParam>, body: Option<SendMessageParams>)

  /** The client. The network is the log of the requests it was handed;
      what the server answers is a parameter of each call. */
  class OpenPhoneClient {
    const baseUrl: string
    var requests: seq<Request>

    constructor ()
      ensures baseUrl == BaseUrl && requests == []
    {
      baseUrl := BaseUrl;
      requests := [];
    }

    /** `listMessages`: the guard, then one GET request carrying the query. */
    method ListMessages(p: ListMessagesParams, reply: Result<Page, string>) returns (r: Result<Page, ClientError>)
      modifies this
      ensures !ListMessagesAccepted(p) ==>
        r == Failure(MissingListMessagesParams) && requests == old(requests)
      ensures ListMessagesAccepted(p) ==>
        && requests == old(requests) + [Request("GET", baseUrl + "/v1/messages", ListMessagesQuery(p), None)]
        && r == (if reply.Success? then Success(reply.value) else Failure(ApiError(reply.error)))
    {
      if p.phoneNumberId == "" || p.participants == [] {
        return Failure(MissingListMessagesParams);
      }
      var query := BuildListMessagesQuery(p);
      requests := requests + [Request("GET", baseUrl + "/v1/messages", query, None)];
      r := if reply.Success? then Success(reply.value) else Failure(ApiError(reply.error));
    }

    /** `listConversations`: one GET request carrying the query; the shape
        of a conversation is not modelled, so the answer is generic. */
    method ListConversations<T>(p: ListConversationsParams, reply: Result<T, string>) returns (r: Result<T, ClientError>)
      modifies this
      ensures requests == old(requests) + [Request("GET", baseUrl + "/v1/conversations", ListConversationsQuery(p), None)]
      ensures r == (if reply.Success? then Success(reply.value) else Failure(ApiError(reply.error)))
    {
      var query := BuildListConversationsQuery(p);
      requests := requests + [Request("GET", baseUrl + "/v1/conversations", query, None)];
      r := if reply.Success? then Success(reply.value) else Failure(ApiError(reply.error));
    }

    /** `sendMessage`: every guard runs before the request, so a rejected
        draft sends nothing; an accepted one is POSTed once, as it is. */
    method SendMessage(p: SendMessageParams, reply: Result<SendMessageResponse, string>)
      returns (r: Result<SendMessageResponse, ClientError>)
      modifies this
      ensures CheckSendMessage(p).Some? ==>
        r == Failure(CheckSendMessage(p).value) && requests == old(requests)
      ensures CheckSendMessage(p).None? ==>
        && requests == old(requests) + [Request("POST", baseUrl + "/v1/messages", [], Some(p))]
        && r == (if reply.Success? then Success(reply.value) else Failure(ApiError(reply.error)))
    {
      var url := baseUrl + "/v1/messages";
      if p.content == [] || |p.content| > MaxContentLength {
        return Failure(BadContentLength);
      }
      if p.from == "" {
        return Failure(MissingFrom);
      }
      if p.to == [] {
        return Failure(MissingRecipient);
      }
      requests := requests + [Request("POST", url, [], Some(p))];
      r := if reply.Success? then Success(reply.value) else Failure(ApiError(reply.error));
    }
  }
}
