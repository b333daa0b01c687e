/** Value types shared by the HTTP client and the message hooks: the
    message record, one page of the paginated message list as the server
    returns it, the paged collection the infinite query keeps, and the
    parameter records of the client calls. */
module ApiTypes {

  /** JavaScript `undefined`/`null` versus a present value. */
  datatype Option<+T> = None | Some(value: T)

  /** A value or the message of the `Error` the source throws. */
  datatype Result<+T, +E> = Success(value: T) | Failure(error: E)

  datatype Direction = Incoming | Outgoing

  /** One message. `userId` is `null` for messages not tied to a user;
      `status` is an open-ended label ("sent", "delivered", ...). */
  datatype Message = Message(
    id: string,
    to: seq<string>,
    from: string,
    text: string,
    phoneNumberId: string,
    direction: Direction,
    userId: Option<string>,
    status: string,
    createdAt: string,
    updatedAt: string)

  /** One page of the message list (`MessagesResponse`); a `None`
      `nextPageToken` means that no older page exists. */
  datatype Page = Page(data: seq<Message>, totalItems: int, nextPageToken: Option<string>)

  /** The cache value of the infinite query (`InfiniteData<MessagesResponse>`).
      `pages` is `None` when the object has no `pages` property; each entry
      of `pageParams` is the token a page was fetched with, `None` standing
      for `undefined`. */
  datatype PagedData = PagedData(pages: Option<seq<Page>>, pageParams: seq<Option<string>>)

  /** The draft handed to `sendMessage`. An absent field is modelled as the
      empty string or sequence: the guards treat both alike. */
  datatype SendMessageParams = SendMessageParams(content: string, from: string, to: seq<string>)

  /** The body the server answers a send with; `data` is the stored message. */
  datatype SendMessageResponse = SendMessageResponse(data: Message)

  datatype ListMessagesParams = ListMessagesParams(
    phoneNumberId: string,
    participants: seq<string>,
    userId: Option<string>,
    createdAfter: Option<string>,
    createdBefore: Option<string>,
    pageToken: Option<string>,
    maxResults: Option<int>)

  datatype ListConversationsParams = ListConversationsParams(
    userId: Option<string>,
    createdAfter: Option<string>,
    createdBefore: Option<string>,
    updatedAfter: Option<string>,
    updatedBefore: Option<string>,
    pageToken: Option<string>,
    excludeInactive: Option<bool>,
    maxResults: Option<int>,
    phoneNumbers: Option<seq<string>>)

  /** JavaScript truthiness of an optional string: present and not empty. */
  predicate Truthy(s: Option<string>) {
    s.Some? && s.value != ""
  }
}
