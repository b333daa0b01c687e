/** The two transforms of the paged message collection used while a send
    is in flight: inserting the speculative message at the head of the
    newest page, and swapping it for the server's message once the send
    succeeds. Both build a new collection and leave their input intact. */
module Optimistic {
  import opened ApiTypes

  /** The input has a first page to insert into. */
  predicate HasFirstPage(existing: Option<PagedData>) {
    existing.Some? && existing.value.pages.Some? && |existing.value.pages.value| > 0
  }

  /** `mergeOptimisticMessage`: with nothing to insert into, a one-page
      collection holding only `m`; otherwise `m` goes in front of the
      newest page, whose count grows by one, and nothing else changes. */
  function MergeOptimisticMessage(existing: Option<PagedData>, m: Message): (r: PagedData)
    ensures r.pages.Some? && |r.pages.value| >= 1
    ensures !HasFirstPage(existing) ==>
      r == PagedData(Some([Page([m], 1, None)]), [None])
    ensures HasFirstPage(existing) ==>
      var before, after := existing.value.pages.value, r.pages.value;
      && |after| == |before|
      && after[0].data == [m] + before[0].data
      && after[0].totalItems == before[0].totalItems + 1
      && after[0].nextPageToken == before[0].nextPageToken
      && after[1..] == before[1..]
      && r.pageParams == existing.value.pageParams
  {
    if !HasFirstPage(existing) then
      PagedData(Some([Page([m], 1, None)]), [None])
    else
      var pages := existing.value.pages.value;
      var first := pages[0].(data := [m] + pages[0].data, totalItems := pages[0].totalItems + 1);
      existing.value.(pages := Some([first] + pages[1..]))
  }

  /** The inner `page.data.map` of `replaceOptimisticMessage`. */
  function ReplaceInData(data: seq<Message>, id: string, actual: Message): (r: seq<Message>)
    ensures |r| == |data|
    ensures forall j :: 0 <= j < |data| ==> r[j] == if data[j].id == id then actual else data[j]
  {
    if data == [] then []
    else [if data[0].id == id then actual else data[0]] + ReplaceInData(data[1..], id, actual)
  }

  /** The outer `pages.map` of `replaceOptimisticMessage`: each page keeps
      its count and cursor and gets its messages replaced. */
  function ReplaceInPages(pages: seq<Page>, id: string, actual: Message): (r: seq<Page>)
    ensures |r| == |pages|
    ensures forall i :: 0 <= i < |pages| ==>
      && r[i].totalItems == pages[i].totalItems
      && r[i].nextPageToken == pages[i].nextPageToken
      && r[i].data == ReplaceInData(pages[i].data, id, actual)
  {
    if pages == [] then []
    else
      [pages[0].(data := ReplaceInData(pages[0].data, id, actual))] + ReplaceInPages(pages[1..], id, actual)
  }

  /** `replaceOptimisticMessage`: without a collection or without pages the
      input comes back as it is; otherwise every message whose id is `id`
      becomes `actual`, and counts, cursors and page params are kept. */
  function ReplaceOptimisticMessage(existing: Option<PagedData>, id: string, actual: Message): (r: Option<PagedData>)
    ensures existing.None? || existing.value.pages.None? ==> r == existing
    ensures existing.Some? && existing.value.pages.Some? ==>
      var before := existing.value.pages.value;
      && r.Some? && r.value.pages.Some?
      && r.value.pageParams == existing.value.pageParams
      && |r.value.pages.value| == |before|
      && forall i :: 0 <= i < |before| ==>
           var page := r.value.pages.value[i];
           && page.totalItems == before[i].totalItems
           && page.nextPageToken == before[i].nextPageToken
           && |page.data| == |before[i].data|
           && forall j :: 0 <= j < |before[i].data| ==>
                page.data[j] == if before[i].data[j].id == id then actual else before[i].data[j]
  {
    if existing.None? || existing.value.pages.None? then existing
    else Some(existing.value.(pages := Some(ReplaceInPages(existing.value.pages.value, id, actual))))
  }

  /** Some message of some page carries `id`. */
  predicate OccursIn(pages: seq<Page>, id: string) {
    exists i, j :: 0 <= i < |pages| && 0 <= j < |pages[i].data| && pages[i].data[j].id == id
  }

  /** Some message of the collection carries `id`. */
  predicate Occurs(existing: Option<PagedData>, id: string) {
    existing.Some? && existing.value.pages.Some? && OccursIn(existing.value.pages.value, id)
  }

  /** The messages as the conversation view lists them: page after page,
      each page's messages in order. */
  function AllMessages(pages: seq<Page>): seq<Message> {
    if pages == [] then [] else pages[0].data + AllMessages(pages[1..])
  }

  function Messages(existing: Option<PagedData>): seq<Message> {
    if existing.Some? && existing.value.pages.Some? then AllMessages(existing.value.pages.value) else []
  }

  lemma ReplaceInDataAbsent(data: seq<Message>, id: string, actual: Message)
    requires forall j :: 0 <= j < |data| ==> data[j].id != id
    ensures ReplaceInData(data, id, actual) == data
  {
  }

  /** Replacing an id that occurs nowhere gives back an equal collection. */
  lemma ReplaceAbsentIsIdentity(existing: Option<PagedData>, id: string, actual: Message)
    requires !Occurs(existing, id)
    ensures ReplaceOptimisticMessage(existing, id, actual) == existing
  {
    if existing.Some? && existing.value.pages.Some? {
      var pages := existing.value.pages.value;
      var replaced := ReplaceInPages(pages, id, actual);
      forall i | 0 <= i < |pages|
        ensures replaced[i] == pages[i]
      {
        ReplaceInDataAbsent(pages[i].data, id, actual);
      }
      assert replaced == pages;
    }
  }

  /** After a replacement by a message with another id, `id` occurs nowhere. */
  lemma ReplaceRemovesId(existing: Option<PagedData>, id: string, actual: Message)
    requires actual.id != id
    ensures !Occurs(ReplaceOptimisticMessage(existing, id, actual), id)
  {
  }

  /** Replacing twice is replacing once: the second pass finds no match,
      or, when `actual` itself carries `id`, maps `actual` to itself. */
  lemma ReplaceIdempotent(existing: Option<PagedData>, id: string, actual: Message)
    ensures var once := ReplaceOptimisticMessage(existing, id, actual);
      ReplaceOptimisticMessage(once, id, actual) == once
  {
    var once := ReplaceOptimisticMessage(existing, id, actual);
    if actual.id != id {
      ReplaceRemovesId(existing, id, actual);
      ReplaceAbsentIsIdentity(once, id, actual);
    } else if existing.Some? && existing.value.pages.Some? {
      var p1 := once.value.pages.value;
      var p2 := ReplaceInPages(p1, id, actual);
      forall i | 0 <= i < |p1|
        ensures p2[i] == p1[i]
      {
        assert p2[i].data == p1[i].data;
      }
      assert p1 == p2;
    }
  }

  /** With a fresh speculative id, confirming the speculative message gives
      the collection that inserting the server's message would have given. */
  lemma ReplaceAfterMerge(existing: Option<PagedData>, m: Message, actual: Message)
    requires !Occurs(existing, m.id)
    ensures ReplaceOptimisticMessage(Some(MergeOptimisticMessage(existing, m)), m.id, actual)
         == Some(MergeOptimisticMessage(existing, actual))
  {
    if HasFirstPage(existing) {
      var pages := existing.value.pages.value;
      var merged := MergeOptimisticMessage(existing, m).pages.value;
      var replaced := ReplaceInPages(merged, m.id, actual);
      var expected := MergeOptimisticMessage(existing, actual).pages.value;
      forall i | 0 <= i < |pages|
        ensures replaced[i] == expected[i]
      {
        if i == 0 {
          ReplaceInDataAbsent(pages[0].data, m.id, actual);
          assert replaced[0].data == [actual] + ReplaceInData(pages[0].data, m.id, actual);
        } else {
          ReplaceInDataAbsent(pages[i].data, m.id, actual);
        }
      }
      assert replaced == expected;
    } else {
      assert ReplaceInData([m], m.id, actual) == [actual];
      assert ReplaceInPages([Page([m], 1, None)], m.id, actual) == [Page([actual], 1, None)];
    }
  }

  lemma AllMessagesAppend(first: Page, rest: seq<Page>)
    ensures AllMessages([first] + rest) == first.data + AllMessages(rest)
  {
  }

  /** The view lists the speculative message first, followed by every
      message it listed before, in the same order. */
  lemma MergeListsMessageFirst(existing: Option<PagedData>, m: Message)
    ensures Messages(Some(MergeOptimisticMessage(existing, m))) == [m] + Messages(existing)
  {
    var r := MergeOptimisticMessage(existing, m);
    if HasFirstPage(existing) {
      var pages := existing.value.pages.value;
      AllMessagesAppend(pages[0], pages[1..]);
      assert pages == [pages[0]] + pages[1..];
      AllMessagesAppend(r.pages.value[0], pages[1..]);
      assert r.pages.value == [r.pages.value[0]] + pages[1..];
    } else {
      assert Messages(existing) == [];
      AllMessagesAppend(Page([m], 1, None), []);
      assert [Page([m], 1, None)] + [] == r.pages.value;
    }
  }

  lemma ReplaceInDataAppend(x: seq<Message>, y: seq<Message>, id: string, actual: Message)
    ensures ReplaceInData(x + y, id, actual) == ReplaceInData(x, id, actual) + ReplaceInData(y, id, actual)
  {
  }

  lemma {:induction false} AllMessagesReplace(pages: seq<Page>, id: string, actual: Message)
    ensures AllMessages(ReplaceInPages(pages, id, actual)) == ReplaceInData(AllMessages(pages), id, actual)
  {
    if pages != [] {
      var r := ReplaceInPages(pages, id, actual);
      AllMessagesReplace(pages[1..], id, actual);
      assert r[1..] == ReplaceInPages(pages[1..], id, actual);
      ReplaceInDataAppend(pages[0].data, AllMessages(pages[1..]), id, actual);
    }
  }

  /** The view lists the same messages as before, each matching one
      swapped for `actual`. */
  lemma ReplaceListsReplacedMessages(existing: Option<PagedData>, id: string, actual: Message)
    ensures Messages(ReplaceOptimisticMessage(existing, id, actual))
         == ReplaceInData(Messages(existing), id, actual)
  {
    if existing.Some? && existing.value.pages.Some? {
      AllMessagesReplace(existing.value.pages.value, id, actual);
    }
  }
}
