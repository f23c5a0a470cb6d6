/** The playlist entries returned by the playlist-items API, and the filter
    that drops malformed ones after pagination (script.js:93). */
module Items {
  import opened Wrappers

  /** One thumbnail variant; only its `url` field is read. */
  datatype Thumbnail = Thumbnail(url: Option<string>)

  /** The `thumbnails` object; only `medium` and `default` are read. */
  datatype Thumbnails = Thumbnails(medium: Option<Thumbnail>, default: Option<Thumbnail>)

  datatype ResourceId = ResourceId(videoId: Option<string>)

  datatype Snippet = Snippet(
    title: string,
    resourceId: Option<ResourceId>,
    thumbnails: Option<Thumbnails>)

  /** One element of a page's `items` array. A `null` element is modelled as an
      item without a snippet: the filter treats the two alike. */
  datatype Item = Item(snippet: Option<Snippet>)

  /** The filter's test: `i && i.snippet && i.snippet.resourceId && i.snippet.resourceId.videoId`. */
  predicate Playable(item: Item) {
    item.snippet.Some? && item.snippet.value.resourceId.Some?
    && Truthy(item.snippet.value.resourceId.value.videoId)
  }

  predicate AllPlayable(items: seq<Item>) {
    forall i :: 0 <= i < |items| ==> Playable(items[i])
  }

  predicate NonePlayable(items: seq<Item>) {
    forall i :: 0 <= i < |items| ==> !Playable(items[i])
  }

  function VideoId(item: Item): (v: string)
    requires Playable(item)
    ensures v != ""
  {
    item.snippet.value.resourceId.value.videoId.value
  }

  function Title(item: Item): string
    requires Playable(item)
  {
    item.snippet.value.title
  }

  /** `items.filter(...)`: the playable items, in their original order. */
  function FilterPlayable(items: seq<Item>): (r: seq<Item>)
    ensures |r| <= |items|
    ensures AllPlayable(r)
  {
    if items == [] then []
    else if Playable(items[0]) then [items[0]] + FilterPlayable(items[1..])
    else FilterPlayable(items[1..])
  }

  /** The filter keeps exactly the playable items: every item it returns comes
      from the input, and every playable input item is returned. */
  lemma {:induction false} FilterMembers(items: seq<Item>, x: Item)
    ensures x in FilterPlayable(items) <==> x in items && Playable(x)
  {
    if items != [] {
      FilterMembers(items[1..], x);
      assert x in items <==> x == items[0] || x in items[1..];
    }
  }

  /** Filtering distributes over concatenation, so the relative order of the
      surviving items is that of the input. */
  lemma {:induction false} FilterConcat(a: seq<Item>, b: seq<Item>)
    ensures FilterPlayable(a + b) == FilterPlayable(a) + FilterPlayable(b)
  {
    if a == [] {
      assert a + b == b;
    } else {
      assert (a + b)[1..] == a[1..] + b;
      FilterConcat(a[1..], b);
    }
  }

  /** A list that is already well formed passes the filter unchanged. */
  lemma {:induction false} FilterKeepsPlayable(items: seq<Item>)
    requires AllPlayable(items)
    ensures FilterPlayable(items) == items
  {
    if items != [] {
      FilterKeepsPlayable(items[1..]);
    }
  }

  /** The filter drops exactly the malformed items: the result is empty iff no
      item is playable, and has the input's length iff every item is. */
  lemma {:induction false} FilterEmptyIff(items: seq<Item>)
    ensures FilterPlayable(items) == [] <==> NonePlayable(items)
  {
    if items != [] {
      FilterEmptyIff(items[1..]);
      assert forall i :: 1 <= i < |items| ==> items[i] == items[1..][i - 1];
    }
  }

  lemma {:induction false} FilterFullIff(items: seq<Item>)
    ensures |FilterPlayable(items)| == |items| <==> AllPlayable(items)
  {
    if items != [] {
      FilterFullIff(items[1..]);
      assert forall i :: 1 <= i < |items| ==> items[i] == items[1..][i - 1];
    }
  }

  /** Filtering twice is filtering once. */
  lemma FilterIdempotent(items: seq<Item>)
    ensures FilterPlayable(FilterPlayable(items)) == FilterPlayable(items)
  {
    FilterKeepsPlayable(FilterPlayable(items));
  }
}
