/** The per-item derivations of `renderItems` (script.js:96-173): the
    thumbnail choice, the entry's URLs, attributes and class name, and which
    events on an entry activate it. */
module Render {
  import opened Wrappers
  import opened Items
  import opened Urls

  /** `thumbnails && (thumbnails.medium || thumbnails.default)`: a present
      `medium` object is chosen even when it has no `url`. */
  function ChosenThumbnail(thumbnails: Option<Thumbnails>): Option<Thumbnail> {
    if thumbnails.None? then None
    else if thumbnails.value.medium.Some? then thumbnails.value.medium
    else thumbnails.value.default
  }

  /** `thumb.url || https://i.ytimg.com/vi/<id>/hqdefault.jpg`. */
  function ThumbnailUrl(item: Item): (url: string)
    requires Playable(item)
    ensures url != ""
    ensures var chosen := ChosenThumbnail(item.snippet.value.thumbnails);
      chosen.Some? && Truthy(chosen.value.url) ==> url == chosen.value.url.value
    ensures var chosen := ChosenThumbnail(item.snippet.value.thumbnails);
      !(chosen.Some? && Truthy(chosen.value.url)) ==> url == FallbackThumbnailUrl(VideoId(item))
  {
    var chosen := ChosenThumbnail(item.snippet.value.thumbnails);
    if chosen.Some? && Truthy(chosen.value.url) then chosen.value.url.value
    else FallbackThumbnailUrl(VideoId(item))
  }

  /** The image is `medium.url` when `medium` has one, else `default.url` when
      there is no `medium` and `default` has one. */
  lemma ThumbnailPrefersMedium(item: Item)
    requires Playable(item) && item.snippet.value.thumbnails.Some?
    ensures var t := item.snippet.value.thumbnails.value;
      t.medium.Some? && Truthy(t.medium.value.url) ==> ThumbnailUrl(item) == t.medium.value.url.value
    ensures var t := item.snippet.value.thumbnails.value;
      t.medium.None? && t.default.Some? && Truthy(t.default.value.url) ==>
        ThumbnailUrl(item) == t.default.value.url.value
  {
  }

  /** Whether the API supplied a thumbnail object and it is the medium one. */
  predicate HasMedium(item: Item)
    requires Playable(item)
  {
    item.snippet.value.thumbnails.Some? && item.snippet.value.thumbnails.value.medium.Some?
  }

  /** A present `medium` object shadows `default` entirely: two items that
      differ only in their `default` thumbnail get the same image, even when
      `medium` has no `url` of its own. */
  lemma MediumShadowsDefault(item: Item, other: Option<Thumbnail>)
    requires Playable(item) && HasMedium(item)
    ensures var s := item.snippet.value;
      var t := s.thumbnails.value;
      var item' := Item(Some(s.(thumbnails := Some(t.(default := other)))));
      Playable(item') && ThumbnailUrl(item') == ThumbnailUrl(item)
  {
  }

  /** Without a usable `url` on the chosen variant the image depends on the
      video id alone. */
  lemma ThumbnailFallback(item: Item)
    requires Playable(item)
    requires var chosen := ChosenThumbnail(item.snippet.value.thumbnails);
      chosen.None? || !Truthy(chosen.value.url)
    ensures ThumbnailUrl(item) == FallbackThumbnailUrl(VideoId(item))
  {
  }

  /** An item's `className`: `item` in grid layout, `item list` otherwise. */
  function EntryClass(isGrid: bool): (c: string)
    ensures isGrid ==> c == "item"
    ensures !isGrid ==> c == "item" + " " + "list"
  {
    if isGrid then "item" else "item list"
  }

  /** One rendered entry: the `div` with its thumbnail, title and watch link,
      and the video it plays. */
  datatype Entry = Entry(
    className: string,
    imageSrc: string,
    imageAlt: string,
    title: string,
    watchHref: string,
    watchTarget: string,
    watchRel: string,
    watchText: string,
    tabIndex: int,
    role: string,
    ariaLabel: string,
    videoId: string)

  function EntryFor(item: Item, isGrid: bool, playlistId: string): (e: Entry)
    requires Playable(item)
    ensures e.videoId == VideoId(item) && e.title == Title(item)
    ensures e.className == EntryClass(isGrid)
    ensures e.imageSrc == ThumbnailUrl(item) && e.imageSrc != ""
    ensures e.watchHref == WatchUrl(VideoId(item), playlistId)
    ensures e.watchTarget == "_blank" && e.watchRel == "noopener noreferrer"
    ensures e.tabIndex == 0 && e.role == "button"
  {
    var vid := VideoId(item);
    var title := Title(item);
    Entry(
      EntryClass(isGrid),
      ThumbnailUrl(item),
      title,
      title,
      WatchUrl(vid, playlistId),
      "_blank",
      "noopener noreferrer",
      "Watch on YouTube",
      0,
      "button",
      "Play " + title + " in embedded player",
      vid)
  }

  /** The watch link of an entry points at that entry's video in the
      playlist, when the id is a plain YouTube video id. */
  lemma WatchLinkTargetsItem(item: Item, isGrid: bool, playlistId: string)
    requires Playable(item) && '&' !in VideoId(item)
    ensures WatchTarget(EntryFor(item, isGrid, playlistId).watchHref) == Some((VideoId(item), playlistId))
  {
    WatchTargetOfWatchUrl(VideoId(item), playlistId);
  }

  /** The events the entry listens to: a click (with the tag name of the
      element clicked) and a key press. */
  datatype Event = Click(targetTag: string) | KeyDown(key: string)

  /** Enter or Space, or a click anywhere but on a link, plays the entry. */
  predicate Activates(e: Event) {
    match e
    case Click(tag) => tag != "A"
    case KeyDown(key) => key == "Enter" || key == " "
  }

  /** The keydown handler suppresses the key's default action when it plays. */
  predicate PreventsDefault(e: Event) {
    e.KeyDown? && Activates(e)
  }

  /** `playInEmbed`: the entry's video within the playlist. */
  function PlayUrl(entry: Entry, playlistId: string): string {
    VideoInPlaylistUrl(entry.videoId, playlistId)
  }

  /** Activating an entry makes the player show that entry's video within the
      playlist. */
  lemma PlayShowsEntry(item: Item, isGrid: bool, playlistId: string)
    requires Playable(item) && '?' !in VideoId(item)
    ensures View(PlayUrl(EntryFor(item, isGrid, playlistId), playlistId)) ==
      VideoInPlaylist(VideoId(item), playlistId)
  {
    ViewOfVideoInPlaylist(VideoId(item), playlistId);
  }
}
