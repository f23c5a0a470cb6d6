/** The URLs the page script builds, and a reading of the embedded player's
    `src` back into what it shows (the "embedded player target"): the reading
    is the inverse of the builders. */
module Urls {
  import opened Wrappers

  const PLAYLIST_EMBED_PREFIX := "https://www.youtube.com/embed?listType=playlist&list="
  const VIDEO_EMBED_PREFIX := "https://www.youtube.com/embed/"
  const WATCH_PREFIX := "https://www.youtube.com/watch?v="
  const THUMBNAIL_PREFIX := "https://i.ytimg.com/vi/"
  const THUMBNAIL_SUFFIX := "/hqdefault.jpg"
  const SINGLE_QUERY := "rel=0"
  const LIST_QUERY := "rel=0&list="

  /** The whole-playlist embed, used in the fallback modes and after a failed fetch. */
  function PlaylistEmbedUrl(list: string): string {
    PLAYLIST_EMBED_PREFIX + list
  }

  /** The single-video embed that primes the player with the first item. */
  function VideoEmbedUrl(videoId: string): string {
    VIDEO_EMBED_PREFIX + videoId + "?" + SINGLE_QUERY
  }

  /** The embed an activated entry loads: its video within the playlist. */
  function VideoInPlaylistUrl(videoId: string, list: string): string {
    VIDEO_EMBED_PREFIX + videoId + "?" + LIST_QUERY + list
  }

  /** The "Watch on YouTube" link of an entry. */
  function WatchUrl(videoId: string, list: string): string {
    WATCH_PREFIX + videoId + "&list=" + list
  }

  /** The thumbnail derived from the video id when the API supplies none. */
  function FallbackThumbnailUrl(videoId: string): string {
    THUMBNAIL_PREFIX + videoId + THUMBNAIL_SUFFIX
  }

  /** First position of `c` in `s`, or |s| when it does not occur. */
  function IndexOf(s: string, c: char): (i: nat)
    ensures i <= |s|
    ensures forall j :: 0 <= j < i ==> s[j] != c
    ensures i < |s| ==> s[i] == c
  {
    if s == [] then 0
    else if s[0] == c then 0
    else 1 + IndexOf(s[1..], c)
  }

  lemma IndexOfSeparator(a: string, c: char, b: string)
    requires c !in a
    ensures IndexOf(a + [c] + b, c) == |a|
  {
    var s := a + [c] + b;
    assert s[|a|] == c;
    assert forall j :: 0 <= j < |a| ==> s[j] == a[j];
  }

  /** What the embedded player shows for a given `src`. */
  datatype PlayerView =
    | Blank
    | WholePlaylist(list: string)
    | SingleVideo(videoId: string)
    | VideoInPlaylist(videoId: string, list: string)
    | Unrecognised

  function View(src: string): PlayerView {
    if src == "" then Blank
    else if PLAYLIST_EMBED_PREFIX <= src then WholePlaylist(src[|PLAYLIST_EMBED_PREFIX|..])
    else if VIDEO_EMBED_PREFIX <= src then
      var rest := src[|VIDEO_EMBED_PREFIX|..];
      var q := IndexOf(rest, '?');
      if q == |rest| then Unrecognised
      else
        var query := rest[q + 1..];
        if query == SINGLE_QUERY then SingleVideo(rest[..q])
        else if LIST_QUERY <= query then VideoInPlaylist(rest[..q], query[|LIST_QUERY|..])
        else Unrecognised
    else Unrecognised
  }

  /** A video embed never starts with the playlist-embed prefix: the two differ
      right after ".../embed". */
  lemma NotPlaylistEmbed(tail: string)
    ensures !(PLAYLIST_EMBED_PREFIX <= VIDEO_EMBED_PREFIX + tail)
  {
    var s := VIDEO_EMBED_PREFIX + tail;
    assert s[29] == '/' != PLAYLIST_EMBED_PREFIX[29];
  }

  lemma {:induction false} ViewOfPlaylistEmbed(list: string)
    ensures View(PlaylistEmbedUrl(list)) == WholePlaylist(list)
  {
    var s := PlaylistEmbedUrl(list);
    assert s[..|PLAYLIST_EMBED_PREFIX|] == PLAYLIST_EMBED_PREFIX;
    assert s[|PLAYLIST_EMBED_PREFIX|..] == list;
  }

  lemma {:induction false} ViewOfVideoEmbed(videoId: string)
    requires '?' !in videoId
    ensures View(VideoEmbedUrl(videoId)) == SingleVideo(videoId)
  {
    var s := VideoEmbedUrl(videoId);
    NotPlaylistEmbed(videoId + "?" + SINGLE_QUERY);
    assert s == VIDEO_EMBED_PREFIX + (videoId + "?" + SINGLE_QUERY);
    assert s[..|VIDEO_EMBED_PREFIX|] == VIDEO_EMBED_PREFIX;
    var rest := s[|VIDEO_EMBED_PREFIX|..];
    assert rest == videoId + ['?'] + SINGLE_QUERY;
    IndexOfSeparator(videoId, '?', SINGLE_QUERY);
    assert rest[..|videoId|] == videoId;
    assert rest[|videoId| + 1..] == SINGLE_QUERY;
  }

  lemma {:induction false} ViewOfVideoInPlaylist(videoId: string, list: string)
    requires '?' !in videoId
    ensures View(VideoInPlaylistUrl(videoId, list)) == VideoInPlaylist(videoId, list)
  {
    var s := VideoInPlaylistUrl(videoId, list);
    NotPlaylistEmbed(videoId + "?" + LIST_QUERY + list);
    assert s == VIDEO_EMBED_PREFIX + (videoId + "?" + LIST_QUERY + list);
    assert s[..|VIDEO_EMBED_PREFIX|] == VIDEO_EMBED_PREFIX;
    var rest := s[|VIDEO_EMBED_PREFIX|..];
    assert rest == videoId + ['?'] + (LIST_QUERY + list);
    IndexOfSeparator(videoId, '?', LIST_QUERY + list);
    assert rest[..|videoId|] == videoId;
    var query := rest[|videoId| + 1..];
    assert query == LIST_QUERY + list;
    assert query != SINGLE_QUERY by { assert |query| > |SINGLE_QUERY|; }
    assert query[..|LIST_QUERY|] == LIST_QUERY;
    assert query[|LIST_QUERY|..] == list;
  }

  /** The video and playlist a "Watch on YouTube" link points at. */
  function WatchTarget(href: string): Option<(string, string)> {
    if WATCH_PREFIX <= href then
      var rest := href[|WATCH_PREFIX|..];
      var a := IndexOf(rest, '&');
      if a < |rest| && "&list=" <= rest[a..] then Some((rest[..a], rest[a + 6..]))
      else None
    else None
  }

  lemma {:induction false} WatchTargetOfWatchUrl(videoId: string, list: string)
    requires '&' !in videoId
    ensures WatchTarget(WatchUrl(videoId, list)) == Some((videoId, list))
  {
    var s := WatchUrl(videoId, list);
    assert s == WATCH_PREFIX + (videoId + "&list=" + list);
    assert s[..|WATCH_PREFIX|] == WATCH_PREFIX;
    var rest := s[|WATCH_PREFIX|..];
    assert rest == videoId + ['&'] + ("list=" + list);
    IndexOfSeparator(videoId, '&', "list=" + list);
    assert rest[..|videoId|] == videoId;
    assert rest[|videoId|..] == "&list=" + list;
    assert rest[|videoId|..][..6] == "&list=";
    assert rest[|videoId| + 6..] == list;
  }

  /** The player is blank exactly for the empty `src`; every URL the script
      builds shows something. */
  lemma BuiltUrlsAreNotBlank(videoId: string, list: string)
    ensures View(PlaylistEmbedUrl(list)) != Blank
    ensures View(VideoEmbedUrl(videoId)) != Blank
    ensures View(VideoInPlaylistUrl(videoId, list)) != Blank
  {
  }
}
