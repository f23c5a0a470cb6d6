/** The mode and outcome branching of `loadPlaylist` (script.js:18-52) as a
    pure function of the configuration and the fetch outcome. */
module Loader {
  import opened Wrappers
  import opened Items
  import opened Urls
  import opened Pagination

  /** The three operating modes. An API key without a playlist id is
      unconfigured, like no configuration at all. */
  datatype Mode = Unconfigured | PlaylistOnly | FullyConfigured

  function ModeOf(apiKey: string, playlistId: string): Mode {
    if playlistId == "" then Unconfigured
    else if apiKey == "" then PlaylistOnly
    else FullyConfigured
  }

  /** The messages the status line shows. */
  datatype Status =
    | Cleared
    | NotConfigured
    | EmbeddedOnly
    | Loading
    | NoItems
    | Loaded(count: nat)
    | LoadFailed

  /** Decimal digits of `n`, as `${n}` prints it. */
  function Decimal(n: nat): (s: string)
    ensures |s| > 0
    ensures forall i :: 0 <= i < |s| ==> '0' <= s[i] <= '9'
    ensures |s| == 1 || s[0] != '0'
    ensures DecimalValue(s) == n
  {
    if n < 10 then [Digit(n)]
    else
      var init := Decimal(n / 10);
      var s := init + [Digit(n % 10)];
      assert s[..|s| - 1] == init && s[0] == init[0];
      s
  }

  function Digit(d: nat): char
    requires d < 10
  {
    "0123456789"[d]
  }

  /** Reads a string of decimal digits back as a number. */
  function DecimalValue(s: string): nat {
    if s == [] then 0
    else
      var d := s[|s| - 1] as int - '0' as int;
      DecimalValue(s[..|s| - 1]) * 10 + (if 0 <= d < 10 then d else 0)
  }

  function StatusText(s: Status): string {
    match s
    case Cleared => ""
    case NotConfigured =>
      "No API key / playlist configured. Edit `config.js` to add API_KEY and PLAYLIST_ID."
    case EmbeddedOnly => "Showing embedded playlist (no API key configured)."
    case Loading => "Loading playlist items..."
    case NoItems => "No items found in the playlist."
    case Loaded(n) => "Loaded " + Decimal(n) + " items."
    case LoadFailed =>
      "Failed to load playlist items. See console for details. Falling back to embedded playlist."
  }

  /** Where `loadPlaylist` leaves the page: the status, the player's `src`,
      whether the item container is shown, and the items it renders. */
  datatype Settled = Settled(status: Status, player: string, visible: bool, rendered: seq<Item>)

  /** The page state after `loadPlaylist`, given the fetch outcome (used only
      when fully configured) and the player's `src` before the call. */
  function Settle(apiKey: string, playlistId: string,
                  fetched: Result<seq<Item>, FetchError>, oldPlayer: string): (r: Settled)
    requires fetched.Success? ==> AllPlayable(fetched.value)
    ensures r.visible <==> ModeOf(apiKey, playlistId) == FullyConfigured
    ensures r.rendered == [] || fetched == Success(r.rendered)
    ensures AllPlayable(r.rendered)
  {
    match ModeOf(apiKey, playlistId)
    case Unconfigured => Settled(NotConfigured, "", false, [])
    case PlaylistOnly => Settled(NotConfigured, PlaylistEmbedUrl(playlistId), false, [])
    case FullyConfigured =>
      match fetched
      case Failure(_) => Settled(LoadFailed, PlaylistEmbedUrl(playlistId), true, [])
      case Success(items) =>
        if items == [] then Settled(NoItems, oldPlayer, true, [])
        else Settled(Loaded(|items|), VideoEmbedUrl(VideoId(items[0])), true, items)
  }

  /** The outcome of a load driven by the page oracle. */
  function SettleFetch(apiKey: string, playlistId: string, pages: seq<Response>,
                       oldPlayer: string): Settled
  {
    Settle(apiKey, playlistId, FetchOutcome(pages), oldPlayer)
  }

  /** Without a full configuration nothing is fetched or rendered, the
      container is hidden, the message asks for configuration, and the player
      is blank (no playlist id) or shows the whole playlist (id but no key). */
  lemma ModeContract(apiKey: string, playlistId: string,
                     fetched: Result<seq<Item>, FetchError>, oldPlayer: string)
    requires fetched.Success? ==> AllPlayable(fetched.value)
    ensures var r := Settle(apiKey, playlistId, fetched, oldPlayer);
      && (playlistId == "" ==> View(r.player) == Blank)
      && (playlistId != "" && apiKey == "" ==> View(r.player) == WholePlaylist(playlistId))
      && (ModeOf(apiKey, playlistId) != FullyConfigured ==>
            r.status == NotConfigured && r.rendered == [] && !r.visible)
      && (ModeOf(apiKey, playlistId) == FullyConfigured ==> r.visible && r.status != NotConfigured)
  {
    ViewOfPlaylistEmbed(playlistId);
  }

  /** All or nothing at the page level: when any response the loop reaches
      is not ok, nothing is rendered, the failure message shows, and the
      player falls back to the whole playlist, whatever came before. */
  lemma FailureFallsBackToPlaylist(apiKey: string, playlistId: string,
                                   pages: seq<Response>, j: nat, oldPlayer: string)
    requires ModeOf(apiKey, playlistId) == FullyConfigured
    requires j < |pages| && pages[j].Failed?
    requires forall i :: 0 <= i < j ==> Continues(pages[i])
    ensures var r := SettleFetch(apiKey, playlistId, pages, oldPlayer);
      r.status == LoadFailed && r.rendered == [] &&
      View(r.player) == WholePlaylist(playlistId)
  {
    FetchFailsOnFailedPage(pages, j);
    ViewOfPlaylistEmbed(playlistId);
  }

  /** A successful non-empty load renders exactly the fetched items and
      primes the player with the first of them. */
  lemma SuccessPrimesFirstItem(apiKey: string, playlistId: string,
                               items: seq<Item>, oldPlayer: string)
    requires ModeOf(apiKey, playlistId) == FullyConfigured
    requires AllPlayable(items) && items != [] && '?' !in VideoId(items[0])
    ensures var r := Settle(apiKey, playlistId, Success(items), oldPlayer);
      r.rendered == items && r.status == Loaded(|items|) &&
      View(r.player) == SingleVideo(VideoId(items[0]))
  {
    ViewOfVideoEmbed(VideoId(items[0]));
  }

  /** The same without any assumption on the id: the player's `src` is the
      single-video embed of the first item. */
  lemma SuccessSetsFirstVideoEmbed(apiKey: string, playlistId: string,
                                   items: seq<Item>, oldPlayer: string)
    requires ModeOf(apiKey, playlistId) == FullyConfigured
    requires AllPlayable(items) && items != []
    ensures var r := Settle(apiKey, playlistId, Success(items), oldPlayer);
      r.rendered == items && r.status == Loaded(|items|) && r.visible &&
      r.player == VideoEmbedUrl(VideoId(items[0]))
  {
  }

  /** Every failed fetch (HTTP error, unparsable body or transport failure)
      falls back to the whole playlist with nothing rendered. */
  lemma AnyFailureFallsBackToPlaylist(apiKey: string, playlistId: string,
                                      fetched: Result<seq<Item>, FetchError>, oldPlayer: string)
    requires ModeOf(apiKey, playlistId) == FullyConfigured && fetched.Failure?
    ensures var r := Settle(apiKey, playlistId, fetched, oldPlayer);
      r.status == LoadFailed && r.rendered == [] && r.visible &&
      r.player == PlaylistEmbedUrl(playlistId) && View(r.player) == WholePlaylist(playlistId)
  {
    ViewOfPlaylistEmbed(playlistId);
  }

  /** Pages holding only malformed items: the load succeeds with nothing,
      reports "No items found" rather than a failure, and leaves the player
      as it was. */
  lemma MalformedOnlyMeansNoItems(apiKey: string, playlistId: string,
                                  pages: seq<Response>, oldPlayer: string)
    requires ModeOf(apiKey, playlistId) == FullyConfigured
    requires StopIndex(pages) < |pages| && pages[StopIndex(pages)].Page?
    requires NonePlayable(ConcatItems(pages[..StopIndex(pages) + 1]))
    ensures var r := SettleFetch(apiKey, playlistId, pages, oldPlayer);
      r.status == NoItems && r.player == oldPlayer && r.rendered == [] && r.visible
  {
    FetchOfMalformedOnly(pages);
  }

  /** The player always shows one of: nothing, the whole configured
      playlist, the first fetched video, or what it showed before the load
      (only after an empty result). */
  lemma PlayerTargetIsAccountedFor(apiKey: string, playlistId: string,
                                   fetched: Result<seq<Item>, FetchError>, oldPlayer: string)
    requires fetched.Success? ==> AllPlayable(fetched.value)
    ensures var r := Settle(apiKey, playlistId, fetched, oldPlayer);
      || r.player == ""
      || r.player == PlaylistEmbedUrl(playlistId)
      || (fetched.Success? && fetched.value != [] && r.player == VideoEmbedUrl(VideoId(fetched.value[0])))
      || (fetched == Success([]) && r.player == oldPlayer)
  {
  }
}
