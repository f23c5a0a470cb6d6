/** The page the script drives (script.js:1-188): the state it writes (status
    line, embedded player `src`, item container with its visibility and
    layout classes) and the handlers that write it. The configuration is
    read once and never reassigned. */
module PageScript {
  import opened Wrappers
  import opened Items
  import opened Urls
  import opened Pagination
  import opened Render
  import opened Loader

  class Page {
    /** `cfg.API_KEY || ''` and `cfg.PLAYLIST_ID || ''`. */
    const apiKey: string
    const playlistId: string

    /** What the status line says; its text is `StatusText(status)`. */
    var status: Status
    /** `embedPlayer.src`. */
    var player: string
    /** `container.style.display != 'none'`. */
    var containerShown: bool
    /** The container's `grid` and `list` classes. */
    var gridClass: bool
    var listClass: bool
    /** The container's children, in order. */
    var entries: seq<Entry>

    /** The layout classes are never both present. */
    ghost predicate Valid()
      reads this
    {
      !(gridClass && listClass)
    }

    constructor(apiKey: string, playlistId: string, player: string, gridClass: bool)
      ensures Valid()
      ensures this.apiKey == apiKey && this.playlistId == playlistId
      ensures this.player == player && this.gridClass == gridClass && !this.listClass
      ensures status == Cleared && containerShown && entries == []
    {
      this.apiKey := apiKey;
      this.playlistId := playlistId;
      this.player := player;
      this.gridClass := gridClass;
      listClass := false;
      status := Cleared;
      containerShown := true;
      entries := [];
    }

    /** The layout radios' change handler (script.js:13-16), for the radio
        with the given value and checked state. */
    method ChangeLayout(value: string, checked: bool)
      requires Valid()
      modifies this`gridClass, this`listClass
      ensures Valid()
      ensures gridClass == (value == "grid" && checked)
      ensures listClass == (value == "list" && checked)
    {
      gridClass := value == "grid" && checked;
      listClass := value == "list" && checked;
    }

    /** `renderItems`: clears the container, sets its layout class from the
        grid radio, then appends one entry per item, in item order. The
        result does not depend on the old entries, so rendering twice is
        rendering once. */
    method RenderItems(items: seq<Item>, gridChecked: bool)
      requires AllPlayable(items)
      modifies this`entries, this`gridClass, this`listClass
      ensures Valid()
      ensures gridClass == gridChecked && listClass == !gridChecked
      ensures |entries| == |items|
      ensures forall i :: 0 <= i < |items| ==> entries[i] == EntryFor(items[i], gridChecked, playlistId)
    {
      entries := [];
      gridClass := gridChecked;
      listClass := !gridChecked;
      for i := 0 to |items|
        invariant gridClass == gridChecked && listClass == !gridChecked
        invariant |entries| == i
        invariant forall j :: 0 <= j < i ==> entries[j] == EntryFor(items[j], gridChecked, playlistId)
      {
        entries := entries + [EntryFor(items[i], gridChecked, playlistId)];
      }
    }

    /** A click or key press on entry `index` (script.js:152-169). Returns
        whether the event's default action is prevented. */
    method HandleEntryEvent(index: nat, e: Event) returns (prevented: bool)
      requires index < |entries|
      modifies this`player
      ensures player == if Activates(e) then PlayUrl(entries[index], playlistId) else old(player)
      ensures prevented == PreventsDefault(e)
    {
      prevented := false;
      match e {
        case Click(tag) =>
          if tag == "A" {
            return;
          }
          player := PlayUrl(entries[index], playlistId);
        case KeyDown(key) =>
          if key == "Enter" || key == " " {
            prevented := true;
            player := PlayUrl(entries[index], playlistId);
          }
      }
    }

    /** `loadPlaylist`, with the remote API given by `pages` and the grid
        radio's state by `gridChecked`. Returns the requests it sent. */
    method LoadPlaylist(pages: seq<Response>, gridChecked: bool) returns (requests: seq<Request>)
      requires Valid()
      modifies this`status, this`player, this`containerShown, this`entries,
        this`gridClass, this`listClass
      ensures Valid()
      ensures Shows(SettleFetch(apiKey, playlistId, pages, old(player)), gridChecked,
                    old(gridClass), old(listClass))
      ensures ModeOf(apiKey, playlistId) != FullyConfigured ==> requests == []
      ensures ModeOf(apiKey, playlistId) == FullyConfigured ==>
        |requests| == StopIndex(pages) + 1 &&
        forall k :: 0 <= k < |requests| ==>
          requests[k] == PageRequest(apiKey, playlistId, TokenBefore(pages, k))
    {
      entries := [];
      status := Cleared;
      requests := [];
      if apiKey == "" || playlistId == "" {
        status := NotConfigured;
        if playlistId != "" {
          player := PlaylistEmbedUrl(playlistId);
        } else {
          player := "";
        }
        containerShown := false;
        return;
      }
      containerShown := true;
      status := Loading;
      var outcome;
      outcome, requests := FetchAllPlaylistItems(apiKey, playlistId, pages);
      ghost var settled := Settle(apiKey, playlistId, outcome, old(player));
      assert settled == SettleFetch(apiKey, playlistId, pages, old(player));
      match outcome {
        case Success(items) =>
          if |items| == 0 {
            status := NoItems;
            return;
          }
          status := Loaded(|items|);
          RenderItems(items, gridChecked);
          player := VideoEmbedUrl(VideoId(items[0]));
        case Failure(_) =>
          status := LoadFailed;
          player := PlaylistEmbedUrl(playlistId);
      }
    }

    /** The page shows the settled state `r`: its status message, player
        `src`, container visibility and one entry per rendered item; the
        layout classes change only when something is rendered. */
    ghost predicate Shows(r: Settled, gridChecked: bool, oldGrid: bool, oldList: bool)
      reads this
      requires AllPlayable(r.rendered)
    {
      && status == r.status
      && player == r.player
      && containerShown == r.visible
      && |entries| == |r.rendered|
      && (forall i :: 0 <= i < |r.rendered| ==>
            entries[i] == EntryFor(r.rendered[i], gridChecked, playlistId))
      && (r.rendered == [] ==> gridClass == oldGrid && listClass == oldList)
      && (r.rendered != [] ==> gridClass == gridChecked && listClass == !gridChecked)
    }

    /** The window `load` handler (script.js:178-188): shows the embedded
        playlist when only the playlist id is configured, loads when both are,
        and does nothing otherwise. */
    method OnWindowLoad(pages: seq<Response>, gridChecked: bool) returns (requests: seq<Request>)
      requires Valid()
      modifies this`status, this`player, this`containerShown, this`entries,
        this`gridClass, this`listClass
      ensures Valid()
      ensures ModeOf(apiKey, playlistId) == PlaylistOnly ==>
        && status == EmbeddedOnly
        && player == PlaylistEmbedUrl(playlistId)
        && !containerShown
        && entries == old(entries)
        && gridClass == old(gridClass) && listClass == old(listClass)
        && requests == []
      ensures ModeOf(apiKey, playlistId) == Unconfigured ==>
        && status == old(status) && player == old(player)
        && containerShown == old(containerShown) && entries == old(entries)
        && gridClass == old(gridClass) && listClass == old(listClass)
        && requests == []
      ensures ModeOf(apiKey, playlistId) == FullyConfigured ==>
        && Shows(SettleFetch(apiKey, playlistId, pages, old(player)), gridChecked,
                 old(gridClass), old(listClass))
        && |requests| == StopIndex(pages) + 1
    {
      requests := [];
      if playlistId != "" && apiKey == "" {
        player := PlaylistEmbedUrl(playlistId);
        containerShown := false;
        status := EmbeddedOnly;
      } else if apiKey != "" && playlistId != "" {
        requests := LoadPlaylist(pages, gridChecked);
      }
    }
  }
}
