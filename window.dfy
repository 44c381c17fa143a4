/**
 * The page the widget runs in: the document, the script tags, the globals
 * the YouTube IFrame API reads and writes, the players it created, the
 * window's message listeners and the oEmbed requests sent.
 */
module Window {
  import opened Common
  import opened Browser
  import opened Urls
  import opened VimeoPlayer

  /** The calls the widget makes on a YouTube player. */
  datatype PlayerCall = PlayVideo | StopVideo | DestroyVideo

  /**
   * A `YT.Player`: the element it replaces, the video, whether the
   * `onReady` handler it was given plays the video, and the calls made on it.
   */
  datatype Player = Player(placeholder: NodeId, videoId: string, playsWhenReady: bool, calls: seq<PlayerCall>)

  /** The `setPlayer` that `window.onYouTubeIframeAPIReady` will run. */
  datatype PendingPlayer = PendingPlayer(placeholder: NodeId, videoId: string)

  /** The body of an oEmbed response: text `JSON.parse` rejects, or an object with an optional `video_id`. */
  datatype OembedBody = Malformed | Json(videoId: Option<int>)

  /** The outcome of the synchronous oEmbed request: no response at all, or a status and a body. */
  datatype OembedReply = Unreachable | Response(status: int, body: OembedBody)

  /** The oEmbed endpoint; the page address is appended as is. */
  const OembedEndpoint: string := "https://vimeo.com/api/oembed.json?url="

  /**
   * What `isVimeoVideo(url)` returns once `reply` is known: nothing (no
   * request is made) unless the host test passes; a request that cannot
   * complete throws; otherwise the `video_id` of a 2xx or 3xx response when
   * it is truthy. A body `JSON.parse` rejects throws inside `onload`, where
   * the exception is reported and the id stays `false`.
   */
  function VimeoVideoId(url: string, reply: OembedReply): (r: Result<Option<int>, Fault>)
    ensures !IsVimeoHost(url) ==> r == Ok(None)
    ensures r.Err? <==> IsVimeoHost(url) && reply.Unreachable?
    ensures r.Ok? && r.value.Some? <==>
      && IsVimeoHost(url) && reply.Response? && 200 <= reply.status < 400
      && reply.body.Json? && reply.body.videoId.Some? && reply.body.videoId.value != 0
    ensures r.Ok? && r.value.Some? ==> r.value == reply.body.videoId
  {
    if !IsVimeoHost(url) then Ok(None)
    else match reply
      case Unreachable => Err(NetworkError)
      case Response(status, body) =>
        if 200 <= status < 400 then
          match body
          case Malformed => Ok(None)
          case Json(id) => if id.Some? && id.value != 0 then Ok(id) else Ok(None)
        else Ok(None)
  }

  /** A YouTube link never triggers an oEmbed request: the YouTube and Vimeo tests never both pass. */
  lemma YoutubeLinkNotLookedUp(url: string, reply: OembedReply)
    requires YoutubeVideoId(url).Some?
    ensures VimeoVideoId(url, reply) == Ok(None)
  {
    if IsVimeoHost(url) {
      VimeoIsNotYoutube(url);
    }
  }

  class Page {
    /** The document. */
    var tree: Tree
    /** `document.body`. */
    const body: NodeId
    /** The `src` of each `<script>` element, in document order. */
    var scripts: seq<string>
    /** The global `YT` exists: the IFrame API script has run. */
    var ytLoaded: bool
    /** `window.onYouTubeIframeAPIReady`. */
    var apiReadyCallback: Option<PendingPlayer>
    /** `window.onPlayerReady`: never assigned (None), or a handler that plays the video exactly when it holds `true`. */
    var readyHandler: Option<bool>
    /** The players created, in order. */
    var players: seq<Player>
    /** The embeds whose `onMessageReceived` listens for the window's `message` events. */
    var messageListeners: set<VimeoEmbed>
    /** The oEmbed requests sent, in order. */
    var requests: seq<string>

    /**
     * The document is well formed, every node the page refers to is in it,
     * and a pending player creation finds `window.onPlayerReady` assigned.
     */
    predicate Valid()
      reads this, messageListeners
    {
      && tree.Valid()
      && body in tree.elements
      && (forall i :: 0 <= i < |players| ==> players[i].placeholder in tree.elements)
      && (apiReadyCallback.Some? ==> apiReadyCallback.value.placeholder in tree.elements && readyHandler.Some?)
      && (forall e :: e in messageListeners ==> e.Valid() && e.overlay in tree.elements)
    }

    /** A page whose document holds only its body, with the given script tags and globals. */
    constructor(body: NodeId, scripts: seq<string>, ytLoaded: bool, readyHandler: Option<bool>)
      ensures Valid()
      ensures tree == Singleton(body, "body") && this.body == body
      ensures this.scripts == scripts && this.ytLoaded == ytLoaded && this.readyHandler == readyHandler
      ensures apiReadyCallback == None && players == [] && messageListeners == {} && requests == []
    {
      tree := Singleton(body, "body");
      this.body := body;
      this.scripts := scripts;
      this.ytLoaded := ytLoaded;
      apiReadyCallback := None;
      this.readyHandler := readyHandler;
      players := [];
      messageListeners := {};
      requests := [];
    }

    /** The overlay `o` is a child of the body, so what it contains is in the page. */
    predicate Attached(o: NodeId)
      reads this
    {
      body in tree.children && o in tree.children[body]
    }

    /**
     * The YouTube player `p` reports that it is ready: its `onReady`
     * handler calls `playVideo` on it when it was made to.
     */
    method PlayerReady(p: nat)
      requires Valid() && p < |players|
      modifies this
      ensures Valid()
      ensures players == old(players)[p := old(players[p]).(calls := old(players[p].calls) + if old(players[p].playsWhenReady) then [PlayVideo] else [])]
      ensures tree == old(tree) && scripts == old(scripts) && ytLoaded == old(ytLoaded)
      ensures apiReadyCallback == old(apiReadyCallback) && readyHandler == old(readyHandler)
      ensures messageListeners == old(messageListeners) && requests == old(requests)
    {
      var player := players[p];
      if player.playsWhenReady {
        players := players[p := player.(calls := player.calls + [PlayVideo])];
      } else {
        assert player.(calls := player.calls + []) == player;
      }
    }
  }
}
