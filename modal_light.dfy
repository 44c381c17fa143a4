/**
 * The widget itself: the object `modalLight` builds over `buildObj`, with
 * the triggers it listens on, the overlay it shows, the players it opened
 * and the deferred tasks it left with `setTimeout`.
 *
 * Events reach it as method calls: a click on a listening trigger
 * (HandleEvent), a click on a closer (CloseModal), a timer firing
 * (RunTimer), the YouTube API finishing its load (YoutubeApiReady) and a
 * message to the window (VimeoMessage).
 */
module ModalLight {
  import opened Common
  import opened Browser
  import opened Urls
  import opened NodeLoop
  import opened VimeoPlayer
  import opened Window
  import Objects
  import Options

  /** The two things the widget defers with `setTimeout`. */
  datatype Task = AddVisible | RemoveOverlay

  /** A pending `setTimeout(task, delay)`. */
  datatype Timer = Timer(delay: nat, task: Task)

  /** What `handleEvent` returns when it does not throw. */
  datatype Completion = ReturnedFalse | ReturnedNothing

  const ModalClass: string := "ModalLight-modal"
  const InnerClass: string := "ModalLight-inner"
  const CloserClass: string := "ModalLight-closer"
  const ContainerClass: string := "ModalLight-videoContainer"
  const VideoDivClass: string := "ModalLight-videoDiv"
  const VisibleClass: string := "is-visible"
  const CloserLabel: string := "Close modal"

  /** The delay before a closed overlay is detached. */
  const CloseDelay: nat := 1000

  /** The message `init` throws when no selector is given. */
  const SelectorMissing: string := "ModalLight - You must define a class selector!"

  /**
   * Timer `i` may be the next to fire: every timer set before it has a
   * longer delay (with an equal or shorter delay it would be due first).
   */
  predicate MayFire(timers: seq<Timer>, i: nat)
  {
    i < |timers| && forall j :: 0 <= j < i ==> timers[j].delay > timers[i].delay
  }

  /** Some pending timer can always fire: the first among those with the shortest delay. */
  lemma {:induction false} SomeTimerMayFire(timers: seq<Timer>)
    requires timers != []
    ensures exists i :: MayFire(timers, i)
    decreases |timers|
  {
    if |timers| == 1 {
      assert MayFire(timers, 0);
    } else {
      var front := timers[..|timers| - 1];
      SomeTimerMayFire(front);
      var i: nat :| MayFire(front, i);
      var last := |timers| - 1;
      if timers[last].delay < timers[i].delay && forall j :: 0 <= j < last ==> timers[j].delay > timers[last].delay {
        assert MayFire(timers, last);
      } else {
        assert MayFire(timers, i);
      }
    }
  }

  /** The `id` given to a YouTube placeholder: the prefix and the two random numbers. */
  function VideoElementId(r1: nat, r2: nat): string
  {
    "ModalLightVideoId" + NatText(r1) + NatText(r2)
  }

  /** The `src` of a Vimeo frame; a missing id prints as `false`. */
  function FrameSource(videoId: Option<int>, playerId: string): string
  {
    "https://player.vimeo.com/video/" + (if videoId.Some? then IntText(videoId.value) else "false")
    + "?api=1&player_id=" + playerId
  }

  /**
   * `after` is `before` with the overlay built under `body`:
   * `div.ModalLight-modal` as the last child of the body, holding
   * `div.ModalLight-inner` and then the button `.ModalLight-closer` of type
   * "button" labelled "Close modal".
   */
  predicate Opened(before: Tree, after: Tree, body: NodeId, overlay: NodeId, inner: NodeId, closer: NodeId)
  {
    && before.Valid() && body in before.elements
    && after.Valid() && AddedUnder(before, after, body)
    && overlay !in before.elements && inner !in before.elements && closer !in before.elements
    && overlay != inner && overlay != closer && inner != closer
    && after.children[body] == before.children[body] + [overlay]
    && overlay in after.children && after.children[overlay] == [inner, closer]
    && overlay in after.elements && after.elements[overlay] == Element("div", {ModalClass}, map[])
    && inner in after.elements && after.elements[inner] == Element("div", {InnerClass}, map[])
    && inner in after.children && after.children[inner] == []
    && closer in after.elements
    && after.elements[closer] == Element("button", {CloserClass}, map["type" := "button", "aria-label" := CloserLabel])
  }

  /**
   * The overlay's own nodes in `after`: `div.ModalLight-modal`, not yet
   * visible, whose children are a new `div.ModalLight-inner` and the new
   * closer, the button of type "button" labelled "Close modal".
   */
  predicate OverlayShape(before: Tree, after: Tree, overlay: NodeId, closer: NodeId)
  {
    && overlay in after.elements && after.elements[overlay] == Element("div", {ModalClass}, map[])
    && overlay in after.children && |after.children[overlay]| == 2 && after.children[overlay][1] == closer
    && after.children[overlay][0] !in before.elements && after.children[overlay][0] in after.elements
    && after.elements[after.children[overlay][0]] == Element("div", {InnerClass}, map[])
    && closer !in before.elements && closer in after.elements
    && after.elements[closer] == Element("button", {CloserClass}, map["type" := "button", "aria-label" := CloserLabel])
  }

  /** The inner div of the overlay `overlay` names in `t` (0 when there is none). */
  function InnerOf(t: Tree, overlay: Option<NodeId>): NodeId
  {
    if overlay.Some? && overlay.value in t.children && |t.children[overlay.value]| > 0 then t.children[overlay.value][0] else 0
  }

  /**
   * What opening the overlay leaves behind against the document, closers
   * and timers before: a new overlay (see OverlayShape) appended to the
   * body, nodes added below the body only (every earlier element and every
   * other child list as it was), its closer recorded, and the deferred show
   * of the overlay scheduled.
   */
  predicate Overlaid(before: Tree, after: Tree, body: NodeId, overlay: Option<NodeId>, closer: Option<NodeId>,
                     closers0: set<NodeId>, closers: set<NodeId>, timers0: seq<Timer>, timers: seq<Timer>)
  {
    && overlay.Some? && closer.Some? && body in before.children && body in after.children
    && before.Valid() && AddedUnder(before, after, body)
    && overlay.value !in before.elements && after.children[body] == before.children[body] + [overlay.value]
    && OverlayShape(before, after, overlay.value, closer.value)
    && closers == closers0 + {closer.value} && timers == timers0 + [Timer(0, AddVisible)]
  }

  /** A newly opened overlay is not visible: only the deferred AddVisible shows it. */
  lemma OverlaidHidden(before: Tree, after: Tree, body: NodeId, overlay: Option<NodeId>, closer: Option<NodeId>,
                       closers0: set<NodeId>, closers: set<NodeId>, timers0: seq<Timer>, timers: seq<Timer>)
    requires Overlaid(before, after, body, overlay, closer, closers0, closers, timers0, timers)
    ensures overlay.value in after.elements && VisibleClass !in after.elements[overlay.value].classes
    ensures timers[|timers| - 1] == Timer(0, AddVisible)
  {
  }

  /**
   * Opening the overlay leaves the rest of the document alone: every
   * element there was (the clicked trigger among them) is unchanged, and of
   * the earlier child lists only the body's grows, by the overlay alone.
   */
  lemma OverlaidKeepsDocument(before: Tree, after: Tree, body: NodeId, overlay: Option<NodeId>, closer: Option<NodeId>,
                              closers0: set<NodeId>, closers: set<NodeId>, timers0: seq<Timer>, timers: seq<Timer>, n: NodeId)
    requires Overlaid(before, after, body, overlay, closer, closers0, closers, timers0, timers)
    ensures n in before.elements ==> n in after.elements && after.elements[n] == before.elements[n]
    ensures n in before.children ==>
              && n in after.children
              && after.children[n] == if n == body then before.children[n] + [overlay.value] else before.children[n]
  {
  }

  /** Adding nodes inside the overlay's inner div keeps the overlay as it was opened. */
  lemma OverlaidKept(t0: Tree, t1: Tree, t2: Tree, body: NodeId, inner: NodeId, overlay: Option<NodeId>, closer: Option<NodeId>,
                     closers0: set<NodeId>, closers: set<NodeId>, timers0: seq<Timer>, timers: seq<Timer>)
    requires Overlaid(t0, t1, body, overlay, closer, closers0, closers, timers0, timers)
    requires AddedUnder(t1, t2, inner) && inner != body && inner != overlay.value && inner !in t0.elements
    ensures Overlaid(t0, t2, body, overlay, closer, closers0, closers, timers0, timers)
    ensures InnerOf(t2, overlay) == InnerOf(t1, overlay)
  {
    AddedUnderTrans(t0, t1, t2, body, inner);
  }

  /** Builds the overlay of `handleEvent` (see Opened). */
  method BuildOverlay(t: Tree, body: NodeId) returns (r: (Tree, NodeId, NodeId, NodeId))
    requires t.Valid() && body in t.elements
    ensures Opened(t, r.0, body, r.1, r.2, r.3)
  {
    var m := CreateElement(t, "div", Some(ModalClass), body);
    var i := CreateElement(m.0, "div", Some(InnerClass), m.1);
    AddedUnderTrans(t, m.0, i.0, body, m.1);
    var closerElement := Element("button", {CloserClass}, map["type" := "button", "aria-label" := CloserLabel]);
    var c := AppendElement(i.0, closerElement, m.1);
    AppendAddsUnder(i.0, closerElement, m.1);
    AddedUnderTrans(t, i.0, c.0, body, m.1);
    r := (c.0, m.1, i.1, c.1);
  }

  /**
   * `after` is `before` with the nodes of a YouTube embed under `el`:
   * `div.ModalLight-videoContainer` as the last child of `el`, holding
   * `div.ModalLight-videoDiv` with the given `id`, which the player replaces.
   */
  predicate YoutubeNodes(before: Tree, after: Tree, el: NodeId, container: NodeId, videoDiv: NodeId, id: string)
  {
    && before.Valid() && el in before.elements
    && after.Valid() && AddedUnder(before, after, el)
    && container !in before.elements && videoDiv !in before.elements && container != videoDiv
    && after.children[el] == before.children[el] + [container]
    && container in after.children && after.children[container] == [videoDiv]
    && container in after.elements && after.elements[container] == Element("div", {ContainerClass}, map[])
    && videoDiv in after.elements && after.elements[videoDiv] == Element("div", {VideoDivClass}, map["id" := id])
  }

  /** Builds the nodes of a YouTube embed (see YoutubeNodes). */
  method BuildYoutubeNodes(t: Tree, el: NodeId, id: string) returns (r: (Tree, NodeId, NodeId))
    requires t.Valid() && el in t.elements
    ensures YoutubeNodes(t, r.0, el, r.1, r.2, id)
  {
    var c := CreateElement(t, "div", Some(ContainerClass), el);
    var v := AppendElement(c.0, Element("div", {VideoDivClass}, map["id" := id]), c.1);
    AppendAddsUnder(c.0, Element("div", {VideoDivClass}, map["id" := id]), c.1);
    AddedUnderTrans(t, c.0, v.0, el, c.1);
    r := (v.0, c.1, v.1);
  }

  /**
   * In `t`, the YouTube container `c` follows the earlier children `kids0`
   * of `el` and holds only the placeholder `p` with the given `id`; both are
   * new against `nodes0`.
   */
  predicate YoutubeNodesIn(nodes0: set<NodeId>, kids0: seq<NodeId>, t: Tree, el: NodeId, c: NodeId, p: NodeId, id: string)
  {
    && c !in nodes0 && p !in nodes0
    && el in t.children && t.children[el] == kids0 + [c]
    && c in t.children && t.children[c] == [p]
    && c in t.elements && t.elements[c] == Element("div", {ContainerClass}, map[])
    && p in t.elements && t.elements[p] == Element("div", {VideoDivClass}, map["id" := id])
  }

  /**
   * `after` is `before` with the nodes of a Vimeo embed under `el`:
   * `div.ModalLight-videoContainer` as the last child of `el`, holding
   * only `div.ModalLight-videoDiv`, whose markup is the player frame with
   * the given `id` and `src`.
   */
  predicate VimeoNodes(before: Tree, after: Tree, el: NodeId, container: NodeId, frame: NodeId, id: string, src: string)
  {
    && before.Valid() && el in before.elements
    && after.Valid() && AddedUnder(before, after, el)
    && container !in before.elements && frame !in before.elements && container != frame
    && after.children[el] == before.children[el] + [container]
    && container in after.elements && after.elements[container] == Element("div", {ContainerClass}, map[])
    && container in after.children && |after.children[container]| == 1
    && VideoDivHolds(before, after, after.children[container][0], frame)
    && frame in after.elements && after.elements[frame] == Element("iframe", {}, map["id" := id, "src" := src])
  }

  /** `videoDiv` is a new `div.ModalLight-videoDiv` whose only child is `frame`. */
  predicate VideoDivHolds(before: Tree, after: Tree, videoDiv: NodeId, frame: NodeId)
  {
    && videoDiv !in before.elements && videoDiv in after.elements
    && after.elements[videoDiv] == Element("div", {VideoDivClass}, map[])
    && videoDiv in after.children && after.children[videoDiv] == [frame]
  }

  /** `kids` is `kids0` with one more node at the end. */
  predicate AppendedOne(kids0: seq<NodeId>, kids: seq<NodeId>)
  {
    |kids| == |kids0| + 1 && kids[..|kids0|] == kids0
  }

  /** Builds the nodes of a Vimeo embed (see VimeoNodes). */
  method BuildVimeoNodes(t: Tree, el: NodeId, id: string, src: string) returns (r: (Tree, NodeId, NodeId))
    requires t.Valid() && el in t.elements
    ensures VimeoNodes(t, r.0, el, r.1, r.2, id, src)
  {
    var c := CreateElement(t, "div", Some(ContainerClass), el);
    var v := CreateElement(c.0, "div", Some(VideoDivClass), c.1);
    AddedUnderTrans(t, c.0, v.0, el, c.1);
    var frame := Element("iframe", {}, map["id" := id, "src" := src]);
    var f := AppendElement(v.0, frame, v.1);
    AppendAddsUnder(v.0, frame, v.1);
    AddedUnderTrans(t, v.0, f.0, el, v.1);
    r := (f.0, c.1, f.1);
  }

  /**
   * What the YouTube path reads and writes besides the document: the
   * script tags, the globals `YT`, `onYouTubeIframeAPIReady` and
   * `onPlayerReady`, the players, and `this.videoPlayer`.
   */
  datatype YoutubeGlobals = YoutubeGlobals(
    scripts: seq<string>,
    ytLoaded: bool,
    apiReadyCallback: Option<PendingPlayer>,
    readyHandler: Option<bool>,
    players: seq<Player>,
    videoPlayer: Option<nat>)

  /**
   * `setPlayer`: a player on `placeholder` with the `onPlayerReady` of the
   * moment, which becomes `this.videoPlayer`; without `YT` or without
   * `onPlayerReady` it throws ReferenceError and changes nothing.
   */
  function NewPlayer(g: YoutubeGlobals, placeholder: NodeId, videoId: string): (r: (Result<(), Fault>, YoutubeGlobals))
    ensures r.0.Err? <==> !(g.ytLoaded && g.readyHandler.Some?)
    ensures r.0.Err? ==> r.0 == Err(ReferenceError) && r.1 == g
    ensures r.0.Ok? ==>
      && r.1.scripts == g.scripts && r.1.ytLoaded && r.1.apiReadyCallback == g.apiReadyCallback && r.1.readyHandler == g.readyHandler
      && |r.1.players| == |g.players| + 1 && r.1.players[..|g.players|] == g.players
      && r.1.videoPlayer == Some(|g.players|) && r.1.players[|g.players|] == Player(placeholder, videoId, g.readyHandler.value, [])
  {
    if !g.ytLoaded || g.readyHandler.None? then (Err(ReferenceError), g)
    else (Ok(()), g.(players := g.players + [Player(placeholder, videoId, g.readyHandler.value, [])], videoPlayer := Some(|g.players|)))
  }

  /**
   * Steps 2 to 4 of `createYoutubeEmbed` once the placeholder exists. With
   * the API script absent it is inserted first (throwing TypeError when the
   * page has no script to insert it before) and the player is deferred to
   * `onYouTubeIframeAPIReady`; with it present the player is created at
   * once. On success `onPlayerReady` is then set to play exactly when
   * autoplay is "true". An error leaves everything as it was.
   */
  function EmbedYoutube(g: YoutubeGlobals, placeholder: NodeId, videoId: string, autoplay: Option<string>): (r: (Result<(), Fault>, YoutubeGlobals))
    ensures r.0.Err? ==> r.1 == g
    ensures r.0 == Err(TypeError) <==> IframeApiUrl !in g.scripts && g.scripts == []
    ensures r.0 == Err(ReferenceError) <==> IframeApiUrl in g.scripts && !(g.ytLoaded && g.readyHandler.Some?)
    ensures r.0.Ok? ==> IframeApiUrl in r.1.scripts && r.1.ytLoaded == g.ytLoaded && r.1.readyHandler == Some(AutoplayRequested(autoplay))
    ensures r.0.Ok? && IframeApiUrl !in g.scripts ==>
      && r.1.scripts == [IframeApiUrl] + g.scripts && r.1.apiReadyCallback == Some(PendingPlayer(placeholder, videoId))
      && r.1.players == g.players && r.1.videoPlayer == g.videoPlayer
    ensures r.0.Ok? && IframeApiUrl in g.scripts ==>
      && r.1.scripts == g.scripts && r.1.apiReadyCallback == g.apiReadyCallback
      && r.1.players == g.players + [Player(placeholder, videoId, g.readyHandler.value, [])] && r.1.videoPlayer == Some(|g.players|)
  {
    if IframeApiUrl !in g.scripts then
      if g.scripts == [] then (Err(TypeError), g)
      else (Ok(()), g.(scripts := [IframeApiUrl] + g.scripts,
                       apiReadyCallback := Some(PendingPlayer(placeholder, videoId)),
                       readyHandler := Some(AutoplayRequested(autoplay))))
    else
      var created := NewPlayer(g, placeholder, videoId);
      if created.0.Err? then created
      else (Ok(()), created.1.(readyHandler := Some(AutoplayRequested(autoplay))))
  }

  /** After one embed succeeded, a later one never inserts the API script again. */
  lemma ApiScriptInsertedOnce(g: YoutubeGlobals, p1: NodeId, v1: string, a1: Option<string>, p2: NodeId, v2: string, a2: Option<string>)
    requires EmbedYoutube(g, p1, v1, a1).0.Ok?
    ensures EmbedYoutube(EmbedYoutube(g, p1, v1, a1).1, p2, v2, a2).1.scripts == EmbedYoutube(g, p1, v1, a1).1.scripts
  {
    var g1 := EmbedYoutube(g, p1, v1, a1).1;
    assert IframeApiUrl in g1.scripts;
  }

  /**
   * A player created at once is given the `onPlayerReady` of the previous
   * embed: after an embed with autoplay `a1`, the next one (with the API
   * loaded) plays on ready exactly when `a1` is "true", whatever its own
   * autoplay says.
   */
  lemma NextPlayerUsesPreviousAutoplay(g: YoutubeGlobals, p1: NodeId, v1: string, a1: Option<string>, p2: NodeId, v2: string, a2: Option<string>)
    requires EmbedYoutube(g, p1, v1, a1).0.Ok?
    requires var g1 := EmbedYoutube(g, p1, v1, a1).1; EmbedYoutube(g1.(ytLoaded := true), p2, v2, a2).0.Ok?
    ensures var g1 := EmbedYoutube(g, p1, v1, a1).1;
      var g2 := EmbedYoutube(g1.(ytLoaded := true), p2, v2, a2).1;
      g2.videoPlayer == Some(|g1.players|) && g2.players[|g1.players|].playsWhenReady == AutoplayRequested(a1)
  {
  }

  /**
   * The IFrame API has loaded: `YT` exists, and the API calls
   * `onYouTubeIframeAPIReady` when one is assigned, creating the deferred
   * player with the `onPlayerReady` of that moment. That call cannot throw:
   * the handler was assigned when the player was deferred.
   */
  function ApiLoaded(g: YoutubeGlobals): (r: YoutubeGlobals)
    requires g.apiReadyCallback.Some? ==> g.readyHandler.Some?
    ensures r.ytLoaded && r.scripts == g.scripts && r.apiReadyCallback == g.apiReadyCallback && r.readyHandler == g.readyHandler
    ensures g.apiReadyCallback.None? ==> r.players == g.players && r.videoPlayer == g.videoPlayer
    ensures g.apiReadyCallback.Some? ==>
      && r.players == g.players + [Player(g.apiReadyCallback.value.placeholder, g.apiReadyCallback.value.videoId, g.readyHandler.value, [])]
      && r.videoPlayer == Some(|g.players|)
  {
    var loaded := g.(ytLoaded := true);
    if g.apiReadyCallback.Some? then NewPlayer(loaded, g.apiReadyCallback.value.placeholder, g.apiReadyCallback.value.videoId).1
    else loaded
  }

  /**
   * A deferred player plays on ready exactly as its own link asked, when
   * the API loads before any other embed.
   */
  lemma DeferredPlayerUsesOwnAutoplay(g: YoutubeGlobals, p: NodeId, v: string, a: Option<string>)
    requires IframeApiUrl !in g.scripts && g.scripts != []
    ensures var g1 := EmbedYoutube(g, p, v, a).1;
      ApiLoaded(g1).players == g.players + [Player(p, v, AutoplayRequested(a), [])]
  {
  }

  /** The YouTube player `p` after `stopVideo()` and `destroy()`. */
  function Stopped(players: seq<Player>, p: nat): (r: seq<Player>)
    requires p < |players|
    ensures |r| == |players| && r[p].calls == players[p].calls + [StopVideo, DestroyVideo]
    ensures forall i :: 0 <= i < |r| && i != p ==> r[i] == players[i]
    ensures r[p].placeholder == players[p].placeholder
  {
    players[p := players[p].(calls := players[p].calls + [StopVideo, DestroyVideo])]
  }

  /** The oEmbed requests a click on `url` sends: none, one, or two when the first yields an id. */
  function Lookups(url: string, first: OembedReply): (r: seq<string>)
    ensures !IsVimeoHost(url) ==> r == []
    ensures IsVimeoHost(url) ==> |r| in {1, 2} && forall i :: 0 <= i < |r| ==> r[i] == OembedEndpoint + url
    ensures |r| == 2 <==> VimeoVideoId(url, first).Ok? && VimeoVideoId(url, first).value.Some?
  {
    if !IsVimeoHost(url) then []
    else if VimeoVideoId(url, first).Ok? && VimeoVideoId(url, first).value.Some? then [OembedEndpoint + url, OembedEndpoint + url]
    else [OembedEndpoint + url]
  }

  /**
   * The Vimeo branch of a click runs `isVimeoVideo` once and, when that
   * yields an id, once more for the id it embeds: the embed is made when
   * the first lookup yields an id and the second completes.
   */
  predicate VimeoEmbedded(url: string, first: OembedReply, second: OembedReply)
  {
    VimeoVideoId(url, first).Ok? && VimeoVideoId(url, first).value.Some? && VimeoVideoId(url, second).Ok?
  }

  /** How the Vimeo branch ends: a lookup that cannot complete throws. */
  function VimeoOutcome(url: string, first: OembedReply, second: OembedReply): (r: Result<(), Fault>)
    ensures r.Err? ==> r == Err(NetworkError) && IsVimeoHost(url)
    ensures r.Ok? <==> VimeoVideoId(url, first) == Ok(None) || VimeoEmbedded(url, first, second)
  {
    match VimeoVideoId(url, first)
    case Err(e) => Err(e)
    case Ok(id) =>
      if id.None? then Ok(())
      else if VimeoVideoId(url, second).Err? then Err(VimeoVideoId(url, second).error) else Ok(())
  }

  /** A YouTube link ends the Vimeo branch at once: no request, no embed. */
  lemma YoutubeLinkSkipsVimeo(url: string, first: OembedReply, second: OembedReply)
    requires YoutubeVideoId(url).Some?
    ensures Lookups(url, first) == [] && VimeoOutcome(url, first, second) == Ok(()) && !VimeoEmbedded(url, first, second)
  {
    YoutubeLinkNotLookedUp(url, first);
    if IsVimeoHost(url) {
      VimeoIsNotYoutube(url);
    }
  }

  /** `handleEvent`'s result for a video branch that ended with `r`. */
  function Completed(r: Result<(), Fault>): (c: Result<Completion, Fault>)
    ensures c.Ok? <==> r.Ok?
    ensures c.Ok? ==> c.value == ReturnedNothing
    ensures c.Err? ==> c.error == r.error
  {
    if r.Ok? then Ok(ReturnedNothing) else Err(r.error)
  }

  class Controller {
    /** The window and document the widget runs in. */
    const page: Page
    /** `this.options`. */
    var options: Objects.Value
    /** `this.triggerClass`. */
    var triggerClass: Option<string>
    /** `this.triggers`: the anchors `init` found. */
    var triggers: seq<NodeId>
    /** The triggers that have the widget as their click listener. */
    var listening: set<NodeId>
    /** `this.modal`: the overlay last opened. */
    var modal: Option<NodeId>
    /** `this.closer`: the closer last created. */
    var closer: Option<NodeId>
    /** Every closer that has the widget's click listener. */
    var closers: set<NodeId>
    /** `this.videoPlayer`: the YouTube player last created. */
    var videoPlayer: Option<nat>
    /** `this.vimeoPlayer`: the handle of the Vimeo player last ready (`undefined` and `false` are both None). */
    var vimeoPlayer: Option<VimeoEmbed>
    /** The pending `setTimeout` tasks, in the order they were set. */
    var timers: seq<Timer>

    /**
     * The page is well formed, the widget's nodes are in it, and a pending
     * task, a closer or a held player implies what it relies on.
     */
    predicate Valid()
      reads this, page, page.messageListeners
    {
      && page.Valid()
      && (forall t :: t in triggers ==> t in page.tree.elements)
      && (modal.Some? ==> modal.value in page.tree.elements)
      && (closers != {} ==> modal.Some?)
      && (timers != [] ==> modal.Some?)
      && (forall i :: 0 <= i < |timers| ==> timers[i] in {Timer(0, AddVisible), Timer(CloseDelay, RemoveOverlay)})
      && (videoPlayer.Some? ==> videoPlayer.value < |page.players|)
      && (vimeoPlayer.Some? ==> vimeoPlayer.value in page.messageListeners && vimeoPlayer.value.playerOrigin != AnyOrigin)
    }

    /** The page's YouTube globals together with `this.videoPlayer`. */
    function Globals(): YoutubeGlobals
      reads this, page
    {
      YoutubeGlobals(page.scripts, page.ytLoaded, page.apiReadyCallback, page.readyHandler, page.players, videoPlayer)
    }

    /** `Object.create(buildObj)`: every field still undefined. */
    constructor(page: Page)
      requires page.Valid()
      ensures Valid() && this.page == page
      ensures options == Objects.Undefined && triggerClass == None && triggers == [] && listening == {}
      ensures modal == None && closer == None && closers == {}
      ensures videoPlayer == None && vimeoPlayer == None && timers == []
    {
      this.page := page;
      options := Objects.Undefined;
      triggerClass := None;
      triggers := [];
      listening := {};
      modal := None;
      closer := None;
      closers := {};
      videoPlayer := None;
      vimeoPlayer := None;
      timers := [];
    }

    /**
     * `init(element)`: throws when no selector is given; otherwise keeps
     * the selector and the anchors it matches, and when there are any,
     * makes the widget the click listener of each and returns the handle
     * (`r == Ok(true)`); with none it returns nothing (`r == Ok(false)`).
     */
    method Init(element: Option<string>, matches: seq<NodeId>) returns (r: Result<bool, Fault>)
      requires Valid() && forall m :: m in matches ==> m in page.tree.elements
      modifies this`triggerClass, this`triggers, this`listening
      ensures Valid()
      ensures element.None? ==> && r == Err(ThrownError(SelectorMissing)) && triggerClass == old(triggerClass)
                                && triggers == old(triggers) && listening == old(listening)
      ensures element.Some? ==> r == Ok(matches != []) && triggerClass == element && triggers == matches
      ensures element.Some? ==> listening == if matches == [] then old(listening) else old(listening) + Elements(matches)
    {
      if element.None? {
        return Err(ThrownError(SelectorMissing));
      }
      triggerClass := element;
      triggers := matches;
      if |triggers| == 0 {
        return Ok(false);
      }
      var _, added, calls := ForEachNode(triggers, AddListener, listening);
      AddedAll(triggers, old(listening), calls);
      listening := added;
      return Ok(true);
    }

    /**
     * `destroy()`: every current trigger stops listening, so none listens
     * afterwards unless an earlier `init` left listeners on other anchors.
     */
    method Destroy()
      requires Valid()
      modifies this`listening
      ensures Valid()
      ensures listening == old(listening) - Elements(triggers)
      ensures old(listening) <= Elements(triggers) ==> listening == {}
    {
      var _, removed, calls := ForEachNode(triggers, RemoveListener, listening);
      RemovedAll(triggers, listening, calls);
      listening := removed;
    }

    /** Puts the document `t` in place; it keeps every element the page had. */
    method SetTree(t: Tree)
      requires Valid() && t.Valid() && forall n :: n in page.tree.elements ==> n in t.elements
      modifies page`tree
      ensures Valid() && page.tree == t
    {
      page.tree := t;
    }

    /**
     * A pending timer fires. `AddVisible` shows the overlay and
     * `RemoveOverlay` detaches it from the body; both act on the overlay
     * `this.modal` names when the timer fires, and a removal that finds no
     * such child throws NotFoundError and changes nothing.
     */
    method RunTimer(i: nat) returns (r: Result<(), Fault>)
      requires Valid() && MayFire(timers, i)
      modifies this`timers, page`tree
      ensures Valid()
      ensures timers == old(timers[..i] + timers[i + 1..]) && modal == old(modal) && modal.Some?
      ensures old(timers[i].task) == AddVisible ==> r == Ok(()) && page.tree == SetClass(old(page.tree), modal.value, VisibleClass, true)
      ensures old(timers[i].task) == RemoveOverlay ==>
        match RemoveChild(old(page.tree), page.body, modal.value)
        case Ok(t) => r == Ok(()) && page.tree == t
        case Err(e) => r == Err(e) && page.tree == old(page.tree)
    {
      var timer := timers[i];
      timers := timers[..i] + timers[i + 1..];
      var overlay := modal.value;
      match timer.task
      case AddVisible =>
        page.tree := SetClass(page.tree, overlay, VisibleClass, true);
        r := Ok(());
      case RemoveOverlay =>
        var removed := RemoveChild(page.tree, page.body, overlay);
        if removed.Ok? {
          page.tree := removed.value;
          r := Ok(());
        } else {
          r := Err(removed.error);
        }
    }
    /**
     * The opening half of `handleEvent`: the overlay (see BuildOverlay) goes
     * in as the last child of the body, the closer gets the widget's click
     * listener, and showing the overlay is deferred with a zero delay.
     */
    method OpenModal() returns (inner: NodeId)
      requires Valid()
      modifies this`modal, this`closer, this`closers, this`timers, page`tree
      ensures Valid() && modal.Some? && closer.Some? && Globals() == old(Globals())
      ensures Opened(old(page.tree), page.tree, page.body, modal.value, inner, closer.value)
      ensures closers == old(closers) + {closer.value} && timers == old(timers) + [Timer(0, AddVisible)]
      ensures Overlaid(old(page.tree), page.tree, page.body, modal, closer, old(closers), closers, old(timers), timers)
      ensures inner == InnerOf(page.tree, modal)
    {
      var built := BuildOverlay(page.tree, page.body);
      ShowOverlay(built.0, built.1, built.3);
      inner := built.2;
    }

    /** Puts the document with a new overlay in place and records the overlay, its closer and the deferred show. */
    method ShowOverlay(t: Tree, overlay: NodeId, c: NodeId)
      requires Valid() && t.Valid() && (forall n :: n in page.tree.elements ==> n in t.elements) && overlay in t.elements
      modifies page`tree, this`modal, this`closer, this`closers, this`timers
      ensures Valid() && page.tree == t && modal == Some(overlay) && closer == Some(c)
      ensures closers == old(closers) + {c} && timers == old(timers) + [Timer(0, AddVisible)]
    {
      page.tree := t;
      modal := Some(overlay);
      closer := Some(c);
      timers := timers + [Timer(0, AddVisible)];
      closers := closers + {c};
    }

    /**
     * The closure `setPlayer`: a `YT.Player` on the placeholder, given the
     * `onPlayerReady` assigned at that moment, kept as `this.videoPlayer`.
     * Without the global `YT`, or with `onPlayerReady` never assigned, the
     * call throws ReferenceError and nothing changes.
     */
    method SetPlayer(placeholder: NodeId, videoId: string) returns (r: Result<(), Fault>)
      requires Valid() && placeholder in page.tree.elements
      modifies this`videoPlayer, page`players
      ensures Valid() && (r, Globals()) == NewPlayer(old(Globals()), placeholder, videoId)
    {
      if !page.ytLoaded || page.readyHandler.None? {
        return Err(ReferenceError);
      }
      page.players := page.players + [Player(placeholder, videoId, page.readyHandler.value, [])];
      videoPlayer := Some(|page.players| - 1);
      r := Ok(());
    }

    /**
     * `createYoutubeEmbed(el, videoId, autoplay)`: a container and a
     * placeholder with a random id go under `el` (see YoutubeNodes), then
     * the API script and the player are dealt with (see EmbedYoutube).
     */
    method CreateYoutubeEmbed(el: NodeId, videoId: string, autoplay: Option<string>, r1: nat, r2: nat)
      returns (r: Result<(), Fault>, container: NodeId, videoDiv: NodeId)
      requires Valid() && el in page.tree.elements
      modifies this`videoPlayer, page`tree, page`scripts, page`apiReadyCallback, page`readyHandler, page`players
      ensures Valid()
      ensures YoutubeNodes(old(page.tree), page.tree, el, container, videoDiv, VideoElementId(r1, r2))
      ensures (r, Globals()) == EmbedYoutube(old(Globals()), videoDiv, videoId, autoplay)
    {
      var built := BuildYoutubeNodes(page.tree, el, VideoElementId(r1, r2));
      SetTree(built.0);
      container, videoDiv := built.1, built.2;
      r := LoadPlayer(videoDiv, videoId, autoplay);
    }

    /** The scan of step 2 of `createYoutubeEmbed`: some script tag loads the IFrame API. */
    method HasApiScript() returns (present: bool)
      ensures present <==> IframeApiUrl in page.scripts
    {
      var _, found, calls := ForEachNode(page.scripts, NoteApiScript, false);
      assert calls == |page.scripts| && page.scripts[..calls] == page.scripts;
      ScanFinds(page.scripts, calls);
      present := found;
    }

    /** Steps 2 to 4 of `createYoutubeEmbed`. */
    method LoadPlayer(placeholder: NodeId, videoId: string, autoplay: Option<string>) returns (r: Result<(), Fault>)
      requires Valid() && placeholder in page.tree.elements
      modifies this`videoPlayer, page`scripts, page`apiReadyCallback, page`readyHandler, page`players
      ensures Valid() && (r, Globals()) == EmbedYoutube(old(Globals()), placeholder, videoId, autoplay)
    {
      var present := HasApiScript();
      if !present {
        if page.scripts == [] {
          return Err(TypeError);
        }
        DeferPlayer(placeholder, videoId, autoplay);
      } else {
        r := SetPlayer(placeholder, videoId);
        if r.Err? {
          return;
        }
        SetReadyHandler(autoplay);
      }
      r := Ok(());
    }

    /**
     * The API script goes in before the first script, the player waits for
     * `onYouTubeIframeAPIReady`, and `onPlayerReady` follows `autoplay`.
     */
    method DeferPlayer(placeholder: NodeId, videoId: string, autoplay: Option<string>)
      requires Valid() && placeholder in page.tree.elements
      modifies page`scripts, page`apiReadyCallback, page`readyHandler
      ensures Valid()
      ensures Globals() == old(Globals()).(scripts := [IframeApiUrl] + old(page.scripts),
                                           apiReadyCallback := Some(PendingPlayer(placeholder, videoId)),
                                           readyHandler := Some(AutoplayRequested(autoplay)))
    {
      page.scripts := [IframeApiUrl] + page.scripts;
      page.apiReadyCallback := Some(PendingPlayer(placeholder, videoId));
      page.readyHandler := Some(AutoplayRequested(autoplay));
    }

    /** `window.onPlayerReady` becomes a handler that plays exactly when autoplay is "true". */
    method SetReadyHandler(autoplay: Option<string>)
      requires Valid()
      modifies page`readyHandler
      ensures Valid() && Globals() == old(Globals()).(readyHandler := Some(AutoplayRequested(autoplay)))
    {
      page.readyHandler := Some(AutoplayRequested(autoplay));
    }

    /** The IFrame API script has run (see ApiLoaded). */
    method YoutubeApiReady()
      requires Valid() && !page.ytLoaded
      modifies this`videoPlayer, page`ytLoaded, page`players
      ensures Valid() && Globals() == ApiLoaded(old(Globals()))
    {
      page.ytLoaded := true;
      if page.apiReadyCallback.Some? {
        var pending := page.apiReadyCallback.value;
        var created := SetPlayer(pending.placeholder, pending.videoId);
      }
    }

    /**
     * `isVimeoVideo(url)`: for a link to the Vimeo host, one synchronous
     * oEmbed request whose outcome is `reply`; the id it yields is the one
     * VimeoVideoId describes.
     */
    method IsVimeoVideo(url: string, reply: OembedReply) returns (r: Result<Option<int>, Fault>)
      modifies page`requests
      ensures old(Valid()) ==> Valid()
      ensures r == VimeoVideoId(url, reply)
      ensures page.requests == old(page.requests) + if IsVimeoHost(url) then [OembedEndpoint + url] else []
    {
      if !IsVimeoHost(url) {
        return Ok(None);
      }
      var id: Option<int> := None;
      page.requests := page.requests + [OembedEndpoint + url];
      match reply
      case Unreachable =>
        return Err(NetworkError);
      case Response(status, body) =>
        if 200 <= status < 400 {
          match body
          case Malformed =>
          case Json(videoId) =>
            if videoId.Some? && videoId.value != 0 {
              id := videoId;
            }
        }
      r := Ok(id);
    }

    /**
     * `createVimeoEmbed(el, videoId, autoplay)`: a container and a video div
     * under `el`, and in it the player frame whose `src` carries the video
     * id and the random player id; the new embed starts listening for the
     * window's messages.
     */
    method CreateVimeoEmbed(el: NodeId, overlay: NodeId, videoId: Option<int>, autoplay: Option<string>, r1: nat, r2: nat)
      returns (container: NodeId, embed: VimeoEmbed)
      requires Valid() && el in page.tree.elements && overlay in page.tree.elements
      modifies page`tree, page`messageListeners
      ensures Valid() && fresh(embed) && Globals() == old(Globals())
      ensures VimeoNodes(old(page.tree), page.tree, el, container, embed.frame, VideoElementId(r1, r2), FrameSource(videoId, VideoElementId(r1, r2)))
      ensures embed.overlay == overlay && embed.autoplay == autoplay && embed.playerOrigin == AnyOrigin && embed.outbox == []
      ensures page.messageListeners == old(page.messageListeners) + {embed}
    {
      var playerId := VideoElementId(r1, r2);
      var built := BuildVimeoNodes(page.tree, el, playerId, FrameSource(videoId, playerId));
      container := built.1;
      embed := new VimeoEmbed(overlay, built.2, autoplay);
      Listen(built.0, embed);
    }

    /** Puts the document with a new frame in place and adds the frame's embed to the window's message listeners. */
    method Listen(t: Tree, embed: VimeoEmbed)
      requires Valid() && t.Valid() && (forall n :: n in page.tree.elements ==> n in t.elements)
      requires embed.Valid() && embed.overlay in t.elements
      modifies page`tree, page`messageListeners
      ensures Valid() && page.tree == t && page.messageListeners == old(page.messageListeners) + {embed}
    {
      page.tree := t;
      page.messageListeners := page.messageListeners + {embed};
    }
    /**
     * `closeModal`: hides the current overlay (`this.modal`, whichever
     * closer was clicked), stops and destroys the YouTube player last
     * created (the handle is never cleared, so every later close repeats
     * the calls), destroys the Vimeo player that reported ready by posting
     * `pause` to its frame and dropping its message listener, and defers the
     * overlay's removal by a second. A Vimeo frame that has left the page
     * makes the post throw, and the rest is skipped.
     */
    method CloseModal(c: NodeId) returns (r: Result<(), Fault>)
      requires Valid() && c in closers
      modifies this`vimeoPlayer, this`timers, page`tree, page`players, page`messageListeners
      modifies if vimeoPlayer.Some? then {vimeoPlayer.value} else {}
      ensures Valid() && modal == old(modal) && modal.Some?
      ensures old(vimeoPlayer).Some? ==> old(vimeoPlayer).value.playerOrigin == old(vimeoPlayer.value.playerOrigin)
      ensures page.tree == SetClass(old(page.tree), modal.value, VisibleClass, false)
      ensures page.players == if old(videoPlayer).Some? then Stopped(old(page.players), old(videoPlayer).value) else old(page.players)
      ensures old(vimeoPlayer).None? ==>
        && r == Ok(()) && vimeoPlayer == None && page.messageListeners == old(page.messageListeners)
        && timers == old(timers) + [Timer(CloseDelay, RemoveOverlay)]
      ensures old(vimeoPlayer).Some? && old(page.Attached(vimeoPlayer.value.overlay)) ==>
        && r == Ok(()) && vimeoPlayer == None && page.messageListeners == old(page.messageListeners) - {old(vimeoPlayer).value}
        && old(vimeoPlayer).value.outbox == old(vimeoPlayer.value.outbox) + [Posted(Command("pause", None), old(vimeoPlayer.value.playerOrigin))]
        && timers == old(timers) + [Timer(CloseDelay, RemoveOverlay)]
      ensures old(vimeoPlayer).Some? && !old(page.Attached(vimeoPlayer.value.overlay)) ==>
        && r == Err(TypeError) && vimeoPlayer == old(vimeoPlayer) && page.messageListeners == old(page.messageListeners)
        && old(vimeoPlayer).value.outbox == old(vimeoPlayer.value.outbox) && timers == old(timers)
    {
      Hide();
      if videoPlayer.Some? {
        StopPlayer();
      }
      if vimeoPlayer.Some? {
        r := DestroyVimeo(vimeoPlayer.value);
        if r.Err? {
          return;
        }
      }
      ScheduleRemoval();
      r := Ok(());
    }

    /** The overlay's removal, deferred by a second. */
    method ScheduleRemoval()
      requires Valid() && modal.Some?
      modifies this`timers
      ensures Valid() && timers == old(timers) + [Timer(CloseDelay, RemoveOverlay)]
    {
      timers := timers + [Timer(CloseDelay, RemoveOverlay)];
    }

    /** `this.modal.classList.remove('is-visible')`. */
    method Hide()
      requires Valid() && modal.Some?
      modifies page`tree
      ensures Valid() && page.tree == SetClass(old(page.tree), modal.value, VisibleClass, false)
    {
      page.tree := SetClass(page.tree, modal.value, VisibleClass, false);
    }

    /** `stopVideo()` and `destroy()` on `this.videoPlayer`. */
    method StopPlayer()
      requires Valid() && videoPlayer.Some?
      modifies page`players
      ensures Valid() && page.players == Stopped(old(page.players), videoPlayer.value)
    {
      page.players := Stopped(page.players, videoPlayer.value);
    }

    /** The `destroy` of the Vimeo handle: `post('pause')`, then the listener goes and the handle becomes `false`. */
    method DestroyVimeo(e: VimeoEmbed) returns (r: Result<(), Fault>)
      requires Valid() && vimeoPlayer == Some(e)
      modifies e, this`vimeoPlayer, page`messageListeners
      ensures Valid() && e.playerOrigin == old(e.playerOrigin)
      ensures old(page.Attached(e.overlay)) ==>
        && r == Ok(()) && e.outbox == old(e.outbox) + [Posted(Command("pause", None), e.playerOrigin)]
        && vimeoPlayer == None && page.messageListeners == old(page.messageListeners) - {e}
      ensures !old(page.Attached(e.overlay)) ==>
        && r == Err(TypeError) && e.outbox == old(e.outbox)
        && vimeoPlayer == old(vimeoPlayer) && page.messageListeners == old(page.messageListeners)
    {
      r := e.Post(page.Attached(e.overlay), "pause", None);
      if r.Ok? {
        page.messageListeners := page.messageListeners - {e};
        vimeoPlayer := None;
      }
    }

    /**
     * A message event reaches the listener of embed `e`; when the embed
     * completes its ready branch, it becomes `this.vimeoPlayer`.
     */
    method VimeoMessage(e: VimeoEmbed, origin: string, data: MessageData) returns (r: Result<(), Fault>)
      requires Valid() && e in page.messageListeners
      modifies this`vimeoPlayer, e
      ensures Valid()
      ensures var ready := IsVimeoPlayerOrigin(origin) && data == Parsed(Some("ready"));
        && (r.Err? <==> IsVimeoPlayerOrigin(origin) && (data.Unparsable? || (ready && !page.Attached(e.overlay))))
        && vimeoPlayer == (if ready && page.Attached(e.overlay) then Some(e) else old(vimeoPlayer))
        && e.outbox == (if ready && page.Attached(e.overlay) then old(e.outbox) + Addressed(ReadyCommands(e.autoplay), e.playerOrigin) else old(e.outbox))
      ensures IsVimeoPlayerOrigin(origin) ==> e.playerOrigin == (if old(e.playerOrigin) == AnyOrigin then origin else old(e.playerOrigin))
      ensures !IsVimeoPlayerOrigin(origin) ==> e.playerOrigin == old(e.playerOrigin) && e.outbox == old(e.outbox)
    {
      var handled := e.OnMessageReceived(page.Attached(e.overlay), origin, data);
      if handled.Err? {
        return Err(handled.error);
      }
      if handled.value {
        vimeoPlayer := Some(e);
      }
      r := Ok(());
    }
    /**
     * `handleEvent` for a click on a trigger. The default action is always
     * prevented. An `href` of "#" returns false and changes nothing else.
     * Otherwise the overlay is opened first (see Overlaid); an anchor
     * without `href` then throws TypeError at the YouTube test, and any
     * other link is followed (see Embedded).
     */
    method HandleEvent(e: ClickEvent, r1: nat, r2: nat, first: OembedReply, second: OembedReply) returns (r: Result<Completion, Fault>)
      requires Valid() && e.currentTarget in listening && e.currentTarget in page.tree.elements
      modifies e`defaultPrevented
      modifies this`modal, this`closer, this`closers, this`timers, this`videoPlayer
      modifies page`tree, page`scripts, page`apiReadyCallback, page`readyHandler, page`players, page`requests, page`messageListeners
      ensures Valid() && e.defaultPrevented
      ensures var href := GetAttribute(old(page.tree), e.currentTarget, "href");
        href == Some("#") ==>
          && r == Ok(ReturnedFalse) && page.tree == old(page.tree) && modal == old(modal) && closer == old(closer) && closers == old(closers)
          && timers == old(timers) && Globals() == old(Globals()) && page.requests == old(page.requests)
          && page.messageListeners == old(page.messageListeners)
      ensures GetAttribute(old(page.tree), e.currentTarget, "href") != Some("#") ==>
        Overlaid(old(page.tree), page.tree, page.body, modal, closer, old(closers), closers, old(timers), timers)
      ensures GetAttribute(old(page.tree), e.currentTarget, "href").None? ==>
        && r == Err(TypeError) && Globals() == old(Globals()) && page.requests == old(page.requests)
        && page.messageListeners == old(page.messageListeners)
        && InnerOf(page.tree, modal) in page.tree.children && page.tree.children[InnerOf(page.tree, modal)] == []
      ensures var href := GetAttribute(old(page.tree), e.currentTarget, "href");
        href.Some? && href != Some("#") ==>
          Embedded(old(page.tree.elements.Keys), old(Globals()), old(page.requests), old(page.messageListeners),
                   InnerOf(page.tree, modal), [], href.value, GetAttribute(old(page.tree), e.currentTarget, "data-autoplay"),
                   r1, r2, first, second, r)
    {
      e.PreventDefault();
      var href := GetAttribute(page.tree, e.currentTarget, "href");
      var autoplay := GetAttribute(page.tree, e.currentTarget, "data-autoplay");
      if href == Some("#") {
        return Ok(ReturnedFalse);
      }
      if href.None? {
        var inner := OpenModal();
        return Err(TypeError);
      }
      r := FollowLink(href.value, autoplay, r1, r2, first, second);
    }

    /** `handleEvent` for a link: opens the overlay, then embeds the video the link names. */
    method FollowLink(url: string, autoplay: Option<string>, r1: nat, r2: nat, first: OembedReply, second: OembedReply)
      returns (r: Result<Completion, Fault>)
      requires Valid()
      modifies this`modal, this`closer, this`closers, this`timers, this`videoPlayer
      modifies page`tree, page`scripts, page`apiReadyCallback, page`readyHandler, page`players, page`requests, page`messageListeners
      ensures Valid()
      ensures Overlaid(old(page.tree), page.tree, page.body, modal, closer, old(closers), closers, old(timers), timers)
      ensures Embedded(old(page.tree.elements.Keys), old(Globals()), old(page.requests), old(page.messageListeners),
                       InnerOf(page.tree, modal), [], url, autoplay, r1, r2, first, second, r)
    {
      ghost var tree0, g0, requests0, listeners0 := page.tree, Globals(), page.requests, page.messageListeners;
      var inner := OpenModal();
      ghost var tree1 := page.tree;
      r := EmbedVideo(inner, url, autoplay, r1, r2, first, second);
      EmbeddedFromEarlier(tree0.elements.Keys, tree1.elements.Keys, g0, requests0, listeners0, inner, [], url, autoplay, r1, r2, first, second, r);
      OverlaidKept(tree0, tree1, page.tree, page.body, inner, modal, closer, old(closers), closers, old(timers), timers);
    }

    /**
     * What embedding the video `url` names does, against the nodes `nodes0`,
     * YouTube globals, requests and listeners before: a YouTube link creates
     * a player on a new element (see EmbedYoutube) and sends no oEmbed
     * request; any other link goes through the Vimeo branch (see Lookups,
     * VimeoOutcome, VimeoEmbedded), which embeds a frame in the current overlay.
     */
    ghost predicate Embedded(nodes0: set<NodeId>, g0: YoutubeGlobals, requests0: seq<string>, listeners0: set<VimeoEmbed>,
                             inner: NodeId, kids0: seq<NodeId>, url: string, autoplay: Option<string>, r1: nat, r2: nat,
                             first: OembedReply, second: OembedReply, r: Result<Completion, Fault>)
      reads this, page, page.messageListeners
    {
      && modal.Some? && inner in page.tree.children
      && page.requests == requests0 + Lookups(url, first)
      && (YoutubeVideoId(url).Some? ==>
            && page.messageListeners == listeners0
            && exists c, p :: YoutubeEmbeddedAt(nodes0, kids0, g0, inner, YoutubeVideoId(url).value, autoplay, r1, r2, r, c, p))
      && (YoutubeVideoId(url).None? ==>
            && Globals() == g0 && r == Completed(VimeoOutcome(url, first, second))
            && (!VimeoEmbedded(url, first, second) ==> page.messageListeners == listeners0 && page.tree.children[inner] == kids0)
            && (VimeoEmbedded(url, first, second) ==>
                  && AppendedOne(kids0, page.tree.children[inner])
                  && (exists e :: e in page.messageListeners
                        && NewVimeoEmbed(e, listeners0, modal.value, autoplay, VimeoVideoId(url, second).value, VideoElementId(r1, r2)))))
    }

    /**
     * The YouTube embed of video `id` is the container `c`, after the earlier
     * children `kids0` of `inner`, and the placeholder `p` in it, and the
     * globals and the result are what EmbedYoutube says for that placeholder.
     */
    predicate YoutubeEmbeddedAt(nodes0: set<NodeId>, kids0: seq<NodeId>, g0: YoutubeGlobals, inner: NodeId, id: string,
                                autoplay: Option<string>, r1: nat, r2: nat, r: Result<Completion, Fault>, c: NodeId, p: NodeId)
      reads this, page
    {
      && YoutubeNodesIn(nodes0, kids0, page.tree, inner, c, p, VideoElementId(r1, r2))
      && Globals() == EmbedYoutube(g0, p, id, autoplay).1
      && r == Completed(EmbedYoutube(g0, p, id, autoplay).0)
    }

    /** An embed whose player element is new against a later document is new against an earlier one. */
    lemma EmbeddedFromEarlier(nodes0: set<NodeId>, nodes1: set<NodeId>, g0: YoutubeGlobals, requests0: seq<string>, listeners0: set<VimeoEmbed>,
                              inner: NodeId, kids0: seq<NodeId>, url: string, autoplay: Option<string>, r1: nat, r2: nat,
                              first: OembedReply, second: OembedReply, r: Result<Completion, Fault>)
      requires nodes0 <= nodes1 && Embedded(nodes1, g0, requests0, listeners0, inner, kids0, url, autoplay, r1, r2, first, second, r)
      ensures Embedded(nodes0, g0, requests0, listeners0, inner, kids0, url, autoplay, r1, r2, first, second, r)
    {
      if YoutubeVideoId(url).Some? {
        var c, p :| YoutubeEmbeddedAt(nodes1, kids0, g0, inner, YoutubeVideoId(url).value, autoplay, r1, r2, r, c, p);
        assert YoutubeEmbeddedAt(nodes0, kids0, g0, inner, YoutubeVideoId(url).value, autoplay, r1, r2, r, c, p);
      }
    }

    /** The embed `e` is the one the Vimeo branch just made in `overlay`, listening besides `before`. */
    predicate NewVimeoEmbed(e: VimeoEmbed, before: set<VimeoEmbed>, overlay: NodeId, autoplay: Option<string>, videoId: Option<int>, playerId: string)
      reads this, page, e
    {
      && e !in before && page.messageListeners == before + {e}
      && e.overlay == overlay && e.autoplay == autoplay && e.playerOrigin == AnyOrigin && e.outbox == []
      && e.frame in page.tree.elements
      && page.tree.elements[e.frame] == Element("iframe", {}, map["id" := playerId, "src" := FrameSource(videoId, playerId)])
    }

    /** The video half of `handleEvent`, once the overlay is open: the YouTube test, then the Vimeo branch. */
    method EmbedVideo(inner: NodeId, url: string, autoplay: Option<string>, r1: nat, r2: nat, first: OembedReply, second: OembedReply)
      returns (r: Result<Completion, Fault>)
      requires Valid() && inner in page.tree.elements && modal.Some?
      modifies this`videoPlayer
      modifies page`tree, page`scripts, page`apiReadyCallback, page`readyHandler, page`players, page`requests, page`messageListeners
      ensures Valid() && AddedUnder(old(page.tree), page.tree, inner)
      ensures YoutubeVideoId(url).None? && !VimeoEmbedded(url, first, second) ==> page.tree == old(page.tree)
      ensures Embedded(old(page.tree.elements.Keys), old(Globals()), old(page.requests), old(page.messageListeners),
                       inner, old(page.tree.children[inner]), url, autoplay, r1, r2, first, second, r)
    {
      var youtubeId := YoutubeVideoId(url);
      var done: Result<(), Fault>;
      if youtubeId.None? {
        done := VimeoBranch(inner, url, autoplay, r1, r2, first, second);
      } else {
        YoutubeLinkSkipsVimeo(url, first, second);
        done := YoutubeBranch(inner, youtubeId.value, url, autoplay, r1, r2, first, second);
        ghost var c, p :| YoutubeEmbeddedAt(old(page.tree.elements.Keys), old(page.tree.children[inner]), old(Globals()), inner, youtubeId.value,
                                            autoplay, r1, r2, Completed(done), c, p);
      }
      r := Completed(done);
    }

    /**
     * The video half of `handleEvent` for a YouTube link: `createYoutubeEmbed`
     * under `inner` and then, unless it threw, the Vimeo test, which is false
     * for such a link and sends no request.
     */
    method YoutubeBranch(inner: NodeId, id: string, url: string, autoplay: Option<string>, r1: nat, r2: nat,
                         first: OembedReply, second: OembedReply) returns (done: Result<(), Fault>)
      requires Valid() && inner in page.tree.elements && modal.Some? && YoutubeVideoId(url) == Some(id)
      modifies this`videoPlayer, page`tree, page`scripts, page`apiReadyCallback, page`readyHandler, page`players, page`requests
      ensures Valid() && AddedUnder(old(page.tree), page.tree, inner)
      ensures page.requests == old(page.requests)
      ensures exists c, p :: YoutubeEmbeddedAt(old(page.tree.elements.Keys), old(page.tree.children[inner]), old(Globals()), inner, id,
                                               autoplay, r1, r2, Completed(done), c, p)
    {
      var container, placeholder;
      done, container, placeholder := CreateYoutubeEmbed(inner, id, autoplay, r1, r2);
      if done.Ok? {
        VimeoTestOfYoutubeLink(url, first);
      }
      assert YoutubeEmbeddedAt(old(page.tree.elements.Keys), old(page.tree.children[inner]), old(Globals()), inner, id, autoplay, r1, r2,
                               Completed(done), container, placeholder);
    }

    /** `isVimeoVideo(url)` for a YouTube link: the host test fails, so it is false and no request is sent. */
    method VimeoTestOfYoutubeLink(url: string, reply: OembedReply)
      requires YoutubeVideoId(url).Some?
      modifies page`requests
      ensures page.requests == old(page.requests)
    {
      if IsVimeoHost(url) {
        VimeoIsNotYoutube(url);
        assert false;
      }
      var vimeoId := IsVimeoVideo(url, reply);
      assert vimeoId == Ok(None);
    }

    /** `isVimeoVideo(url)` and, when it yields an id, a second lookup and `createVimeoEmbed` in the overlay. */
    method VimeoBranch(inner: NodeId, url: string, autoplay: Option<string>, r1: nat, r2: nat, first: OembedReply, second: OembedReply)
      returns (r: Result<(), Fault>)
      requires Valid() && inner in page.tree.elements && modal.Some?
      modifies page`tree, page`requests, page`messageListeners
      ensures Valid() && AddedUnder(old(page.tree), page.tree, inner) && Globals() == old(Globals())
      ensures page.requests == old(page.requests) + Lookups(url, first)
      ensures r == VimeoOutcome(url, first, second)
      ensures !VimeoEmbedded(url, first, second) ==> page.tree == old(page.tree) && page.messageListeners == old(page.messageListeners)
      ensures VimeoEmbedded(url, first, second) ==> AppendedOne(old(page.tree.children[inner]), page.tree.children[inner])
      ensures VimeoEmbedded(url, first, second) ==>
        exists e :: e in page.messageListeners && NewVimeoEmbed(e, old(page.messageListeners), modal.value, autoplay, VimeoVideoId(url, second).value, VideoElementId(r1, r2))
    {
      var vimeoId := IsVimeoVideo(url, first);
      if vimeoId.Err? {
        return Err(vimeoId.error);
      }
      if vimeoId.value.None? {
        return Ok(());
      }
      var again := IsVimeoVideo(url, second);
      if again.Err? {
        return Err(again.error);
      }
      var container, embed := CreateVimeoEmbed(inner, modal.value, again.value, autoplay, r1, r2);
      assert NewVimeoEmbed(embed, old(page.messageListeners), modal.value, autoplay, again.value, VideoElementId(r1, r2));
      r := Ok(());
    }
  }

  /**
   * `modalLight(element, cstOptions)`: merges the user's options over the
   * defaults (a `modalClass` given as an object with keys makes the merge
   * throw), creates a controller holding them and initialises it on the
   * triggers `matches` the selector `element` finds. The result is the
   * controller's `{destroy}` handle when some trigger was found, nothing
   * when none was, or what `init` throws.
   */
  method Setup(page: Page, element: Option<string>, user: Objects.Value, matches: seq<NodeId>)
    returns (r: Result<Option<Controller>, Fault>)
    requires page.Valid() && forall m :: m in matches ==> m in page.tree.elements
    ensures r == Err(TypeError) <==> Options.ObjectModalClass(user)
    ensures !Options.ObjectModalClass(user) && element.None? ==> r == Err(ThrownError(SelectorMissing))
    ensures !Options.ObjectModalClass(user) && element.Some? ==> r.Ok? && (r.value.Some? <==> matches != [])
    ensures r.Ok? && r.value.Some? ==>
      var c := r.value.value;
      && fresh(c) && c.Valid() && c.page == page
      && Objects.Get(c.options, Options.ModalClassKey) == Options.ChosenModalClass(user)
      && c.triggerClass == element && c.triggers == matches && c.listening == Elements(matches)
  {
    var options := Objects.Extend(Options.DefaultOptions, [user]);
    Options.ModalClassOption(user);
    if options.Err? {
      return Err(TypeError);
    }
    var c := new Controller(page);
    c.options := options.value;
    var started := c.Init(element, matches);
    if started.Err? {
      return Err(started.error);
    }
    return Ok(if started.value then Some(c) else None);
  }
}
