# modal-light in Dafny

This project models the core of modal-light (`src/modal-light.js`). That is a browser lightbox widget: it listens for clicks on anchors, opens an overlay for the link, and embeds a YouTube or a Vimeo player in that overlay.

The model covers:

- **Urls** (`urls.dfy`): the URL classifiers, written as hand-coded matchers over strings.
  - `isYoutubeVideo` is specified twice: as the language its pattern accepts (`YoutubePrefix`, `MatchAt`), and as the engine's backtracking order (`IdStart`, `LastAmpV`). Lemmas connect the two.
  - The host test at the start of `isVimeoVideo`.
  - The origin test of the Vimeo message handler.
- **NodeLoop** (`node_loop.dfy`): `forEachNode`, as an index loop with an early exit. The callback's side effects are an explicit state. The callbacks of `init`, `destroy` and the script scan get their own lemmas.
- **Objects** and **Options** (`objects.dfy`, `options.dfy`):
  - `extend` over a model of JavaScript values. A loop method is proved against a recursive specification function, and lemmas cover falsy sources, the last writer, untouched keys, and the array-to-object quirk.
  - The option merge of `modalLight`.
- **Browser** and **Window** (`browser.dfy`, `window.dfy`):
  - The document as a value: elements with classes and attributes, plus ordered child lists.
  - The page as a class: script tags, the YouTube globals, the players, the window's message listeners, and the oEmbed requests sent.
- **VimeoPlayer** (`vimeo_player.dfy`): the state the `createVimeoEmbed` closure keeps, as a class. It holds the captured `playerOrigin` and an outbox of posted commands, and implements `onMessageReceived`, `post` and `onReady`.
- **ModalLight** (`modal_light.dfy`):
  - The controller `Object.create(buildObj)` as a class, with `init`, `destroy`, `handleEvent`, `closeModal`, `createYoutubeEmbed` and `createVimeoEmbed`.
  - The `setTimeout` tasks as an explicit list of pending timers.
  - `modalLight` itself (`Setup`).

Events reach the controller as method calls:

- a click on a trigger (`HandleEvent`);
- a click on a closer (`CloseModal`);
- a timer firing (`RunTimer`);
- the IFrame API finishing its load (`YoutubeApiReady`);
- a message to the window (`VimeoMessage`);
- a YouTube player reporting ready (`Page.PlayerReady`).

The environment enters as parameters:

- The random numbers of the placeholder id (`r1`, `r2`).
- The outcomes of the synchronous oEmbed requests (`first`, `second`).
- The anchors the selector matches (`matches`).
- Whether a Vimeo frame is still in the page (`attached`). A frame whose overlay has left the body has no `contentWindow`.

### Behaviour the model keeps as written

Where a comment or the usual description of the widget says otherwise, the model follows the code.

- `isYoutubeVideo` returns the captured id or `false`, not `true` as its doc comment says.
  - A run of more than 11 id characters yields its first 11 (`LongRunExample`), because the tail after the id only forbids white space.
  - With several `&v=` the rightmost one that leads to a match wins, because `.+` is greedy (`LastAmpV`).
- The Vimeo branch of a click calls `isVimeoVideo` twice: once in the test and once for the argument. So a link with an id sends two oEmbed requests (`Lookups`), and the embed uses the id of the second.
- `extend` writes an array found in a source into a fresh `{}` when the target has no truthy value under that key. The `baz` array of its doc example therefore comes out as a plain object with index keys (`ArrayBecomesObjectExample`).
  - A `modalClass` given as an object with keys makes the merge throw, because it tries to write into the default string (`ModalClassOption`).
- A player created at once gets `{'onReady': onPlayerReady}` with the global `onPlayerReady` of that moment. That is the previous embed's handler, because the new one is assigned only after `setPlayer`. So a YouTube player plays on ready as the previous link asked (`NextPlayerUsesPreviousAutoplay`). A deferred player gets its own (`DeferredPlayerUsesOwnAutoplay`).
- `closeModal` never clears `this.videoPlayer`, so every later close calls `stopVideo` and `destroy` on the same player again.
- `this.vimeoPlayer` is set only when the player reports `ready`. Closing earlier leaves that embed's message listener registered.
- The removal task reads `this.modal` when it fires. After a reopen within the second, it removes the new overlay, and a second removal of the same overlay throws NotFoundError (`RunTimer`).
- Several overlays can be open at once: a click on a trigger while an overlay is open opens another. The widget has no guard against it.
- The merged `options.modalClass` is never read: the overlay's class is always `ModalLight-modal`, as `createElement` is called with that literal.
- `e.currentTarget.dataset.autoplay` is the attribute `data-autoplay`, read as is. Only the string `"true"` asks for playback.
- An anchor without `href` still gets its overlay, and then throws TypeError inside the YouTube test.
- The origin test `^https?:\/\/player.vimeo.com` has unescaped dots and no end anchor. So `https://playerXvimeoYcom.example` passes (`LookalikeAccepted`), as does anything that follows the genuine host (`AcceptsAnySuffix`).

## Model

| member | source | states |
|---|---|---|
| Urls.YoutubeVideoId | src/modal-light.js:330-335 | a result is 11 characters of `[A-Za-z0-9_-]`, and the pattern matches the url with that capture |
| Urls.IdStart | src/modal-light.js:332 | the position where the engine's match puts the capture group is a position where the whole pattern matches |
| Urls.IdIffMatch | src/modal-light.js:332-333 | an id is returned exactly when the pattern matches the url at some position, through some alternative |
| Urls.Preferred | src/modal-light.js:332 | whenever the pattern matches, the matcher succeeds; a match through `embed/`, `v/` or `watch?v=` is the one it reports, and otherwise it reports a direct match or a capture at or right of the given one (greedy `.+`) |
| Urls.DirectMatchUnique | src/modal-light.js:332 | the pattern without the `watch?.+&v=` alternative matches at one position at most |
| Urls.DirectMatchFound | src/modal-light.js:332-333 | a match without the `watch?.+&v=` alternative yields exactly its 11 captured characters |
| Urls.LastAmpV | src/modal-light.js:332 | the `&v=` the greedy `.+` settles on lies inside the searched range and is followed by an id and a tail without white space |
| Urls.LastAmpVFinds | src/modal-light.js:332 | if any `&v=` leads to a match, the greedy search finds one at least as far right |
| Urls.WatchUrlExample | src/modal-light.js:326 | `https://www.youtube.com/watch?v=-hPes1uwnco` yields `-hPes1uwnco` |
| Urls.LongRunExample | src/modal-light.js:332 | a 14-character id run after `youtu.be/` yields its first 11 characters |
| Urls.TrailingSpaceExample | src/modal-light.js:332 | white space after the id makes the pattern fail |
| Urls.IsVimeoHost | src/modal-light.js:349-352 | the host test holds exactly for an optional `http://`, `https://` or `//`, an optional `www.`, then `vimeo.com` |
| Urls.VimeoHostSound | src/modal-light.js:349 | the committed scheme and `www.` followed by `vimeo.com` are accepted by the pattern |
| Urls.VimeoHostComplete | src/modal-light.js:349 | every url the pattern accepts has `vimeo.com` where the matcher looks for it |
| Urls.VimeoIsNotYoutube | src/modal-light.js:117-124 | no url passes both the Vimeo host test and the YouTube pattern, so a click embeds one player at most |
| Urls.AcceptedOriginIsHttp | src/modal-light.js:270-276 | an accepted origin starts with `http`, so the captured `playerOrigin` is never the wildcard |
| Urls.AcceptedOriginShape | src/modal-light.js:270 | an accepted origin has `player`, `vimeo` and `com` right after its `http://` or `https://`, one character apart, so every origin without them is refused |
| Urls.AcceptsAnySuffix | src/modal-light.js:270 | any text after `https://player.vimeo.com` is accepted, because the pattern has no end anchor |
| Urls.LookalikeAccepted | src/modal-light.js:270 | the unescaped dots accept `https://playerXvimeoYcom.example` |
| Urls.OtherOriginsRefused | src/modal-light.js:270 | `https://vimeo.com` and `*` are refused |
| NodeLoop.ForEachNode | src/modal-light.js:36-45 | the same list comes back; the callback ran on indices 0 to calls-1 in order, none but the last returned "break", and the loop stopped early only right after a "break" |
| NodeLoop.AddedAll | src/modal-light.js:399-401 | after the loop of `init`, exactly the triggers visited have been added as listeners |
| NodeLoop.RemovedAll | src/modal-light.js:375-377 | after the loop of `destroy`, none of the triggers visited listens |
| NodeLoop.ScanFinds | src/modal-light.js:192-196 | the script scan reports the API script exactly when one of the sources scanned is its URL |
| Objects.Extend | src/modal-light.js:59-75 | over values without a prototype chain, the loop over sources returns the merge that the specification `Extended` defines, the same error included |
| Objects.MergeInto | src/modal-light.js:65-72 | over values without a prototype chain, the loop over one source's own keys, recursing into object-typed values, returns that source merged into the target as `MergeSource` defines it |
| Objects.MergeSourceKey | src/modal-light.js:65-71 | after one source, a key it holds with a non-object value has that value, and a key it does not hold reads as before |
| Objects.UntouchedKey | src/modal-light.js:61-73 | a key that no source holds keeps its value in the target |
| Objects.LastSourceWins | src/modal-light.js:61-73 | for a non-object value, the last source holding the key decides its value |
| Objects.FalsySourceSkipped | src/modal-light.js:63-64 | inserting a falsy source anywhere in the arguments changes nothing |
| Objects.TargetReturned | src/modal-light.js:74 | an object target comes back as the same kind of object with all its keys, and a primitive target comes back unchanged |
| Objects.FalsyTargetGivesObject | src/modal-light.js:60 | a falsy target is replaced by a fresh plain object |
| Objects.PrimitiveTargetThrows | src/modal-light.js:65-71 | a truthy primitive target makes `extend` throw exactly when some truthy source has an own key to write |
| Objects.IntoEmptyOk | src/modal-light.js:67-68 | merging any source value without a prototype chain into a fresh `{}` never throws |
| Objects.FlatMerge | src/modal-light.js:69-70 | a source with only primitive values overwrites the target's keys and keeps the rest |
| Objects.ArrayBecomesObjectExample | src/modal-light.js:57 | the doc example gives `foo` 3, `bar` true, and `baz` as a plain object with index keys 0, 1, 2 instead of an array |
| Options.ModalClassOption | src/modal-light.js:412-417 | over option values without a prototype chain, the option merge throws exactly when `modalClass` is an object with keys; otherwise `modalClass` is the user's non-object value when given, else `.ModalLight-modal` |
| VimeoPlayer.Message | src/modal-light.js:295-302 | a command has the given method, and a value exactly when the value given is truthy |
| VimeoPlayer.ReadyCommandsOrder | src/modal-light.js:308-314 | `onReady` subscribes to pause, finish and playProgress in that order, then posts `play` exactly when autoplay is "true" |
| VimeoPlayer.VimeoEmbed.constructor | src/modal-light.js:259-260 | a new embed starts with the wildcard origin and an empty outbox |
| VimeoPlayer.VimeoEmbed.Post | src/modal-light.js:295-306 | a post appends the command addressed to `playerOrigin` and keeps the origin; a frame out of the page throws |
| VimeoPlayer.VimeoEmbed.OnReady | src/modal-light.js:308-314 | the outbox gains the ready commands in order, all addressed to `playerOrigin` |
| VimeoPlayer.VimeoEmbed.OnMessageReceived | src/modal-light.js:268-292 | a refused origin changes nothing; the first accepted origin is captured and then kept; unparsable data throws; `ready` posts the ready commands; the embed invariant (every post went to an accepted origin, never the wildcard) is kept |
| Window.VimeoVideoId | src/modal-light.js:347-369 | no request and `false` unless the host test passes; a request that cannot complete throws; otherwise the result is the body's `video_id` exactly when the response is 2xx or 3xx, parses, and has a truthy `video_id`, and `false` in every other case |
| Window.YoutubeLinkNotLookedUp | src/modal-light.js:117-124 | a YouTube link never leads to an oEmbed lookup |
| Window.Page.PlayerReady | src/modal-light.js:232-235 | a ready player gets `playVideo` exactly when its handler was made for autoplay "true", and nothing else changes |
| Browser.CreateElement | src/modal-light.js:164-171 | a new element with the tag and the class, if one is given and is not empty, appended as the last child of the parent; every other node is kept |
| Browser.SetClass | src/modal-light.js:140 | only the class list of the one element changes |
| Browser.RemoveChild | src/modal-light.js:150 | detaching a node that is not a child of the body throws NotFoundError; otherwise only the body's child list changes |
| ModalLight.SomeTimerMayFire | src/modal-light.js:107-109 | while timers are pending, one of them can fire next |
| ModalLight.OverlaidKeepsDocument | src/modal-light.js:98-114 | after the overlay is opened every earlier element, the clicked trigger among them, is unchanged, and of the earlier child lists only the body's grows, by the overlay alone |
| ModalLight.OverlaidHidden | src/modal-light.js:99-109 | an overlay just opened by a click does not have `is-visible`; the last pending timer is the zero-delay show |
| ModalLight.BuildOverlay | src/modal-light.js:98-104 | the overlay `div.ModalLight-modal` is the new last child of the body, holding `div.ModalLight-inner` and then the button of type "button" labelled "Close modal" |
| ModalLight.BuildYoutubeNodes | src/modal-light.js:187-189 | a container holding a placeholder with the random id goes in as the last child of the inner div |
| ModalLight.BuildVimeoNodes | src/modal-light.js:254-259 | a container goes in as the last child of the inner div, holding only the video div, whose only child is an iframe whose id and `src` carry the player id and the video id |
| ModalLight.NewPlayer | src/modal-light.js:210-218 | `setPlayer` throws ReferenceError and changes nothing without `YT` or `onPlayerReady`; otherwise it appends one player, with the handler of the moment, and makes it `videoPlayer` |
| ModalLight.EmbedYoutube | src/modal-light.js:192-235 | the API script is inserted first exactly when it is absent, which throws when there is no script tag; the player is deferred when the script was absent and otherwise created at once; `onPlayerReady` then follows autoplay; an error changes nothing |
| ModalLight.ApiScriptInsertedOnce | src/modal-light.js:192-203 | after one successful embed, a later one never inserts the API script again |
| ModalLight.NextPlayerUsesPreviousAutoplay | src/modal-light.js:210-235 | a player created at once plays on ready as the previous embed's autoplay said |
| ModalLight.ApiLoaded | src/modal-light.js:222-225 | when the API loads, the deferred player, if any, is created with the handler assigned at that moment |
| ModalLight.DeferredPlayerUsesOwnAutoplay | src/modal-light.js:222-235 | a deferred player that loads before any other embed plays on ready as its own link asked |
| ModalLight.Stopped | src/modal-light.js:141-144 | the YouTube player gets `stopVideo` then `destroy`, and no other player changes |
| ModalLight.Lookups | src/modal-light.js:122-123 | a click sends no oEmbed request unless the host test passes, and then one request, or two exactly when the first yields an id |
| ModalLight.VimeoOutcome | src/modal-light.js:122-124 | the Vimeo branch throws only a network error on a Vimeo host, and completes exactly when the first lookup yields no id or yields one and the second completes |
| ModalLight.YoutubeLinkSkipsVimeo | src/modal-light.js:117-124 | for a YouTube link the Vimeo branch sends no request, embeds nothing and completes |
| ModalLight.Completed | src/modal-light.js:117-127 | `handleEvent` returns nothing when its video branch completes, and throws that branch's error otherwise |
| ModalLight.Controller.constructor | src/modal-light.js:418 | a new controller has every field undefined |
| ModalLight.Controller.Init | src/modal-light.js:382-407 | a missing selector throws with the widget's message and changes nothing; otherwise the selector and the matches are kept, each match listens, and the handle is returned exactly when there is some |
| ModalLight.Controller.Destroy | src/modal-light.js:371-379 | afterwards no trigger listens, so a second call changes nothing |
| ModalLight.Controller.RunTimer | src/modal-light.js:149-151 | a firing timer leaves the list; the deferred show adds `is-visible` to the current overlay; the deferred removal detaches the overlay `this.modal` names when it fires, or throws NotFoundError and changes nothing |
| ModalLight.Controller.OpenModal | src/modal-light.js:98-114 | the overlay is built under the body (see BuildOverlay), its closer listens, the show is deferred with delay 0, the YouTube globals are untouched, and the inner div returned is the overlay's first child |
| ModalLight.Controller.SetPlayer | src/modal-light.js:210-218 | the page's globals and `videoPlayer` change as NewPlayer says |
| ModalLight.Controller.CreateYoutubeEmbed | src/modal-light.js:182-239 | the placeholder nodes go under the inner div (see BuildYoutubeNodes), and the globals change as EmbedYoutube says |
| ModalLight.Controller.HasApiScript | src/modal-light.js:192-196 | the scan reports the API script exactly when it is among the page's script sources |
| ModalLight.Controller.LoadPlayer | src/modal-light.js:192-235 | the globals change as EmbedYoutube says |
| ModalLight.Controller.DeferPlayer | src/modal-light.js:198-225 | the API script goes before the first script, the player waits for `onYouTubeIframeAPIReady`, and `onPlayerReady` follows autoplay |
| ModalLight.Controller.SetReadyHandler | src/modal-light.js:232-235 | `onPlayerReady` plays exactly when autoplay is "true" |
| ModalLight.Controller.YoutubeApiReady | src/modal-light.js:223-225 | the globals change as ApiLoaded says |
| ModalLight.Controller.IsVimeoVideo | src/modal-light.js:347-369 | the result is VimeoVideoId's, and one request to the oEmbed endpoint is recorded exactly when the host test passes |
| ModalLight.Controller.CreateVimeoEmbed | src/modal-light.js:250-265 | the frame nodes go under the inner div (see BuildVimeoNodes), and a new embed with the wildcard origin and an empty outbox starts listening |
| ModalLight.Controller.CloseModal | src/modal-light.js:138-153 | `is-visible` comes off the current overlay; the last YouTube player is stopped and destroyed; a ready Vimeo player posts `pause` to its unchanged origin, stops listening and is cleared; no other embed changes; removal is scheduled after 1000; a Vimeo frame out of the page throws before the removal is scheduled |
| ModalLight.Controller.ScheduleRemoval | src/modal-light.js:149-151 | the removal timer with delay 1000 is appended |
| ModalLight.Controller.Hide | src/modal-light.js:140 | the document loses `is-visible` on the current overlay only |
| ModalLight.Controller.StopPlayer | src/modal-light.js:141-144 | the players change as Stopped says for `videoPlayer` |
| ModalLight.Controller.DestroyVimeo | src/modal-light.js:284-287 | `pause` is posted to the captured origin, the listener goes and the handle is cleared; a frame out of the page throws and nothing else changes |
| ModalLight.Controller.VimeoMessage | src/modal-light.js:268-292 | a refused origin leaves the embed as it was; an accepted one is captured as `playerOrigin` when that is still the wildcard, and otherwise the first one is kept; the embed becomes `vimeoPlayer` exactly when it accepted a `ready` and posted the ready commands; an error is thrown exactly for unparsable data or a ready frame out of the page, from an accepted origin |
| ModalLight.Controller.HandleEvent | src/modal-light.js:79-127 | the default action is prevented on every path; `#` returns false and changes nothing else, `this.closer` included; any other anchor first gets one overlay appended to the body (`div.ModalLight-modal`, not yet visible, holding the inner div and the labelled closer button) with its deferred show, and every earlier element and every other earlier child list stays as it was; no `href` then throws TypeError and leaves the inner div empty; a link is embedded as Embedded states (a YouTube link: the container, holding the placeholder with the random id, as the only child of the inner div, and the globals as EmbedYoutube says; a Vimeo embed: one node in the inner div; any other link: the inner div stays empty) |
| ModalLight.Controller.FollowLink | src/modal-light.js:98-124 | the overlay is opened with its inner div and closer and nothing else of the document changes (see Overlaid), and the video the link names is embedded in that inner div, which stays empty when the link names no video (see Embedded) |
| ModalLight.Controller.EmbedVideo | src/modal-light.js:116-124 | nodes are added below the inner div only; a YouTube link creates its player on a new element appended there and sends no request; any other link goes through the Vimeo branch; a link that is neither leaves the document as it was; the result follows the branch's outcome |
| ModalLight.Controller.YoutubeBranch | src/modal-light.js:116-124 | a YouTube link gets its container appended to the inner div and its player as EmbedYoutube says, and the Vimeo test that follows sends no request |
| ModalLight.Controller.VimeoTestOfYoutubeLink | src/modal-light.js:121 | `isVimeoVideo` on a YouTube link records no request |
| ModalLight.Controller.VimeoBranch | src/modal-light.js:121-124 | the requests grow by Lookups, the outcome is VimeoOutcome, and exactly when VimeoEmbedded holds one node is appended to the inner div and a new listening embed has its frame in the document with the second lookup's id; otherwise the document is unchanged |
| ModalLight.Setup | src/modal-light.js:412-423 | over option values without a prototype chain, the merge throws exactly for an object `modalClass`; otherwise `init` decides: no selector throws, no match returns nothing, and a match returns a fresh valid controller with the merged `modalClass`, the triggers and every trigger listening |

## Left out

- Text output: `console.log` calls and the JSON text of posted commands and received messages are not modelled. Commands are records, and the received data is one of unparsable, or an object with an optional `event`.
- The AMD/CommonJS/global export shim at the end of the file: it has no behaviour to prove.
- Selector matching: `document.querySelectorAll('a' + element)` is not modelled; the anchors it finds are a parameter of `Init` and `Setup`.
- Time: timers carry their delay, and any timer that no earlier-set timer with a shorter or equal delay precedes may fire. There is no clock.
- Randomness and the network: the two `Math.random` numbers and the outcomes of the synchronous oEmbed requests are parameters.
- The YouTube IFrame API and the Vimeo player: they are represented by a player record with a call log and by the embed's outbox. What the players do with the calls is not modelled.
- Script tags: the page's `<script>` elements are their `src` list, not nodes of the document tree. The inserted API script is not an element.
- Iframe markup: the frame written through `innerHTML` keeps only its `id` and `src` attributes.
- Message dispatch: a `message` event is delivered to one listening embed per `VimeoMessage` call, and the caller picks which.
- Frame attachment: whether a Vimeo frame still has a `contentWindow` is approximated by its overlay being a child of the body.
- Objects.Extend: objects are values, so the model returns a merged copy where the source returns the first argument itself. It also does not capture that nested target objects are changed in place, or that writes made before a nested throw persist. A source's nested object is never stored in the target itself, since object-typed values always go through `out[key] || {}`. Numbers are integers, so there is no NaN or fraction.
- Objects.Extend: values have no prototype chain, so keys that name inherited properties (`hasOwnProperty`, `toString`, `constructor`, `__proto__`) are outside the model. In the source, a source object whose own `hasOwnProperty` is not a function makes `obj.hasOwnProperty(key)` throw TypeError. An object-typed value under a key such as `toString` is merged into the inherited built-in, and under `__proto__` into `Object.prototype`, because `out[key]` reads through the prototype chain. The model reads only own properties, so such a key gets a fresh object.
- Objects.MergeInto: the same prototype-chain gap as Extend: the model neither throws for an own non-function `hasOwnProperty`, nor reads inherited properties through `out[key]`.
- Objects.IntoEmptyOk: "never throws" holds only for sources without an own non-function `hasOwnProperty`, a case the value model cannot express (see Objects.Extend).
- Options.ModalClassOption: the merge also throws TypeError in the source when the user's options have an own `hasOwnProperty` that is not a function, a case the value model cannot express (see Objects.Extend).
- ModalLight.Setup: the same gap as Options.ModalClassOption: options with an own non-function `hasOwnProperty` make the source's merge throw, and the model does not capture this.
- A message whose data parses to `null` is treated as unparsable, since reading `event` on it throws too.
- ModalLight.Controller.HandleEvent: the new Vimeo embed is stated by its frame element, its fields and the one node appended to the inner div, not by the frame's position below that node.
