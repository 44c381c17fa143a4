/**
 * The state `createVimeoEmbed` keeps in its closure for one embedded
 * player: the origin the player answers from and the messages posted to
 * the player's frame, in order.
 */
module VimeoPlayer {
  import opened Common
  import opened Browser
  import opened Urls

  /** A command to the player, `{method: action}` with an optional `value` (the JSON text itself is left out). */
  datatype Command = Command(action: string, value: Option<string>)

  /** One `postMessage` to the player's frame: the command and the target origin it was sent to. */
  datatype Posted = Posted(command: Command, targetOrigin: string)

  /** The `data` of a message event: text `JSON.parse` rejects (or whose value is `null`), or an object with an optional `event`. */
  datatype MessageData = Unparsable | Parsed(event: Option<string>)

  /** The origin the closure starts with, before any accepted message. */
  const AnyOrigin: string := "*"

  /** `typeof autoplay !== 'undefined' && autoplay === "true"`. */
  predicate AutoplayRequested(autoplay: Option<string>)
  {
    autoplay == Some("true")
  }

  /** The command `post(action, value)` builds: `value` is set only when it is truthy. */
  function Message(action: string, value: Option<string>): (c: Command)
    ensures c.action == action
    ensures c.value.Some? <==> value.Some? && value.value != ""
    ensures c.value.Some? ==> c.value == value
  {
    if value.Some? && value.value != "" then Command(action, value) else Command(action, None)
  }

  /** What `onReady` posts, in order. */
  function ReadyCommands(autoplay: Option<string>): seq<Command>
  {
    [Message("addEventListener", Some("pause")),
     Message("addEventListener", Some("finish")),
     Message("addEventListener", Some("playProgress"))]
    + (if AutoplayRequested(autoplay) then [Message("play", None)] else [])
  }

  /** The commands, each posted to `target`. */
  function Addressed(commands: seq<Command>, target: string): (posts: seq<Posted>)
    ensures |posts| == |commands|
    ensures forall i :: 0 <= i < |posts| ==> posts[i] == Posted(commands[i], target)
  {
    if commands == [] then [] else [Posted(commands[0], target)] + Addressed(commands[1..], target)
  }

  /**
   * `onReady` subscribes to pause, finish and playProgress in that order,
   * and then asks to play exactly when autoplay is "true".
   */
  lemma ReadyCommandsOrder(autoplay: Option<string>)
    ensures |ReadyCommands(autoplay)| == if AutoplayRequested(autoplay) then 4 else 3
    ensures forall i :: 0 <= i < 3 ==> ReadyCommands(autoplay)[i].action == "addEventListener"
    ensures ReadyCommands(autoplay)[0].value == Some("pause")
    ensures ReadyCommands(autoplay)[1].value == Some("finish")
    ensures ReadyCommands(autoplay)[2].value == Some("playProgress")
    ensures AutoplayRequested(autoplay) ==> ReadyCommands(autoplay)[3] == Command("play", None)
  {
    assert Message("play", None) == Command("play", None);
  }

  class VimeoEmbed {
    /** The overlay the player was created in; the frame has a window only while the overlay is in the page. */
    const overlay: NodeId
    /** The `<iframe>`. */
    const frame: NodeId
    /** The `autoplay` the embed was created with. */
    const autoplay: Option<string>
    /** `playerOrigin`. */
    var playerOrigin: string
    /** Every message posted to the frame so far. */
    var outbox: seq<Posted>

    /**
     * The origin is the wildcard or one the origin test accepted, and every
     * post went to it; nothing is posted while it is still the wildcard.
     */
    predicate Valid()
      reads this
    {
      && (playerOrigin == AnyOrigin || IsVimeoPlayerOrigin(playerOrigin))
      && (outbox != [] ==> playerOrigin != AnyOrigin)
      && (forall i :: 0 <= i < |outbox| ==> outbox[i].targetOrigin == playerOrigin)
    }

    /** The closure's state right after `createVimeoEmbed` returns. */
    constructor(overlay: NodeId, frame: NodeId, autoplay: Option<string>)
      ensures Valid()
      ensures this.overlay == overlay && this.frame == frame && this.autoplay == autoplay
      ensures playerOrigin == AnyOrigin && outbox == []
    {
      this.overlay := overlay;
      this.frame := frame;
      this.autoplay := autoplay;
      playerOrigin := AnyOrigin;
      outbox := [];
    }

    /**
     * `post(action, value)`: the command goes to `playerOrigin`. A frame
     * that has left the page has no `contentWindow`, so the call throws.
     */
    method Post(attached: bool, action: string, value: Option<string>) returns (r: Result<(), Fault>)
      requires Valid() && playerOrigin != AnyOrigin
      modifies this
      ensures Valid() && playerOrigin == old(playerOrigin)
      ensures attached ==> r == Ok(()) && outbox == old(outbox) + [Posted(Message(action, value), playerOrigin)]
      ensures !attached ==> r == Err(TypeError) && outbox == old(outbox)
    {
      if !attached {
        return Err(TypeError);
      }
      outbox := outbox + [Posted(Message(action, value), playerOrigin)];
      return Ok(());
    }

    /** `onReady`: the ready commands, posted one after the other (stopping at the first that throws). */
    method OnReady(attached: bool) returns (r: Result<(), Fault>)
      requires Valid() && playerOrigin != AnyOrigin
      modifies this
      ensures Valid() && playerOrigin == old(playerOrigin)
      ensures attached ==> r == Ok(()) && outbox == old(outbox) + Addressed(ReadyCommands(autoplay), playerOrigin)
      ensures !attached ==> r == Err(TypeError) && outbox == old(outbox)
    {
      r := Post(attached, "addEventListener", Some("pause"));
      if r.Err? { return; }
      r := Post(attached, "addEventListener", Some("finish"));
      r := Post(attached, "addEventListener", Some("playProgress"));
      if AutoplayRequested(autoplay) {
        r := Post(attached, "play", None);
      }
      assert outbox == old(outbox) + Addressed(ReadyCommands(autoplay), playerOrigin);
    }

    /**
     * `onMessageReceived(event)`. A message from an origin the test refuses
     * is ignored. Otherwise the first accepted origin is kept, the data is
     * parsed (text that is not JSON throws), and on `ready` the ready
     * commands are posted; `r == Ok(true)` says the ready branch completed,
     * so the caller installs the player handle.
     */
    method OnMessageReceived(attached: bool, origin: string, data: MessageData) returns (r: Result<bool, Fault>)
      requires Valid()
      modifies this
      ensures Valid()
      ensures !IsVimeoPlayerOrigin(origin) ==> r == Ok(false) && playerOrigin == old(playerOrigin) && outbox == old(outbox)
      ensures IsVimeoPlayerOrigin(origin) ==> playerOrigin == (if old(playerOrigin) == AnyOrigin then origin else old(playerOrigin))
      ensures IsVimeoPlayerOrigin(origin) ==> playerOrigin != AnyOrigin
      ensures IsVimeoPlayerOrigin(origin) && data.Unparsable? ==> r == Err(SyntaxError) && outbox == old(outbox)
      ensures IsVimeoPlayerOrigin(origin) && data.Parsed? && data.event != Some("ready") ==> r == Ok(false) && outbox == old(outbox)
      ensures IsVimeoPlayerOrigin(origin) && data == Parsed(Some("ready")) ==>
        if attached then r == Ok(true) && outbox == old(outbox) + Addressed(ReadyCommands(autoplay), playerOrigin)
        else r == Err(TypeError) && outbox == old(outbox)
    {
      if !IsVimeoPlayerOrigin(origin) {
        return Ok(false);
      }
      AcceptedOriginIsHttp(origin);
      if playerOrigin == AnyOrigin {
        playerOrigin := origin;
      }
      match data
      case Unparsable =>
        return Err(SyntaxError);
      case Parsed(event) =>
        if event == Some("ready") {
          var ready := OnReady(attached);
          if ready.Err? {
            return Err(ready.error);
          }
          return Ok(true);
        }
        return Ok(false);
    }
  }
}
