/**
 * `forEachNode`: an index loop over a node list that calls a callback with
 * each element and its index and stops right after the first call that
 * returns "break".
 *
 * The callback's side effects are made explicit: it takes a state of type
 * `S` and returns the new state together with whether it returned "break".
 * StateAfter and BreaksAt say what the callbacks do when they are called in
 * order; the method is proved against them.
 */
module NodeLoop {

  /** The state after the callback has run on the first `k` elements, one after the other. */
  function StateAfter<S, T>(nodes: seq<T>, todo: (S, T, nat) -> (S, bool), s0: S, k: nat): S
    requires k <= |nodes|
    decreases k
  {
    if k == 0 then s0 else todo(StateAfter(nodes, todo, s0, k - 1), nodes[k - 1], k - 1).0
  }

  /** The call on element `i`, made after the calls on `0..i`, returns "break". */
  predicate BreaksAt<S, T>(nodes: seq<T>, todo: (S, T, nat) -> (S, bool), s0: S, i: nat)
    requires i < |nodes|
  {
    todo(StateAfter(nodes, todo, s0, i), nodes[i], i).1
  }

  /**
   * `forEachNode(nodeList, todo)`. Besides the list it returns (the same
   * list), `s` is the callback's state at the end and `calls` the number of
   * calls made: the calls are on indices `0 .. calls - 1`, none but the last
   * returned "break", and the loop ended early only because the last did.
   */
  method ForEachNode<S, T>(nodes: seq<T>, todo: (S, T, nat) -> (S, bool), s0: S) returns (result: seq<T>, s: S, calls: nat)
    ensures result == nodes
    ensures calls <= |nodes| && s == StateAfter(nodes, todo, s0, calls)
    ensures forall i :: 0 <= i && i + 1 < calls ==> !BreaksAt(nodes, todo, s0, i)
    ensures calls < |nodes| ==> 0 < calls && BreaksAt(nodes, todo, s0, calls - 1)
  {
    s := s0;
    var i := 0;
    var stop := false;
    while i < |nodes| && !stop
      invariant i <= |nodes| && s == StateAfter(nodes, todo, s0, i)
      invariant forall j :: 0 <= j && j + 1 < i ==> !BreaksAt(nodes, todo, s0, j)
      invariant stop ==> 0 < i && BreaksAt(nodes, todo, s0, i - 1)
      invariant !stop && 0 < i ==> !BreaksAt(nodes, todo, s0, i - 1)
    {
      var o := todo(s, nodes[i], i);
      s := o.0;
      stop := o.1;
      i := i + 1;
    }
    result := nodes;
    calls := i;
  }

  /** The elements of a node list, as a set. */
  function Elements<T>(nodes: seq<T>): set<T>
  {
    set i | 0 <= i < |nodes| :: nodes[i]
  }

  // ---------------------------------------------------------------------
  // The callbacks the widget passes

  /** The callback of `init`: add the click listener to `el`, never "break". */
  function AddListener<T>(listening: set<T>, el: T, i: nat): (set<T>, bool)
  {
    (listening + {el}, false)
  }

  /** The callback of `destroy`: remove the click listener from `el`, never "break". */
  function RemoveListener<T>(listening: set<T>, el: T, i: nat): (set<T>, bool)
  {
    (listening - {el}, false)
  }

  /** The address of the YouTube IFrame Player API script. */
  const IframeApiUrl: string := "https://www.youtube.com/iframe_api"

  /** The callback of `createYoutubeEmbed`'s scan: note whether a script's `src` is the API's, never "break". */
  function NoteApiScript(present: bool, src: string, i: nat): (bool, bool)
  {
    (present || src == IframeApiUrl, false)
  }

  /** After adding the listener on the first `k` triggers, exactly those have been added. */
  lemma {:induction false} AddedAll<T>(nodes: seq<T>, listening: set<T>, k: nat)
    requires k <= |nodes|
    ensures StateAfter(nodes, AddListener, listening, k) == listening + set i | 0 <= i < k :: nodes[i]
  {
    if k > 0 {
      AddedAll(nodes, listening, k - 1);
      assert (set i | 0 <= i < k :: nodes[i]) == (set i | 0 <= i < k - 1 :: nodes[i]) + {nodes[k - 1]};
    }
  }

  /** After removing the listener from the first `k` triggers, none of those listens. */
  lemma {:induction false} RemovedAll<T>(nodes: seq<T>, listening: set<T>, k: nat)
    requires k <= |nodes|
    ensures StateAfter(nodes, RemoveListener, listening, k) == listening - set i | 0 <= i < k :: nodes[i]
  {
    if k > 0 {
      RemovedAll(nodes, listening, k - 1);
      assert (set i | 0 <= i < k :: nodes[i]) == (set i | 0 <= i < k - 1 :: nodes[i]) + {nodes[k - 1]};
    }
  }

  /** The scan over the first `k` script sources finds the API script exactly when one of them is it. */
  lemma {:induction false} ScanFinds(srcs: seq<string>, k: nat)
    requires k <= |srcs|
    ensures StateAfter(srcs, NoteApiScript, false, k) <==> IframeApiUrl in srcs[..k]
  {
    if k > 0 {
      ScanFinds(srcs, k - 1);
      assert srcs[..k] == srcs[..k - 1] + [srcs[k - 1]];
    }
  }
}
