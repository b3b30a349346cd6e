/**
 * The explicit transition tables that replace the `@ChangeState` decorators
 * of the node and the rendering context. A call made from a state outside
 * its from-list is rejected (`None`) and changes nothing.
 */
module Lifecycle {
  import opened Js

  /** Node states: the library's INIT state, `connected` and the terminal `closed`. */
  datatype NodeState = Init | Connected | Closed

  datatype NodeCall = Connect | Disconnect | Close

  /**
   * `connect`: init -> connected; `disconnect`: connected -> init;
   * `close`: any live state -> closed. Closing a closed node is refused,
   * which the runtime treats as a no-op.
   */
  function NodeNext(s: NodeState, call: NodeCall): (r: Option<NodeState>)
    ensures s == Closed ==> r.None?
    ensures r.Some? ==> (r.value == Closed <==> call == Close)
    ensures call == Connect ==> (r.Some? <==> s == Init) && (r.Some? ==> r.value == Connected)
    ensures call == Disconnect ==> (r.Some? <==> s == Connected) && (r.Some? ==> r.value == Init)
    ensures call == Close ==> (r.Some? <==> s != Closed)
  {
    match (s, call)
    case (Init, Connect) => Some(Connected)
    case (Connected, Disconnect) => Some(Init)
    case (Init, Close) => Some(Closed)
    case (Connected, Close) => Some(Closed)
    case _ => None
  }

  /** `connect` followed by `disconnect` brings a node back to where it started. */
  lemma ConnectDisconnectRoundTrip(s: NodeState)
    requires NodeNext(s, Connect).Some?
    ensures NodeNext(NodeNext(s, Connect).value, Disconnect) == Some(s)
  {
  }

  /** Context states: the library's INIT state (also reached by destroy) and `created`. */
  datatype ContextState = Uninitialized | Created

  datatype ContextCall = Create | Destroy

  function ContextNext(s: ContextState, call: ContextCall): (r: Option<ContextState>)
    ensures call == Create ==> (r.Some? <==> s == Uninitialized) && (r.Some? ==> r.value == Created)
    ensures call == Destroy ==> (r.Some? <==> s == Created) && (r.Some? ==> r.value == Uninitialized)
  {
    match (s, call)
    case (Uninitialized, Create) => Some(Created)
    case (Created, Destroy) => Some(Uninitialized)
    case _ => None
  }

  /** A second `destroy` right after a successful one is refused, so it can never tear down twice. */
  lemma DestroyOnce(s: ContextState)
    requires ContextNext(s, Destroy).Some?
    ensures ContextNext(ContextNext(s, Destroy).value, Destroy).None?
  {
  }
}
