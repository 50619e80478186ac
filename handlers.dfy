/**
 * The handler registry: per-name lists of event handlers, and the dispatch
 * loop that runs a list in order until a handler consumes the event.
 */
module Handlers {

  /**
   * An event handler, seen only through whether it consumes the event it is
   * given. ConsumeHandler always does; any other handler is `Custom`.
   */
  datatype Handler = ConsumeHandler | Custom(id: nat, consumes: bool)
  {
    predicate Consumes()
    {
      match this
      case ConsumeHandler => true
      case Custom(_, c) => c
    }
  }

  /** The list subscribed under `name`; an absent list reads as empty. */
  function HandlersOf(hs: map<string, seq<Handler>>, name: string): (r: seq<Handler>)
    ensures r != [] <==> name in hs && hs[name] != []
    ensures r != [] ==> r == hs[name]
  {
    if name in hs then hs[name] else []
  }

  /** subscribe: the list is created when absent and `h` goes in front of it. */
  function Subscribed(hs: map<string, seq<Handler>>, name: string, h: Handler): (r: map<string, seq<Handler>>)
    ensures r.Keys == hs.Keys + {name}
    ensures |HandlersOf(r, name)| == |HandlersOf(hs, name)| + 1
    ensures HandlersOf(r, name)[0] == h && HandlersOf(r, name)[1..] == HandlersOf(hs, name)
    ensures forall n :: n != name ==> HandlersOf(r, n) == HandlersOf(hs, n)
  {
    hs[name := [h] + HandlersOf(hs, name)]
  }

  /** Subscribing each of `added` under `name`, one after the other. */
  function SubscribedAll(hs: map<string, seq<Handler>>, name: string, added: seq<Handler>): map<string, seq<Handler>>
  {
    if added == [] then hs else Subscribed(SubscribedAll(hs, name, added[..|added| - 1]), name, added[|added| - 1])
  }

  function Reversed(s: seq<Handler>): (r: seq<Handler>)
    ensures |r| == |s|
  {
    if s == [] then [] else [s[|s| - 1]] + Reversed(s[..|s| - 1])
  }

  /** Handlers subscribed later run earlier: the list is the reverse of the subscription order. */
  lemma {:induction false} LatestSubscribedFirst(hs: map<string, seq<Handler>>, name: string, added: seq<Handler>)
    ensures HandlersOf(SubscribedAll(hs, name, added), name) == Reversed(added) + HandlersOf(hs, name)
    ensures forall n :: n != name ==> HandlersOf(SubscribedAll(hs, name, added), n) == HandlersOf(hs, n)
  {
    if added != [] {
      LatestSubscribedFirst(hs, name, added[..|added| - 1]);
    }
  }

  /**
   * The handlers that run when an event goes through `hs`: a prefix of it in
   * which no handler but the last consumes, ending early only at a consumer.
   */
  function Ran(hs: seq<Handler>): (r: seq<Handler>)
    ensures r <= hs
    ensures forall i :: 0 <= i < |r| - 1 ==> !r[i].Consumes()
    ensures |r| < |hs| ==> |r| > 0 && r[|r| - 1].Consumes()
  {
    if hs == [] then []
    else if hs[0].Consumes() then [hs[0]]
    else [hs[0]] + Ran(hs[1..])
  }

  /** The three facts of Ran's contract leave no other choice. */
  lemma {:induction false} RanIsDetermined(hs: seq<Handler>, r: seq<Handler>)
    requires r <= hs
    requires forall i :: 0 <= i < |r| - 1 ==> !r[i].Consumes()
    requires |r| < |hs| ==> |r| > 0 && r[|r| - 1].Consumes()
    ensures r == Ran(hs)
  {
    if hs != [] {
      assert r != [] && r[0] == hs[0];
      if !hs[0].Consumes() && |hs| > 1 {
        assert |r| > 1;
        RanIsDetermined(hs[1..], r[1..]);
      }
    }
  }

  /** A consuming handler subscribed last is the only one that runs. */
  lemma LatestConsumerShadows(hs: map<string, seq<Handler>>, name: string, h: Handler)
    requires h.Consumes()
    ensures Ran(HandlersOf(Subscribed(hs, name, h), name)) == [h]
  {
  }

  /**
   * The handlers that run for an event that may arrive already consumed. The
   * loop tests the event's own flag, so such an event stops after the first
   * handler, whatever that handler does.
   */
  function RanFor(hs: seq<Handler>, alreadyConsumed: bool): (r: seq<Handler>)
    ensures r <= hs
    ensures alreadyConsumed ==> |r| == if hs == [] then 0 else 1
    ensures !alreadyConsumed ==> r == Ran(hs)
  {
    if alreadyConsumed && hs != [] then [hs[0]] else Ran(hs)
  }

  /** The dispatch loop: handle, then stop if the event is consumed. */
  method Dispatch(hs: seq<Handler>, alreadyConsumed: bool) returns (ran: seq<Handler>)
    ensures ran == RanFor(hs, alreadyConsumed)
  {
    ran := [];
    var consumed := alreadyConsumed;
    var i := 0;
    while i < |hs|
      invariant 0 <= i <= |hs|
      invariant ran == hs[..i]
      invariant consumed == alreadyConsumed
      invariant alreadyConsumed ==> i == 0
      invariant forall j :: 0 <= j < i ==> !hs[j].Consumes()
    {
      ran := ran + [hs[i]];
      consumed := consumed || hs[i].Consumes();
      if consumed {
        break;
      }
      i := i + 1;
    }
    if !alreadyConsumed {
      RanIsDetermined(hs, ran);
    }
  }
}
