/** What leaves the own buffer of a server stream for its channel. */
module Outflow {
  import opened Wire
  import opened GatewayModel
  import opened GatewayInvariant
  import opened GatewaySteps
  import opened FanOut
  import opened Entries
  import opened Liveness

  /** How many items have left, read off the run: one with each sending that finds an item left. */
  ghost function SentOf(h: EndpointsHash, events: seq<Event>, st: StreamRef): nat
    decreases |events|
  {
    if events == [] then 0
    else
      var before, e := events[..|events| - 1], events[|events| - 1];
      var s, n := Run(h, EMPTY, before), SentOf(h, before, st);
      if e == Sent(st) && st < |s.streams| && n < |s.streams[st].received| then n + 1 else n
  }

  /** Over any run the items of a stream that have left are as many as its sendings that found one left, and no more. */
  lemma {:induction false} SentCounts(h: EndpointsHash, events: seq<Event>, st: StreamRef)
    ensures var s := Run(h, EMPTY, events);
      SentFrom(s, st) == SentOf(h, events, st) && (st < |s.streams| ==> SentFrom(s, st) <= |s.streams[st].received|)
    decreases |events|
  {
    if events != [] {
      var before, e := events[..|events| - 1], events[|events| - 1];
      SentCounts(h, before, st);
      RunLast(h, EMPTY, events);
      Reachable(h, before);
      StepStream(h, Run(h, EMPTY, before), e, st);
    }
    Reachable(h, events);
    SessionsBounded(h, Run(h, EMPTY, events));
  }

  function Sendings(st: StreamRef, n: nat): seq<Event> {
    if n == 0 then [] else [Sent(st)] + Sendings(st, n - 1)
  }

  /** As many sendings as a stream has items left take all of them to the channel and change nothing else. */
  lemma {:induction false} AllIsSent(h: EndpointsHash, s: State, st: StreamRef, n: nat)
    requires st < |s.streams| && s.streams[st].sent + n == |s.streams[st].received|
    ensures Run(h, s, Sendings(st, n)) ==
            s.(streams := s.streams[st := s.streams[st].(sent := |s.streams[st].received|)])
    decreases n
  {
    if n == 0 {
      assert s.streams[st := s.streams[st]] == s.streams;
    } else {
      var t := Step(h, s, Sent(st));
      assert Sendings(st, n)[1..] == Sendings(st, n - 1);
      RunFirst(h, s, Sendings(st, n));
      AllIsSent(h, t, st, n - 1);
      OneIsSent(h, s, st);
    }
  }

  lemma {:induction false} OneIsSent(h: EndpointsHash, s: State, st: StreamRef)
    requires st < |s.streams| && s.streams[st].sent < |s.streams[st].received|
    ensures var t := Step(h, s, Sent(st));
      && st < |t.streams| && t.streams[st].received == s.streams[st].received
      && t.streams[st].sent == s.streams[st].sent + 1
      && (forall n: nat :: t.(streams := t.streams[st := t.streams[st].(sent := n)]) ==
                           s.(streams := s.streams[st := s.streams[st].(sent := n)]))
  {
    var t := Step(h, s, Sent(st));
    forall n: nat ensures t.streams[st := t.streams[st].(sent := n)] == s.streams[st := s.streams[st].(sent := n)] {
    }
  }
}
