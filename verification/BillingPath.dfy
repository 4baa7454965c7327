/**
 Billing from a handler's invoke to the charge (lib/handler-ctx.js:62-71, lib/service-client.js:72-92,
 lib/peer-channel.js:70-114, lib/device-manager.js:362-398, 626-664): the key that an invoke is sent
 with is the one its hop is charged to, on the direct path and on the routed one.
 */
module BillingPath {
  import opened Wrappers
  import C = CtxClients
  import H = HopBilling
  import R = RoutedBilling
  import PeerEnd

  /** Who is to pay for the invokes of a handle: its caller, or the identity it acts as. */
  function PayerOf(h: C.Handle): string { if h.caller.Some? then h.caller.value else h.wanted.identity }

  /** The call on a peer channel that an invoke becomes. */
  function CallOf(x: C.Sent, action: string, input: PeerEnd.Value): PeerEnd.Call {
    PeerEnd.Call(x.deviceID, x.serviceID, action, input, Some(x.billingKey))
  }

  /** The request to the main thread that an invoke becomes. */
  function RequestOf(x: C.Sent, tool: string): R.Request { R.Request(Some(x.appKey), Some(x.billingKey), x.deviceID, tool) }

  /** Its caller has a key, or nothing else asked for has its target's cache key. */
  ghost predicate OwnPayer(asks: seq<C.Step>, x: C.Sent) { x.handle.caller.Some? || C.Alone(asks, x.handle.wanted) }

  lemma {:induction false} SentWithOwnKey(asks: seq<C.Step>, i: nat)
    requires i < |C.Exec(asks).sent| && OwnPayer(asks, C.Exec(asks).sent[i])
    ensures C.Exec(asks).sent[i].billingKey == PayerOf(C.Exec(asks).sent[i].handle)
  {
    var x := C.Exec(asks).sent[i];
    if x.handle.caller.Some? { C.CallerPays(asks, i); } else { C.InvokesKeepIdentities(asks, i); }
  }

  /**
   Over every run of a device's handlers and every run of a channel, whatever else is under way on
   both: a hop that carries an invoke is charged to that invoke's own caller, or to the identity it
   acts as if the caller has no key; never to the identity the channel was granted to.
   */
  lemma {:induction false} DirectHopPaidByCaller(
    asks: seq<C.Step>, i: nat, capA: Option<nat>, capB: Option<nat>, grantKey: Option<string>, steps: seq<H.BillStep>, c: nat,
    action: string, input: PeerEnd.Value)
    requires i < |C.Exec(asks).sent| && OwnPayer(asks, C.Exec(asks).sent[i])
    requires var s := H.Exec(H.Start(capA, capB, grantKey), steps);
      c < |s.ledger.charges| && s.ledger.charges[c].request.call == CallOf(C.Exec(asks).sent[i], action, input)
    ensures H.Exec(H.Start(capA, capB, grantKey), steps).ledger.charges[c].key == PayerOf(C.Exec(asks).sent[i].handle)
  {
    SentWithOwnKey(asks, i);
    H.ChargedOnceToOwnKey(capA, capB, grantKey, steps, c);
  }

  /** The same over every run of hops through the main thread. */
  lemma {:induction false} RoutedHopPaidByCaller(asks: seq<C.Step>, i: nat, metered: bool, steps: seq<R.Step>, c: nat, tool: string)
    requires i < |C.Exec(asks).sent| && OwnPayer(asks, C.Exec(asks).sent[i])
    requires var s := R.Exec(metered, steps);
      c < |s.charges| && s.charges[c].hop < |s.hops| && s.hops[s.charges[c].hop].request == RequestOf(C.Exec(asks).sent[i], tool)
    ensures R.Exec(metered, steps).charges[c].key == PayerOf(C.Exec(asks).sent[i].handle)
  {
    SentWithOwnKey(asks, i);
    R.ChargedOnceToOwnKey(metered, steps, c);
  }
}
