/** What the device objects of a simulation have received. */
module OwnCalls {
  import opened Wire
  import opened GatewayModel
  import opened SystemModel
  import opened EndToEnd
  import opened SimObjects
  import opened SimulationObjects

  lemma {:induction false} CallFrom<D>(made: seq<Delivery<D>>, device: D, i: nat) returns (j: nat)
    requires i < |CallsTo(made, device)|
    ensures j < |made| && made[j].device == device && made[j].call == CallsTo(made, device)[i]
  {
    if made[0].device != device {
      j := CallFrom(made[1..], device, i);
      j := j + 1;
    } else if i == 0 {
      j := 0;
    } else {
      j := CallFrom(made[1..], device, i - 1);
      j := j + 1;
    }
  }

  /**
   At any time in the life of a simulation, every call a device has received
   answers a session that this very device opened, under the id it was given, and
   is for the client it opened the session for.
   */
  lemma {:induction false} OwnCallsOnly(sim: Simulation, device: GwSimDevice, i: nat) returns (g: SessionId)
    requires sim.Valid() && device in sim.ids && i < |device.received|
    ensures g < |sim.senders| && g < |sim.gateway.sessions|
    ensures sim.senders[g] == device
    ensures sim.gateway.sessions[g].key.device == device.deviceId
    ensures sim.gateway.sessions[g].key.client == device.received[i].client
  {
    var j := CallFrom(sim.delivered, device, i);
    NoMisdelivery(sim.h, sim.history, j);
    g := sim.delivered[j].session;
  }
}
