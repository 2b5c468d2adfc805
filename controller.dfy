/** The firmware's control flow: the scan callback that picks the target
    device out of the advertisements, and the main loop that connects to it
    whenever a match is pending. Both work on three globals, `doConnect`,
    `connected` and `pServerAddress`; the callback and each pass of the loop
    are modelled as atomic steps that interleave in any order. */
module Controller {
  import opened Common
  import opened Decoder
  import opened Registry
  import opened Session

  /** One advertisement the scan delivers: its name, when it has one, and
      the device address. */
  datatype Advertisement = Advertisement(name: Option<string>, address: Address)

  /** The three globals. `serverAddress` is None until a match stores one. */
  datatype Globals = Globals(doConnect: bool, connected: bool, serverAddress: Option<Address>)

  /** What the program keeps true: a pending connection has an address. */
  predicate Consistent(g: Globals)
  {
    g.doConnect ==> g.serverAddress.Some?
  }

  /** The globals at start-up. */
  function Initial(): (g: Globals)
    ensures Consistent(g) && !g.doConnect && !g.connected
  {
    Globals(false, false, None)
  }

  /** The name test of `onResult`: a name, and exactly one of the two
      spellings the device uses. */
  predicate IsTarget(ad: Advertisement)
  {
    ad.name.Some? && (ad.name.value == "Storz&Bickel" || ad.name.value == "STORZ&BICKEL")
  }

  /** What the callback does with `ad`: the new globals, and whether it asks
      the scan to stop. */
  function Callback(g: Globals, ad: Advertisement): (Globals, bool)
  {
    if IsTarget(ad) then (g.(serverAddress := Some(ad.address), doConnect := true), true)
    else (g, false)
  }

  /** One pass of `loop` against peer `p`: the new globals, and what
      `connectToServer` did, if it ran. */
  function Step(g: Globals, p: Peer): (Globals, seq<Event>)
    requires Consistent(g)
  {
    if !g.doConnect then (g, [])
    else
      var r := Attempt(UuidTable(), g.serverAddress.value, p);
      (g.(connected := g.connected || r.ok, doConnect := false), r.trace)
  }

  /** What can happen between two observations: an advertisement arrives,
      or `loop` runs once while the peer behaves as `p`. */
  datatype Input = Advertised(ad: Advertisement) | Tick(p: Peer)

  /** The globals after `inputs`, in order. */
  function Run(g: Globals, inputs: seq<Input>): (r: Globals)
    requires Consistent(g)
    ensures Consistent(r)
  {
    if |inputs| == 0 then g
    else
      var before := Run(g, inputs[..|inputs| - 1]);
      match inputs[|inputs| - 1]
      case Advertised(ad) => Callback(before, ad).0
      case Tick(p) => Step(before, p).0
  }

  /** The globals and the two entry points that change them. */
  class Controller {
    var doConnect: bool
    var connected: bool
    var serverAddress: Option<Address>

    /** The globals as a value. */
    function Snapshot(): Globals
      reads this
    {
      Globals(doConnect, connected, serverAddress)
    }

    /** Start-up state: nothing pending, nothing connected. */
    constructor()
      ensures Snapshot() == Initial() && Consistent(Snapshot())
    {
      doConnect := false;
      connected := false;
      serverAddress := None;
    }

    /** `MyAdvertisedDeviceCallbacks::onResult`. */
    method OnResult(ad: Advertisement) returns (stopScan: bool)
      requires Consistent(Snapshot())
      modifies this
      ensures (Snapshot(), stopScan) == Callback(old(Snapshot()), ad)
      ensures Consistent(Snapshot())
    {
      stopScan := false;
      if ad.name.Some? {
        var deviceName := ad.name.value;
        if deviceName == "Storz&Bickel" || deviceName == "STORZ&BICKEL" {
          stopScan := true;
          serverAddress := Some(ad.address);
          doConnect := true;
        }
      }
    }

    /** `loop`: run a pending connection attempt, then clear the request. */
    method Loop(p: Peer) returns (trace: seq<Event>)
      requires Consistent(Snapshot())
      modifies this
      ensures (Snapshot(), trace) == Step(old(Snapshot()), p)
      ensures Consistent(Snapshot())
    {
      trace := [];
      if doConnect {
        var ok;
        ok, trace := ConnectToServer(UuidTable(), serverAddress.value, p);
        if ok {
          connected := true;
        }
        doConnect := false;
      }
    }
  }

  /** An advertisement without a name, or with any other name, changes no
      global and does not stop the scan. */
  lemma NonMatchIgnored(g: Globals, ad: Advertisement)
    requires ad.name.None? || (ad.name.value != "Storz&Bickel" && ad.name.value != "STORZ&BICKEL")
    ensures Callback(g, ad).0 == g && !Callback(g, ad).1
  {
  }

  /** A match stops the scan, records the advertised address and requests a
      connection, leaving `connected` as it was. */
  lemma MatchEffects(g: Globals, ad: Advertisement)
    requires IsTarget(ad)
    ensures Callback(g, ad).1
    ensures Callback(g, ad).0.serverAddress == Some(ad.address)
    ensures Callback(g, ad).0.doConnect && Consistent(Callback(g, ad).0)
    ensures Callback(g, ad).0.connected == g.connected
  {
  }

  /** Nothing guards a second match: the later address replaces the first. */
  lemma LaterMatchWins(g: Globals, first: Advertisement, second: Advertisement)
    requires IsTarget(first) && IsTarget(second)
    ensures Callback(Callback(g, first).0, second).0.serverAddress == Some(second.address)
    ensures Callback(Callback(g, first).0, second).0 == Callback(g, second).0
  {
  }

  /** After any pass of `loop` no connection is pending. */
  lemma StepClearsPending(g: Globals, p: Peer)
    requires Consistent(g)
    ensures !Step(g, p).0.doConnect
  {
  }

  /** A pass with a connection pending connects to the recorded address and
      sets `connected` exactly when `connectToServer` returns true; a failed
      attempt leaves `connected` as it was. */
  lemma StepConnects(g: Globals, p: Peer)
    requires Consistent(g) && g.doConnect
    ensures Step(g, p).1 == Attempt(UuidTable(), g.serverAddress.value, p).trace
    ensures Step(g, p).1[0] == Connect(g.serverAddress.value)
    ensures Step(g, p).0.connected <==> g.connected || Attempt(UuidTable(), g.serverAddress.value, p).ok
    ensures Step(g, p).0.serverAddress == g.serverAddress
  {
    UuidTableValid();
    AttemptSucceedsIff(UuidTable(), g.serverAddress.value, p);
  }

  /** A pass with nothing pending changes no global and does nothing. */
  lemma IdleStep(g: Globals, p: Peer)
    requires Consistent(g) && !g.doConnect
    ensures Step(g, p) == (g, [])
  {
  }

  /** Once connected, always connected: nothing resets the flag. */
  lemma {:induction false} ConnectedStays(g: Globals, inputs: seq<Input>)
    requires Consistent(g) && g.connected
    ensures Run(g, inputs).connected
  {
    if |inputs| > 0 {
      ConnectedStays(g, inputs[..|inputs| - 1]);
    }
  }

  /** The pending flag and `connected` start from the target's
      advertisement: if either holds at the end of `inputs`, it held at the
      start or some advertisement in `inputs` was the target's. */
  lemma {:induction false} FlagsNeedTarget(g: Globals, inputs: seq<Input>)
    requires Consistent(g)
    ensures Run(g, inputs).doConnect || Run(g, inputs).connected ==>
      g.doConnect || g.connected || exists i :: 0 <= i < |inputs| && inputs[i].Advertised? && IsTarget(inputs[i].ad)
  {
    if |inputs| > 0 {
      var init := inputs[..|inputs| - 1];
      FlagsNeedTarget(g, init);
      var before := Run(g, init);
      if Run(g, inputs).doConnect || Run(g, inputs).connected {
        if before.doConnect || before.connected {
          if !(g.doConnect || g.connected) {
            var i :| 0 <= i < |init| && init[i].Advertised? && IsTarget(init[i].ad);
            assert inputs[i] == init[i];
          }
        } else {
          assert inputs[|inputs| - 1].Advertised? && IsTarget(inputs[|inputs| - 1].ad);
        }
      }
    }
  }

  /** From start-up, the device is connected only after the target has
      advertised. */
  lemma ConnectedNeedsTarget(inputs: seq<Input>)
    ensures Run(Initial(), inputs).connected ==>
      exists i :: 0 <= i < |inputs| && inputs[i].Advertised? && IsTarget(inputs[i].ad)
  {
    FlagsNeedTarget(Initial(), inputs);
  }

  /** A device announcing itself as "Storz&Bickel" that accepts the
      connection, offers the service and holds 100 in its readable
      temperature characteristic: one pass of `loop` connects, and reports
      the temperature as the integer 100. */
  lemma TemperatureScenario(address: Address, p: Peer)
    requires p.accepts && "00000001-4c45-4b43-4942-265a524f5453" in p.services
    requires "00000011-4c45-4b43-4942-265a524f5453" in p.characteristics
    requires "00000011-4c45-4b43-4942-265a524f5453" in p.readable
    requires "00000011-4c45-4b43-4942-265a524f5453" in p.values
    requires p.values["00000011-4c45-4b43-4942-265a524f5453"] == [0x64, 0x00]
    ensures Run(Initial(), [Advertised(Advertisement(Some("Storz&Bickel"), address)), Tick(p)]).connected
    ensures Report("TemperatureUuid", Integer(100)) in
      Step(Callback(Initial(), Advertisement(Some("Storz&Bickel"), address)).0, p).1
  {
    var ad := Advertisement(Some("Storz&Bickel"), address);
    var inputs := [Advertised(ad), Tick(p)];
    assert inputs[..1] == [Advertised(ad)];
    assert inputs[..1][..0] == [];
    var g := Callback(Initial(), ad).0;
    assert Run(Initial(), inputs[..1]) == g;
    assert Run(Initial(), inputs) == Step(g, p).0;
    UuidTableValid();
    TableLookup(3);
    AttemptSucceedsIff(UuidTable(), address, p);
    ReportsExactlyReadable(UuidTable(), address, p, "TemperatureUuid", Integer(100));
    IntegerExamples();
  }
}
