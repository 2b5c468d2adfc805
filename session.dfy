/** One run of `connectToServer`: connect, find the primary service, then
    look up and read every characteristic the field table names, in the
    table's own key order. The BLE stack is an abstract peer value, and what
    the function does is recorded as a trace of events. */
module Session {
  import opened Common
  import opened Strings
  import opened Decoder
  import opened Registry

  /** A device address, as the scan reported it. */
  type Address = seq<byte>

  /** How the remote peripheral answers the client's requests. */
  datatype Peer = Peer(
    accepts: bool,                   // what `connect` returns
    services: set<string>,           // service UUIDs `getService` finds
    characteristics: set<string>,    // characteristic UUIDs `getCharacteristic` finds
    readable: set<string>,           // characteristics whose `canRead` is true
    values: map<string, seq<byte>>)  // what `readValue` returns

  /** The bytes a read of characteristic `uuid` returns; empty when the peer
      has none on record. */
  function ValueOf(p: Peer, uuid: string): seq<byte>
  {
    if uuid in p.values then p.values[uuid] else []
  }

  /** What the session does, in order. */
  datatype Event =
    | Connect(address: Address)
    | FindService(uuid: string)
    | FindCharacteristic(name: string, uuid: string)
    | Read(uuid: string)
    | Report(name: string, value: Value)
    | Disconnect

  /** The value `connectToServer` returns, along with what it did. */
  datatype Outcome = Outcome(ok: bool, trace: seq<Event>)

  /** One pass of the loop body, for the table entry `name`. */
  function FieldEvents(t: StringMap, p: Peer, name: string): seq<Event>
    requires name in t.values
  {
    var uuid := t.values[name];
    [FindCharacteristic(name, uuid)] +
    if uuid !in p.characteristics || uuid !in p.readable then []
    else [Read(uuid), Report(name, Decode(name, ValueOf(p, uuid)))]
  }

  /** The loop over the entries `keys`, in that order. */
  function FieldsEvents(t: StringMap, p: Peer, keys: seq<string>): seq<Event>
    requires forall k :: k in keys ==> k in t.values
  {
    if |keys| == 0 then []
    else FieldsEvents(t, p, keys[..|keys| - 1]) + FieldEvents(t, p, keys[|keys| - 1])
  }

  /** `connectToServer` with field table `t`, against peer `p` at `address`. */
  function Attempt(t: StringMap, address: Address, p: Peer): Outcome
    requires t.KeysHaveValues()
  {
    var service := t.Subscript(ServiceKey);
    if !p.accepts then
      Outcome(false, [Connect(address)])
    else if service !in p.services then
      Outcome(false, [Connect(address), FindService(service), Disconnect])
    else
      Outcome(true, [Connect(address), FindService(service)] + FieldsEvents(t, p, t.keys))
  }

  /** `connectToServer`: a sequence of steps with two early exits, then a
      loop over the table that skips a characteristic it cannot find or
      cannot read. */
  method ConnectToServer(t: StringMap, address: Address, p: Peer) returns (ok: bool, trace: seq<Event>)
    requires t.KeysHaveValues()
    ensures Outcome(ok, trace) == Attempt(t, address, p)
  {
    trace := [Connect(address)];
    if !p.accepts {
      return false, trace;
    }
    var service := t.Subscript(ServiceKey);
    trace := trace + [FindService(service)];
    if service !in p.services {
      trace := trace + [Disconnect];
      return false, trace;
    }
    for i := 0 to |t.keys|
      invariant trace == [Connect(address), FindService(service)] + FieldsEvents(t, p, t.keys[..i])
    {
      var name := t.keys[i];
      var uuid := t.values[name];
      FieldsEventsStep(t, p, t.keys, i);
      trace := trace + [FindCharacteristic(name, uuid)];
      if uuid !in p.characteristics {
        continue;
      }
      if uuid in p.readable {
        var raw := ValueOf(p, uuid);
        trace := trace + [Read(uuid), Report(name, Decode(name, raw))];
      }
    }
    assert t.keys[..|t.keys|] == t.keys;
    return true, trace;
  }

  /** The loop over a prefix one entry longer adds that entry's pass. */
  lemma FieldsEventsStep(t: StringMap, p: Peer, keys: seq<string>, i: nat)
    requires forall k :: k in keys ==> k in t.values
    requires i < |keys|
    ensures FieldsEvents(t, p, keys[..i + 1]) == FieldsEvents(t, p, keys[..i]) + FieldEvents(t, p, keys[i])
  {
    assert keys[..i + 1][..i] == keys[..i];
  }

  /** The entries looked up, in the order of their lookups. */
  function LookedUp(tr: seq<Event>): (r: seq<string>)
    ensures |r| <= |tr|
  {
    if |tr| == 0 then []
    else LookedUp(tr[..|tr| - 1]) + if tr[|tr| - 1].FindCharacteristic? then [tr[|tr| - 1].name] else []
  }

  /** The entries reported, in the order of their reports. */
  function Reported(tr: seq<Event>): (r: seq<string>)
    ensures |r| <= |tr|
  {
    if |tr| == 0 then []
    else Reported(tr[..|tr| - 1]) + if tr[|tr| - 1].Report? then [tr[|tr| - 1].name] else []
  }

  /** The entries of `keys` whose characteristic the peer has and can read,
      in the order of `keys`. */
  function ReadableKeys(t: StringMap, p: Peer, keys: seq<string>): (r: seq<string>)
    requires forall k :: k in keys ==> k in t.values
    ensures forall k :: k in r ==> k in keys
  {
    if |keys| == 0 then []
    else
      ReadableKeys(t, p, keys[..|keys| - 1]) +
      if t.values[keys[|keys| - 1]] in p.characteristics && t.values[keys[|keys| - 1]] in p.readable
      then [keys[|keys| - 1]] else []
  }

  /** Both filters distribute over concatenation. */
  lemma {:induction false} FiltersOfConcat(a: seq<Event>, b: seq<Event>)
    ensures LookedUp(a + b) == LookedUp(a) + LookedUp(b)
    ensures Reported(a + b) == Reported(a) + Reported(b)
    decreases |b|
  {
    if |b| > 0 {
      var b' := b[..|b| - 1];
      assert (a + b)[..|a + b| - 1] == a + b';
      FiltersOfConcat(a, b');
    } else {
      assert a + b == a;
    }
  }

  /** The two events before the loop look up and report nothing. */
  lemma HeadFilters(address: Address, service: string)
    ensures LookedUp([Connect(address), FindService(service)]) == []
    ensures Reported([Connect(address), FindService(service)]) == []
  {
    var head := [Connect(address), FindService(service)];
    assert head[..1][..0] == [];
  }

  /** One pass looks up its entry, and reports it when the characteristic
      exists and is readable. */
  lemma FieldFilters(t: StringMap, p: Peer, k: string)
    requires k in t.values
    ensures LookedUp(FieldEvents(t, p, k)) == [k]
    ensures Reported(FieldEvents(t, p, k)) ==
      if t.values[k] in p.characteristics && t.values[k] in p.readable then [k] else []
  {
    var uuid := t.values[k];
    var find := [FindCharacteristic(k, uuid)];
    assert find[..0] == [];
    if uuid in p.characteristics && uuid in p.readable {
      var tail := [Read(uuid), Report(k, Decode(k, ValueOf(p, uuid)))];
      FiltersOfConcat(find, tail);
      assert tail[..1] == [Read(uuid)];
      assert [Read(uuid)][..0] == [];
    }
  }

  /** What the loop over `keys` looks up and reports. */
  lemma {:induction false} FieldsFilters(t: StringMap, p: Peer, keys: seq<string>)
    requires forall k :: k in keys ==> k in t.values
    ensures LookedUp(FieldsEvents(t, p, keys)) == keys
    ensures Reported(FieldsEvents(t, p, keys)) == ReadableKeys(t, p, keys)
  {
    if |keys| > 0 {
      var init := keys[..|keys| - 1];
      var k := keys[|keys| - 1];
      assert keys == init + [k];
      assert forall x :: x in init ==> x in keys;
      FieldsFilters(t, p, init);
      FieldFilters(t, p, k);
      var a, b := FieldsEvents(t, p, init), FieldEvents(t, p, k);
      assert FieldsEvents(t, p, keys) == a + b;
      FiltersOfConcat(a, b);
    }
  }

  /** A report in the loop over `keys` names an entry of `keys` whose
      characteristic the peer has and can read, and carries the decoded
      read value; every such entry is reported. */
  lemma {:induction false} FieldsReports(t: StringMap, p: Peer, keys: seq<string>, name: string, v: Value)
    requires forall k :: k in keys ==> k in t.values
    ensures Report(name, v) in FieldsEvents(t, p, keys) <==>
      name in keys && t.values[name] in p.characteristics && t.values[name] in p.readable &&
      v == Decode(name, ValueOf(p, t.values[name]))
  {
    if |keys| > 0 {
      var init := keys[..|keys| - 1];
      FieldsReports(t, p, init, name, v);
      assert keys == init + [keys[|keys| - 1]];
    }
  }

  /** A read in the loop over `keys` is of a characteristic some entry of
      `keys` names, that the peer has and can read. */
  lemma {:induction false} FieldsReads(t: StringMap, p: Peer, keys: seq<string>, uuid: string)
    requires forall k :: k in keys ==> k in t.values
    ensures Read(uuid) in FieldsEvents(t, p, keys) <==>
      uuid in p.characteristics && uuid in p.readable && exists k :: k in keys && t.values[k] == uuid
  {
    if |keys| > 0 {
      var init := keys[..|keys| - 1];
      var last := keys[|keys| - 1];
      FieldsReads(t, p, init, uuid);
      assert keys == init + [last];
      if uuid in p.characteristics && uuid in p.readable && exists k :: k in keys && t.values[k] == uuid {
        var k :| k in keys && t.values[k] == uuid;
        if k != last {
          assert k in init;
        }
      }
    }
  }

  /** A lookup in the loop over `keys` is of an entry of `keys`, by the UUID
      the table holds for it. */
  lemma {:induction false} FieldsLookups(t: StringMap, p: Peer, keys: seq<string>, e: Event)
    requires forall k :: k in keys ==> k in t.values
    requires e in FieldsEvents(t, p, keys) && e.FindCharacteristic?
    ensures e.name in keys && e.uuid == t.values[e.name]
  {
    var init := keys[..|keys| - 1];
    if e in FieldsEvents(t, p, init) {
      FieldsLookups(t, p, init, e);
    }
  }

  /** The loop over `keys` never disconnects, connects or looks up a
      service. */
  lemma {:induction false} FieldsStayConnected(t: StringMap, p: Peer, keys: seq<string>)
    requires forall k :: k in keys ==> k in t.values
    ensures forall e :: e in FieldsEvents(t, p, keys) ==> !e.Disconnect? && !e.Connect? && !e.FindService?
  {
    if |keys| > 0 {
      FieldsStayConnected(t, p, keys[..|keys| - 1]);
    }
  }

  /** `connectToServer` returns true exactly when the peer accepts the
      connection and offers the primary service; either way it first
      connects. */
  lemma AttemptSucceedsIff(t: StringMap, address: Address, p: Peer)
    requires t.Valid()
    ensures Attempt(t, address, p).ok <==> p.accepts && t.Subscript(ServiceKey) in p.services
    ensures Attempt(t, address, p).trace[0] == Connect(address)
  {
  }

  /** A refused connection ends the session at once: false, no lookup of
      any kind, no disconnect. */
  lemma ConnectFailure(t: StringMap, address: Address, p: Peer)
    requires t.Valid() && !p.accepts
    ensures !Attempt(t, address, p).ok
    ensures Attempt(t, address, p).trace == [Connect(address)]
    ensures LookedUp(Attempt(t, address, p).trace) == []
  {
    assert [Connect(address)][..0] == [];
  }

  /** A missing primary service: one service lookup, exactly one
      disconnect, false, and no characteristic looked up. */
  lemma ServiceMissing(t: StringMap, address: Address, p: Peer)
    requires t.Valid() && p.accepts && t.Subscript(ServiceKey) !in p.services
    ensures !Attempt(t, address, p).ok
    ensures Attempt(t, address, p).trace == [Connect(address), FindService(t.Subscript(ServiceKey)), Disconnect]
    ensures LookedUp(Attempt(t, address, p).trace) == []
  {
    var tr := [Connect(address), FindService(t.Subscript(ServiceKey)), Disconnect];
    HeadFilters(address, t.Subscript(ServiceKey));
    assert tr[..2] == [Connect(address), FindService(t.Subscript(ServiceKey))];
  }

  /** With the service found, every table entry is looked up exactly once,
      in ascending key order, and the result is true whatever the peer does
      with the characteristics. */
  lemma LookupsInKeyOrder(t: StringMap, address: Address, p: Peer)
    requires t.Valid() && p.accepts && t.Subscript(ServiceKey) in p.services
    ensures Attempt(t, address, p).ok
    ensures LookedUp(Attempt(t, address, p).trace) == t.keys
    ensures Ascending(LookedUp(Attempt(t, address, p).trace))
    ensures forall k :: k in t.values <==> k in LookedUp(Attempt(t, address, p).trace)
    ensures forall i, j :: 0 <= i < j < |t.keys| ==> LookedUp(Attempt(t, address, p).trace)[i] != LookedUp(Attempt(t, address, p).trace)[j]
  {
    FieldsFilters(t, p, t.keys);
    FiltersOfConcat([Connect(address), FindService(t.Subscript(ServiceKey))], FieldsEvents(t, p, t.keys));
    HeadFilters(address, t.Subscript(ServiceKey));
    forall i, j | 0 <= i < j < |t.keys|
      ensures t.keys[i] != t.keys[j]
    {
      AscendingPairwise(t.keys, i, j);
    }
  }

  /** With the service found, each lookup asks for the UUID the table holds
      for its entry. */
  lemma LookupUuids(t: StringMap, address: Address, p: Peer, e: Event)
    requires t.Valid() && p.accepts && t.Subscript(ServiceKey) in p.services
    requires e in Attempt(t, address, p).trace && e.FindCharacteristic?
    ensures e.name in t.values && e.uuid == t.values[e.name]
  {
    FieldsLookups(t, p, t.keys, e);
  }

  /** With the service found, exactly the readable characteristics that
      exist are reported, each with its decoded value, and in key order. */
  lemma ReportsExactlyReadable(t: StringMap, address: Address, p: Peer, name: string, v: Value)
    requires t.Valid() && p.accepts && t.Subscript(ServiceKey) in p.services
    ensures Report(name, v) in Attempt(t, address, p).trace <==>
      name in t.values && t.values[name] in p.characteristics && t.values[name] in p.readable &&
      v == Decode(name, ValueOf(p, t.values[name]))
    ensures Reported(Attempt(t, address, p).trace) == ReadableKeys(t, p, t.keys)
  {
    FieldsReports(t, p, t.keys, name, v);
    FieldsFilters(t, p, t.keys);
    FiltersOfConcat([Connect(address), FindService(t.Subscript(ServiceKey))], FieldsEvents(t, p, t.keys));
    HeadFilters(address, t.Subscript(ServiceKey));
  }

  /** With the service found, a characteristic is read exactly when the peer
      has it and can read it and the table names it; a missing or unreadable
      one is skipped. */
  lemma ReadsExactlyReadable(t: StringMap, address: Address, p: Peer, uuid: string)
    requires t.Valid() && p.accepts && t.Subscript(ServiceKey) in p.services
    ensures Read(uuid) in Attempt(t, address, p).trace <==>
      uuid in p.characteristics && uuid in p.readable && uuid in t.values.Values
  {
    FieldsReads(t, p, t.keys, uuid);
  }

  /** The success path never disconnects. */
  lemma NoDisconnectOnSuccess(t: StringMap, address: Address, p: Peer)
    requires t.Valid() && Attempt(t, address, p).ok
    ensures Disconnect !in Attempt(t, address, p).trace
  {
    FieldsStayConnected(t, p, t.keys);
  }

  /** With `uuidMap` itself: once connected, the session looks up the
      primary service by the UUID stored under "ServiceUuid", and once it is
      found it looks up all 35 fields, "ServiceUuid" among them, in
      ascending key order. */
  lemma UuidMapSession(address: Address, p: Peer)
    ensures UuidTable().Valid()
    ensures p.accepts ==>
      Attempt(UuidTable(), address, p).trace[1] == FindService("00000001-4c45-4b43-4942-265a524f5453")
    ensures Attempt(UuidTable(), address, p).ok ==>
      LookedUp(Attempt(UuidTable(), address, p).trace) == OrderedKeys() &&
      |LookedUp(Attempt(UuidTable(), address, p).trace)| == 35 &&
      ServiceKey in LookedUp(Attempt(UuidTable(), address, p).trace)
  {
    UuidTableValid();
    ServiceEntry();
    RegistryEnumeration();
    if Attempt(UuidTable(), address, p).ok {
      LookupsInKeyOrder(UuidTable(), address, p);
    }
  }
}
