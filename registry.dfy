/** The field registry: the `uuidMap` table that names every characteristic
    the firmware reads, and the order in which `std::map` hands its entries
    out. */
module Registry {
  import opened Strings
  import opened Decoder

  /** One line of the table's initializer list: field name and UUID string. */
  type Entry = (string, string)

  /** Line `i` of the initializer list of `uuidMap`, in the order it is written. */
  function EntryAt(i: nat): Entry
    requires i < 35
  {
    match i
    case 0 => ("ServiceUuid", "00000001-4c45-4b43-4942-265a524f5453")
    case 1 => ("MetaDataUuid", "00000002-4c45-4b43-4942-265a524f5453")
    case 2 => ("MiscDataUuid", "00000003-4c45-4b43-4942-265a524f5453")
    case 3 => ("TemperatureUuid", "00000011-4c45-4b43-4942-265a524f5453")
    case 4 => ("SetPointUuid", "00000021-4c45-4b43-4942-265a524f5453")
    case 5 => ("BoostUuid", "00000031-4c45-4b43-4942-265a524f5453")
    case 6 => ("BatteryUuid", "00000041-4c45-4b43-4942-265a524f5453")
    case 7 => ("LedUuid", "00000051-4c45-4b43-4942-265a524f5453")
    case 8 => ("ModelUuid", "00000022-4c45-4b43-4942-265a524f5453")
    case 9 => ("VersionUuid", "00000032-4c45-4b43-4942-265a524f5453")
    case 10 => ("SerialUuid", "00000052-4c45-4b43-4942-265a524f5453")
    case 11 => ("HoursOfOperationUuid", "00000023-4c45-4b43-4942-265a524f5453")
    case 12 => ("SettingsUuid", "000001c3-4c45-4b43-4942-265a524f5453")
    case 13 => ("PowerUuid", "00000063-4c45-4b43-4942-265a524f5453")
    case 14 => ("ChargingUuid", "000000a3-4c45-4b43-4942-265a524f5453")
    case 15 => ("PowerBoostHeatStateUuid", "00000093-4c45-4b43-4942-265a524f5453")
    case 16 => ("BatteryRemainingUuid", "00000153-4c45-4b43-4942-265a524f5453")
    case 17 => ("BatteryCapacityUuid", "00000143-4c45-4b43-4942-265a524f5453")
    case 18 => ("BatteryDesignCapacityUuid", "00000183-4c45-4b43-4942-265a524f5453")
    case 19 => ("DischargeCyclesUuid", "00000163-4c45-4b43-4942-265a524f5453")
    case 20 => ("ChargeCyclesUuid", "00000173-4c45-4b43-4942-265a524f5453")
    case 21 => ("HardwareIdUuid", "00000033-4c45-4b43-4942-265a524f5453")
    case 22 => ("SNHardwareUuid", "00000053-4c45-4b43-4942-265a524f5453")
    case 23 => ("BluetoothAddressUuid", "00000042-4c45-4b43-4942-265a524f5453")
    case 24 => ("PCBVersionUuid", "00000043-4c45-4b43-4942-265a524f5453")
    case 25 => ("CurrentTemperaturePT1000Uuid", "000000f3-4c45-4b43-4942-265a524f5453")
    case 26 => ("AdjustedCurrentTemperaturePT1000Uuid", "00000103-4c45-4b43-4942-265a524f5453")
    case 27 => ("AccuTemperatureUuid", "00000113-4c45-4b43-4942-265a524f5453")
    case 28 => ("AccuTemperatureMinUuid", "00000123-4c45-4b43-4942-265a524f5453")
    case 29 => ("AccuTemperatureMaxUuid", "00000133-4c45-4b43-4942-265a524f5453")
    case 30 => ("OperatingTimeAccuUuid", "00000013-4c45-4b43-4942-265a524f5453")
    case 31 => ("VoltageAccuUuid", "000000b3-4c45-4b43-4942-265a524f5453")
    case 32 => ("VoltageMainsUuid", "000000c3-4c45-4b43-4942-265a524f5453")
    case 33 => ("VoltageHeatingUuid", "000000d3-4c45-4b43-4942-265a524f5453")
    case 34 => ("CurrentAccuUuid", "000000e3-4c45-4b43-4942-265a524f5453")
  }

  /** The initializer list. */
  function Entries(): seq<Entry>
  {
    seq(35, i requires 0 <= i < 35 => EntryAt(i))
  }

  /** The map that `std::map`'s initializer-list constructor builds: the
      entries are inserted in turn, and one whose key is already present is
      dropped. */
  function TableOf(es: seq<Entry>): map<string, string>
  {
    if |es| == 0 then map[]
    else
      var m := TableOf(es[..|es| - 1]);
      var e := es[|es| - 1];
      if e.0 in m then m else m[e.0 := e.1]
  }

  /** `uuidMap`. */
  const UuidMap: map<string, string> := TableOf(Entries())

  /** The key under which the primary service's UUID is stored. */
  const ServiceKey: string := "ServiceUuid"

  /** The keys in the order a range-for over the `std::map` visits them:
      ascending by character code. */
  function OrderedKeys(): seq<string>
  {
    seq(35, i requires 0 <= i < 35 => KeyAt(i))
  }

  /** The table's UUID strings in ascending order of character codes. */
  function OrderedUuids(): seq<string>
  {
    seq(35, i requires 0 <= i < 35 => UuidAt(i))
  }

  /** The names that mention "Temperature" or "Voltage". */
  const IntegerFieldNames: set<string> := {
    "TemperatureUuid",
    "CurrentTemperaturePT1000Uuid",
    "AdjustedCurrentTemperaturePT1000Uuid",
    "AccuTemperatureUuid",
    "AccuTemperatureMinUuid",
    "AccuTemperatureMaxUuid",
    "VoltageAccuUuid",
    "VoltageMainsUuid",
    "VoltageHeatingUuid"
  }

  /** A `std::map<std::string, std::string>` as its iteration sees it: the
      keys in the order a range-for visits them, and the value under each. */
  datatype StringMap = StringMap(keys: seq<string>, values: map<string, string>)
  {
    /** What every `std::map` keeps: the keys ascend, and they are exactly
        the keys that have a value. */
    predicate Valid()
    {
      Ascending(keys) && (forall k :: k in values ==> k in keys) && KeysHaveValues()
    }

    /** Each key the iteration visits has a value. */
    predicate KeysHaveValues()
    {
      forall k :: k in keys ==> k in values
    }

    /** `m[k]`: the stored value, or the empty string that `operator[]`
        inserts for a missing key. */
    function Subscript(k: string): string
    {
      if k in values then values[k] else ""
    }
  }

  /** `uuidMap` as the `std::map` it is. */
  function UuidTable(): (m: StringMap)
    ensures m.Valid()
  {
    RegistryEnumeration();
    OrderedKeysAscending();
    StringMap(OrderedKeys(), UuidMap)
  }

  /** `uuidMap` is a well-formed map whose iteration visits the key order,
      and `uuidMap["ServiceUuid"]` is the service UUID. */
  lemma UuidTableValid()
    ensures UuidTable().Valid() && |UuidTable().keys| == 35
    ensures UuidTable().Subscript(ServiceKey) == "00000001-4c45-4b43-4942-265a524f5453"
  {
    RegistryEnumeration();
    OrderedKeysAscending();
    ServiceEntry();
  }

  /** The table holds a key exactly when some line of the list has it. */
  lemma {:induction false} TableOfKeys(es: seq<Entry>, k: string)
    ensures k in TableOf(es) <==> exists j :: 0 <= j < |es| && es[j].0 == k
  {
    if |es| > 0 {
      var init := es[..|es| - 1];
      TableOfKeys(init, k);
      if k in TableOf(init) {
        var j :| 0 <= j < |init| && init[j].0 == k;
        assert es[j].0 == k;
      }
      if exists j :: 0 <= j < |es| && es[j].0 == k {
        var j :| 0 <= j < |es| && es[j].0 == k;
        if j < |init| {
          assert init[j].0 == k;
        }
      }
    }
  }

  /** Every pair the table holds is a line of the list. */
  lemma {:induction false} TableOfEntries(es: seq<Entry>, k: string)
    requires k in TableOf(es)
    ensures exists j :: 0 <= j < |es| && es[j] == (k, TableOf(es)[k])
  {
    var init := es[..|es| - 1];
    var e := es[|es| - 1];
    if k in TableOf(init) && (e.0 in TableOf(init) || k != e.0) {
      TableOfEntries(init, k);
      var j :| 0 <= j < |init| && init[j] == (k, TableOf(init)[k]);
      assert es[j] == init[j];
    } else {
      if k !in TableOf(init) {
        TableOfKeys(init, k);
        assert k == e.0;
      }
      assert es[|es| - 1] == (k, TableOf(es)[k]);
    }
  }

  /** Each line's key is a key of the table, and the table holds that line's
      UUID under it. */
  lemma TableLookup(j: nat)
    requires j < 35
    ensures Entries()[j].0 in UuidMap && UuidMap[Entries()[j].0] == Entries()[j].1
  {
    TableOfKeys(Entries(), Entries()[j].0);
    TableOfEntries(Entries(), Entries()[j].0);
    var j' :| 0 <= j' < |Entries()| && Entries()[j'] == (Entries()[j].0, UuidMap[Entries()[j].0]);
    EntryKeysDistinct();
  }

  /** No two lines of the list share a key. */
  lemma EntryKeysDistinct()
    ensures forall j1, j2 :: 0 <= j1 < j2 < 35 ==> Entries()[j1].0 != Entries()[j2].0
  {
    OrderedKeysAscending();
    forall j1, j2 | 0 <= j1 < j2 < 35
      ensures Entries()[j1].0 != Entries()[j2].0
    {
      EntryFacts(j1);
      EntryFacts(j2);
      if KeyRank(j1) < KeyRank(j2) {
        AscendingPairwise(OrderedKeys(), KeyRank(j1), KeyRank(j2));
      } else if KeyRank(j2) < KeyRank(j1) {
        AscendingPairwise(OrderedKeys(), KeyRank(j2), KeyRank(j1));
      }
    }
  }

  /** No two lines of the list share a UUID. */
  lemma EntryUuidsDistinct()
    ensures forall j1, j2 :: 0 <= j1 < j2 < 35 ==> Entries()[j1].1 != Entries()[j2].1
  {
    OrderedUuidsAscending();
    forall j1, j2 | 0 <= j1 < j2 < 35
      ensures Entries()[j1].1 != Entries()[j2].1
    {
      EntryFacts(j1);
      EntryFacts(j2);
      if UuidRank(j1) < UuidRank(j2) {
        AscendingPairwise(OrderedUuids(), UuidRank(j1), UuidRank(j2));
      } else if UuidRank(j2) < UuidRank(j1) {
        AscendingPairwise(OrderedUuids(), UuidRank(j2), UuidRank(j1));
      }
    }
  }

  /** The visiting order holds exactly the table's keys, each once. */
  lemma RegistryEnumeration()
    ensures |OrderedKeys()| == 35
    ensures forall k :: k in UuidMap <==> k in OrderedKeys()
    ensures forall i, j :: 0 <= i < j < |OrderedKeys()| ==> OrderedKeys()[i] != OrderedKeys()[j]
  {
    forall k
      ensures k in UuidMap <==> k in OrderedKeys()
    {
      TableOfKeys(Entries(), k);
      if k in UuidMap {
        var j :| 0 <= j < |Entries()| && Entries()[j].0 == k;
        EntryFacts(j);
      }
      if k in OrderedKeys() {
        var i :| 0 <= i < |OrderedKeys()| && OrderedKeys()[i] == k;
        KeyFacts(i);
        EntryFacts(EntryOfKeyRank(i));
        assert Entries()[EntryOfKeyRank(i)].0 == k;
      }
    }
    OrderedKeysAscending();
    forall i, j | 0 <= i < j < |OrderedKeys()|
      ensures OrderedKeys()[i] != OrderedKeys()[j]
    {
      AscendingPairwise(OrderedKeys(), i, j);
    }
  }

  /** The table has 35 entries. */
  lemma RegistrySize()
    ensures |UuidMap| == 35
  {
    RegistryEnumeration();
    DistinctCard(OrderedKeys());
    assert UuidMap.Keys == set k | k in OrderedKeys();
  }

  /** No two fields share a UUID. */
  lemma UuidsDistinct()
    ensures forall k1, k2 :: k1 in UuidMap && k2 in UuidMap && UuidMap[k1] == UuidMap[k2] ==> k1 == k2
  {
    forall k1, k2 | k1 in UuidMap && k2 in UuidMap && UuidMap[k1] == UuidMap[k2]
      ensures k1 == k2
    {
      TableOfEntries(Entries(), k1);
      TableOfEntries(Entries(), k2);
      var j1 :| 0 <= j1 < |Entries()| && Entries()[j1] == (k1, UuidMap[k1]);
      var j2 :| 0 <= j2 < |Entries()| && Entries()[j2] == (k2, UuidMap[k2]);
      EntryUuidsDistinct();
      assert j1 == j2;
    }
  }

  /** The service UUID is the table's own entry for "ServiceUuid", and the
      loop over the table visits that entry too. */
  lemma ServiceEntry()
    ensures ServiceKey in UuidMap && ServiceKey in OrderedKeys()
    ensures UuidMap[ServiceKey] == "00000001-4c45-4b43-4942-265a524f5453"
  {
    TableLookup(0);
    RegistryEnumeration();
  }

  /** Exactly the nine names in IntegerFieldNames take the integer path; the
      other 26, "SetPointUuid" among them, are shown as text. */
  lemma IntegerFieldsOfRegistry()
    ensures forall k :: k in UuidMap ==> (IsIntegerField(k) <==> k in IntegerFieldNames)
    ensures !IsIntegerField("SetPointUuid")
  {
    RegistryEnumeration();
    forall k | k in UuidMap
      ensures IsIntegerField(k) <==> k in IntegerFieldNames
    {
      var i :| 0 <= i < |OrderedKeys()| && OrderedKeys()[i] == k;
      KeyFacts(i);
    }
    KeyFacts(28);
  }

  /** Every integer field is a field of the table. */
  lemma IntegerFieldsAreTableKeys()
    ensures IntegerFieldNames <= UuidMap.Keys
  {
    forall k | k in IntegerFieldNames
      ensures k in UuidMap
    {

      if k == "TemperatureUuid" { IntegerFieldInTable0(); }
      else if k == "CurrentTemperaturePT1000Uuid" { IntegerFieldInTable1(); }
      else if k == "AdjustedCurrentTemperaturePT1000Uuid" { IntegerFieldInTable2(); }
      else if k == "AccuTemperatureUuid" { IntegerFieldInTable3(); }
      else if k == "AccuTemperatureMinUuid" { IntegerFieldInTable4(); }
      else if k == "AccuTemperatureMaxUuid" { IntegerFieldInTable5(); }
      else if k == "VoltageAccuUuid" { IntegerFieldInTable6(); }
      else if k == "VoltageMainsUuid" { IntegerFieldInTable7(); }
      else if k == "VoltageHeatingUuid" { IntegerFieldInTable8(); }
    }
  }

  /** Nine names are listed as integer fields. */
  lemma IntegerFieldCount()
    ensures |IntegerFieldNames| == 9
  {
  }

  /** Exactly nine of the table's fields take the integer path. */
  lemma NineIntegerFields()
    ensures (set k | k in UuidMap && IsIntegerField(k)) == IntegerFieldNames
    ensures |set k | k in UuidMap && IsIntegerField(k)| == 9
  {
    IntegerFieldsOfRegistry();
    IntegerFieldsAreTableKeys();
    IntegerFieldCount();
  }

  /** "OperatingTimeAccuUuid" has a capital T but not the word "Temperature". */
  lemma OperatingTimeIsNotTemperature()
    ensures !Contains("OperatingTimeAccuUuid", "Temperature")
  {
    var s := "OperatingTimeAccuUuid";
    forall i: nat | i <= |s|
      ensures !MatchesAt(s, "Temperature", i)
    {
      if i + 11 <= |s| {
        if i == 9 {
          assert s[i + 1] != "Temperature"[1];
        } else {
          assert s[i + 0] != "Temperature"[0];
        }
      }
    }
  }

  /** The key order is ascending. */
  lemma OrderedKeysAscending()
    ensures Ascending(OrderedKeys())
  {
    forall i | 0 <= i < |OrderedKeys()| - 1
      ensures LexLess(OrderedKeys()[i], OrderedKeys()[i + 1])
    {
      KeyFacts(i);
    }
  }

  /** The UUID order is ascending. */
  lemma OrderedUuidsAscending()
    ensures Ascending(OrderedUuids())
  {
    forall i | 0 <= i < |OrderedUuids()| - 1
      ensures LexLess(OrderedUuids()[i], OrderedUuids()[i + 1])
    {
      UuidFacts(i);
    }
  }

  /** The key at position `i` of the ascending key order. */
  function KeyAt(i: nat): string
    requires i < 35
  {
    match i
    case 0 => "AccuTemperatureMaxUuid"
    case 1 => "AccuTemperatureMinUuid"
    case 2 => "AccuTemperatureUuid"
    case 3 => "AdjustedCurrentTemperaturePT1000Uuid"
    case 4 => "BatteryCapacityUuid"
    case 5 => "BatteryDesignCapacityUuid"
    case 6 => "BatteryRemainingUuid"
    case 7 => "BatteryUuid"
    case 8 => "BluetoothAddressUuid"
    case 9 => "BoostUuid"
    case 10 => "ChargeCyclesUuid"
    case 11 => "ChargingUuid"
    case 12 => "CurrentAccuUuid"
    case 13 => "CurrentTemperaturePT1000Uuid"
    case 14 => "DischargeCyclesUuid"
    case 15 => "HardwareIdUuid"
    case 16 => "HoursOfOperationUuid"
    case 17 => "LedUuid"
    case 18 => "MetaDataUuid"
    case 19 => "MiscDataUuid"
    case 20 => "ModelUuid"
    case 21 => "OperatingTimeAccuUuid"
    case 22 => "PCBVersionUuid"
    case 23 => "PowerBoostHeatStateUuid"
    case 24 => "PowerUuid"
    case 25 => "SNHardwareUuid"
    case 26 => "SerialUuid"
    case 27 => "ServiceUuid"
    case 28 => "SetPointUuid"
    case 29 => "SettingsUuid"
    case 30 => "TemperatureUuid"
    case 31 => "VersionUuid"
    case 32 => "VoltageAccuUuid"
    case 33 => "VoltageHeatingUuid"
    case 34 => "VoltageMainsUuid"
  }

  /** The UUID at position `i` of the ascending UUID order. */
  function UuidAt(i: nat): string
    requires i < 35
  {
    match i
    case 0 => "00000001-4c45-4b43-4942-265a524f5453"
    case 1 => "00000002-4c45-4b43-4942-265a524f5453"
    case 2 => "00000003-4c45-4b43-4942-265a524f5453"
    case 3 => "00000011-4c45-4b43-4942-265a524f5453"
    case 4 => "00000013-4c45-4b43-4942-265a524f5453"
    case 5 => "00000021-4c45-4b43-4942-265a524f5453"
    case 6 => "00000022-4c45-4b43-4942-265a524f5453"
    case 7 => "00000023-4c45-4b43-4942-265a524f5453"
    case 8 => "00000031-4c45-4b43-4942-265a524f5453"
    case 9 => "00000032-4c45-4b43-4942-265a524f5453"
    case 10 => "00000033-4c45-4b43-4942-265a524f5453"
    case 11 => "00000041-4c45-4b43-4942-265a524f5453"
    case 12 => "00000042-4c45-4b43-4942-265a524f5453"
    case 13 => "00000043-4c45-4b43-4942-265a524f5453"
    case 14 => "00000051-4c45-4b43-4942-265a524f5453"
    case 15 => "00000052-4c45-4b43-4942-265a524f5453"
    case 16 => "00000053-4c45-4b43-4942-265a524f5453"
    case 17 => "00000063-4c45-4b43-4942-265a524f5453"
    case 18 => "00000093-4c45-4b43-4942-265a524f5453"
    case 19 => "000000a3-4c45-4b43-4942-265a524f5453"
    case 20 => "000000b3-4c45-4b43-4942-265a524f5453"
    case 21 => "000000c3-4c45-4b43-4942-265a524f5453"
    case 22 => "000000d3-4c45-4b43-4942-265a524f5453"
    case 23 => "000000e3-4c45-4b43-4942-265a524f5453"
    case 24 => "000000f3-4c45-4b43-4942-265a524f5453"
    case 25 => "00000103-4c45-4b43-4942-265a524f5453"
    case 26 => "00000113-4c45-4b43-4942-265a524f5453"
    case 27 => "00000123-4c45-4b43-4942-265a524f5453"
    case 28 => "00000133-4c45-4b43-4942-265a524f5453"
    case 29 => "00000143-4c45-4b43-4942-265a524f5453"
    case 30 => "00000153-4c45-4b43-4942-265a524f5453"
    case 31 => "00000163-4c45-4b43-4942-265a524f5453"
    case 32 => "00000173-4c45-4b43-4942-265a524f5453"
    case 33 => "00000183-4c45-4b43-4942-265a524f5453"
    case 34 => "000001c3-4c45-4b43-4942-265a524f5453"
  }

  /** Where the key of line `i` stands in the key order. */
  function KeyRank(i: nat): nat
    requires i < 35
  {
    match i
    case 0 => 27
    case 1 => 18
    case 2 => 19
    case 3 => 30
    case 4 => 28
    case 5 => 9
    case 6 => 7
    case 7 => 17
    case 8 => 20
    case 9 => 31
    case 10 => 26
    case 11 => 16
    case 12 => 29
    case 13 => 24
    case 14 => 11
    case 15 => 23
    case 16 => 6
    case 17 => 4
    case 18 => 5
    case 19 => 14
    case 20 => 10
    case 21 => 15
    case 22 => 25
    case 23 => 8
    case 24 => 22
    case 25 => 13
    case 26 => 3
    case 27 => 2
    case 28 => 1
    case 29 => 0
    case 30 => 21
    case 31 => 32
    case 32 => 34
    case 33 => 33
    case 34 => 12
  }

  /** The line whose key stands at position `i` of the key order. */
  function EntryOfKeyRank(i: nat): nat
    requires i < 35
  {
    match i
    case 0 => 29
    case 1 => 28
    case 2 => 27
    case 3 => 26
    case 4 => 17
    case 5 => 18
    case 6 => 16
    case 7 => 6
    case 8 => 23
    case 9 => 5
    case 10 => 20
    case 11 => 14
    case 12 => 34
    case 13 => 25
    case 14 => 19
    case 15 => 21
    case 16 => 11
    case 17 => 7
    case 18 => 1
    case 19 => 2
    case 20 => 8
    case 21 => 30
    case 22 => 24
    case 23 => 15
    case 24 => 13
    case 25 => 22
    case 26 => 10
    case 27 => 0
    case 28 => 4
    case 29 => 12
    case 30 => 3
    case 31 => 9
    case 32 => 31
    case 33 => 33
    case 34 => 32
  }

  /** Where the UUID of line `i` stands in the UUID order. */
  function UuidRank(i: nat): nat
    requires i < 35
  {
    match i
    case 0 => 0
    case 1 => 1
    case 2 => 2
    case 3 => 3
    case 4 => 5
    case 5 => 8
    case 6 => 11
    case 7 => 14
    case 8 => 6
    case 9 => 9
    case 10 => 15
    case 11 => 7
    case 12 => 34
    case 13 => 17
    case 14 => 19
    case 15 => 18
    case 16 => 30
    case 17 => 29
    case 18 => 33
    case 19 => 31
    case 20 => 32
    case 21 => 10
    case 22 => 16
    case 23 => 12
    case 24 => 13
    case 25 => 24
    case 26 => 25
    case 27 => 26
    case 28 => 27
    case 29 => 28
    case 30 => 4
    case 31 => 20
    case 32 => 21
    case 33 => 22
    case 34 => 23
  }

  /** The line whose UUID stands at position `i` of the UUID order. */
  function EntryOfUuidRank(i: nat): nat
    requires i < 35
  {
    match i
    case 0 => 0
    case 1 => 1
    case 2 => 2
    case 3 => 3
    case 4 => 30
    case 5 => 4
    case 6 => 8
    case 7 => 11
    case 8 => 5
    case 9 => 9
    case 10 => 21
    case 11 => 6
    case 12 => 23
    case 13 => 24
    case 14 => 7
    case 15 => 10
    case 16 => 22
    case 17 => 13
    case 18 => 15
    case 19 => 14
    case 20 => 31
    case 21 => 32
    case 22 => 33
    case 23 => 34
    case 24 => 25
    case 25 => 26
    case 26 => 27
    case 27 => 28
    case 28 => 29
    case 29 => 17
    case 30 => 16
    case 31 => 19
    case 32 => 20
    case 33 => 18
    case 34 => 12
  }

  /** What the key at position `i` of the key order satisfies. */
  lemma KeyFacts(i: nat)
    requires i < 35
    ensures i + 1 < 35 ==> LexLess(OrderedKeys()[i], OrderedKeys()[i + 1])
    ensures IsIntegerField(OrderedKeys()[i]) <==> OrderedKeys()[i] in IntegerFieldNames
    ensures EntryOfKeyRank(i) < 35 && KeyRank(EntryOfKeyRank(i)) == i
  {
    if i < 5 { KeyFactsA(i); }
    else if i < 10 { KeyFactsB(i); }
    else if i < 15 { KeyFactsC(i); }
    else if i < 20 { KeyFactsD(i); }
    else if i < 25 { KeyFactsE(i); }
    else if i < 30 { KeyFactsF(i); }
    else { KeyFactsG(i); }
  }

  // KeyFactsA, KeyFactsB, ... only split the per-index proofs of KeyFacts into small
  // groups, so that each proof stays within the verifier's resource limit.
  lemma KeyFactsA(i: nat)
    requires 0 <= i < 5
    ensures i + 1 < 35 ==> LexLess(OrderedKeys()[i], OrderedKeys()[i + 1])
    ensures IsIntegerField(OrderedKeys()[i]) <==> OrderedKeys()[i] in IntegerFieldNames
    ensures EntryOfKeyRank(i) < 35 && KeyRank(EntryOfKeyRank(i)) == i
  {
    match i
    case 0 => KeyFacts0();
    case 1 => KeyFacts1();
    case 2 => KeyFacts2();
    case 3 => KeyFacts3();
    case 4 => KeyFacts4();
  }

  lemma KeyFactsB(i: nat)
    requires 5 <= i < 10
    ensures i + 1 < 35 ==> LexLess(OrderedKeys()[i], OrderedKeys()[i + 1])
    ensures IsIntegerField(OrderedKeys()[i]) <==> OrderedKeys()[i] in IntegerFieldNames
    ensures EntryOfKeyRank(i) < 35 && KeyRank(EntryOfKeyRank(i)) == i
  {
    match i
    case 5 => KeyFacts5();
    case 6 => KeyFacts6();
    case 7 => KeyFacts7();
    case 8 => KeyFacts8();
    case 9 => KeyFacts9();
  }

  lemma KeyFactsC(i: nat)
    requires 10 <= i < 15
    ensures i + 1 < 35 ==> LexLess(OrderedKeys()[i], OrderedKeys()[i + 1])
    ensures IsIntegerField(OrderedKeys()[i]) <==> OrderedKeys()[i] in IntegerFieldNames
    ensures EntryOfKeyRank(i) < 35 && KeyRank(EntryOfKeyRank(i)) == i
  {
    match i
    case 10 => KeyFacts10();
    case 11 => KeyFacts11();
    case 12 => KeyFacts12();
    case 13 => KeyFacts13();
    case 14 => KeyFacts14();
  }

  lemma KeyFactsD(i: nat)
    requires 15 <= i < 20
    ensures i + 1 < 35 ==> LexLess(OrderedKeys()[i], OrderedKeys()[i + 1])
    ensures IsIntegerField(OrderedKeys()[i]) <==> OrderedKeys()[i] in IntegerFieldNames
    ensures EntryOfKeyRank(i) < 35 && KeyRank(EntryOfKeyRank(i)) == i
  {
    match i
    case 15 => KeyFacts15();
    case 16 => KeyFacts16();
    case 17 => KeyFacts17();
    case 18 => KeyFacts18();
    case 19 => KeyFacts19();
  }

  lemma KeyFactsE(i: nat)
    requires 20 <= i < 25
    ensures i + 1 < 35 ==> LexLess(OrderedKeys()[i], OrderedKeys()[i + 1])
    ensures IsIntegerField(OrderedKeys()[i]) <==> OrderedKeys()[i] in IntegerFieldNames
    ensures EntryOfKeyRank(i) < 35 && KeyRank(EntryOfKeyRank(i)) == i
  {
    match i
    case 20 => KeyFacts20();
    case 21 => KeyFacts21();
    case 22 => KeyFacts22();
    case 23 => KeyFacts23();
    case 24 => KeyFacts24();
  }

  lemma KeyFactsF(i: nat)
    requires 25 <= i < 30
    ensures i + 1 < 35 ==> LexLess(OrderedKeys()[i], OrderedKeys()[i + 1])
    ensures IsIntegerField(OrderedKeys()[i]) <==> OrderedKeys()[i] in IntegerFieldNames
    ensures EntryOfKeyRank(i) < 35 && KeyRank(EntryOfKeyRank(i)) == i
  {
    match i
    case 25 => KeyFacts25();
    case 26 => KeyFacts26();
    case 27 => KeyFacts27();
    case 28 => KeyFacts28();
    case 29 => KeyFacts29();
  }

  lemma KeyFactsG(i: nat)
    requires 30 <= i < 35
    ensures i + 1 < 35 ==> LexLess(OrderedKeys()[i], OrderedKeys()[i + 1])
    ensures IsIntegerField(OrderedKeys()[i]) <==> OrderedKeys()[i] in IntegerFieldNames
    ensures EntryOfKeyRank(i) < 35 && KeyRank(EntryOfKeyRank(i)) == i
  {
    match i
    case 30 => KeyFacts30();
    case 31 => KeyFacts31();
    case 32 => KeyFacts32();
    case 33 => KeyFacts33();
    case 34 => KeyFacts34();
  }

  /** The UUID at position `i` comes before the next one. */
  lemma UuidFacts(i: nat)
    requires i < 34
    ensures LexLess(OrderedUuids()[i], OrderedUuids()[i + 1])
  {
    if i < 9 { UuidFactsA(i); }
    else if i < 18 { UuidFactsB(i); }
    else if i < 27 { UuidFactsC(i); }
    else { UuidFactsD(i); }
  }

  // UuidFactsA, UuidFactsB, ... only split the per-index proofs of UuidFacts into small
  // groups, so that each proof stays within the verifier's resource limit.
  lemma UuidFactsA(i: nat)
    requires 0 <= i < 9
    ensures LexLess(OrderedUuids()[i], OrderedUuids()[i + 1])
  {
    match i
    case 0 => UuidFacts0();
    case 1 => UuidFacts1();
    case 2 => UuidFacts2();
    case 3 => UuidFacts3();
    case 4 => UuidFacts4();
    case 5 => UuidFacts5();
    case 6 => UuidFacts6();
    case 7 => UuidFacts7();
    case 8 => UuidFacts8();
  }

  lemma UuidFactsB(i: nat)
    requires 9 <= i < 18
    ensures LexLess(OrderedUuids()[i], OrderedUuids()[i + 1])
  {
    match i
    case 9 => UuidFacts9();
    case 10 => UuidFacts10();
    case 11 => UuidFacts11();
    case 12 => UuidFacts12();
    case 13 => UuidFacts13();
    case 14 => UuidFacts14();
    case 15 => UuidFacts15();
    case 16 => UuidFacts16();
    case 17 => UuidFacts17();
  }

  lemma UuidFactsC(i: nat)
    requires 18 <= i < 27
    ensures LexLess(OrderedUuids()[i], OrderedUuids()[i + 1])
  {
    match i
    case 18 => UuidFacts18();
    case 19 => UuidFacts19();
    case 20 => UuidFacts20();
    case 21 => UuidFacts21();
    case 22 => UuidFacts22();
    case 23 => UuidFacts23();
    case 24 => UuidFacts24();
    case 25 => UuidFacts25();
    case 26 => UuidFacts26();
  }

  lemma UuidFactsD(i: nat)
    requires 27 <= i < 34
    ensures LexLess(OrderedUuids()[i], OrderedUuids()[i + 1])
  {
    match i
    case 27 => UuidFacts27();
    case 28 => UuidFacts28();
    case 29 => UuidFacts29();
    case 30 => UuidFacts30();
    case 31 => UuidFacts31();
    case 32 => UuidFacts32();
    case 33 => UuidFacts33();
  }

  /** Where line `i` of the list stands in the two orders. */
  lemma EntryFacts(i: nat)
    requires i < 35
    ensures Entries()[i].0 == OrderedKeys()[KeyRank(i)] && KeyRank(i) < 35 && EntryOfKeyRank(KeyRank(i)) == i
    ensures Entries()[i].1 == OrderedUuids()[UuidRank(i)] && UuidRank(i) < 35 && EntryOfUuidRank(UuidRank(i)) == i
  {
    if i < 9 { EntryFactsA(i); }
    else if i < 18 { EntryFactsB(i); }
    else if i < 27 { EntryFactsC(i); }
    else { EntryFactsD(i); }
  }

  // EntryFactsA, EntryFactsB, ... only split the per-index proofs of EntryFacts into small
  // groups, so that each proof stays within the verifier's resource limit.
  lemma EntryFactsA(i: nat)
    requires 0 <= i < 9
    ensures Entries()[i].0 == OrderedKeys()[KeyRank(i)] && KeyRank(i) < 35 && EntryOfKeyRank(KeyRank(i)) == i
    ensures Entries()[i].1 == OrderedUuids()[UuidRank(i)] && UuidRank(i) < 35 && EntryOfUuidRank(UuidRank(i)) == i
  {
    match i
    case 0 => EntryFacts0();
    case 1 => EntryFacts1();
    case 2 => EntryFacts2();
    case 3 => EntryFacts3();
    case 4 => EntryFacts4();
    case 5 => EntryFacts5();
    case 6 => EntryFacts6();
    case 7 => EntryFacts7();
    case 8 => EntryFacts8();
  }

  lemma EntryFactsB(i: nat)
    requires 9 <= i < 18
    ensures Entries()[i].0 == OrderedKeys()[KeyRank(i)] && KeyRank(i) < 35 && EntryOfKeyRank(KeyRank(i)) == i
    ensures Entries()[i].1 == OrderedUuids()[UuidRank(i)] && UuidRank(i) < 35 && EntryOfUuidRank(UuidRank(i)) == i
  {
    match i
    case 9 => EntryFacts9();
    case 10 => EntryFacts10();
    case 11 => EntryFacts11();
    case 12 => EntryFacts12();
    case 13 => EntryFacts13();
    case 14 => EntryFacts14();
    case 15 => EntryFacts15();
    case 16 => EntryFacts16();
    case 17 => EntryFacts17();
  }

  lemma EntryFactsC(i: nat)
    requires 18 <= i < 27
    ensures Entries()[i].0 == OrderedKeys()[KeyRank(i)] && KeyRank(i) < 35 && EntryOfKeyRank(KeyRank(i)) == i
    ensures Entries()[i].1 == OrderedUuids()[UuidRank(i)] && UuidRank(i) < 35 && EntryOfUuidRank(UuidRank(i)) == i
  {
    match i
    case 18 => EntryFacts18();
    case 19 => EntryFacts19();
    case 20 => EntryFacts20();
    case 21 => EntryFacts21();
    case 22 => EntryFacts22();
    case 23 => EntryFacts23();
    case 24 => EntryFacts24();
    case 25 => EntryFacts25();
    case 26 => EntryFacts26();
  }

  lemma EntryFactsD(i: nat)
    requires 27 <= i < 35
    ensures Entries()[i].0 == OrderedKeys()[KeyRank(i)] && KeyRank(i) < 35 && EntryOfKeyRank(KeyRank(i)) == i
    ensures Entries()[i].1 == OrderedUuids()[UuidRank(i)] && UuidRank(i) < 35 && EntryOfUuidRank(UuidRank(i)) == i
  {
    match i
    case 27 => EntryFacts27();
    case 28 => EntryFacts28();
    case 29 => EntryFacts29();
    case 30 => EntryFacts30();
    case 31 => EntryFacts31();
    case 32 => EntryFacts32();
    case 33 => EntryFacts33();
    case 34 => EntryFacts34();
  }

  lemma KeyFacts0()
    ensures LexLess(OrderedKeys()[0], OrderedKeys()[1])
    ensures IsIntegerField(OrderedKeys()[0]) && OrderedKeys()[0] in IntegerFieldNames
    ensures EntryOfKeyRank(0) < 35 && KeyRank(EntryOfKeyRank(0)) == 0
  {
    assert FirstDifferenceAt(OrderedKeys()[0], OrderedKeys()[1], 16);
    OccursAt(OrderedKeys()[0], "Temperature", 4);
  }

  lemma KeyFacts1()
    ensures LexLess(OrderedKeys()[1], OrderedKeys()[2])
    ensures IsIntegerField(OrderedKeys()[1]) && OrderedKeys()[1] in IntegerFieldNames
    ensures EntryOfKeyRank(1) < 35 && KeyRank(EntryOfKeyRank(1)) == 1
  {
    assert FirstDifferenceAt(OrderedKeys()[1], OrderedKeys()[2], 15);
    OccursAt(OrderedKeys()[1], "Temperature", 4);
  }

  lemma KeyFacts2()
    ensures LexLess(OrderedKeys()[2], OrderedKeys()[3])
    ensures IsIntegerField(OrderedKeys()[2]) && OrderedKeys()[2] in IntegerFieldNames
    ensures EntryOfKeyRank(2) < 35 && KeyRank(EntryOfKeyRank(2)) == 2
  {
    assert FirstDifferenceAt(OrderedKeys()[2], OrderedKeys()[3], 1);
    OccursAt(OrderedKeys()[2], "Temperature", 4);
  }

  lemma KeyFacts3()
    ensures LexLess(OrderedKeys()[3], OrderedKeys()[4])
    ensures IsIntegerField(OrderedKeys()[3]) && OrderedKeys()[3] in IntegerFieldNames
    ensures EntryOfKeyRank(3) < 35 && KeyRank(EntryOfKeyRank(3)) == 3
  {
    assert FirstDifferenceAt(OrderedKeys()[3], OrderedKeys()[4], 0);
    OccursAt(OrderedKeys()[3], "Temperature", 15);
  }

  lemma KeyFacts4()
    ensures LexLess(OrderedKeys()[4], OrderedKeys()[5])
    ensures !IsIntegerField(OrderedKeys()[4]) && OrderedKeys()[4] !in IntegerFieldNames
    ensures EntryOfKeyRank(4) < 35 && KeyRank(EntryOfKeyRank(4)) == 4
  {
    assert FirstDifferenceAt(OrderedKeys()[4], OrderedKeys()[5], 7);
    LacksChar(OrderedKeys()[4], "Temperature", 0);
    LacksChar(OrderedKeys()[4], "Voltage", 0);
  }

  lemma KeyFacts5()
    ensures LexLess(OrderedKeys()[5], OrderedKeys()[6])
    ensures !IsIntegerField(OrderedKeys()[5]) && OrderedKeys()[5] !in IntegerFieldNames
    ensures EntryOfKeyRank(5) < 35 && KeyRank(EntryOfKeyRank(5)) == 5
  {
    assert FirstDifferenceAt(OrderedKeys()[5], OrderedKeys()[6], 7);
    LacksChar(OrderedKeys()[5], "Temperature", 0);
    LacksChar(OrderedKeys()[5], "Voltage", 0);
  }

  lemma KeyFacts6()
    ensures LexLess(OrderedKeys()[6], OrderedKeys()[7])
    ensures !IsIntegerField(OrderedKeys()[6]) && OrderedKeys()[6] !in IntegerFieldNames
    ensures EntryOfKeyRank(6) < 35 && KeyRank(EntryOfKeyRank(6)) == 6
  {
    assert FirstDifferenceAt(OrderedKeys()[6], OrderedKeys()[7], 7);
    LacksChar(OrderedKeys()[6], "Temperature", 0);
    LacksChar(OrderedKeys()[6], "Voltage", 0);
  }

  lemma KeyFacts7()
    ensures LexLess(OrderedKeys()[7], OrderedKeys()[8])
    ensures !IsIntegerField(OrderedKeys()[7]) && OrderedKeys()[7] !in IntegerFieldNames
    ensures EntryOfKeyRank(7) < 35 && KeyRank(EntryOfKeyRank(7)) == 7
  {
    assert FirstDifferenceAt(OrderedKeys()[7], OrderedKeys()[8], 1);
    LacksChar(OrderedKeys()[7], "Temperature", 0);
    LacksChar(OrderedKeys()[7], "Voltage", 0);
  }

  lemma KeyFacts8()
    ensures LexLess(OrderedKeys()[8], OrderedKeys()[9])
    ensures !IsIntegerField(OrderedKeys()[8]) && OrderedKeys()[8] !in IntegerFieldNames
    ensures EntryOfKeyRank(8) < 35 && KeyRank(EntryOfKeyRank(8)) == 8
  {
    assert FirstDifferenceAt(OrderedKeys()[8], OrderedKeys()[9], 1);
    LacksChar(OrderedKeys()[8], "Temperature", 0);
    LacksChar(OrderedKeys()[8], "Voltage", 0);
  }

  lemma KeyFacts9()
    ensures LexLess(OrderedKeys()[9], OrderedKeys()[10])
    ensures !IsIntegerField(OrderedKeys()[9]) && OrderedKeys()[9] !in IntegerFieldNames
    ensures EntryOfKeyRank(9) < 35 && KeyRank(EntryOfKeyRank(9)) == 9
  {
    assert FirstDifferenceAt(OrderedKeys()[9], OrderedKeys()[10], 0);
    LacksChar(OrderedKeys()[9], "Temperature", 0);
    LacksChar(OrderedKeys()[9], "Voltage", 0);
  }

  lemma KeyFacts10()
    ensures LexLess(OrderedKeys()[10], OrderedKeys()[11])
    ensures !IsIntegerField(OrderedKeys()[10]) && OrderedKeys()[10] !in IntegerFieldNames
    ensures EntryOfKeyRank(10) < 35 && KeyRank(EntryOfKeyRank(10)) == 10
  {
    assert FirstDifferenceAt(OrderedKeys()[10], OrderedKeys()[11], 5);
    LacksChar(OrderedKeys()[10], "Temperature", 0);
    LacksChar(OrderedKeys()[10], "Voltage", 0);
  }

  lemma KeyFacts11()
    ensures LexLess(OrderedKeys()[11], OrderedKeys()[12])
    ensures !IsIntegerField(OrderedKeys()[11]) && OrderedKeys()[11] !in IntegerFieldNames
    ensures EntryOfKeyRank(11) < 35 && KeyRank(EntryOfKeyRank(11)) == 11
  {
    assert FirstDifferenceAt(OrderedKeys()[11], OrderedKeys()[12], 1);
    LacksChar(OrderedKeys()[11], "Temperature", 0);
    LacksChar(OrderedKeys()[11], "Voltage", 0);
  }

  lemma KeyFacts12()
    ensures LexLess(OrderedKeys()[12], OrderedKeys()[13])
    ensures !IsIntegerField(OrderedKeys()[12]) && OrderedKeys()[12] !in IntegerFieldNames
    ensures EntryOfKeyRank(12) < 35 && KeyRank(EntryOfKeyRank(12)) == 12
  {
    assert FirstDifferenceAt(OrderedKeys()[12], OrderedKeys()[13], 7);
    LacksChar(OrderedKeys()[12], "Temperature", 0);
    LacksChar(OrderedKeys()[12], "Voltage", 0);
  }

  lemma KeyFacts13()
    ensures LexLess(OrderedKeys()[13], OrderedKeys()[14])
    ensures IsIntegerField(OrderedKeys()[13]) && OrderedKeys()[13] in IntegerFieldNames
    ensures EntryOfKeyRank(13) < 35 && KeyRank(EntryOfKeyRank(13)) == 13
  {
    assert FirstDifferenceAt(OrderedKeys()[13], OrderedKeys()[14], 0);
    OccursAt(OrderedKeys()[13], "Temperature", 7);
  }

  lemma KeyFacts14()
    ensures LexLess(OrderedKeys()[14], OrderedKeys()[15])
    ensures !IsIntegerField(OrderedKeys()[14]) && OrderedKeys()[14] !in IntegerFieldNames
    ensures EntryOfKeyRank(14) < 35 && KeyRank(EntryOfKeyRank(14)) == 14
  {
    assert FirstDifferenceAt(OrderedKeys()[14], OrderedKeys()[15], 0);
    LacksChar(OrderedKeys()[14], "Temperature", 0);
    LacksChar(OrderedKeys()[14], "Voltage", 0);
  }

  lemma KeyFacts15()
    ensures LexLess(OrderedKeys()[15], OrderedKeys()[16])
    ensures !IsIntegerField(OrderedKeys()[15]) && OrderedKeys()[15] !in IntegerFieldNames
    ensures EntryOfKeyRank(15) < 35 && KeyRank(EntryOfKeyRank(15)) == 15
  {
    assert FirstDifferenceAt(OrderedKeys()[15], OrderedKeys()[16], 1);
    LacksChar(OrderedKeys()[15], "Temperature", 0);
    LacksChar(OrderedKeys()[15], "Voltage", 0);
  }

  lemma KeyFacts16()
    ensures LexLess(OrderedKeys()[16], OrderedKeys()[17])
    ensures !IsIntegerField(OrderedKeys()[16]) && OrderedKeys()[16] !in IntegerFieldNames
    ensures EntryOfKeyRank(16) < 35 && KeyRank(EntryOfKeyRank(16)) == 16
  {
    assert FirstDifferenceAt(OrderedKeys()[16], OrderedKeys()[17], 0);
    LacksChar(OrderedKeys()[16], "Temperature", 0);
    LacksChar(OrderedKeys()[16], "Voltage", 0);
  }

  lemma KeyFacts17()
    ensures LexLess(OrderedKeys()[17], OrderedKeys()[18])
    ensures !IsIntegerField(OrderedKeys()[17]) && OrderedKeys()[17] !in IntegerFieldNames
    ensures EntryOfKeyRank(17) < 35 && KeyRank(EntryOfKeyRank(17)) == 17
  {
    assert FirstDifferenceAt(OrderedKeys()[17], OrderedKeys()[18], 0);
    LacksChar(OrderedKeys()[17], "Temperature", 0);
    LacksChar(OrderedKeys()[17], "Voltage", 0);
  }

  lemma KeyFacts18()
    ensures LexLess(OrderedKeys()[18], OrderedKeys()[19])
    ensures !IsIntegerField(OrderedKeys()[18]) && OrderedKeys()[18] !in IntegerFieldNames
    ensures EntryOfKeyRank(18) < 35 && KeyRank(EntryOfKeyRank(18)) == 18
  {
    assert FirstDifferenceAt(OrderedKeys()[18], OrderedKeys()[19], 1);
    LacksChar(OrderedKeys()[18], "Temperature", 0);
    LacksChar(OrderedKeys()[18], "Voltage", 0);
  }

  lemma KeyFacts19()
    ensures LexLess(OrderedKeys()[19], OrderedKeys()[20])
    ensures !IsIntegerField(OrderedKeys()[19]) && OrderedKeys()[19] !in IntegerFieldNames
    ensures EntryOfKeyRank(19) < 35 && KeyRank(EntryOfKeyRank(19)) == 19
  {
    assert FirstDifferenceAt(OrderedKeys()[19], OrderedKeys()[20], 1);
    LacksChar(OrderedKeys()[19], "Temperature", 0);
    LacksChar(OrderedKeys()[19], "Voltage", 0);
  }

  lemma KeyFacts20()
    ensures LexLess(OrderedKeys()[20], OrderedKeys()[21])
    ensures !IsIntegerField(OrderedKeys()[20]) && OrderedKeys()[20] !in IntegerFieldNames
    ensures EntryOfKeyRank(20) < 35 && KeyRank(EntryOfKeyRank(20)) == 20
  {
    assert FirstDifferenceAt(OrderedKeys()[20], OrderedKeys()[21], 0);
    LacksChar(OrderedKeys()[20], "Temperature", 0);
    LacksChar(OrderedKeys()[20], "Voltage", 0);
  }

  lemma KeyFacts21()
    ensures LexLess(OrderedKeys()[21], OrderedKeys()[22])
    ensures !IsIntegerField(OrderedKeys()[21]) && OrderedKeys()[21] !in IntegerFieldNames
    ensures EntryOfKeyRank(21) < 35 && KeyRank(EntryOfKeyRank(21)) == 21
  {
    assert FirstDifferenceAt(OrderedKeys()[21], OrderedKeys()[22], 0);
    OperatingTimeIsNotTemperature();
    LacksChar(OrderedKeys()[21], "Voltage", 0);
  }

  lemma KeyFacts22()
    ensures LexLess(OrderedKeys()[22], OrderedKeys()[23])
    ensures !IsIntegerField(OrderedKeys()[22]) && OrderedKeys()[22] !in IntegerFieldNames
    ensures EntryOfKeyRank(22) < 35 && KeyRank(EntryOfKeyRank(22)) == 22
  {
    assert FirstDifferenceAt(OrderedKeys()[22], OrderedKeys()[23], 1);
    LacksChar(OrderedKeys()[22], "Temperature", 0);
    LacksChar(OrderedKeys()[22], "Voltage", 2);
  }

  lemma KeyFacts23()
    ensures LexLess(OrderedKeys()[23], OrderedKeys()[24])
    ensures !IsIntegerField(OrderedKeys()[23]) && OrderedKeys()[23] !in IntegerFieldNames
    ensures EntryOfKeyRank(23) < 35 && KeyRank(EntryOfKeyRank(23)) == 23
  {
    assert FirstDifferenceAt(OrderedKeys()[23], OrderedKeys()[24], 5);
    LacksChar(OrderedKeys()[23], "Temperature", 0);
    LacksChar(OrderedKeys()[23], "Voltage", 0);
  }

  lemma KeyFacts24()
    ensures LexLess(OrderedKeys()[24], OrderedKeys()[25])
    ensures !IsIntegerField(OrderedKeys()[24]) && OrderedKeys()[24] !in IntegerFieldNames
    ensures EntryOfKeyRank(24) < 35 && KeyRank(EntryOfKeyRank(24)) == 24
  {
    assert FirstDifferenceAt(OrderedKeys()[24], OrderedKeys()[25], 0);
    LacksChar(OrderedKeys()[24], "Temperature", 0);
    LacksChar(OrderedKeys()[24], "Voltage", 0);
  }

  lemma KeyFacts25()
    ensures LexLess(OrderedKeys()[25], OrderedKeys()[26])
    ensures !IsIntegerField(OrderedKeys()[25]) && OrderedKeys()[25] !in IntegerFieldNames
    ensures EntryOfKeyRank(25) < 35 && KeyRank(EntryOfKeyRank(25)) == 25
  {
    assert FirstDifferenceAt(OrderedKeys()[25], OrderedKeys()[26], 1);
    LacksChar(OrderedKeys()[25], "Temperature", 0);
    LacksChar(OrderedKeys()[25], "Voltage", 0);
  }

  lemma KeyFacts26()
    ensures LexLess(OrderedKeys()[26], OrderedKeys()[27])
    ensures !IsIntegerField(OrderedKeys()[26]) && OrderedKeys()[26] !in IntegerFieldNames
    ensures EntryOfKeyRank(26) < 35 && KeyRank(EntryOfKeyRank(26)) == 26
  {
    assert FirstDifferenceAt(OrderedKeys()[26], OrderedKeys()[27], 3);
    LacksChar(OrderedKeys()[26], "Temperature", 0);
    LacksChar(OrderedKeys()[26], "Voltage", 0);
  }

  lemma KeyFacts27()
    ensures LexLess(OrderedKeys()[27], OrderedKeys()[28])
    ensures !IsIntegerField(OrderedKeys()[27]) && OrderedKeys()[27] !in IntegerFieldNames
    ensures EntryOfKeyRank(27) < 35 && KeyRank(EntryOfKeyRank(27)) == 27
  {
    assert FirstDifferenceAt(OrderedKeys()[27], OrderedKeys()[28], 2);
    LacksChar(OrderedKeys()[27], "Temperature", 0);
    LacksChar(OrderedKeys()[27], "Voltage", 0);
  }

  lemma KeyFacts28()
    ensures LexLess(OrderedKeys()[28], OrderedKeys()[29])
    ensures !IsIntegerField(OrderedKeys()[28]) && OrderedKeys()[28] !in IntegerFieldNames
    ensures EntryOfKeyRank(28) < 35 && KeyRank(EntryOfKeyRank(28)) == 28
  {
    assert FirstDifferenceAt(OrderedKeys()[28], OrderedKeys()[29], 3);
    LacksChar(OrderedKeys()[28], "Temperature", 0);
    LacksChar(OrderedKeys()[28], "Voltage", 0);
  }

  lemma KeyFacts29()
    ensures LexLess(OrderedKeys()[29], OrderedKeys()[30])
    ensures !IsIntegerField(OrderedKeys()[29]) && OrderedKeys()[29] !in IntegerFieldNames
    ensures EntryOfKeyRank(29) < 35 && KeyRank(EntryOfKeyRank(29)) == 29
  {
    assert FirstDifferenceAt(OrderedKeys()[29], OrderedKeys()[30], 0);
    LacksChar(OrderedKeys()[29], "Temperature", 0);
    LacksChar(OrderedKeys()[29], "Voltage", 0);
  }

  lemma KeyFacts30()
    ensures LexLess(OrderedKeys()[30], OrderedKeys()[31])
    ensures IsIntegerField(OrderedKeys()[30]) && OrderedKeys()[30] in IntegerFieldNames
    ensures EntryOfKeyRank(30) < 35 && KeyRank(EntryOfKeyRank(30)) == 30
  {
    assert FirstDifferenceAt(OrderedKeys()[30], OrderedKeys()[31], 0);
    OccursAt(OrderedKeys()[30], "Temperature", 0);
  }

  lemma KeyFacts31()
    ensures LexLess(OrderedKeys()[31], OrderedKeys()[32])
    ensures !IsIntegerField(OrderedKeys()[31]) && OrderedKeys()[31] !in IntegerFieldNames
    ensures EntryOfKeyRank(31) < 35 && KeyRank(EntryOfKeyRank(31)) == 31
  {
    assert FirstDifferenceAt(OrderedKeys()[31], OrderedKeys()[32], 1);
    LacksChar(OrderedKeys()[31], "Temperature", 0);
    LacksChar(OrderedKeys()[31], "Voltage", 2);
  }

  lemma KeyFacts32()
    ensures LexLess(OrderedKeys()[32], OrderedKeys()[33])
    ensures IsIntegerField(OrderedKeys()[32]) && OrderedKeys()[32] in IntegerFieldNames
    ensures EntryOfKeyRank(32) < 35 && KeyRank(EntryOfKeyRank(32)) == 32
  {
    assert FirstDifferenceAt(OrderedKeys()[32], OrderedKeys()[33], 7);
    OccursAt(OrderedKeys()[32], "Voltage", 0);
  }

  lemma KeyFacts33()
    ensures LexLess(OrderedKeys()[33], OrderedKeys()[34])
    ensures IsIntegerField(OrderedKeys()[33]) && OrderedKeys()[33] in IntegerFieldNames
    ensures EntryOfKeyRank(33) < 35 && KeyRank(EntryOfKeyRank(33)) == 33
  {
    assert FirstDifferenceAt(OrderedKeys()[33], OrderedKeys()[34], 7);
    OccursAt(OrderedKeys()[33], "Voltage", 0);
  }

  lemma KeyFacts34()
    ensures IsIntegerField(OrderedKeys()[34]) && OrderedKeys()[34] in IntegerFieldNames
    ensures EntryOfKeyRank(34) < 35 && KeyRank(EntryOfKeyRank(34)) == 34
  {
    OccursAt(OrderedKeys()[34], "Voltage", 0);
  }

  lemma IntegerFieldInTable0()
    ensures "TemperatureUuid" in UuidMap
  {
    TableLookup(3);
  }

  lemma IntegerFieldInTable1()
    ensures "CurrentTemperaturePT1000Uuid" in UuidMap
  {
    TableLookup(25);
  }

  lemma IntegerFieldInTable2()
    ensures "AdjustedCurrentTemperaturePT1000Uuid" in UuidMap
  {
    TableLookup(26);
  }

  lemma IntegerFieldInTable3()
    ensures "AccuTemperatureUuid" in UuidMap
  {
    TableLookup(27);
  }

  lemma IntegerFieldInTable4()
    ensures "AccuTemperatureMinUuid" in UuidMap
  {
    TableLookup(28);
  }

  lemma IntegerFieldInTable5()
    ensures "AccuTemperatureMaxUuid" in UuidMap
  {
    TableLookup(29);
  }

  lemma IntegerFieldInTable6()
    ensures "VoltageAccuUuid" in UuidMap
  {
    TableLookup(31);
  }

  lemma IntegerFieldInTable7()
    ensures "VoltageMainsUuid" in UuidMap
  {
    TableLookup(32);
  }

  lemma IntegerFieldInTable8()
    ensures "VoltageHeatingUuid" in UuidMap
  {
    TableLookup(33);
  }

  lemma UuidFacts0()
    ensures LexLess(OrderedUuids()[0], OrderedUuids()[1])
  {
    assert FirstDifferenceAt(OrderedUuids()[0], OrderedUuids()[1], 7);
  }

  lemma UuidFacts1()
    ensures LexLess(OrderedUuids()[1], OrderedUuids()[2])
  {
    assert FirstDifferenceAt(OrderedUuids()[1], OrderedUuids()[2], 7);
  }

  lemma UuidFacts2()
    ensures LexLess(OrderedUuids()[2], OrderedUuids()[3])
  {
    assert FirstDifferenceAt(OrderedUuids()[2], OrderedUuids()[3], 6);
  }

  lemma UuidFacts3()
    ensures LexLess(OrderedUuids()[3], OrderedUuids()[4])
  {
    assert FirstDifferenceAt(OrderedUuids()[3], OrderedUuids()[4], 7);
  }

  lemma UuidFacts4()
    ensures LexLess(OrderedUuids()[4], OrderedUuids()[5])
  {
    assert FirstDifferenceAt(OrderedUuids()[4], OrderedUuids()[5], 6);
  }

  lemma UuidFacts5()
    ensures LexLess(OrderedUuids()[5], OrderedUuids()[6])
  {
    assert FirstDifferenceAt(OrderedUuids()[5], OrderedUuids()[6], 7);
  }

  lemma UuidFacts6()
    ensures LexLess(OrderedUuids()[6], OrderedUuids()[7])
  {
    assert FirstDifferenceAt(OrderedUuids()[6], OrderedUuids()[7], 7);
  }

  lemma UuidFacts7()
    ensures LexLess(OrderedUuids()[7], OrderedUuids()[8])
  {
    assert FirstDifferenceAt(OrderedUuids()[7], OrderedUuids()[8], 6);
  }

  lemma UuidFacts8()
    ensures LexLess(OrderedUuids()[8], OrderedUuids()[9])
  {
    assert FirstDifferenceAt(OrderedUuids()[8], OrderedUuids()[9], 7);
  }

  lemma UuidFacts9()
    ensures LexLess(OrderedUuids()[9], OrderedUuids()[10])
  {
    assert FirstDifferenceAt(OrderedUuids()[9], OrderedUuids()[10], 7);
  }

  lemma UuidFacts10()
    ensures LexLess(OrderedUuids()[10], OrderedUuids()[11])
  {
    assert FirstDifferenceAt(OrderedUuids()[10], OrderedUuids()[11], 6);
  }

  lemma UuidFacts11()
    ensures LexLess(OrderedUuids()[11], OrderedUuids()[12])
  {
    assert FirstDifferenceAt(OrderedUuids()[11], OrderedUuids()[12], 7);
  }

  lemma UuidFacts12()
    ensures LexLess(OrderedUuids()[12], OrderedUuids()[13])
  {
    assert FirstDifferenceAt(OrderedUuids()[12], OrderedUuids()[13], 7);
  }

  lemma UuidFacts13()
    ensures LexLess(OrderedUuids()[13], OrderedUuids()[14])
  {
    assert FirstDifferenceAt(OrderedUuids()[13], OrderedUuids()[14], 6);
  }

  lemma UuidFacts14()
    ensures LexLess(OrderedUuids()[14], OrderedUuids()[15])
  {
    assert FirstDifferenceAt(OrderedUuids()[14], OrderedUuids()[15], 7);
  }

  lemma UuidFacts15()
    ensures LexLess(OrderedUuids()[15], OrderedUuids()[16])
  {
    assert FirstDifferenceAt(OrderedUuids()[15], OrderedUuids()[16], 7);
  }

  lemma UuidFacts16()
    ensures LexLess(OrderedUuids()[16], OrderedUuids()[17])
  {
    assert FirstDifferenceAt(OrderedUuids()[16], OrderedUuids()[17], 6);
  }

  lemma UuidFacts17()
    ensures LexLess(OrderedUuids()[17], OrderedUuids()[18])
  {
    assert FirstDifferenceAt(OrderedUuids()[17], OrderedUuids()[18], 6);
  }

  lemma UuidFacts18()
    ensures LexLess(OrderedUuids()[18], OrderedUuids()[19])
  {
    assert FirstDifferenceAt(OrderedUuids()[18], OrderedUuids()[19], 6);
  }

  lemma UuidFacts19()
    ensures LexLess(OrderedUuids()[19], OrderedUuids()[20])
  {
    assert FirstDifferenceAt(OrderedUuids()[19], OrderedUuids()[20], 6);
  }

  lemma UuidFacts20()
    ensures LexLess(OrderedUuids()[20], OrderedUuids()[21])
  {
    assert FirstDifferenceAt(OrderedUuids()[20], OrderedUuids()[21], 6);
  }

  lemma UuidFacts21()
    ensures LexLess(OrderedUuids()[21], OrderedUuids()[22])
  {
    assert FirstDifferenceAt(OrderedUuids()[21], OrderedUuids()[22], 6);
  }

  lemma UuidFacts22()
    ensures LexLess(OrderedUuids()[22], OrderedUuids()[23])
  {
    assert FirstDifferenceAt(OrderedUuids()[22], OrderedUuids()[23], 6);
  }

  lemma UuidFacts23()
    ensures LexLess(OrderedUuids()[23], OrderedUuids()[24])
  {
    assert FirstDifferenceAt(OrderedUuids()[23], OrderedUuids()[24], 6);
  }

  lemma UuidFacts24()
    ensures LexLess(OrderedUuids()[24], OrderedUuids()[25])
  {
    assert FirstDifferenceAt(OrderedUuids()[24], OrderedUuids()[25], 5);
  }

  lemma UuidFacts25()
    ensures LexLess(OrderedUuids()[25], OrderedUuids()[26])
  {
    assert FirstDifferenceAt(OrderedUuids()[25], OrderedUuids()[26], 6);
  }

  lemma UuidFacts26()
    ensures LexLess(OrderedUuids()[26], OrderedUuids()[27])
  {
    assert FirstDifferenceAt(OrderedUuids()[26], OrderedUuids()[27], 6);
  }

  lemma UuidFacts27()
    ensures LexLess(OrderedUuids()[27], OrderedUuids()[28])
  {
    assert FirstDifferenceAt(OrderedUuids()[27], OrderedUuids()[28], 6);
  }

  lemma UuidFacts28()
    ensures LexLess(OrderedUuids()[28], OrderedUuids()[29])
  {
    assert FirstDifferenceAt(OrderedUuids()[28], OrderedUuids()[29], 6);
  }

  lemma UuidFacts29()
    ensures LexLess(OrderedUuids()[29], OrderedUuids()[30])
  {
    assert FirstDifferenceAt(OrderedUuids()[29], OrderedUuids()[30], 6);
  }

  lemma UuidFacts30()
    ensures LexLess(OrderedUuids()[30], OrderedUuids()[31])
  {
    assert FirstDifferenceAt(OrderedUuids()[30], OrderedUuids()[31], 6);
  }

  lemma UuidFacts31()
    ensures LexLess(OrderedUuids()[31], OrderedUuids()[32])
  {
    assert FirstDifferenceAt(OrderedUuids()[31], OrderedUuids()[32], 6);
  }

  lemma UuidFacts32()
    ensures LexLess(OrderedUuids()[32], OrderedUuids()[33])
  {
    assert FirstDifferenceAt(OrderedUuids()[32], OrderedUuids()[33], 6);
  }

  lemma UuidFacts33()
    ensures LexLess(OrderedUuids()[33], OrderedUuids()[34])
  {
    assert FirstDifferenceAt(OrderedUuids()[33], OrderedUuids()[34], 6);
  }

  lemma EntryFacts0()
    ensures Entries()[0].0 == OrderedKeys()[KeyRank(0)] && KeyRank(0) < 35 && EntryOfKeyRank(KeyRank(0)) == 0
    ensures Entries()[0].1 == OrderedUuids()[UuidRank(0)] && UuidRank(0) < 35 && EntryOfUuidRank(UuidRank(0)) == 0
  {
  }

  lemma EntryFacts1()
    ensures Entries()[1].0 == OrderedKeys()[KeyRank(1)] && KeyRank(1) < 35 && EntryOfKeyRank(KeyRank(1)) == 1
    ensures Entries()[1].1 == OrderedUuids()[UuidRank(1)] && UuidRank(1) < 35 && EntryOfUuidRank(UuidRank(1)) == 1
  {
  }

  lemma EntryFacts2()
    ensures Entries()[2].0 == OrderedKeys()[KeyRank(2)] && KeyRank(2) < 35 && EntryOfKeyRank(KeyRank(2)) == 2
    ensures Entries()[2].1 == OrderedUuids()[UuidRank(2)] && UuidRank(2) < 35 && EntryOfUuidRank(UuidRank(2)) == 2
  {
  }

  lemma EntryFacts3()
    ensures Entries()[3].0 == OrderedKeys()[KeyRank(3)] && KeyRank(3) < 35 && EntryOfKeyRank(KeyRank(3)) == 3
    ensures Entries()[3].1 == OrderedUuids()[UuidRank(3)] && UuidRank(3) < 35 && EntryOfUuidRank(UuidRank(3)) == 3
  {
  }

  lemma EntryFacts4()
    ensures Entries()[4].0 == OrderedKeys()[KeyRank(4)] && KeyRank(4) < 35 && EntryOfKeyRank(KeyRank(4)) == 4
    ensures Entries()[4].1 == OrderedUuids()[UuidRank(4)] && UuidRank(4) < 35 && EntryOfUuidRank(UuidRank(4)) == 4
  {
  }

  lemma EntryFacts5()
    ensures Entries()[5].0 == OrderedKeys()[KeyRank(5)] && KeyRank(5) < 35 && EntryOfKeyRank(KeyRank(5)) == 5
    ensures Entries()[5].1 == OrderedUuids()[UuidRank(5)] && UuidRank(5) < 35 && EntryOfUuidRank(UuidRank(5)) == 5
  {
  }

  lemma EntryFacts6()
    ensures Entries()[6].0 == OrderedKeys()[KeyRank(6)] && KeyRank(6) < 35 && EntryOfKeyRank(KeyRank(6)) == 6
    ensures Entries()[6].1 == OrderedUuids()[UuidRank(6)] && UuidRank(6) < 35 && EntryOfUuidRank(UuidRank(6)) == 6
  {
  }

  lemma EntryFacts7()
    ensures Entries()[7].0 == OrderedKeys()[KeyRank(7)] && KeyRank(7) < 35 && EntryOfKeyRank(KeyRank(7)) == 7
    ensures Entries()[7].1 == OrderedUuids()[UuidRank(7)] && UuidRank(7) < 35 && EntryOfUuidRank(UuidRank(7)) == 7
  {
  }

  lemma EntryFacts8()
    ensures Entries()[8].0 == OrderedKeys()[KeyRank(8)] && KeyRank(8) < 35 && EntryOfKeyRank(KeyRank(8)) == 8
    ensures Entries()[8].1 == OrderedUuids()[UuidRank(8)] && UuidRank(8) < 35 && EntryOfUuidRank(UuidRank(8)) == 8
  {
  }

  lemma EntryFacts9()
    ensures Entries()[9].0 == OrderedKeys()[KeyRank(9)] && KeyRank(9) < 35 && EntryOfKeyRank(KeyRank(9)) == 9
    ensures Entries()[9].1 == OrderedUuids()[UuidRank(9)] && UuidRank(9) < 35 && EntryOfUuidRank(UuidRank(9)) == 9
  {
  }

  lemma EntryFacts10()
    ensures Entries()[10].0 == OrderedKeys()[KeyRank(10)] && KeyRank(10) < 35 && EntryOfKeyRank(KeyRank(10)) == 10
    ensures Entries()[10].1 == OrderedUuids()[UuidRank(10)] && UuidRank(10) < 35 && EntryOfUuidRank(UuidRank(10)) == 10
  {
  }

  lemma EntryFacts11()
    ensures Entries()[11].0 == OrderedKeys()[KeyRank(11)] && KeyRank(11) < 35 && EntryOfKeyRank(KeyRank(11)) == 11
    ensures Entries()[11].1 == OrderedUuids()[UuidRank(11)] && UuidRank(11) < 35 && EntryOfUuidRank(UuidRank(11)) == 11
  {
  }

  lemma EntryFacts12()
    ensures Entries()[12].0 == OrderedKeys()[KeyRank(12)] && KeyRank(12) < 35 && EntryOfKeyRank(KeyRank(12)) == 12
    ensures Entries()[12].1 == OrderedUuids()[UuidRank(12)] && UuidRank(12) < 35 && EntryOfUuidRank(UuidRank(12)) == 12
  {
  }

  lemma EntryFacts13()
    ensures Entries()[13].0 == OrderedKeys()[KeyRank(13)] && KeyRank(13) < 35 && EntryOfKeyRank(KeyRank(13)) == 13
    ensures Entries()[13].1 == OrderedUuids()[UuidRank(13)] && UuidRank(13) < 35 && EntryOfUuidRank(UuidRank(13)) == 13
  {
  }

  lemma EntryFacts14()
    ensures Entries()[14].0 == OrderedKeys()[KeyRank(14)] && KeyRank(14) < 35 && EntryOfKeyRank(KeyRank(14)) == 14
    ensures Entries()[14].1 == OrderedUuids()[UuidRank(14)] && UuidRank(14) < 35 && EntryOfUuidRank(UuidRank(14)) == 14
  {
  }

  lemma EntryFacts15()
    ensures Entries()[15].0 == OrderedKeys()[KeyRank(15)] && KeyRank(15) < 35 && EntryOfKeyRank(KeyRank(15)) == 15
    ensures Entries()[15].1 == OrderedUuids()[UuidRank(15)] && UuidRank(15) < 35 && EntryOfUuidRank(UuidRank(15)) == 15
  {
  }

  lemma EntryFacts16()
    ensures Entries()[16].0 == OrderedKeys()[KeyRank(16)] && KeyRank(16) < 35 && EntryOfKeyRank(KeyRank(16)) == 16
    ensures Entries()[16].1 == OrderedUuids()[UuidRank(16)] && UuidRank(16) < 35 && EntryOfUuidRank(UuidRank(16)) == 16
  {
  }

  lemma EntryFacts17()
    ensures Entries()[17].0 == OrderedKeys()[KeyRank(17)] && KeyRank(17) < 35 && EntryOfKeyRank(KeyRank(17)) == 17
    ensures Entries()[17].1 == OrderedUuids()[UuidRank(17)] && UuidRank(17) < 35 && EntryOfUuidRank(UuidRank(17)) == 17
  {
  }

  lemma EntryFacts18()
    ensures Entries()[18].0 == OrderedKeys()[KeyRank(18)] && KeyRank(18) < 35 && EntryOfKeyRank(KeyRank(18)) == 18
    ensures Entries()[18].1 == OrderedUuids()[UuidRank(18)] && UuidRank(18) < 35 && EntryOfUuidRank(UuidRank(18)) == 18
  {
  }

  lemma EntryFacts19()
    ensures Entries()[19].0 == OrderedKeys()[KeyRank(19)] && KeyRank(19) < 35 && EntryOfKeyRank(KeyRank(19)) == 19
    ensures Entries()[19].1 == OrderedUuids()[UuidRank(19)] && UuidRank(19) < 35 && EntryOfUuidRank(UuidRank(19)) == 19
  {
  }

  lemma EntryFacts20()
    ensures Entries()[20].0 == OrderedKeys()[KeyRank(20)] && KeyRank(20) < 35 && EntryOfKeyRank(KeyRank(20)) == 20
    ensures Entries()[20].1 == OrderedUuids()[UuidRank(20)] && UuidRank(20) < 35 && EntryOfUuidRank(UuidRank(20)) == 20
  {
  }

  lemma EntryFacts21()
    ensures Entries()[21].0 == OrderedKeys()[KeyRank(21)] && KeyRank(21) < 35 && EntryOfKeyRank(KeyRank(21)) == 21
    ensures Entries()[21].1 == OrderedUuids()[UuidRank(21)] && UuidRank(21) < 35 && EntryOfUuidRank(UuidRank(21)) == 21
  {
  }

  lemma EntryFacts22()
    ensures Entries()[22].0 == OrderedKeys()[KeyRank(22)] && KeyRank(22) < 35 && EntryOfKeyRank(KeyRank(22)) == 22
    ensures Entries()[22].1 == OrderedUuids()[UuidRank(22)] && UuidRank(22) < 35 && EntryOfUuidRank(UuidRank(22)) == 22
  {
  }

  lemma EntryFacts23()
    ensures Entries()[23].0 == OrderedKeys()[KeyRank(23)] && KeyRank(23) < 35 && EntryOfKeyRank(KeyRank(23)) == 23
    ensures Entries()[23].1 == OrderedUuids()[UuidRank(23)] && UuidRank(23) < 35 && EntryOfUuidRank(UuidRank(23)) == 23
  {
  }

  lemma EntryFacts24()
    ensures Entries()[24].0 == OrderedKeys()[KeyRank(24)] && KeyRank(24) < 35 && EntryOfKeyRank(KeyRank(24)) == 24
    ensures Entries()[24].1 == OrderedUuids()[UuidRank(24)] && UuidRank(24) < 35 && EntryOfUuidRank(UuidRank(24)) == 24
  {
  }

  lemma EntryFacts25()
    ensures Entries()[25].0 == OrderedKeys()[KeyRank(25)] && KeyRank(25) < 35 && EntryOfKeyRank(KeyRank(25)) == 25
    ensures Entries()[25].1 == OrderedUuids()[UuidRank(25)] && UuidRank(25) < 35 && EntryOfUuidRank(UuidRank(25)) == 25
  {
  }

  lemma EntryFacts26()
    ensures Entries()[26].0 == OrderedKeys()[KeyRank(26)] && KeyRank(26) < 35 && EntryOfKeyRank(KeyRank(26)) == 26
    ensures Entries()[26].1 == OrderedUuids()[UuidRank(26)] && UuidRank(26) < 35 && EntryOfUuidRank(UuidRank(26)) == 26
  {
  }

  lemma EntryFacts27()
    ensures Entries()[27].0 == OrderedKeys()[KeyRank(27)] && KeyRank(27) < 35 && EntryOfKeyRank(KeyRank(27)) == 27
    ensures Entries()[27].1 == OrderedUuids()[UuidRank(27)] && UuidRank(27) < 35 && EntryOfUuidRank(UuidRank(27)) == 27
  {
  }

  lemma EntryFacts28()
    ensures Entries()[28].0 == OrderedKeys()[KeyRank(28)] && KeyRank(28) < 35 && EntryOfKeyRank(KeyRank(28)) == 28
    ensures Entries()[28].1 == OrderedUuids()[UuidRank(28)] && UuidRank(28) < 35 && EntryOfUuidRank(UuidRank(28)) == 28
  {
  }

  lemma EntryFacts29()
    ensures Entries()[29].0 == OrderedKeys()[KeyRank(29)] && KeyRank(29) < 35 && EntryOfKeyRank(KeyRank(29)) == 29
    ensures Entries()[29].1 == OrderedUuids()[UuidRank(29)] && UuidRank(29) < 35 && EntryOfUuidRank(UuidRank(29)) == 29
  {
  }

  lemma EntryFacts30()
    ensures Entries()[30].0 == OrderedKeys()[KeyRank(30)] && KeyRank(30) < 35 && EntryOfKeyRank(KeyRank(30)) == 30
    ensures Entries()[30].1 == OrderedUuids()[UuidRank(30)] && UuidRank(30) < 35 && EntryOfUuidRank(UuidRank(30)) == 30
  {
  }

  lemma EntryFacts31()
    ensures Entries()[31].0 == OrderedKeys()[KeyRank(31)] && KeyRank(31) < 35 && EntryOfKeyRank(KeyRank(31)) == 31
    ensures Entries()[31].1 == OrderedUuids()[UuidRank(31)] && UuidRank(31) < 35 && EntryOfUuidRank(UuidRank(31)) == 31
  {
  }

  lemma EntryFacts32()
    ensures Entries()[32].0 == OrderedKeys()[KeyRank(32)] && KeyRank(32) < 35 && EntryOfKeyRank(KeyRank(32)) == 32
    ensures Entries()[32].1 == OrderedUuids()[UuidRank(32)] && UuidRank(32) < 35 && EntryOfUuidRank(UuidRank(32)) == 32
  {
  }

  lemma EntryFacts33()
    ensures Entries()[33].0 == OrderedKeys()[KeyRank(33)] && KeyRank(33) < 35 && EntryOfKeyRank(KeyRank(33)) == 33
    ensures Entries()[33].1 == OrderedUuids()[UuidRank(33)] && UuidRank(33) < 35 && EntryOfUuidRank(UuidRank(33)) == 33
  {
  }

  lemma EntryFacts34()
    ensures Entries()[34].0 == OrderedKeys()[KeyRank(34)] && KeyRank(34) < 35 && EntryOfKeyRank(KeyRank(34)) == 34
    ensures Entries()[34].1 == OrderedUuids()[UuidRank(34)] && UuidRank(34) < 35 && EntryOfUuidRank(UuidRank(34)) == 34
  {
  }
}
