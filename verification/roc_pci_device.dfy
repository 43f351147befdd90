/** Card identification and search: the table of supported card families,
    the descriptors of the installed cards, and the binding of one card by
    serial number or PCI address (class RocPciDevice).

    The PCI layer is a value of type PciSystem: the devices that carry a
    given (device, vendor) identity, in discovery order, and the serial
    number each family's reader returns for a device. Every search walks
    the family table in order and, within a family, the devices in
    discovery order; the pure functions Scan (collect every match) and
    Search (stop at the first match) say what such a walk yields. */
module RocPciDevices {
  import opened Wrappers
  import opened ReadoutTypes
  import opened ReadoutParameters

  // ---------------------------------------------------------------------------
  // Descriptors and the family table

  /** CardDescriptor: the identity of one physical card. */
  datatype CardDescriptor = CardDescriptor(
    cardType: CardType,
    serialNumber: Option<Int32>,
    pciId: PciId,
    pciAddress: PciAddress,
    numaNode: int)

  /** How a family reads its serial number: the C-RORC from its flash
      through BAR 0, the CRU from a register of BAR 2. */
  datatype SerialReader = CrorcGetSerial | CruGetSerial

  /** One entry of the family table. */
  datatype DeviceType = DeviceType(cardType: CardType, pciId: PciId, getSerial: SerialReader)

  /** deviceTypes: the supported families, in search order. */
  const DEVICE_TYPES: seq<DeviceType> := [
    DeviceType(Crorc, PciId("0033", "10dc"), CrorcGetSerial),
    DeviceType(Cru, PciId("e001", "1172"), CruGetSerial)
  ]

  /** defaultDescriptor: what a RocPciDevice holds before its search. */
  function DefaultDescriptor(): CardDescriptor
  {
    CardDescriptor(Unknown, Some(-1), PciId("unknown", "unknown"), PciAddress(0, 0, 0), -1)
  }

  // ---------------------------------------------------------------------------
  // The PCI layer

  type Byte = x: int | 0 <= x < 0x100

  /** A PCI device as the PCI layer presents it: each of the three address
      queries either answers or fails, and the device has a NUMA node. */
  datatype PciDevice = PciDevice(
    busId: Option<Byte>,
    deviceId: Option<Byte>,
    functionId: Option<Byte>,
    numaNode: int)

  /** The machine: the devices with a given identity in discovery order, and
      what a family's serial reader returns for a device. */
  datatype PciSystem = PciSystem(
    devices: PciId -> seq<PciDevice>,
    readSerial: (SerialReader, PciDevice) -> Option<Int32>)

  /** addressFromDevice: the bus, device and function of a device, or
      nothing when any one of the three queries fails. */
  function AddressFromDevice(device: PciDevice): (address: Option<PciAddress>)
    ensures address.Some? <==> device.busId.Some? && device.deviceId.Some? && device.functionId.Some?
    ensures address.Some? ==>
      address.value == PciAddress(device.busId.value, device.deviceId.value, device.functionId.value)
  {
    if device.busId.None? || device.deviceId.None? || device.functionId.None? then None
    else Some(PciAddress(device.busId.value, device.deviceId.value, device.functionId.value))
  }

  /** One (family, device) pair met by a search. */
  datatype Candidate = Candidate(deviceType: DeviceType, device: PciDevice)

  /** The devices of one family, in discovery order. */
  function TypeCandidates(pci: PciSystem, deviceType: DeviceType): (cs: seq<Candidate>)
    ensures |cs| == |pci.devices(deviceType.pciId)|
    ensures forall i :: 0 <= i < |cs| ==> cs[i] == Candidate(deviceType, pci.devices(deviceType.pciId)[i])
  {
    var devices := pci.devices(deviceType.pciId);
    seq(|devices|, i requires 0 <= i < |devices| => Candidate(deviceType, devices[i]))
  }

  /** The devices of the given families, family by family. */
  function CandidatesOf(pci: PciSystem, types: seq<DeviceType>): seq<Candidate>
  {
    if types == [] then []
    else CandidatesOf(pci, types[..|types| - 1]) + TypeCandidates(pci, types[|types| - 1])
  }

  /** Every pair a search meets, in the order it meets them. */
  function Candidates(pci: PciSystem): seq<Candidate>
  {
    CandidatesOf(pci, DEVICE_TYPES)
  }

  /** The serial number the candidate's family reader returns. */
  function SerialOf(pci: PciSystem, c: Candidate): Option<Int32>
  {
    pci.readSerial(c.deviceType.getSerial, c.device)
  }

  // ---------------------------------------------------------------------------
  // What a search looks for and what it finds

  /** The target of a search: every card, one serial number, or one address. */
  datatype SearchKey = AnyCard | BySerial(serial: Int32) | ByAddress(address: PciAddress)

  /** Search failures, each annotated with the target searched for. */
  datatype DeviceError =
    | AddressUnavailable(key: SearchKey)  // "Failed to retrieve device address"
    | CardNotFound(key: SearchKey)        // "Could not find card"

  function SearchKeyOf(cardId: CardId): SearchKey
  {
    match cardId
    case Serial(serial) => BySerial(serial)
    case Address(address) => ByAddress(address)
  }

  /** Whether the candidate is one the search looks for. A device whose
      reader returns no serial number never matches a serial. */
  predicate Matches(pci: PciSystem, c: Candidate, key: SearchKey)
  {
    match key
    case AnyCard => true
    case BySerial(serial) => SerialOf(pci, c) == Some(serial)
    case ByAddress(address) => AddressFromDevice(c.device) == Some(address)
  }

  /** Whether examining the candidate asks for its address: always when
      searching by address, and for matches otherwise. */
  predicate NeedsAddress(pci: PciSystem, c: Candidate, key: SearchKey)
  {
    key.ByAddress? || Matches(pci, c, key)
  }

  /** Whether every address the search asks for is available. */
  predicate AddressesAvailable(pci: PciSystem, cs: seq<Candidate>, key: SearchKey)
  {
    forall i :: 0 <= i < |cs| && NeedsAddress(pci, cs[i], key) ==> AddressFromDevice(cs[i].device).Some?
  }

  /** `d` is the descriptor of candidate `c`: its family, its serial, its
      identity, its address and its NUMA node. */
  predicate DescribedAs(pci: PciSystem, c: Candidate, d: CardDescriptor)
  {
    d == CardDescriptor(c.deviceType.cardType, SerialOf(pci, c), c.deviceType.pciId, d.pciAddress, c.device.numaNode)
    && AddressFromDevice(c.device) == Some(d.pciAddress)
  }

  /** The matching candidates, in order. */
  function Matching(pci: PciSystem, cs: seq<Candidate>, key: SearchKey): seq<Candidate>
  {
    if cs == [] then []
    else
      var c := cs[|cs| - 1];
      Matching(pci, cs[..|cs| - 1], key) + (if Matches(pci, c, key) then [c] else [])
  }

  /** Examining one candidate: no descriptor when it does not match, its
      descriptor when it does, and a failure when an address it needs
      cannot be read. */
  function Examine(pci: PciSystem, c: Candidate, key: SearchKey): Result<Option<CardDescriptor>, DeviceError>
  {
    if !NeedsAddress(pci, c, key) then Ok(None)
    else match AddressFromDevice(c.device)
      case None => Err(AddressUnavailable(key))
      case Some(address) =>
        if Matches(pci, c, key)
        then Ok(Some(CardDescriptor(c.deviceType.cardType, SerialOf(pci, c), c.deviceType.pciId, address, c.device.numaNode)))
        else Ok(None)
  }

  /** The descriptors of every match, in order; the first failure aborts. */
  function Scan(pci: PciSystem, cs: seq<Candidate>, key: SearchKey): Result<seq<CardDescriptor>, DeviceError>
  {
    if cs == [] then Ok([])
    else
      match Scan(pci, cs[..|cs| - 1], key)
      case Err(e) => Err(e)
      case Ok(found) =>
        match Examine(pci, cs[|cs| - 1], key)
        case Err(e) => Err(e)
        case Ok(None) => Ok(found)
        case Ok(Some(d)) => Ok(found + [d])
  }

  /** What a search that stops at its first match binds. */
  datatype Found = Found(device: PciDevice, descriptor: CardDescriptor)

  /** The first match, a failure met before it, or CardNotFound. */
  function Search(pci: PciSystem, cs: seq<Candidate>, key: SearchKey): Result<Found, DeviceError>
  {
    if cs == [] then Err(CardNotFound(key))
    else
      var before := Search(pci, cs[..|cs| - 1], key);
      if before != Err(CardNotFound(key)) then before
      else
        match Examine(pci, cs[|cs| - 1], key)
        case Err(e) => Err(e)
        case Ok(None) => before
        case Ok(Some(d)) => Ok(Found(cs[|cs| - 1].device, d))
  }

  // ---------------------------------------------------------------------------
  // Properties of the searches

  lemma LastOfAppend<T>(s: seq<T>, x: T)
    ensures (s + [x])[..|s|] == s && (s + [x])[|s|] == x
  {
  }

  lemma {:induction false} MatchingAppend(pci: PciSystem, a: seq<Candidate>, b: seq<Candidate>, key: SearchKey)
    ensures Matching(pci, a + b, key) == Matching(pci, a, key) + Matching(pci, b, key)
    decreases |b|
  {
    if b == [] {
      assert a + b == a;
    } else {
      var b', c := b[..|b| - 1], b[|b| - 1];
      assert (a + b)[..|a + b| - 1] == a + b' && (a + b)[|a + b| - 1] == c;
      MatchingAppend(pci, a, b', key);
    }
  }

  /** Exactly the matching candidates are kept, in order. */
  lemma {:induction false} MatchingMeaning(pci: PciSystem, cs: seq<Candidate>, key: SearchKey)
    ensures forall c :: c in Matching(pci, cs, key) <==> c in cs && Matches(pci, c, key)
    ensures key == AnyCard ==> Matching(pci, cs, key) == cs
  {
    if cs != [] {
      var init := cs[..|cs| - 1];
      MatchingMeaning(pci, init, key);
      assert cs == init + [cs[|cs| - 1]];
    }
  }

  /** Once a scan fails, scanning further candidates keeps that failure. */
  lemma {:induction false} ScanSticky(pci: PciSystem, a: seq<Candidate>, b: seq<Candidate>, key: SearchKey)
    requires Scan(pci, a, key).Err?
    ensures Scan(pci, a + b, key) == Scan(pci, a, key)
    decreases |b|
  {
    if b == [] {
      assert a + b == a;
    } else {
      var b' := b[..|b| - 1];
      assert (a + b)[..|a + b| - 1] == a + b';
      ScanSticky(pci, a, b', key);
    }
  }

  /** Once a search has found a card or failed, further candidates change
      nothing. */
  lemma {:induction false} SearchSticky(pci: PciSystem, a: seq<Candidate>, b: seq<Candidate>, key: SearchKey)
    requires Search(pci, a, key) != Err(CardNotFound(key))
    ensures Search(pci, a + b, key) == Search(pci, a, key)
    decreases |b|
  {
    if b == [] {
      assert a + b == a;
    } else {
      var b' := b[..|b| - 1];
      assert (a + b)[..|a + b| - 1] == a + b';
      SearchSticky(pci, a, b', key);
    }
  }

  /** A scan succeeds exactly when every address it asks for is available,
      fails only with AddressUnavailable, and then returns one descriptor
      per matching candidate, in order. */
  lemma {:induction false} ScanMeaning(pci: PciSystem, cs: seq<Candidate>, key: SearchKey)
    ensures Scan(pci, cs, key).Ok? <==> AddressesAvailable(pci, cs, key)
    ensures Scan(pci, cs, key).Err? ==> Scan(pci, cs, key).error == AddressUnavailable(key)
    ensures Scan(pci, cs, key).Ok? ==>
      var found, matching := Scan(pci, cs, key).value, Matching(pci, cs, key);
      |found| == |matching| && forall i :: 0 <= i < |found| ==> DescribedAs(pci, matching[i], found[i])
  {
    if cs != [] {
      var init, c := cs[..|cs| - 1], cs[|cs| - 1];
      ScanMeaning(pci, init, key);
      assert cs == init + [c];
      if AddressesAvailable(pci, cs, key) {
        assert AddressesAvailable(pci, init, key) by {
          forall i | 0 <= i < |init| && NeedsAddress(pci, init[i], key)
            ensures AddressFromDevice(init[i].device).Some?
          {
            assert init[i] == cs[i];
          }
        }
        assert NeedsAddress(pci, c, key) ==> AddressFromDevice(c.device).Some?;
      }
    }
  }

  /** The candidate at `i` is the first match. */
  predicate FirstMatch(pci: PciSystem, cs: seq<Candidate>, key: SearchKey, i: int)
  {
    0 <= i < |cs| && Matches(pci, cs[i], key) && forall j :: 0 <= j < i ==> !Matches(pci, cs[j], key)
  }

  lemma AddressesAvailableSnoc(pci: PciSystem, init: seq<Candidate>, c: Candidate, key: SearchKey)
    ensures AddressesAvailable(pci, init + [c], key) <==>
      AddressesAvailable(pci, init, key) && (NeedsAddress(pci, c, key) ==> AddressFromDevice(c.device).Some?)
  {
    var cs := init + [c];
    assert cs[|init|] == c;
    assert forall i :: 0 <= i < |init| ==> cs[i] == init[i];
  }

  /** A search fails only with CardNotFound or AddressUnavailable. */
  lemma {:induction false} SearchErrors(pci: PciSystem, cs: seq<Candidate>, key: SearchKey)
    ensures Search(pci, cs, key).Err? ==>
      Search(pci, cs, key).error == CardNotFound(key) || Search(pci, cs, key).error == AddressUnavailable(key)
  {
    if cs != [] {
      SearchErrors(pci, cs[..|cs| - 1], key);
    }
  }

  /** A search reports CardNotFound exactly when nothing matches and every
      address it asked for was available. */
  lemma {:induction false} SearchNotFound(pci: PciSystem, cs: seq<Candidate>, key: SearchKey)
    ensures Search(pci, cs, key) == Err(CardNotFound(key)) <==>
      Matching(pci, cs, key) == [] && AddressesAvailable(pci, cs, key)
  {
    if cs != [] {
      var init, c := cs[..|cs| - 1], cs[|cs| - 1];
      SearchNotFound(pci, init, key);
      assert cs == init + [c];
      AddressesAvailableSnoc(pci, init, c, key);
    }
  }

  /** A search that succeeds binds the first match and its descriptor. */
  lemma {:induction false} SearchFindsFirst(pci: PciSystem, cs: seq<Candidate>, key: SearchKey)
    ensures Search(pci, cs, key).Ok? ==>
      exists i :: (FirstMatch(pci, cs, key, i)
        && Search(pci, cs, key).value.device == cs[i].device
        && DescribedAs(pci, cs[i], Search(pci, cs, key).value.descriptor))
  {
    if cs != [] {
      var init, c := cs[..|cs| - 1], cs[|cs| - 1];
      SearchFindsFirst(pci, init, key);
      assert forall j :: 0 <= j < |init| ==> cs[j] == init[j];
      var before := Search(pci, init, key);
      if before == Err(CardNotFound(key)) && Search(pci, cs, key).Ok? {
        SearchNotFound(pci, init, key);
        MatchingMeaning(pci, init, key);
        forall j | 0 <= j < |init|
          ensures !Matches(pci, cs[j], key)
        {
          assert init[j] in init;
        }
        assert FirstMatch(pci, cs, key, |init|);
      } else if before.Ok? {
        var i :| FirstMatch(pci, init, key, i) && before.value.device == init[i].device
          && DescribedAs(pci, init[i], before.value.descriptor);
        assert FirstMatch(pci, cs, key, i);
      }
    }
  }

  /** The first result of a successful scan is what a search binds, and an
      empty scan is CardNotFound. */
  lemma {:induction false} SearchIsFirstOfScan(pci: PciSystem, cs: seq<Candidate>, key: SearchKey)
    requires Scan(pci, cs, key).Ok?
    ensures |Scan(pci, cs, key).value| == |Matching(pci, cs, key)|
    ensures var found := Scan(pci, cs, key).value;
      Search(pci, cs, key) ==
        if found == [] then Err(CardNotFound(key))
        else Ok(Found(Matching(pci, cs, key)[0].device, found[0]))
  {
    ScanMeaning(pci, cs, key);
    if cs != [] {
      var init, c := cs[..|cs| - 1], cs[|cs| - 1];
      SearchIsFirstOfScan(pci, init, key);
    }
  }

  /** The search order: first the C-RORC devices, then the CRU devices, each
      in discovery order. */
  lemma CandidatesOrder(pci: PciSystem)
    ensures Candidates(pci) == TypeCandidates(pci, DEVICE_TYPES[0]) + TypeCandidates(pci, DEVICE_TYPES[1])
    ensures DEVICE_TYPES[0].cardType == Crorc && DEVICE_TYPES[0].pciId == PciId("0033", "10dc")
    ensures DEVICE_TYPES[1].cardType == Cru && DEVICE_TYPES[1].pciId == PciId("e001", "1172")
  {
    var crorc := DEVICE_TYPES[..1];
    assert crorc[..0] == [] && crorc[0] == DEVICE_TYPES[0];
    assert CandidatesOf(pci, crorc) == TypeCandidates(pci, DEVICE_TYPES[0]);
    assert DEVICE_TYPES[..|DEVICE_TYPES| - 1] == crorc;
  }

  /** findSystemDevices(): one descriptor per installed device of each
      known family, in search order, unless an address cannot be read. */
  lemma FindAllDescribesEveryDevice(pci: PciSystem)
    ensures var r := Scan(pci, Candidates(pci), AnyCard);
      (r.Ok? <==> forall i :: 0 <= i < |Candidates(pci)| ==> AddressFromDevice(Candidates(pci)[i].device).Some?)
      && (r.Ok? ==>
            |r.value| == |Candidates(pci)|
            && forall i :: 0 <= i < |r.value| ==> DescribedAs(pci, Candidates(pci)[i], r.value[i]))
  {
    ScanMeaning(pci, Candidates(pci), AnyCard);
    MatchingMeaning(pci, Candidates(pci), AnyCard);
  }

  /** findSystemDevices(serial): every card found carries that serial
      number, and no card is missed. */
  lemma FindBySerialMatchesSerial(pci: PciSystem, serial: Int32)
    ensures var r := Scan(pci, Candidates(pci), BySerial(serial));
      r.Ok? ==>
        |r.value| == |Matching(pci, Candidates(pci), BySerial(serial))|
        && forall i :: 0 <= i < |r.value| ==> r.value[i].serialNumber == Some(serial)
  {
    var cs := Candidates(pci);
    ScanMeaning(pci, cs, BySerial(serial));
    MatchingMeaning(pci, cs, BySerial(serial));
    var r := Scan(pci, cs, BySerial(serial));
    if r.Ok? {
      var matching := Matching(pci, cs, BySerial(serial));
      forall i | 0 <= i < |r.value|
        ensures r.value[i].serialNumber == Some(serial)
      {
        assert matching[i] in matching;
      }
    }
  }

  /** findSystemDevices(address): every card found carries that address. */
  lemma FindByAddressMatchesAddress(pci: PciSystem, address: PciAddress)
    ensures var r := Scan(pci, Candidates(pci), ByAddress(address));
      r.Ok? ==> forall i :: 0 <= i < |r.value| ==> r.value[i].pciAddress == address
  {
    var cs := Candidates(pci);
    ScanMeaning(pci, cs, ByAddress(address));
    MatchingMeaning(pci, cs, ByAddress(address));
    var r := Scan(pci, cs, ByAddress(address));
    if r.Ok? {
      var matching := Matching(pci, cs, ByAddress(address));
      forall i | 0 <= i < |r.value|
        ensures r.value[i].pciAddress == address
      {
        assert matching[i] in matching;
      }
    }
  }

  // ---------------------------------------------------------------------------
  // Loop bookkeeping

  /** The pairs met before device `j` of family `t`. */
  function Before(pci: PciSystem, t: nat, j: nat): seq<Candidate>
    requires t < |DEVICE_TYPES|
    requires j <= |pci.devices(DEVICE_TYPES[t].pciId)|
  {
    CandidatesOf(pci, DEVICE_TYPES[..t]) + TypeCandidates(pci, DEVICE_TYPES[t])[..j]
  }

  lemma {:induction false} CandidatesOfAppend(pci: PciSystem, a: seq<DeviceType>, b: seq<DeviceType>)
    ensures CandidatesOf(pci, a + b) == CandidatesOf(pci, a) + CandidatesOf(pci, b)
    decreases |b|
  {
    if b == [] {
      assert a + b == a;
    } else {
      var b' := b[..|b| - 1];
      assert (a + b)[..|a + b| - 1] == a + b' && (a + b)[|a + b| - 1] == b[|b| - 1];
      CandidatesOfAppend(pci, a, b');
    }
  }

  /** The pairs met before device `j` of family `t` are a prefix of all the
      pairs. */
  lemma BeforeIsPrefix(pci: PciSystem, t: nat, j: nat) returns (rest: seq<Candidate>)
    requires t < |DEVICE_TYPES|
    requires j <= |pci.devices(DEVICE_TYPES[t].pciId)|
    ensures Candidates(pci) == Before(pci, t, j) + rest
  {
    var here := TypeCandidates(pci, DEVICE_TYPES[t]);
    CandidatesOfAppend(pci, DEVICE_TYPES[..t], DEVICE_TYPES[t..]);
    assert DEVICE_TYPES[..t] + DEVICE_TYPES[t..] == DEVICE_TYPES;
    CandidatesOfAppend(pci, [DEVICE_TYPES[t]], DEVICE_TYPES[t + 1..]);
    assert [DEVICE_TYPES[t]] + DEVICE_TYPES[t + 1..] == DEVICE_TYPES[t..];
    assert CandidatesOf(pci, [DEVICE_TYPES[t]]) == here by {
      assert [DEVICE_TYPES[t]][..0] == [];
    }
    assert here == here[..j] + here[j..];
    rest := here[j..] + CandidatesOf(pci, DEVICE_TYPES[t + 1..]);
  }

  /** Moving on to the next device, or past the last device of a family to
      the next family. */
  lemma BeforeNext(pci: PciSystem, t: nat, j: nat)
    requires t < |DEVICE_TYPES|
    requires j < |pci.devices(DEVICE_TYPES[t].pciId)|
    ensures Before(pci, t, j + 1) == Before(pci, t, j) + [Candidate(DEVICE_TYPES[t], pci.devices(DEVICE_TYPES[t].pciId)[j])]
  {
    var here := TypeCandidates(pci, DEVICE_TYPES[t]);
    assert here[..j + 1] == here[..j] + [here[j]];
  }

  lemma BeforeNextType(pci: PciSystem, t: nat)
    requires t < |DEVICE_TYPES|
    ensures CandidatesOf(pci, DEVICE_TYPES[..t + 1]) == Before(pci, t, |pci.devices(DEVICE_TYPES[t].pciId)|)
  {
    var here := TypeCandidates(pci, DEVICE_TYPES[t]);
    assert DEVICE_TYPES[..t + 1][..t] == DEVICE_TYPES[..t];
    assert here[..|here|] == here;
  }

  lemma AllTypesDone(pci: PciSystem)
    ensures CandidatesOf(pci, DEVICE_TYPES[..|DEVICE_TYPES|]) == Candidates(pci)
  {
    assert DEVICE_TYPES[..|DEVICE_TYPES|] == DEVICE_TYPES;
  }

  lemma ScanStep(pci: PciSystem, done: seq<Candidate>, c: Candidate, key: SearchKey, found: seq<CardDescriptor>)
    requires Scan(pci, done, key) == Ok(found)
    ensures Scan(pci, done + [c], key) ==
      match Examine(pci, c, key)
      case Err(e) => Err(e)
      case Ok(None) => Ok(found)
      case Ok(Some(d)) => Ok(found + [d])
  {
    LastOfAppend(done, c);
  }

  lemma SearchStep(pci: PciSystem, done: seq<Candidate>, c: Candidate, key: SearchKey)
    requires Search(pci, done, key) == Err(CardNotFound(key))
    ensures Search(pci, done + [c], key) ==
      match Examine(pci, c, key)
      case Err(e) => Err(e)
      case Ok(None) => Err(CardNotFound(key))
      case Ok(Some(d)) => Ok(Found(c.device, d))
  {
    LastOfAppend(done, c);
  }

  /** The first match ends a search: with its descriptor when its address
      can be read, with AddressUnavailable when it cannot; it heads the
      matches of every continuation. */
  lemma MatchEndsSearch(pci: PciSystem, done: seq<Candidate>, c: Candidate, rest: seq<Candidate>, key: SearchKey)
    requires Search(pci, done, key) == Err(CardNotFound(key)) && Matching(pci, done, key) == []
    requires Matches(pci, c, key)
    ensures Search(pci, done + [c] + rest, key) ==
      match AddressFromDevice(c.device)
      case None => Err(AddressUnavailable(key))
      case Some(address) =>
        Ok(Found(c.device, CardDescriptor(c.deviceType.cardType, SerialOf(pci, c), c.deviceType.pciId, address, c.device.numaNode)))
    ensures Matching(pci, done + [c] + rest, key) != [] && Matching(pci, done + [c] + rest, key)[0] == c
  {
    SearchStep(pci, done, c, key);
    LastOfAppend(done, c);
    MatchingAppend(pci, done + [c], rest, key);
    SearchSticky(pci, done + [c], rest, key);
  }

  /** A device whose address cannot be read, met where the enumeration asks
      for it, makes the whole enumeration fail: addressFromDevice throws and
      no loop catches it. */
  lemma AddressFailureAborts(pci: PciSystem, cs: seq<Candidate>, key: SearchKey, i: int)
    requires 0 <= i < |cs| && NeedsAddress(pci, cs[i], key) && AddressFromDevice(cs[i].device).None?
    ensures Scan(pci, cs, key) == Err(AddressUnavailable(key))
  {
    ScanMeaning(pci, cs, key);
  }

  /** The same for a search: an unreadable address it asks for before any
      match ends it with AddressUnavailable, whatever follows. */
  lemma AddressFailureAbortsSearch(pci: PciSystem, cs: seq<Candidate>, key: SearchKey, i: int)
    requires 0 <= i < |cs| && NeedsAddress(pci, cs[i], key) && AddressFromDevice(cs[i].device).None?
    requires forall j :: 0 <= j < i ==> !Matches(pci, cs[j], key)
    ensures Search(pci, cs, key) == Err(AddressUnavailable(key))
  {
    var done, c, rest := cs[..i], cs[i], cs[i + 1..];
    assert cs == done + [c] + rest;
    SearchErrors(pci, done, key);
    SearchFindsFirst(pci, done, key);
    if Search(pci, done, key) == Err(CardNotFound(key)) {
      SearchStep(pci, done, c, key);
    } else {
      SearchSticky(pci, done, [c], key);
    }
    SearchSticky(pci, done + [c], rest, key);
  }

  // ---------------------------------------------------------------------------
  // class RocPciDevice

  /** RocPciDevice: one card of the machine, bound by a search. */
  class RocPciDevice {
    const pci: PciSystem
    /** The PCI device bound by the last search. */
    var pciDevice: Option<PciDevice>
    var descriptor: CardDescriptor

    /** The object before its search: nothing bound, the default descriptor
        (family Unknown, serial -1, identity "unknown", address 0:0.0, NUMA
        node -1). */
    constructor (pci: PciSystem)
      ensures this.pci == pci && pciDevice == None
      ensures descriptor == CardDescriptor(Unknown, Some(-1), PciId("unknown", "unknown"), PciAddress(0, 0, 0), -1)
    {
      this.pci := pci;
      pciDevice := None;
      descriptor := DefaultDescriptor();
    }

    /** initWithSerial: bind the first device, in search order, whose
        family's reader returns `serial`. The device is bound before its
        address is read, so it stays bound when that read fails. */
    method InitWithSerial(serial: Int32) returns (r: Result<(), DeviceError>)
      modifies this
      ensures var found := Search(pci, Candidates(pci), BySerial(serial));
        match found
        case Ok(f) => r == Ok(()) && pciDevice == Some(f.device) && descriptor == f.descriptor
        case Err(e) =>
          r == Err(e) && descriptor == old(descriptor)
          && (e.CardNotFound? ==> pciDevice == old(pciDevice))
          && (e.AddressUnavailable? ==>
                Matching(pci, Candidates(pci), BySerial(serial)) != []
                && pciDevice == Some(Matching(pci, Candidates(pci), BySerial(serial))[0].device))
    {
      var key := BySerial(serial);
      ghost var done: seq<Candidate> := [];
      for t := 0 to |DEVICE_TYPES|
        invariant done == CandidatesOf(pci, DEVICE_TYPES[..t])
        invariant Search(pci, done, key) == Err(CardNotFound(key))
        invariant Matching(pci, done, key) == []
        invariant pciDevice == old(pciDevice) && descriptor == old(descriptor)
      {
        var deviceType := DEVICE_TYPES[t];
        var devices := pci.devices(deviceType.pciId);
        for j := 0 to |devices|
          invariant done == Before(pci, t, j)
          invariant Search(pci, done, key) == Err(CardNotFound(key))
          invariant Matching(pci, done, key) == []
          invariant pciDevice == old(pciDevice) && descriptor == old(descriptor)
        {
          var device := devices[j];
          ghost var c := Candidate(deviceType, device);
          BeforeNext(pci, t, j);
          if pci.readSerial(deviceType.getSerial, device) == Some(serial) {
            ghost var rest := BeforeIsPrefix(pci, t, j + 1);
            MatchEndsSearch(pci, done, c, rest, key);
            pciDevice := Some(device);
            var address := AddressFromDevice(device);
            if address.None? {
              return Err(AddressUnavailable(key));
            }
            descriptor := CardDescriptor(deviceType.cardType, Some(serial), deviceType.pciId, address.value, device.numaNode);
            return Ok(());
          }
          SearchStep(pci, done, c, key);
          LastOfAppend(done, c);
          done := done + [c];
        }
        BeforeNextType(pci, t);
      }
      AllTypesDone(pci);
      return Err(CardNotFound(key));
    }

    /** initWithAddress: bind the first device, in search order, at
        `address`. Every device met is asked for its address, and a failed
        query ends the search. */
    method InitWithAddress(address: PciAddress) returns (r: Result<(), DeviceError>)
      modifies this
      ensures var found := Search(pci, Candidates(pci), ByAddress(address));
        match found
        case Ok(f) => r == Ok(()) && pciDevice == Some(f.device) && descriptor == f.descriptor
        case Err(e) => r == Err(e) && pciDevice == old(pciDevice) && descriptor == old(descriptor)
    {
      var key := ByAddress(address);
      ghost var done: seq<Candidate> := [];
      for t := 0 to |DEVICE_TYPES|
        invariant done == CandidatesOf(pci, DEVICE_TYPES[..t])
        invariant Search(pci, done, key) == Err(CardNotFound(key))
        invariant pciDevice == old(pciDevice) && descriptor == old(descriptor)
      {
        var deviceType := DEVICE_TYPES[t];
        var devices := pci.devices(deviceType.pciId);
        for j := 0 to |devices|
          invariant done == Before(pci, t, j)
          invariant Search(pci, done, key) == Err(CardNotFound(key))
          invariant pciDevice == old(pciDevice) && descriptor == old(descriptor)
        {
          var device := devices[j];
          ghost var c := Candidate(deviceType, device);
          BeforeNext(pci, t, j);
          SearchStep(pci, done, c, key);
          ghost var rest := BeforeIsPrefix(pci, t, j + 1);
          var deviceAddress := AddressFromDevice(device);
          if deviceAddress.None? {
            SearchSticky(pci, done + [c], rest, key);
            return Err(AddressUnavailable(key));
          }
          if deviceAddress.value == address {
            pciDevice := Some(device);
            descriptor := CardDescriptor(deviceType.cardType, pci.readSerial(deviceType.getSerial, device),
              deviceType.pciId, address, device.numaNode);
            SearchSticky(pci, done + [c], rest, key);
            return Ok(());
          }
          done := done + [c];
        }
        BeforeNextType(pci, t);
      }
      AllTypesDone(pci);
      return Err(CardNotFound(key));
    }

    /** RocPciDevice(serialNumber): a device bound by serial number. */
    static method OpenBySerial(pci: PciSystem, serial: Int32) returns (r: Result<RocPciDevice, DeviceError>)
      ensures var found := Search(pci, Candidates(pci), BySerial(serial));
        (r.Ok? <==> found.Ok?)
        && (r.Ok? ==>
              fresh(r.value) && r.value.pci == pci
              && r.value.pciDevice == Some(found.value.device) && r.value.descriptor == found.value.descriptor)
        && (r.Err? ==> r.error == found.error)
    {
      var device := new RocPciDevice(pci);
      var done := device.InitWithSerial(serial);
      if done.Err? {
        return Err(done.error);
      }
      return Ok(device);
    }

    /** RocPciDevice(address): a device bound by PCI address. */
    static method OpenByAddress(pci: PciSystem, address: PciAddress) returns (r: Result<RocPciDevice, DeviceError>)
      ensures var found := Search(pci, Candidates(pci), ByAddress(address));
        (r.Ok? <==> found.Ok?)
        && (r.Ok? ==>
              fresh(r.value) && r.value.pci == pci
              && r.value.pciDevice == Some(found.value.device) && r.value.descriptor == found.value.descriptor)
        && (r.Err? ==> r.error == found.error)
    {
      var device := new RocPciDevice(pci);
      var done := device.InitWithAddress(address);
      if done.Err? {
        return Err(done.error);
      }
      return Ok(device);
    }

    /** RocPciDevice(cardId): a serial number is searched as a serial, an
        address as an address. */
    static method Open(pci: PciSystem, cardId: CardId) returns (r: Result<RocPciDevice, DeviceError>)
      ensures var found := Search(pci, Candidates(pci), SearchKeyOf(cardId));
        (r.Ok? <==> found.Ok?)
        && (r.Ok? ==>
              fresh(r.value) && r.value.pci == pci
              && r.value.pciDevice == Some(found.value.device) && r.value.descriptor == found.value.descriptor)
        && (r.Err? ==> r.error == found.error)
    {
      match cardId
      case Serial(serial) =>
        r := OpenBySerial(pci, serial);
      case Address(address) =>
        r := OpenByAddress(pci, address);
    }

    /** findSystemDevices(): the descriptor of every installed card, unless an
        address cannot be read. */
    static method FindSystemDevices(pci: PciSystem) returns (r: Result<seq<CardDescriptor>, DeviceError>)
      ensures r == Scan(pci, Candidates(pci), AnyCard)
    {
      var key := AnyCard;
      var cards: seq<CardDescriptor> := [];
      ghost var done: seq<Candidate> := [];
      for t := 0 to |DEVICE_TYPES|
        invariant done == CandidatesOf(pci, DEVICE_TYPES[..t])
        invariant Scan(pci, done, key) == Ok(cards)
      {
        var deviceType := DEVICE_TYPES[t];
        var devices := pci.devices(deviceType.pciId);
        for j := 0 to |devices|
          invariant done == Before(pci, t, j)
          invariant Scan(pci, done, key) == Ok(cards)
        {
          var device := devices[j];
          ghost var c := Candidate(deviceType, device);
          BeforeNext(pci, t, j);
          ScanStep(pci, done, c, key, cards);
          var address := AddressFromDevice(device);
          if address.None? {
            ghost var rest := BeforeIsPrefix(pci, t, j + 1);
            ScanSticky(pci, done + [c], rest, key);
            return Err(AddressUnavailable(key));
          }
          cards := cards + [CardDescriptor(deviceType.cardType, pci.readSerial(deviceType.getSerial, device),
            deviceType.pciId, address.value, device.numaNode)];
          done := done + [c];
        }
        BeforeNextType(pci, t);
      }
      AllTypesDone(pci);
      return Ok(cards);
    }

    /** findSystemDevices(serialNumber): the descriptors of the cards whose
        reader returns `serial`; none found is an empty list, not a failure. */
    static method FindSystemDevicesBySerial(pci: PciSystem, serial: Int32) returns (r: Result<seq<CardDescriptor>, DeviceError>)
      ensures r == Scan(pci, Candidates(pci), BySerial(serial))
    {
      var key := BySerial(serial);
      var cards: seq<CardDescriptor> := [];
      ghost var done: seq<Candidate> := [];
      for t := 0 to |DEVICE_TYPES|
        invariant done == CandidatesOf(pci, DEVICE_TYPES[..t])
        invariant Scan(pci, done, key) == Ok(cards)
      {
        var deviceType := DEVICE_TYPES[t];
        var devices := pci.devices(deviceType.pciId);
        for j := 0 to |devices|
          invariant done == Before(pci, t, j)
          invariant Scan(pci, done, key) == Ok(cards)
        {
          var device := devices[j];
          ghost var c := Candidate(deviceType, device);
          BeforeNext(pci, t, j);
          ScanStep(pci, done, c, key, cards);
          if pci.readSerial(deviceType.getSerial, device) == Some(serial) {
            var address := AddressFromDevice(device);
            if address.None? {
              ghost var rest := BeforeIsPrefix(pci, t, j + 1);
              ScanSticky(pci, done + [c], rest, key);
              return Err(AddressUnavailable(key));
            }
            cards := cards + [CardDescriptor(deviceType.cardType, pci.readSerial(deviceType.getSerial, device),
              deviceType.pciId, address.value, device.numaNode)];
          }
          done := done + [c];
        }
        BeforeNextType(pci, t);
      }
      AllTypesDone(pci);
      return Ok(cards);
    }

    /** findSystemDevices(address): the descriptors of the cards at `address`;
        none found is an empty list, not a failure. */
    static method FindSystemDevicesByAddress(pci: PciSystem, address: PciAddress) returns (r: Result<seq<CardDescriptor>, DeviceError>)
      ensures r == Scan(pci, Candidates(pci), ByAddress(address))
    {
      var key := ByAddress(address);
      var cards: seq<CardDescriptor> := [];
      ghost var done: seq<Candidate> := [];
      for t := 0 to |DEVICE_TYPES|
        invariant done == CandidatesOf(pci, DEVICE_TYPES[..t])
        invariant Scan(pci, done, key) == Ok(cards)
      {
        var deviceType := DEVICE_TYPES[t];
        var devices := pci.devices(deviceType.pciId);
        for j := 0 to |devices|
          invariant done == Before(pci, t, j)
          invariant Scan(pci, done, key) == Ok(cards)
        {
          var device := devices[j];
          ghost var c := Candidate(deviceType, device);
          BeforeNext(pci, t, j);
          ScanStep(pci, done, c, key, cards);
          var deviceAddress := AddressFromDevice(device);
          if deviceAddress.None? {
            ghost var rest := BeforeIsPrefix(pci, t, j + 1);
            ScanSticky(pci, done + [c], rest, key);
            return Err(AddressUnavailable(key));
          }
          if deviceAddress.value == address {
            cards := cards + [CardDescriptor(deviceType.cardType, pci.readSerial(deviceType.getSerial, device),
              deviceType.pciId, address, device.numaNode)];
          }
          done := done + [c];
        }
        BeforeNextType(pci, t);
      }
      AllTypesDone(pci);
      return Ok(cards);
    }
  }
}
