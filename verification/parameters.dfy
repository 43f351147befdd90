/** The configuration object of a readout channel (class Parameters) and the
    two string parsers that produce its card-id and link-mask values.

    Every parameter is optional: it has a setter that stores a value and
    returns the object itself, a getter that answers with an optional, and a
    "required" getter that fails with a ParameterException when the value was
    never set. */
module ReadoutParameters {
  import opened Wrappers
  import opened ReadoutTypes
  import opened Decimal

  // ---------------------------------------------------------------------------
  // Parameter value types

  /** CardIdType: exactly one of a serial number or a PCI address. A serial
      number of -1 selects the dummy driver. */
  datatype CardId = Serial(serial: Int32) | Address(address: PciAddress)

  /** BufferParametersType: a memory buffer, a file buffer or no buffer. The
      contents of the memory and file descriptions are not modelled; the
      number stands for their identity. */
  datatype BufferParameters = Memory(memory: int) | File(file: int) | Null

  /** LoopbackMode::type, GeneratorPattern::type and ReadoutMode::type are
      enumerations whose members are not modelled; each value is a code. */
  datatype LoopbackMode = LoopbackMode(loopbackCode: int)
  datatype GeneratorPattern = GeneratorPattern(patternCode: int)
  datatype ReadoutMode = ReadoutMode(modeCode: int)

  /** LinkMaskType: a set of link ids. */
  type LinkMask = set<Uint32>

  /** Exceptions raised by this component. */
  datatype Failure =
    | ParseException(input: string)  // the string that could not be parsed
    | ParameterException(key: Key)   // the parameter that is missing or out of range

  // ---------------------------------------------------------------------------
  // The stored settings

  /** The keys under which the settings are stored, one per parameter. */
  datatype Key =
    | CardIdKey
    | ChannelNumberKey
    | DmaPageSizeKey
    | GeneratorEnabledKey
    | GeneratorDataSizeKey
    | GeneratorLoopbackKey
    | GeneratorPatternKey
    | GeneratorRandomSizeEnabledKey
    | BufferParametersKey
    | ReadoutModeKey
    | LinkMaskKey

  /** A stored value, tagged with the parameter it belongs to. */
  datatype Value =
    | CardIdValue(cardId: CardId)
    | ChannelNumberValue(channelNumber: Int32)
    | DmaPageSizeValue(dmaPageSize: Size)
    | GeneratorEnabledValue(generatorEnabled: bool)
    | GeneratorDataSizeValue(generatorDataSize: Size)
    | GeneratorLoopbackValue(generatorLoopback: LoopbackMode)
    | GeneratorPatternValue(generatorPattern: GeneratorPattern)
    | GeneratorRandomSizeEnabledValue(generatorRandomSizeEnabled: bool)
    | BufferParametersValue(bufferParameters: BufferParameters)
    | ReadoutModeValue(readoutMode: ReadoutMode)
    | LinkMaskValue(linkMask: LinkMask)

  /** The parameter a value belongs to. */
  function KeyOf(v: Value): Key
  {
    match v
    case CardIdValue(_) => CardIdKey
    case ChannelNumberValue(_) => ChannelNumberKey
    case DmaPageSizeValue(_) => DmaPageSizeKey
    case GeneratorEnabledValue(_) => GeneratorEnabledKey
    case GeneratorDataSizeValue(_) => GeneratorDataSizeKey
    case GeneratorLoopbackValue(_) => GeneratorLoopbackKey
    case GeneratorPatternValue(_) => GeneratorPatternKey
    case GeneratorRandomSizeEnabledValue(_) => GeneratorRandomSizeEnabledKey
    case BufferParametersValue(_) => BufferParametersKey
    case ReadoutModeValue(_) => ReadoutModeKey
    case LinkMaskValue(_) => LinkMaskKey
  }

  /** ParametersPimpl: one optional slot per parameter. */
  datatype Settings = Settings(
    cardId: Option<CardId>,
    channelNumber: Option<Int32>,
    dmaPageSize: Option<Size>,
    generatorEnabled: Option<bool>,
    generatorDataSize: Option<Size>,
    generatorLoopback: Option<LoopbackMode>,
    generatorPattern: Option<GeneratorPattern>,
    generatorRandomSizeEnabled: Option<bool>,
    bufferParameters: Option<BufferParameters>,
    readoutMode: Option<ReadoutMode>,
    linkMask: Option<LinkMask>)

  const NO_SETTINGS: Settings :=
    Settings(None, None, None, None, None, None, None, None, None, None, None)

  /** The settings viewed as a partial map from keys to values. */
  function Lookup(s: Settings, key: Key): (r: Option<Value>)
    ensures r.Some? ==> KeyOf(r.value) == key
  {
    match key
    case CardIdKey => if s.cardId.Some? then Some(CardIdValue(s.cardId.value)) else None
    case ChannelNumberKey => if s.channelNumber.Some? then Some(ChannelNumberValue(s.channelNumber.value)) else None
    case DmaPageSizeKey => if s.dmaPageSize.Some? then Some(DmaPageSizeValue(s.dmaPageSize.value)) else None
    case GeneratorEnabledKey => if s.generatorEnabled.Some? then Some(GeneratorEnabledValue(s.generatorEnabled.value)) else None
    case GeneratorDataSizeKey => if s.generatorDataSize.Some? then Some(GeneratorDataSizeValue(s.generatorDataSize.value)) else None
    case GeneratorLoopbackKey => if s.generatorLoopback.Some? then Some(GeneratorLoopbackValue(s.generatorLoopback.value)) else None
    case GeneratorPatternKey => if s.generatorPattern.Some? then Some(GeneratorPatternValue(s.generatorPattern.value)) else None
    case GeneratorRandomSizeEnabledKey => if s.generatorRandomSizeEnabled.Some? then Some(GeneratorRandomSizeEnabledValue(s.generatorRandomSizeEnabled.value)) else None
    case BufferParametersKey => if s.bufferParameters.Some? then Some(BufferParametersValue(s.bufferParameters.value)) else None
    case ReadoutModeKey => if s.readoutMode.Some? then Some(ReadoutModeValue(s.readoutMode.value)) else None
    case LinkMaskKey => if s.linkMask.Some? then Some(LinkMaskValue(s.linkMask.value)) else None
  }

  /** The settings with `v` stored under its own key. */
  function Assign(s: Settings, v: Value): (t: Settings)
    ensures Lookup(t, KeyOf(v)) == Some(v)
    ensures forall k :: k != KeyOf(v) ==> Lookup(t, k) == Lookup(s, k)
  {
    match v
    case CardIdValue(x) => s.(cardId := Some(x))
    case ChannelNumberValue(x) => s.(channelNumber := Some(x))
    case DmaPageSizeValue(x) => s.(dmaPageSize := Some(x))
    case GeneratorEnabledValue(x) => s.(generatorEnabled := Some(x))
    case GeneratorDataSizeValue(x) => s.(generatorDataSize := Some(x))
    case GeneratorLoopbackValue(x) => s.(generatorLoopback := Some(x))
    case GeneratorPatternValue(x) => s.(generatorPattern := Some(x))
    case GeneratorRandomSizeEnabledValue(x) => s.(generatorRandomSizeEnabled := Some(x))
    case BufferParametersValue(x) => s.(bufferParameters := Some(x))
    case ReadoutModeValue(x) => s.(readoutMode := Some(x))
    case LinkMaskValue(x) => s.(linkMask := Some(x))
  }

  // ---------------------------------------------------------------------------
  // class Parameters

  /** Parameters: the stored settings behind a pointer to an implementation
      object, updated in place by the setters. */
  class Parameters {
    var settings: Settings

    /** A fresh object: no parameter is set. */
    constructor ()
      ensures settings == NO_SETTINGS
      ensures forall k :: Get(k) == None
    {
      settings := NO_SETTINGS;
    }

    /** The value stored under `key`, whatever its parameter. */
    function Get(key: Key): Option<Value>
      reads this
    {
      Lookup(settings, key)
    }

    // Setters: each stores its value, leaves every other parameter as it
    // was, and returns the object itself so that calls can be chained.

    method SetCardId(value: CardId) returns (self: Parameters)
      modifies this
      ensures self == this && settings == Assign(old(settings), CardIdValue(value))
      ensures GetCardId() == Some(value) && GetCardIdRequired() == Ok(value)
      ensures forall k :: k != CardIdKey ==> Get(k) == old(Get(k))
    {
      settings := settings.(cardId := Some(value));
      self := this;
    }

    method SetChannelNumber(value: Int32) returns (self: Parameters)
      modifies this
      ensures self == this && settings == Assign(old(settings), ChannelNumberValue(value))
      ensures GetChannelNumber() == Some(value) && GetChannelNumberRequired() == Ok(value)
      ensures forall k :: k != ChannelNumberKey ==> Get(k) == old(Get(k))
    {
      settings := settings.(channelNumber := Some(value));
      self := this;
    }

    method SetDmaPageSize(value: Size) returns (self: Parameters)
      modifies this
      ensures self == this && settings == Assign(old(settings), DmaPageSizeValue(value))
      ensures GetDmaPageSize() == Some(value) && GetDmaPageSizeRequired() == Ok(value)
      ensures forall k :: k != DmaPageSizeKey ==> Get(k) == old(Get(k))
    {
      settings := settings.(dmaPageSize := Some(value));
      self := this;
    }

    method SetGeneratorEnabled(value: bool) returns (self: Parameters)
      modifies this
      ensures self == this && settings == Assign(old(settings), GeneratorEnabledValue(value))
      ensures GetGeneratorEnabled() == Some(value) && GetGeneratorEnabledRequired() == Ok(value)
      ensures forall k :: k != GeneratorEnabledKey ==> Get(k) == old(Get(k))
    {
      settings := settings.(generatorEnabled := Some(value));
      self := this;
    }

    method SetGeneratorDataSize(value: Size) returns (self: Parameters)
      modifies this
      ensures self == this && settings == Assign(old(settings), GeneratorDataSizeValue(value))
      ensures GetGeneratorDataSize() == Some(value) && GetGeneratorDataSizeRequired() == Ok(value)
      ensures forall k :: k != GeneratorDataSizeKey ==> Get(k) == old(Get(k))
    {
      settings := settings.(generatorDataSize := Some(value));
      self := this;
    }

    method SetGeneratorLoopback(value: LoopbackMode) returns (self: Parameters)
      modifies this
      ensures self == this && settings == Assign(old(settings), GeneratorLoopbackValue(value))
      ensures GetGeneratorLoopback() == Some(value) && GetGeneratorLoopbackRequired() == Ok(value)
      ensures forall k :: k != GeneratorLoopbackKey ==> Get(k) == old(Get(k))
    {
      settings := settings.(generatorLoopback := Some(value));
      self := this;
    }

    method SetGeneratorPattern(value: GeneratorPattern) returns (self: Parameters)
      modifies this
      ensures self == this && settings == Assign(old(settings), GeneratorPatternValue(value))
      ensures GetGeneratorPattern() == Some(value) && GetGeneratorPatternRequired() == Ok(value)
      ensures forall k :: k != GeneratorPatternKey ==> Get(k) == old(Get(k))
    {
      settings := settings.(generatorPattern := Some(value));
      self := this;
    }

    method SetGeneratorRandomSizeEnabled(value: bool) returns (self: Parameters)
      modifies this
      ensures self == this && settings == Assign(old(settings), GeneratorRandomSizeEnabledValue(value))
      ensures GetGeneratorRandomSizeEnabled() == Some(value) && GetGeneratorRandomSizeEnabledRequired() == Ok(value)
      ensures forall k :: k != GeneratorRandomSizeEnabledKey ==> Get(k) == old(Get(k))
    {
      settings := settings.(generatorRandomSizeEnabled := Some(value));
      self := this;
    }

    method SetBufferParameters(value: BufferParameters) returns (self: Parameters)
      modifies this
      ensures self == this && settings == Assign(old(settings), BufferParametersValue(value))
      ensures GetBufferParameters() == Some(value) && GetBufferParametersRequired() == Ok(value)
      ensures forall k :: k != BufferParametersKey ==> Get(k) == old(Get(k))
    {
      settings := settings.(bufferParameters := Some(value));
      self := this;
    }

    method SetReadoutMode(value: ReadoutMode) returns (self: Parameters)
      modifies this
      ensures self == this && settings == Assign(old(settings), ReadoutModeValue(value))
      ensures GetReadoutMode() == Some(value) && GetReadoutModeRequired() == Ok(value)
      ensures forall k :: k != ReadoutModeKey ==> Get(k) == old(Get(k))
    {
      settings := settings.(readoutMode := Some(value));
      self := this;
    }

    method SetLinkMask(value: LinkMask) returns (self: Parameters)
      modifies this
      ensures self == this && settings == Assign(old(settings), LinkMaskValue(value))
      ensures GetLinkMask() == Some(value) && GetLinkMaskRequired() == Ok(value)
      ensures forall k :: k != LinkMaskKey ==> Get(k) == old(Get(k))
    {
      settings := settings.(linkMask := Some(value));
      self := this;
    }

    // Non-throwing getters: the stored value, or nothing.

    function GetCardId(): (r: Option<CardId>)
      reads this
      ensures r.Some? <==> Get(CardIdKey).Some?
      ensures r.Some? ==> Get(CardIdKey) == Some(CardIdValue(r.value))
    {
      settings.cardId
    }

    function GetChannelNumber(): (r: Option<Int32>)
      reads this
      ensures r.Some? <==> Get(ChannelNumberKey).Some?
      ensures r.Some? ==> Get(ChannelNumberKey) == Some(ChannelNumberValue(r.value))
    {
      settings.channelNumber
    }

    function GetDmaPageSize(): (r: Option<Size>)
      reads this
      ensures r.Some? <==> Get(DmaPageSizeKey).Some?
      ensures r.Some? ==> Get(DmaPageSizeKey) == Some(DmaPageSizeValue(r.value))
    {
      settings.dmaPageSize
    }

    function GetGeneratorEnabled(): (r: Option<bool>)
      reads this
      ensures r.Some? <==> Get(GeneratorEnabledKey).Some?
      ensures r.Some? ==> Get(GeneratorEnabledKey) == Some(GeneratorEnabledValue(r.value))
    {
      settings.generatorEnabled
    }

    function GetGeneratorDataSize(): (r: Option<Size>)
      reads this
      ensures r.Some? <==> Get(GeneratorDataSizeKey).Some?
      ensures r.Some? ==> Get(GeneratorDataSizeKey) == Some(GeneratorDataSizeValue(r.value))
    {
      settings.generatorDataSize
    }

    function GetGeneratorLoopback(): (r: Option<LoopbackMode>)
      reads this
      ensures r.Some? <==> Get(GeneratorLoopbackKey).Some?
      ensures r.Some? ==> Get(GeneratorLoopbackKey) == Some(GeneratorLoopbackValue(r.value))
    {
      settings.generatorLoopback
    }

    function GetGeneratorPattern(): (r: Option<GeneratorPattern>)
      reads this
      ensures r.Some? <==> Get(GeneratorPatternKey).Some?
      ensures r.Some? ==> Get(GeneratorPatternKey) == Some(GeneratorPatternValue(r.value))
    {
      settings.generatorPattern
    }

    function GetGeneratorRandomSizeEnabled(): (r: Option<bool>)
      reads this
      ensures r.Some? <==> Get(GeneratorRandomSizeEnabledKey).Some?
      ensures r.Some? ==> Get(GeneratorRandomSizeEnabledKey) == Some(GeneratorRandomSizeEnabledValue(r.value))
    {
      settings.generatorRandomSizeEnabled
    }

    function GetBufferParameters(): (r: Option<BufferParameters>)
      reads this
      ensures r.Some? <==> Get(BufferParametersKey).Some?
      ensures r.Some? ==> Get(BufferParametersKey) == Some(BufferParametersValue(r.value))
    {
      settings.bufferParameters
    }

    function GetReadoutMode(): (r: Option<ReadoutMode>)
      reads this
      ensures r.Some? <==> Get(ReadoutModeKey).Some?
      ensures r.Some? ==> Get(ReadoutModeKey) == Some(ReadoutModeValue(r.value))
    {
      settings.readoutMode
    }

    function GetLinkMask(): (r: Option<LinkMask>)
      reads this
      ensures r.Some? <==> Get(LinkMaskKey).Some?
      ensures r.Some? ==> Get(LinkMaskKey) == Some(LinkMaskValue(r.value))
    {
      settings.linkMask
    }

    // Throwing getters: the stored value, or a ParameterException naming
    // the parameter.

    function GetCardIdRequired(): (r: Result<CardId, Failure>)
      reads this
      ensures r.Ok? <==> GetCardId().Some?
      ensures r.Ok? ==> GetCardId() == Some(r.value)
      ensures r.Err? ==> r.error == ParameterException(CardIdKey)
    {
      match settings.cardId
      case Some(v) => Ok(v)
      case None => Err(ParameterException(CardIdKey))
    }

    function GetChannelNumberRequired(): (r: Result<Int32, Failure>)
      reads this
      ensures r.Ok? <==> GetChannelNumber().Some?
      ensures r.Ok? ==> GetChannelNumber() == Some(r.value)
      ensures r.Err? ==> r.error == ParameterException(ChannelNumberKey)
    {
      match settings.channelNumber
      case Some(v) => Ok(v)
      case None => Err(ParameterException(ChannelNumberKey))
    }

    function GetDmaPageSizeRequired(): (r: Result<Size, Failure>)
      reads this
      ensures r.Ok? <==> GetDmaPageSize().Some?
      ensures r.Ok? ==> GetDmaPageSize() == Some(r.value)
      ensures r.Err? ==> r.error == ParameterException(DmaPageSizeKey)
    {
      match settings.dmaPageSize
      case Some(v) => Ok(v)
      case None => Err(ParameterException(DmaPageSizeKey))
    }

    function GetGeneratorEnabledRequired(): (r: Result<bool, Failure>)
      reads this
      ensures r.Ok? <==> GetGeneratorEnabled().Some?
      ensures r.Ok? ==> GetGeneratorEnabled() == Some(r.value)
      ensures r.Err? ==> r.error == ParameterException(GeneratorEnabledKey)
    {
      match settings.generatorEnabled
      case Some(v) => Ok(v)
      case None => Err(ParameterException(GeneratorEnabledKey))
    }

    function GetGeneratorDataSizeRequired(): (r: Result<Size, Failure>)
      reads this
      ensures r.Ok? <==> GetGeneratorDataSize().Some?
      ensures r.Ok? ==> GetGeneratorDataSize() == Some(r.value)
      ensures r.Err? ==> r.error == ParameterException(GeneratorDataSizeKey)
    {
      match settings.generatorDataSize
      case Some(v) => Ok(v)
      case None => Err(ParameterException(GeneratorDataSizeKey))
    }

    function GetGeneratorLoopbackRequired(): (r: Result<LoopbackMode, Failure>)
      reads this
      ensures r.Ok? <==> GetGeneratorLoopback().Some?
      ensures r.Ok? ==> GetGeneratorLoopback() == Some(r.value)
      ensures r.Err? ==> r.error == ParameterException(GeneratorLoopbackKey)
    {
      match settings.generatorLoopback
      case Some(v) => Ok(v)
      case None => Err(ParameterException(GeneratorLoopbackKey))
    }

    function GetGeneratorPatternRequired(): (r: Result<GeneratorPattern, Failure>)
      reads this
      ensures r.Ok? <==> GetGeneratorPattern().Some?
      ensures r.Ok? ==> GetGeneratorPattern() == Some(r.value)
      ensures r.Err? ==> r.error == ParameterException(GeneratorPatternKey)
    {
      match settings.generatorPattern
      case Some(v) => Ok(v)
      case None => Err(ParameterException(GeneratorPatternKey))
    }

    function GetGeneratorRandomSizeEnabledRequired(): (r: Result<bool, Failure>)
      reads this
      ensures r.Ok? <==> GetGeneratorRandomSizeEnabled().Some?
      ensures r.Ok? ==> GetGeneratorRandomSizeEnabled() == Some(r.value)
      ensures r.Err? ==> r.error == ParameterException(GeneratorRandomSizeEnabledKey)
    {
      match settings.generatorRandomSizeEnabled
      case Some(v) => Ok(v)
      case None => Err(ParameterException(GeneratorRandomSizeEnabledKey))
    }

    function GetBufferParametersRequired(): (r: Result<BufferParameters, Failure>)
      reads this
      ensures r.Ok? <==> GetBufferParameters().Some?
      ensures r.Ok? ==> GetBufferParameters() == Some(r.value)
      ensures r.Err? ==> r.error == ParameterException(BufferParametersKey)
    {
      match settings.bufferParameters
      case Some(v) => Ok(v)
      case None => Err(ParameterException(BufferParametersKey))
    }

    function GetReadoutModeRequired(): (r: Result<ReadoutMode, Failure>)
      reads this
      ensures r.Ok? <==> GetReadoutMode().Some?
      ensures r.Ok? ==> GetReadoutMode() == Some(r.value)
      ensures r.Err? ==> r.error == ParameterException(ReadoutModeKey)
    {
      match settings.readoutMode
      case Some(v) => Ok(v)
      case None => Err(ParameterException(ReadoutModeKey))
    }

    function GetLinkMaskRequired(): (r: Result<LinkMask, Failure>)
      reads this
      ensures r.Ok? <==> GetLinkMask().Some?
      ensures r.Ok? ==> GetLinkMask() == Some(r.value)
      ensures r.Err? ==> r.error == ParameterException(LinkMaskKey)
    {
      match settings.linkMask
      case Some(v) => Ok(v)
      case None => Err(ParameterException(LinkMaskKey))
    }

    /** makeParameters: a new object with the card id and the channel number
        set, and nothing else. */
    static method MakeParameters(cardId: CardId, channel: Int32) returns (p: Parameters)
      ensures fresh(p)
      ensures p.GetCardId() == Some(cardId) && p.GetChannelNumber() == Some(channel)
      ensures forall k :: k != CardIdKey && k != ChannelNumberKey ==> p.Get(k) == None
    {
      var created := new Parameters();
      var chained := created.SetCardId(cardId);
      p := chained.SetChannelNumber(channel);
    }
  }

  // ---------------------------------------------------------------------------
  // linkMaskFromString

  /** The largest link id: the mask holds 32-bit unsigned ids. */
  const MAX_LINK_ID: nat := 0xffff_ffff

  /** The ids from `lo` to `hi` inclusive. */
  function Interval(lo: nat, hi: nat): (ids: LinkMask)
    requires hi <= MAX_LINK_ID
    ensures forall i: Uint32 :: i in ids <==> lo <= i <= hi
    decreases hi
  {
    if hi < lo then {} else if hi == lo then {hi} else Interval(lo, hi - 1) + {hi}
  }

  /** One comma-separated element of a link mask: a single id `n` or an
      inclusive ascending range `n-m`. */
  function ParseLinkRange(token: string): Option<LinkMask>
  {
    var bounds := Split(token, '-');
    if |bounds| == 1 then
      match ParseNat(token)
      case Some(n) => if n <= MAX_LINK_ID then Some({n}) else None
      case None => None
    else if |bounds| == 2 then
      match (ParseNat(bounds[0]), ParseNat(bounds[1]))
      case (Some(lo), Some(hi)) => if lo <= hi <= MAX_LINK_ID then Some(Interval(lo, hi)) else None
      case _ => None
    else None
  }

  /** The union of two parsed parts, or nothing if either is malformed. */
  function Combine(x: Option<LinkMask>, y: Option<LinkMask>): Option<LinkMask>
  {
    if x.Some? && y.Some? then Some(x.value + y.value) else None
  }

  /** The union of the elements, or nothing if one of them is malformed. */
  function ParseLinkRanges(tokens: seq<string>): Option<LinkMask>
  {
    if tokens == [] then Some({})
    else Combine(ParseLinkRanges(tokens[..|tokens| - 1]), ParseLinkRange(tokens[|tokens| - 1]))
  }

  /** linkMaskFromString: comma-separated ids and ranges, such as
      "0,1,2,8-10"; anything else fails with a ParseException. */
  function LinkMaskFromString(s: string): (r: Result<LinkMask, Failure>)
    ensures r.Err? ==> r.error == ParseException(s)
  {
    match ParseLinkRanges(Split(s, ','))
    case Some(ids) => Ok(ids)
    case None => Err(ParseException(s))
  }

  /** The text of one element: the bare id when the range holds one id. */
  function FormatLinkRange(lo: nat, hi: nat): string
  {
    if lo == hi then NatToString(lo) else NatToString(lo) + "-" + NatToString(hi)
  }

  predicate ValidRange(range: (nat, nat))
  {
    range.0 <= range.1 <= MAX_LINK_ID
  }

  function FormatLinkRanges(ranges: seq<(nat, nat)>): seq<string>
  {
    seq(|ranges|, i requires 0 <= i < |ranges| => FormatLinkRange(ranges[i].0, ranges[i].1))
  }

  /** The ids the ranges cover. */
  function RangesUnion(ranges: seq<(nat, nat)>): LinkMask
    requires forall i :: 0 <= i < |ranges| ==> ValidRange(ranges[i])
  {
    if ranges == [] then {}
    else
      var last := ranges[|ranges| - 1];
      assert ValidRange(last);
      RangesUnion(ranges[..|ranges| - 1]) + Interval(last.0, last.1)
  }

  lemma NoSeparatorInNumber(n: nat, sep: char)
    requires !IsDigit(sep)
    ensures sep !in NatToString(n)
    ensures Split(NatToString(n), sep) == [NatToString(n)]
  {
    SplitJoin([NatToString(n)], sep);
  }

  /** Every ascending range within the id space reads back as its ids. */
  lemma LinkRangeRoundTrip(lo: nat, hi: nat)
    requires lo <= hi <= MAX_LINK_ID
    ensures ParseLinkRange(FormatLinkRange(lo, hi)) == Some(Interval(lo, hi))
    ensures ',' !in FormatLinkRange(lo, hi)
  {
    NoSeparatorInNumber(lo, '-');
    NoSeparatorInNumber(hi, '-');
    NoSeparatorInNumber(lo, ',');
    NoSeparatorInNumber(hi, ',');
    if lo == hi {
      assert Interval(lo, hi) == {lo};
    } else {
      var a, b := NatToString(lo), NatToString(hi);
      SplitAround(a, b, '-');
      assert a + "-" + b == a + ['-'] + b;
    }
  }

  /** A descending range such as "5-3" is refused. */
  lemma DescendingRangeRejected(lo: nat, hi: nat)
    requires hi < lo
    ensures LinkMaskFromString(NatToString(lo) + "-" + NatToString(hi)) == Err(ParseException(NatToString(lo) + "-" + NatToString(hi)))
  {
    var a, b := NatToString(lo), NatToString(hi);
    var s := a + "-" + b;
    NoSeparatorInNumber(lo, '-');
    NoSeparatorInNumber(hi, '-');
    NoSeparatorInNumber(lo, ',');
    NoSeparatorInNumber(hi, ',');
    assert s == a + ['-'] + b;
    SplitAround(a, b, '-');
    assert ',' !in s;
    SplitJoin([s], ',');
    assert ParseLinkRanges([s]) == None by {
      assert [s][..0] == [];
    }
  }

  lemma {:induction false} FormattedRangesAreTokens(ranges: seq<(nat, nat)>)
    requires forall i :: 0 <= i < |ranges| ==> ValidRange(ranges[i])
    ensures |FormatLinkRanges(ranges)| == |ranges|
    ensures forall i :: 0 <= i < |ranges| ==> ',' !in FormatLinkRanges(ranges)[i]
    ensures ParseLinkRanges(FormatLinkRanges(ranges)) == Some(RangesUnion(ranges))
  {
    if ranges != [] {
      var init, last := ranges[..|ranges| - 1], ranges[|ranges| - 1];
      FormattedRangesAreTokens(init);
      var tokens := FormatLinkRanges(ranges);
      assert tokens[..|tokens| - 1] == FormatLinkRanges(init);
      forall i | 0 <= i < |ranges|
        ensures ',' !in tokens[i]
      {
        LinkRangeRoundTrip(ranges[i].0, ranges[i].1);
      }
      LinkRangeRoundTrip(last.0, last.1);
    }
  }

  /** Any non-empty list of ascending ranges, written out with commas, reads
      back as the union of the ranges. */
  lemma LinkMaskRoundTrip(ranges: seq<(nat, nat)>)
    requires |ranges| >= 1
    requires forall i :: 0 <= i < |ranges| ==> ValidRange(ranges[i])
    ensures LinkMaskFromString(Join(FormatLinkRanges(ranges), ',')) == Ok(RangesUnion(ranges))
  {
    FormattedRangesAreTokens(ranges);
    SplitJoin(FormatLinkRanges(ranges), ',');
  }

  lemma {:induction false} ParseLinkRangesAppend(p: seq<string>, q: seq<string>)
    ensures ParseLinkRanges(p + q) == Combine(ParseLinkRanges(p), ParseLinkRanges(q))
    decreases |q|
  {
    if q == [] {
      assert p + q == p;
      var x := ParseLinkRanges(p);
      assert x.Some? ==> x.value + {} == x.value;
    } else {
      var q', last := q[..|q| - 1], q[|q| - 1];
      assert (p + q)[..|p + q| - 1] == p + q' && (p + q)[|p + q| - 1] == last;
      ParseLinkRangesAppend(p, q');
      var x, y, z := ParseLinkRanges(p), ParseLinkRanges(q'), ParseLinkRange(last);
      assert x.Some? && y.Some? && z.Some? ==> x.value + y.value + z.value == x.value + (y.value + z.value);
    }
  }

  /** Joining two masks with a comma gives the union of their ids, and fails
      as soon as either part is malformed. */
  lemma LinkMaskConcat(a: string, b: string)
    ensures LinkMaskFromString(a + "," + b) ==
      if LinkMaskFromString(a).Ok? && LinkMaskFromString(b).Ok?
      then Ok(LinkMaskFromString(a).value + LinkMaskFromString(b).value)
      else Err(ParseException(a + "," + b))
  {
    assert a + "," + b == a + [','] + b;
    SplitAround(a, b, ',');
    ParseLinkRangesAppend(Split(a, ','), Split(b, ','));
  }

  lemma SmallNumbers()
    ensures NatToString(0) == "0" && NatToString(1) == "1" && NatToString(2) == "2"
    ensures NatToString(3) == "3" && NatToString(5) == "5" && NatToString(8) == "8"
    ensures NatToString(10) == "10" && NatToString(19) == "19" && NatToString(21) == "21"
    ensures NatToString(23) == "23"
  {
  }

  lemma FirstExampleText()
    ensures Join(FormatLinkRanges([(0, 0), (1, 1), (2, 2), (8, 10)]), ',') == "0,1,2,8-10"
  {
    SmallNumbers();
    var tokens := FormatLinkRanges([(0, 0), (1, 1), (2, 2), (8, 10)]);
    assert tokens[0] == "0" && tokens[1] == "1" && tokens[2] == "2" && tokens[3] == "8-10";
    assert tokens == ["0", "1", "2", "8-10"];
  }

  lemma FirstExampleIds()
    ensures RangesUnion([(0, 0), (1, 1), (2, 2), (8, 10)]) == {0, 1, 2, 8, 9, 10}
  {
    var r1, r2, r3, r4 := [(0, 0)], [(0, 0), (1, 1)], [(0, 0), (1, 1), (2, 2)], [(0, 0), (1, 1), (2, 2), (8, 10)];
    assert r4[..3] == r3 && r3[..2] == r2 && r2[..1] == r1 && r1[..0] == [];
    assert Interval(8, 10) == {8, 9, 10};
  }

  /** The first documented example: "0,1,2,8-10" holds links 0, 1, 2, 8, 9
      and 10. */
  lemma LinkMaskFirstExample()
    ensures LinkMaskFromString("0,1,2,8-10") == Ok({0, 1, 2, 8, 9, 10})
  {
    FirstExampleText();
    FirstExampleIds();
    LinkMaskRoundTrip([(0, 0), (1, 1), (2, 2), (8, 10)]);
  }

  lemma SecondExampleText()
    ensures Join(FormatLinkRanges([(0, 19), (21, 23)]), ',') == "0-19,21-23"
  {
    SmallNumbers();
    var tokens := FormatLinkRanges([(0, 19), (21, 23)]);
    assert tokens[0] == "0-19" && tokens[1] == "21-23";
    assert tokens == ["0-19", "21-23"];
  }

  /** The second documented example: "0-19,21-23" holds links 0 to 23 except
      20. */
  lemma LinkMaskSecondExample()
    ensures LinkMaskFromString("0-19,21-23").Ok?
    ensures forall i: Uint32 :: i in LinkMaskFromString("0-19,21-23").value <==> i <= 23 && i != 20
  {
    SecondExampleMask();
  }

  lemma SecondExampleMask()
    ensures LinkMaskFromString("0-19,21-23") == Ok(Interval(0, 19) + Interval(21, 23))
  {
    var ranges: seq<(nat, nat)> := [(0, 19), (21, 23)];
    assert ValidRange(ranges[0]) && ValidRange(ranges[1]);
    LinkMaskRoundTrip(ranges);
    SecondExampleText();
    SecondExampleIds();
  }

  lemma SecondExampleIds()
    ensures RangesUnion([(0, 19), (21, 23)]) == Interval(0, 19) + Interval(21, 23)
  {
    var ranges: seq<(nat, nat)> := [(0, 19), (21, 23)];
    assert ranges[..1] == [(0, 19)] && ranges[..1][..0] == [];
  }

  /** A descending range and the empty string are not link masks. */
  lemma LinkMaskRejections()
    ensures LinkMaskFromString("5-3") == Err(ParseException("5-3"))
    ensures LinkMaskFromString("") == Err(ParseException(""))
  {
    SmallNumbers();
    DescendingRangeRejected(5, 3);
    assert NatToString(5) + "-" + NatToString(3) == "5-3";
    assert Split("", ',') == [""];
    assert ParseLinkRanges([""]) == None by {
      assert [""][..0] == [];
    }
  }

  // ---------------------------------------------------------------------------
  // cardIdFromString

  /** `bus:device.function` in decimal. Numbers that do not fit their PCI
      field fail with a ParameterException; any other malformed text with a
      ParseException. */
  function ParseAddress(s: string): Result<CardId, Failure>
  {
    var sides := Split(s, ':');
    if |sides| != 2 then Err(ParseException(s))
    else
      var rest := Split(sides[1], '.');
      if |rest| != 2 then Err(ParseException(s))
      else
        match (ParseNat(sides[0]), ParseNat(rest[0]), ParseNat(rest[1]))
        case (Some(bus), Some(device), Some(func)) =>
          var address := PciAddress(bus, device, func);
          if ValidPciAddress(address) then Ok(Address(address)) else Err(ParameterException(CardIdKey))
        case _ => Err(ParseException(s))
  }

  /** cardIdFromString: a PCI address when the text has a colon, otherwise a
      serial number. */
  function CardIdFromString(s: string): (r: Result<CardId, Failure>)
    ensures r.Ok? && r.value.Address? ==> ':' in s && ValidPciAddress(r.value.address)
    ensures r.Ok? && r.value.Serial? ==> ':' !in s && ParseInt(s) == Some(r.value.serial)
    ensures r.Err? ==> r.error == ParseException(s) || (r.error == ParameterException(CardIdKey) && ':' in s)
  {
    if ':' in s then ParseAddress(s)
    else
      match ParseInt(s)
      case Some(n) => if -0x8000_0000 <= n < 0x8000_0000 then Ok(Serial(n)) else Err(ParseException(s))
      case None => Err(ParseException(s))
  }

  /** The text of a card id, as cardIdFromString reads it. */
  function FormatCardId(id: CardId): string
  {
    match id
    case Serial(n) => IntToString(n)
    case Address(a) => FormatAddress(a.bus, a.device, a.func)
  }

  function FormatAddress(bus: nat, device: nat, func: nat): string
  {
    NatToString(bus) + ":" + NatToString(device) + "." + NatToString(func)
  }

  lemma ParseFormattedAddress(bus: nat, device: nat, func: nat)
    ensures ParseAddress(FormatAddress(bus, device, func)) ==
      var address := PciAddress(bus, device, func);
      if ValidPciAddress(address) then Ok(Address(address)) else Err(ParameterException(CardIdKey))
    ensures ':' in FormatAddress(bus, device, func)
  {
    NoSeparatorInNumber(bus, ':');
    NoSeparatorInNumber(device, ':');
    NoSeparatorInNumber(func, ':');
    NoSeparatorInNumber(device, '.');
    NoSeparatorInNumber(func, '.');
    AddressText(NatToString(bus), NatToString(device), NatToString(func), bus, device, func);
  }

  /** Three separator-free decimal fields joined as `bus:device.function`
      read back as those fields. */
  lemma AddressText(b: string, d: string, f: string, bus: nat, device: nat, func: nat)
    requires ':' !in b && ':' !in d && ':' !in f && '.' !in d && '.' !in f
    requires ParseNat(b) == Some(bus) && ParseNat(d) == Some(device) && ParseNat(f) == Some(func)
    ensures ParseAddress(b + ":" + d + "." + f) ==
      var address := PciAddress(bus, device, func);
      if ValidPciAddress(address) then Ok(Address(address)) else Err(ParameterException(CardIdKey))
    ensures ':' in b + ":" + d + "." + f
  {
    var tail := d + "." + f;
    var s := b + ":" + d + "." + f;
    assert tail == d + ['.'] + f && ':' !in tail;
    assert s == b + [':'] + tail && s[|b|] == ':';
    SplitJoin([b], ':');
    SplitJoin([tail], ':');
    SplitJoin([d], '.');
    SplitJoin([f], '.');
    SplitAround(b, tail, ':');
    SplitAround(d, f, '.');
    AddressFromPieces(s, b, tail, d, f, bus, device, func);
  }

  /** An address text cut into its three decimal fields. */
  lemma AddressFromPieces(s: string, b: string, tail: string, d: string, f: string, bus: nat, device: nat, func: nat)
    requires Split(s, ':') == Split(b, ':') + Split(tail, ':')
    requires Split(b, ':') == [b] && Split(tail, ':') == [tail] && Split(tail, '.') == [d, f]
    requires ParseNat(b) == Some(bus) && ParseNat(d) == Some(device) && ParseNat(f) == Some(func)
    ensures ParseAddress(s) ==
      var address := PciAddress(bus, device, func);
      if ValidPciAddress(address) then Ok(Address(address)) else Err(ParameterException(CardIdKey))
  {
    assert Split(s, ':') == [b, tail];
  }

  lemma SerialHasNoColon(n: int)
    ensures ':' !in IntToString(n)
  {
    NoSeparatorInNumber(if n < 0 then -n else n, ':');
  }

  /** Every card id whose address fits the PCI fields reads back as itself;
      the serial number -1 of the dummy driver included. */
  lemma CardIdRoundTrip(id: CardId)
    requires id.Address? ==> ValidPciAddress(id.address)
    ensures CardIdFromString(FormatCardId(id)) == Ok(id)
  {
    match id
    case Serial(n) =>
      SerialHasNoColon(n);
      ParseIntToString(n);
    case Address(a) =>
      ParseFormattedAddress(a.bus, a.device, a.func);
  }

  /** A well-formed address whose numbers do not fit is a ParameterException,
      not a ParseException. */
  lemma AddressOutOfRange(bus: nat, device: nat, func: nat)
    requires !ValidPciAddress(PciAddress(bus, device, func))
    ensures CardIdFromString(FormatAddress(bus, device, func)) == Err(ParameterException(CardIdKey))
  {
    ParseFormattedAddress(bus, device, func);
  }

  lemma CardIdSerialExample()
    ensures CardIdFromString("12345") == Ok(Serial(12345))
  {
    SerialText();
    CardIdRoundTrip(Serial(12345));
  }

  lemma SerialText()
    ensures IntToString(12345) == "12345"
  {
    assert NatToString(1) == "1";
    assert NatToString(12) == "12";
    assert NatToString(123) == "123";
    assert NatToString(1234) == "1234";
    assert NatToString(12345) == "12345";
  }

  /** The serial number -1 of the dummy driver can be written as text. */
  lemma CardIdDummyExample()
    ensures CardIdFromString("-1") == Ok(Serial(-1))
  {
    assert IntToString(-1) == "-1";
    CardIdRoundTrip(Serial(-1));
  }

  lemma CardIdAddressExample()
    ensures CardIdFromString("42:0.0") == Ok(Address(PciAddress(42, 0, 0)))
  {
    assert NatToString(42) == "42" && NatToString(0) == "0";
    assert FormatAddress(42, 0, 0) == "42:0.0";
    CardIdRoundTrip(Address(PciAddress(42, 0, 0)));
  }

  lemma CardIdBusTooLarge()
    ensures CardIdFromString("256:0.0") == Err(ParameterException(CardIdKey))
  {
    assert NatToString(256) == "256" && NatToString(0) == "0";
    assert FormatAddress(256, 0, 0) == "256:0.0";
    AddressOutOfRange(256, 0, 0);
  }

  lemma CardIdRejectsWords()
    ensures CardIdFromString("abc") == Err(ParseException("abc"))
  {
    assert !IsDigit("abc"[0]);
  }
}
