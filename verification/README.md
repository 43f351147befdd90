# ReadoutCard control-plane core in Dafny

This project models three parts of the ReadoutCard driver for the ALICE
readout cards (the C-RORC and the CRU) and proves properties of the model.

- **The SCA slow-control engine of the ALICE low-level front end (ALF)**
  (module `Alf`, files `sca.dfy` and `sca_message.dfy`).
  - Class `Sca` talks to the slow-control device through seven registers
    of BAR 2.
  - The register window is the class `RegisterBar`. It logs every
    register access, and each read returns what a device function gives
    for the traffic so far.
  - Each SCA operation (init, write, read, the GPIO sequences) is a fixed
    program of register steps. The pure interpreter `Exec` says what
    running a program appends to the log and how it ends.
  - Every method of `Sca` is proved to append exactly that trace and to
    return exactly that result. The lemmas then say what the traces
    contain: which registers are written in which order, how many BUSY
    polls happen, when a timeout occurs and what commands reach the
    device.
  - Module `AlfMessages` models the text of the exception `checkError`
    throws (see Findings).
- **Card identification and search** (module `RocPciDevices`, file
  `roc_pci_device.dfy`).
  - The table of supported families and the class `RocPciDevice` with
    its serial and address searches.
  - The three `findSystemDevices` overloads.
  - The PCI layer is a value: the devices of each (device, vendor)
    identity in discovery order, each device's address queries and NUMA
    node, and each family's serial reader.
  - Two pure functions specify the searches: `Scan` collects every match
    and `Search` stops at the first. The nested loops of the methods are
    proved against them, and the lemmas state what the two functions
    mean.
- **The configuration object** (module `ReadoutParameters`, file
  `parameters.dfy`).
  - Class `Parameters` holds eleven optional settings. Each has a chaining
    setter, an optional getter and a throwing `...Required` getter.
  - `makeParameters`.
  - The two string parsers `linkMaskFromString` and `cardIdFromString`,
    with round-trip and example lemmas.
  - Module `Decimal` holds the digit and separator layer the parsers
    share.

A thrown exception becomes an `Err` value of a `Result`. `Wrappers` holds
`Option` and `Result`. `ReadoutTypes` holds the card types, PCI
identities and PCI addresses.

Three points of the code's behaviour are worth stating up front.
- `Sca::gpioEnable` issues four writes but only three reads: no response
  is fetched after the write of 0x02030020
  (Sca.cxx:136-151, `GpioEnableTraffic`).
- A device whose address cannot be read makes `addressFromDevice` throw.
  Every search and enumeration loop lets that exception end the whole
  call, and no device is skipped (`AddressUnavailable`, `ScanMeaning`).
- The two error kinds of the parameters are `ParameterException`, for a
  missing parameter or an address out of range, and `ParseException`,
  for text that does not parse.

## Model

| member | source | states |
|---|---|---|
| Alf.RegisterMap | src/CommandLineUtilities/AliceLowlevelFrontend/Sca.cxx:18-27 | every register index is its byte address divided by four: WRITE_DATA 0x1e0, WRITE_COMMAND 0x1e4, CONTROL 0x1e8, BUSY 0x1ec, READ_DATA 0x1f0, READ_COMMAND 0x1f4 and TIME 0x1fc give indices 120 to 125 and 127 |
| Alf.OffsetFor | src/CommandLineUtilities/AliceLowlevelFrontend/Sca.cxx:29-38 | the register offset is 0 for the C-RORC, the CRU and any other card type |
| Alf.Sca.constructor | src/CommandLineUtilities/AliceLowlevelFrontend/Sca.cxx:35-40 | the engine keeps the BAR, takes the offset of its card type and polls at most MAX_BUSY_ITERATIONS = 10000 times |
| Alf.Sca.BarWrite | src/CommandLineUtilities/AliceLowlevelFrontend/Sca.cxx:176-179 | one store of the value at index + offset is appended to the register log |
| Alf.Sca.BarRead | src/CommandLineUtilities/AliceLowlevelFrontend/Sca.cxx:181-184 | one load at index + offset is appended, and its value is the device's answer for the traffic so far |
| Alf.FlagsBelowMeaning | src/CommandLineUtilities/AliceLowlevelFrontend/Sca.cxx:114-120 | the collected flags are exactly the set bits below the bound, each once, in ascending order |
| Alf.Sca.CheckError | src/CommandLineUtilities/AliceLowlevelFrontend/Sca.cxx:88-134 | the flag-collecting loop returns ErrorCheck of the command word: no error, or an ScaException with the low byte and its raised flags 0 to 6 |
| Alf.ErrorCheck | src/CommandLineUtilities/AliceLowlevelFrontend/Sca.cxx:88-134 | checkError throws exactly when one of bits 0 to 6 of the command word is set (bit 7 alone is no error), and the exception carries the low byte and exactly the raised flags among bits 0 to 6 |
| Alf.FlagName | src/CommandLineUtilities/AliceLowlevelFrontend/Sca.cxx:92-112 | "channel busy" names exactly flags 6 and 7, and "generic error flag" names exactly flag 0 and every unknown flag |
| Alf.IsChannelBusy | src/CommandLineUtilities/AliceLowlevelFrontend/Sca.cxx:83-86 | a word whose low byte is 0x40 carries exactly one error flag, flag 6, named "channel busy" |
| Alf.FlagNames | src/CommandLineUtilities/AliceLowlevelFrontend/Sca.cxx:92-112 | one message name per flag, in the order of the flags |
| Alf.InvalidChannelAndLength | src/CommandLineUtilities/AliceLowlevelFrontend/Sca.cxx:92-120 | the error byte 0x12 raises flags 1 and 4, named "invalid channel request" and "invalid length" |
| Alf.BusyWordReportsChannelBusy | src/CommandLineUtilities/AliceLowlevelFrontend/Sca.cxx:83-134 | a word that isChannelBusy reports (low byte 0x40) makes checkError throw with the single flag 6, "channel busy" |
| Alf.Bit7AloneIsNoError | src/CommandLineUtilities/AliceLowlevelFrontend/Sca.cxx:114-120 | bit 7 is never checked, so a low byte of 0x80 is no error |
| Alf.BusyWaitPolls | src/CommandLineUtilities/AliceLowlevelFrontend/Sca.cxx:193-201 | a busy wait only reads BUSY, at most budget times. It succeeds exactly when its last read is zero and it sees no zero before that. A timeout happens only after the whole budget |
| Alf.BusyWaitNeverClears | src/CommandLineUtilities/AliceLowlevelFrontend/Sca.cxx:193-201 | a BUSY register that never reads zero times out after exactly budget polls |
| Alf.Sca.WaitOnBusyClear | src/CommandLineUtilities/AliceLowlevelFrontend/Sca.cxx:193-201 | the polling loop appends exactly the trace of a busy wait with budget maxBusyIterations and returns its result |
| Alf.ExecAppend | src/CommandLineUtilities/AliceLowlevelFrontend/Sca.cxx:42-46 | running two register programs in sequence is running the first, then the second from the log the first left, stopping at the first error |
| Alf.ExecErrors | src/CommandLineUtilities/AliceLowlevelFrontend/Sca.cxx:193-201 | a program without a read can fail only with the busy timeout |
| Alf.Sca.ExecuteCommand | src/CommandLineUtilities/AliceLowlevelFrontend/Sca.cxx:186-191 | the method appends exactly the trace of its program (CONTROL 4, CONTROL 0, busy wait) and returns its result |
| Alf.Sca.Write | src/CommandLineUtilities/AliceLowlevelFrontend/Sca.cxx:59-67 | the method appends exactly the trace of the write program and returns its result |
| Alf.WriteStoresDataThenCommand | src/CommandLineUtilities/AliceLowlevelFrontend/Sca.cxx:59-63 | write stores data, then command, then CONTROL 4 and 0, and then only polls BUSY. It fails only with a timeout after all budget polls |
| Alf.WriteTimesOut | src/CommandLineUtilities/AliceLowlevelFrontend/Sca.cxx:59-67 | with BUSY never zero, write fails with the busy timeout after exactly four stores and budget polls |
| Alf.Sca.Read | src/CommandLineUtilities/AliceLowlevelFrontend/Sca.cxx:69-81 | the method appends the two reads of a fetch. Its channel-busy loop neither reads nor throws. It returns the response or the checkError failure |
| Alf.ReadFetchesDataThenCommand | src/CommandLineUtilities/AliceLowlevelFrontend/Sca.cxx:69-81 | read loads READ_DATA once, then READ_COMMAND once, and writes nothing. It fails exactly when the command word has an error flag, and otherwise returns (command, data) |
| Alf.Sca.Init | src/CommandLineUtilities/AliceLowlevelFrontend/Sca.cxx:48-57 | the method appends exactly the trace of the init program and returns its result |
| Alf.InitPulsesControl | src/CommandLineUtilities/AliceLowlevelFrontend/Sca.cxx:48-57 | init writes CONTROL with 1, 2, 1 and 0 in order and nothing else, and sends no SCA traffic. A timeout stops it before the final 0 |
| Alf.InitWaits | src/CommandLineUtilities/AliceLowlevelFrontend/Sca.cxx:48-57 | after each of the first three CONTROL writes, init polls BUSY until it reads zero. A finished init's accesses are exactly the write of 1, a wait, the write of 2, a wait, the write of 1, a wait, and the write of 0. Each wait is a non-empty run of BUSY reads whose last and only zero read is its final one. A timed-out init ends with a write of 1 or 2 followed by a full budget of non-zero BUSY reads |
| Alf.Sca.Initialize | src/CommandLineUtilities/AliceLowlevelFrontend/Sca.cxx:42-46 | the method appends the trace of init followed by gpioEnable, stopping at the first error |
| Alf.Sca.GpioEnable | src/CommandLineUtilities/AliceLowlevelFrontend/Sca.cxx:136-151 | the method appends exactly the trace of its four writes and three reads and returns their result |
| Alf.GpioEnableTraffic | src/CommandLineUtilities/AliceLowlevelFrontend/Sca.cxx:136-151 | gpioEnable sends the four literal commands with their data but fetches only three responses (none after 0x02030020). A failed run sends a prefix of that traffic |
| Alf.Sca.GpioWrite | src/CommandLineUtilities/AliceLowlevelFrontend/Sca.cxx:153-165 | the method appends exactly the trace of initialize, the three writes and the two reads, and returns the last response |
| Alf.GpioWriteReinitialises | src/CommandLineUtilities/AliceLowlevelFrontend/Sca.cxx:153-156 | a successful gpioWrite starts by writing CONTROL with 1, 2, 1 and 0 |
| Alf.GpioWriteTraffic | src/CommandLineUtilities/AliceLowlevelFrontend/Sca.cxx:153-165 | after the gpioEnable traffic, gpioWrite sends (data, 0x02040010), (0, 0x02050011), a fetch, (0, 0x02060001) and a fetch |
| Alf.GpioWriteReturnsLastRead | src/CommandLineUtilities/AliceLowlevelFrontend/Sca.cxx:153-165 | gpioWrite returns the response made of its last two register reads |
| Alf.Sca.GpioRead | src/CommandLineUtilities/AliceLowlevelFrontend/Sca.cxx:167-173 | the method appends exactly the trace of one write and one read and returns the response |
| Alf.GpioReadTraffic | src/CommandLineUtilities/AliceLowlevelFrontend/Sca.cxx:167-173 | gpioRead sends (0, 0x02050011), fetches one response and returns the one made of its last two reads |
| AlfMessages.StreamMessage | src/CommandLineUtilities/AliceLowlevelFrontend/Sca.cxx:122-131 | the stream loop builds MessageAsWritten: the prefix, the code in decimal and every flag name followed by ", " |
| AlfMessages.ErrorText | src/CommandLineUtilities/AliceLowlevelFrontend/Sca.cxx:122-132 | the text each failure carries as the code builds it: the checkError message starts with "error code 0x" and, as written, ends with ", " |
| AlfMessages.TrailingSeparator | src/CommandLineUtilities/AliceLowlevelFrontend/Sca.cxx:126-131 | the list as written is the separated list plus one stray ", " |
| AlfMessages.MessageAsWrittenEndsWithSeparator | src/CommandLineUtilities/AliceLowlevelFrontend/Sca.cxx:122-131 | as written, every error message ends with ", " |
| AlfMessages.MessageAsWrittenExample | src/CommandLineUtilities/AliceLowlevelFrontend/Sca.cxx:124-131 | the error byte 0x12 is reported as "error code 0x18: invalid channel request, invalid length, ", and 0x18 is not 0x12 |
| AlfMessages.HexString | src/CommandLineUtilities/AliceLowlevelFrontend/Sca.cxx:125 | the hexadecimal spelling of a number reads back as that number |
| AlfMessages.MessageEndsWithLastFlag | src/CommandLineUtilities/AliceLowlevelFrontend/Sca.cxx:122-131 | the intended message has the code in hexadecimal after "0x" and ends with the last flag's name |
| AlfMessages.MessageExample | src/CommandLineUtilities/AliceLowlevelFrontend/Sca.cxx:122-131 | the error byte 0x12 is intended to be reported as "error code 0x12: invalid channel request, invalid length" |
| RocPciDevices.AddressFailureAborts | src/RocPciDevice.cxx:43-53 | when a device whose address cannot be read (one of the bus, device or function queries fails) is one the enumeration needs the address of, the whole enumeration fails with AddressUnavailable |
| RocPciDevices.AddressFailureAbortsSearch | src/RocPciDevice.cxx:60-101 | the search fails with AddressUnavailable when such a device comes before any device that matches |
| RocPciDevices.CandidatesOrder | src/RocPciDevice.cxx:38-41 | searches meet the C-RORC devices (0033, 10dc) first, then the CRU devices (e001, 1172); the loops at lines 63-65 follow this order, one candidate per device of each identity in discovery order |
| RocPciDevices.MatchingMeaning | src/RocPciDevice.cxx:141-180 | exactly the matching pairs are kept, in order, and the search for every card keeps all of them |
| RocPciDevices.ScanMeaning | src/RocPciDevice.cxx:129-180 | an enumeration succeeds exactly when every address it needs can be read, and fails only with AddressUnavailable. On success it returns one descriptor per matching device, in order |
| RocPciDevices.SearchErrors | src/RocPciDevice.cxx:60-101 | a search fails only with CardNotFound or AddressUnavailable, annotated with its target |
| RocPciDevices.SearchNotFound | src/RocPciDevice.cxx:60-101 | a search reports "Could not find card" exactly when no device matches and every needed address was readable |
| RocPciDevices.SearchFindsFirst | src/RocPciDevice.cxx:60-101 | a successful search binds the first matching device in search order, with that device's descriptor |
| RocPciDevices.SearchIsFirstOfScan | src/RocPciDevice.cxx:60-180 | when the enumeration succeeds, the search binds its first result, and an empty enumeration is CardNotFound |
| RocPciDevices.SearchSticky | src/RocPciDevice.cxx:66-69 | once a search has returned or thrown, later devices change nothing |
| RocPciDevices.MatchEndsSearch | src/RocPciDevice.cxx:66-69 | the first matching device ends the search, with its descriptor or with AddressUnavailable |
| RocPciDevices.FindAllDescribesEveryDevice | src/RocPciDevice.cxx:129-139 | findSystemDevices() describes every device of every known family, in search order, unless an address cannot be read |
| RocPciDevices.FindBySerialMatchesSerial | src/RocPciDevice.cxx:141-160 | findSystemDevices(serial) returns one descriptor per device whose reader returns the serial, and each carries that serial |
| RocPciDevices.FindByAddressMatchesAddress | src/RocPciDevice.cxx:162-180 | every descriptor that findSystemDevices(address) returns carries that address |
| RocPciDevices.RocPciDevice.constructor | src/RocPciDevice.cxx:55-57 | before its search the object holds no device and the default descriptor (Unknown, serial -1, "unknown"/"unknown", 0:0.0, NUMA node -1) |
| RocPciDevices.RocPciDevice.InitWithSerial | src/RocPciDevice.cxx:60-80 | the nested loops bind the first device whose serial matches, with its descriptor. CardNotFound leaves the object unchanged. A failed address read keeps the matched device bound but not its descriptor |
| RocPciDevices.RocPciDevice.InitWithAddress | src/RocPciDevice.cxx:82-101 | the nested loops bind the first device at the address, with its descriptor, or fail as Search does and leave the object unchanged |
| RocPciDevices.RocPciDevice.OpenBySerial | src/RocPciDevice.cxx:103-107 | the object holds exactly what the serial search binds, or the constructor fails with its error |
| RocPciDevices.RocPciDevice.OpenByAddress | src/RocPciDevice.cxx:109-113 | the object holds exactly what the address search binds, or the constructor fails with its error |
| RocPciDevices.RocPciDevice.Open | src/RocPciDevice.cxx:115-123 | a serial card id is searched as a serial and an address as an address |
| RocPciDevices.RocPciDevice.FindSystemDevices | src/RocPciDevice.cxx:129-139 | the nested loops return Scan for every card |
| RocPciDevices.RocPciDevice.FindSystemDevicesBySerial | src/RocPciDevice.cxx:141-160 | the nested loops return Scan for the serial; finding none is an empty list |
| RocPciDevices.RocPciDevice.FindSystemDevicesByAddress | src/RocPciDevice.cxx:162-180 | the nested loops return Scan for the address; finding none is an empty list |
| ReadoutParameters.Lookup | include/ReadoutCard/Parameters.h:26-31 | a stored value belongs to the parameter it is looked up under |
| ReadoutParameters.Assign | include/ReadoutCard/Parameters.h:26-31 | storing a value makes it the value of its parameter and leaves every other parameter as it was |
| ReadoutParameters.Parameters.constructor | include/ReadoutCard/Parameters.h:26-35 | on a fresh object no parameter is present |
| ReadoutParameters.Parameters.SetCardId | include/ReadoutCard/Parameters.h:82-91 | the card id reads back from both getters, no other parameter changes, and the object itself is returned |
| ReadoutParameters.Parameters.SetChannelNumber | include/ReadoutCard/Parameters.h:93-103 | the channel number reads back from both getters, no other parameter changes, and the object itself is returned |
| ReadoutParameters.Parameters.SetDmaPageSize | include/ReadoutCard/Parameters.h:105-118 | the DMA page size reads back from both getters, no other parameter changes, and the object itself is returned |
| ReadoutParameters.Parameters.SetGeneratorEnabled | include/ReadoutCard/Parameters.h:120-128 | the generator switch reads back from both getters, no other parameter changes, and the object itself is returned |
| ReadoutParameters.Parameters.SetGeneratorDataSize | include/ReadoutCard/Parameters.h:130-142 | the generator data size reads back from both getters, no other parameter changes, and the object itself is returned |
| ReadoutParameters.Parameters.SetGeneratorLoopback | include/ReadoutCard/Parameters.h:144-155 | the loopback mode reads back from both getters, no other parameter changes, and the object itself is returned |
| ReadoutParameters.Parameters.SetGeneratorPattern | include/ReadoutCard/Parameters.h:157-168 | the generator pattern reads back from both getters, no other parameter changes, and the object itself is returned |
| ReadoutParameters.Parameters.SetGeneratorRandomSizeEnabled | include/ReadoutCard/Parameters.h:170-178 | the random-size switch reads back from both getters, no other parameter changes, and the object itself is returned |
| ReadoutParameters.Parameters.SetBufferParameters | include/ReadoutCard/Parameters.h:180-200 | the buffer parameters read back from both getters, no other parameter changes, and the object itself is returned |
| ReadoutParameters.Parameters.SetReadoutMode | include/ReadoutCard/Parameters.h:202-208 | the readout mode reads back from both getters, no other parameter changes, and the object itself is returned |
| ReadoutParameters.Parameters.SetLinkMask | include/ReadoutCard/Parameters.h:210-223 | the link mask reads back from both getters, no other parameter changes, and the object itself is returned |
| ReadoutParameters.Parameters.GetCardId | include/ReadoutCard/Parameters.h:228-230 | present exactly when a card id is stored, and then it is that card id |
| ReadoutParameters.Parameters.GetChannelNumber | include/ReadoutCard/Parameters.h:232-234 | present exactly when a channel number is stored, and then it is that number |
| ReadoutParameters.Parameters.GetDmaPageSize | include/ReadoutCard/Parameters.h:236-238 | present exactly when a DMA page size is stored, and then it is that size |
| ReadoutParameters.Parameters.GetGeneratorEnabled | include/ReadoutCard/Parameters.h:240-242 | present exactly when the generator switch is stored, and then it is that value |
| ReadoutParameters.Parameters.GetGeneratorDataSize | include/ReadoutCard/Parameters.h:244-246 | present exactly when a generator data size is stored, and then it is that size |
| ReadoutParameters.Parameters.GetGeneratorLoopback | include/ReadoutCard/Parameters.h:248-250 | present exactly when a loopback mode is stored, and then it is that mode |
| ReadoutParameters.Parameters.GetGeneratorPattern | include/ReadoutCard/Parameters.h:252-254 | present exactly when a generator pattern is stored, and then it is that pattern |
| ReadoutParameters.Parameters.GetGeneratorRandomSizeEnabled | include/ReadoutCard/Parameters.h:256-258 | present exactly when the random-size switch is stored, and then it is that value |
| ReadoutParameters.Parameters.GetBufferParameters | include/ReadoutCard/Parameters.h:260-262 | present exactly when buffer parameters are stored, and then they are those |
| ReadoutParameters.Parameters.GetReadoutMode | include/ReadoutCard/Parameters.h:264-266 | present exactly when a readout mode is stored, and then it is that mode |
| ReadoutParameters.Parameters.GetLinkMask | include/ReadoutCard/Parameters.h:268-270 | present exactly when a link mask is stored, and then it is that mask |
| ReadoutParameters.Parameters.GetCardIdRequired | include/ReadoutCard/Parameters.h:275-278 | the card id when it is present, otherwise a ParameterException naming the card id |
| ReadoutParameters.Parameters.GetChannelNumberRequired | include/ReadoutCard/Parameters.h:280-283 | the channel number when it is present, otherwise a ParameterException naming it |
| ReadoutParameters.Parameters.GetDmaPageSizeRequired | include/ReadoutCard/Parameters.h:285-288 | the DMA page size when it is present, otherwise a ParameterException naming it |
| ReadoutParameters.Parameters.GetGeneratorEnabledRequired | include/ReadoutCard/Parameters.h:290-293 | the generator switch when it is present, otherwise a ParameterException naming it |
| ReadoutParameters.Parameters.GetGeneratorDataSizeRequired | include/ReadoutCard/Parameters.h:295-298 | the generator data size when it is present, otherwise a ParameterException naming it |
| ReadoutParameters.Parameters.GetGeneratorLoopbackRequired | include/ReadoutCard/Parameters.h:300-303 | the loopback mode when it is present, otherwise a ParameterException naming it |
| ReadoutParameters.Parameters.GetGeneratorPatternRequired | include/ReadoutCard/Parameters.h:305-308 | the generator pattern when it is present, otherwise a ParameterException naming it |
| ReadoutParameters.Parameters.GetGeneratorRandomSizeEnabledRequired | include/ReadoutCard/Parameters.h:310-313 | the random-size switch when it is present, otherwise a ParameterException naming it |
| ReadoutParameters.Parameters.GetBufferParametersRequired | include/ReadoutCard/Parameters.h:315-318 | the buffer parameters when they are present, otherwise a ParameterException naming them |
| ReadoutParameters.Parameters.GetReadoutModeRequired | include/ReadoutCard/Parameters.h:320-323 | the readout mode when it is present, otherwise a ParameterException naming it |
| ReadoutParameters.Parameters.GetLinkMaskRequired | include/ReadoutCard/Parameters.h:325-328 | the link mask when it is present, otherwise a ParameterException naming it |
| ReadoutParameters.Parameters.MakeParameters | include/ReadoutCard/Parameters.h:333-338 | a new object with the given card id and channel number and no other parameter |
| ReadoutParameters.Interval | include/ReadoutCard/Parameters.h:340-345 | a range n-m holds exactly the ids from n to m inclusive |
| ReadoutParameters.LinkMaskFromString | include/ReadoutCard/Parameters.h:340-345 | a failure is a ParseException carrying the whole input |
| ReadoutParameters.LinkRangeRoundTrip | include/ReadoutCard/Parameters.h:340-345 | the text of an ascending range reads back as its ids and contains no comma |
| ReadoutParameters.DescendingRangeRejected | include/ReadoutCard/Parameters.h:340-345 | a descending range "n-m" with m < n is a ParseException |
| ReadoutParameters.LinkMaskRoundTrip | include/ReadoutCard/Parameters.h:340-345 | any non-empty list of ascending ranges, joined by commas, reads back as the union of their ids |
| ReadoutParameters.LinkMaskConcat | include/ReadoutCard/Parameters.h:340-345 | "a,b" holds the union of the ids of a and b, and fails as soon as either part is malformed |
| ReadoutParameters.LinkMaskFirstExample | include/ReadoutCard/Parameters.h:342 | "0,1,2,8-10" holds links 0, 1, 2, 8, 9 and 10 |
| ReadoutParameters.LinkMaskSecondExample | include/ReadoutCard/Parameters.h:343 | "0-19,21-23" holds links 0 to 23 except 20 |
| ReadoutParameters.LinkMaskRejections | include/ReadoutCard/Parameters.h:344 | "5-3" and the empty string are ParseExceptions |
| ReadoutParameters.CardIdFromString | include/ReadoutCard/Parameters.h:347-353 | an address result comes from text with a colon and fits the PCI fields. A serial result comes from text without one. A failure is a ParseException of the input, or a ParameterException for an address that does not fit |
| ReadoutParameters.ParseFormattedAddress | include/ReadoutCard/Parameters.h:347-353 | the text bus:device.function reads back as that address when it fits the PCI fields, otherwise as a ParameterException |
| ReadoutParameters.CardIdRoundTrip | include/ReadoutCard/Parameters.h:347-353 | the text of every serial number and every valid address reads back as that card id |
| ReadoutParameters.AddressOutOfRange | include/ReadoutCard/Parameters.h:352 | a well-formed address whose numbers exceed 8, 5 or 3 bits is a ParameterException, not a ParseException |
| ReadoutParameters.CardIdSerialExample | include/ReadoutCard/Parameters.h:349 | "12345" is the serial number 12345 |
| ReadoutParameters.CardIdDummyExample | include/ReadoutCard/Parameters.h:85-86 | "-1", the serial number of the dummy driver, is accepted as a serial |
| ReadoutParameters.CardIdAddressExample | include/ReadoutCard/Parameters.h:350 | "42:0.0" is the PCI address bus 42, device 0, function 0 |
| ReadoutParameters.CardIdBusTooLarge | include/ReadoutCard/Parameters.h:352 | "256:0.0" is a ParameterException, since the bus has 8 bits |
| ReadoutParameters.CardIdRejectsWords | include/ReadoutCard/Parameters.h:351 | "abc" is a ParseException |
| Decimal.NatToString | include/ReadoutCard/Parameters.h:347-353 | the decimal spelling of a number is canonical and reads back as the number |
| Decimal.CanonicalSpelling | include/ReadoutCard/Parameters.h:347-353 | a number has exactly one spelling without leading zeros |
| Decimal.ParseIntToString | include/ReadoutCard/Parameters.h:347-353 | the text of every integer reads back as that integer |
| Decimal.Split | include/ReadoutCard/Parameters.h:340-345 | splitting at a separator gives separator-free pieces that join back to the input |
| Decimal.JoinInjective | include/ReadoutCard/Parameters.h:340-345 | two lists of separator-free pieces that join to the same text are equal |
| Decimal.SplitJoin | include/ReadoutCard/Parameters.h:340-345 | splitting undoes joining |
| Decimal.SplitAround | include/ReadoutCard/Parameters.h:340-345 | the pieces of a + sep + b are those of a followed by those of b |

## Left out

- The PCI layer and its foreign calls are not modelled; the model takes the PCI layer as a value of type `PciSystem`. This covers the PDA device lists, the `PciDevice_get*` queries, and the `crorcGetSerial` and `cruGetSerial` readers at src/RocPciDevice.cxx:210-221. Every reader is deterministic, so the second serial read of findSystemDevices(serial) returns the same value as the first.
- `mPdaDevice`, the PDA handle kept by `initWithSerial` and `initWithAddress`, is not modelled: it is a handle to the foreign layer.
- `RocPciDevice::printDeviceInfo` is not modelled: it formats text to a stream.
- The context attached to exceptions is represented by the search target that `DeviceError` carries. The exact message text, `ErrorInfo::SerialNumber` and the "possible causes" are not modelled.
- The commented-out TIME and printf diagnostics in Sca.cxx have no effect. The TIME register is only a constant.
- The exception that `waitOnBusyClear` throws (Sca.cxx:200) is a `ScaException` with the message "Exceeded timeout on busy wait". The model gives it a constructor of its own, `BusyTimeout`, and `ErrorText` gives it that message.
- The register interface behind BAR 2 is `RegisterBar`. The value of each read comes from a function of the past traffic, so concurrency with other users of the BAR is not modelled.
- Alf.Sca.Read: the channel-busy loop of `read` re-tests the same command word and so has no effect. The method keeps the loop, but its contract states nothing about it.
- The busy-wait budget is the field `maxBusyIterations`, which the constructor sets to MAX_BUSY_ITERATIONS (10000). The programs take the budget as a parameter.
- Payload types are not modelled. `BufferParametersType`, `GeneratorPattern::type`, `LoopbackMode::type` and `ReadoutMode::type` are uninterpreted codes.
- The bodies of the `Parameters` setters, getters and parsers are not part of this model's sources. Where the comments are silent the model fixes:
  - The link mask grammar is comma-separated elements. Each element is a decimal id or an ascending range `n-m`, with ids up to 2^32 - 1. Anything else, including the empty string and a descending range, is a ParseException.
  - The card id is a decimal `int` (optional minus sign, in the 32-bit range) or `bus:device.function` in decimal. Fields beyond 8, 5 or 3 bits give a ParameterException.
  - There is no whitespace, '+' sign or hexadecimal form in either parser.
- ReadoutParameters.LinkMaskFromString: its own contract states only the failure case. Its meaning is in LinkMaskRoundTrip, LinkMaskConcat and the examples.

## Findings

| source | as written | input that shows it | evidently intended | confidence | as-written member | corrected member |
|---|---|---|---|---|---|---|
| src/CommandLineUtilities/AliceLowlevelFrontend/Sca.cxx:126-131 | the guard `i < flags.size()` always holds inside the loop, so every flag name, the last included, is followed by ", " | error byte 0x12 gives "... invalid channel request, invalid length, " | ", " only between names | high; not executed | AlfMessages.MessageAsWrittenEndsWithSeparator | AlfMessages.MessageEndsWithLastFlag |
| src/CommandLineUtilities/AliceLowlevelFrontend/Sca.cxx:125 | the error code is streamed in decimal after the prefix "0x" | error byte 0x12 is reported as "0x18" | the code in hexadecimal after "0x" | high; not executed | AlfMessages.MessageAsWrittenExample | AlfMessages.HexString |
