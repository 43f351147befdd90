/** The SCA slow-control engine of the ALICE low-level front end (ALF).

    The engine talks to the slow-control device on the card through seven
    word-indexed registers of BAR 2. The register window is modelled by the
    class RegisterBar: it records every access in a log, and the value of
    each read is given by the device, a function of the whole traffic seen
    so far and of the register read. Every SCA operation is a fixed sequence
    of register steps (a Program); the pure interpreter Exec says what
    running such a sequence appends to the log and whether it ends in an
    error, and each method of class Sca is proved to do exactly that. */
module Alf {
  import opened Wrappers
  import opened ReadoutTypes

  type Word = bv32

  // ---------------------------------------------------------------------------
  // Register map

  /** Register indices are byte addresses divided by four. */
  const WRITE_DATA: int := 0x1e0 / 4
  const WRITE_COMMAND: int := 0x1e4 / 4
  const CONTROL: int := 0x1e8 / 4
  const BUSY: int := 0x1ec / 4
  const READ_DATA: int := 0x1f0 / 4
  const READ_COMMAND: int := 0x1f4 / 4
  const TIME: int := 0x1fc / 4

  /** Per-family offset added to every register index. */
  const OFFSET_CRORC: int := 0
  const OFFSET_CRU: int := 0
  const OFFSET_OTHER: int := 0

  /** Number of polls before a busy wait gives up. */
  const MAX_BUSY_ITERATIONS: nat := 10000

  lemma RegisterMap()
    ensures WRITE_DATA * 4 == 0x1e0 && WRITE_COMMAND * 4 == 0x1e4 && CONTROL * 4 == 0x1e8
    ensures BUSY * 4 == 0x1ec && READ_DATA * 4 == 0x1f0 && READ_COMMAND * 4 == 0x1f4
    ensures TIME * 4 == 0x1fc
    ensures [WRITE_DATA, WRITE_COMMAND, CONTROL, BUSY, READ_DATA, READ_COMMAND, TIME]
         == [120, 121, 122, 123, 124, 125, 127]
  {
  }

  /** The offset chosen for a card type: the same (zero) for every family. */
  function OffsetFor(cardType: CardType): (offset: int)
    ensures offset == 0
  {
    if cardType == Crorc then OFFSET_CRORC
    else if cardType == Cru then OFFSET_CRU
    else OFFSET_OTHER
  }

  // ---------------------------------------------------------------------------
  // The register window

  /** One access to the register window, with the word written or read. */
  datatype Access = Store(index: int, value: Word) | Load(index: int, value: Word)

  /** The device behind the window: the value a read of `index` returns, given
      every access made before it. */
  type Responder = (seq<Access>, int) -> Word

  /** RegisterReadWriteInterface: word-indexed reads and writes on BAR 2. */
  class RegisterBar {
    const respond: Responder
    var log: seq<Access>

    constructor (respond: Responder)
      ensures this.respond == respond && log == []
    {
      this.respond := respond;
      log := [];
    }

    method ReadRegister(index: int) returns (value: Word)
      modifies this
      ensures value == respond(old(log), index)
      ensures log == old(log) + [Load(index, value)]
    {
      value := respond(log, index);
      log := log + [Load(index, value)];
    }

    method WriteRegister(index: int, value: Word)
      modifies this
      ensures log == old(log) + [Store(index, value)]
    {
      log := log + [Store(index, value)];
    }
  }

  // ---------------------------------------------------------------------------
  // Error decoding

  datatype ScaError =
    | BusyTimeout                                // "Exceeded timeout on busy wait"
    | ScaException(code: Word, flags: seq<nat>)  // the error bits set in the command word

  /** Sca::ReadResult */
  datatype ReadResult = ReadResult(command: Word, data: Word)

  /** Utilities::getBit */
  predicate Bit(word: Word, position: nat)
    requires position < 32
  {
    (word >> position) & 1 == 1
  }

  /** The positions below `n` whose bit is set in `code`, in ascending order. */
  function FlagsBelow(code: Word, n: nat): seq<nat>
    requires n <= 32
  {
    if n == 0 then []
    else FlagsBelow(code, n - 1) + (if Bit(code, n - 1) then [n - 1] else [])
  }

  ghost predicate Ascending(s: seq<nat>)
  {
    forall i, j :: 0 <= i < j < |s| ==> s[i] < s[j]
  }

  /** FlagsBelow lists exactly the set bits below `n`, each once, ascending. */
  lemma {:induction false} FlagsBelowMeaning(code: Word, n: nat)
    requires n <= 32
    ensures forall f: nat :: f in FlagsBelow(code, n) <==> f < n && Bit(code, f)
    ensures Ascending(FlagsBelow(code, n))
  {
    if n > 0 {
      FlagsBelowMeaning(code, n - 1);
      var prev := FlagsBelow(code, n - 1);
      var extra: seq<nat> := if Bit(code, n - 1) then [n - 1] else [];
      var flags := FlagsBelow(code, n);
      assert flags == prev + extra;
      forall f: nat ensures f in flags <==> f < n && Bit(code, f) {
        assert f in flags <==> f in prev || f in extra;
      }
      forall i, j | 0 <= i < j < |flags| ensures flags[i] < flags[j] {
        assert flags[i] == prev[i] && prev[i] in prev;
        if j < |prev| {
          assert flags[j] == prev[j];
        } else {
          assert flags[j] == n - 1;
          assert prev[i] < n - 1;
        }
      }
    }
  }

  /** The low byte of a command word, where the device reports errors. */
  function ErrorCode(command: Word): Word
  {
    command & 0xff
  }

  /** Number of error flags checked: bits 0 to 6 (bit 7 is not checked). */
  const ERROR_FLAG_COUNT: nat := 7

  /** The error flags of a command word: bits 0 to 6 of its low byte. */
  function ErrorFlags(command: Word): seq<nat>
  {
    FlagsBelow(ErrorCode(command), ERROR_FLAG_COUNT)
  }

  /** What Sca::checkError does with a command word: it throws exactly when
      one of bits 0 to 6 is set (bit 7 alone is not an error), and the
      exception carries the low byte and exactly its raised flags. */
  function ErrorCheck(command: Word): (r: Result<(), ScaError>)
    ensures r.Err? <==> command & 0x7f != 0
    ensures r.Err? ==> r.error.ScaException? && r.error.code == command & 0xff
    ensures r.Err? ==> forall f: nat :: f in r.error.flags <==> f < ERROR_FLAG_COUNT && Bit(r.error.code, f)
  {
    var flags := ErrorFlags(command);
    NoFlagWithoutLowBit(command);
    LowBitRaisesFlag(command);
    FlagsBelowMeaning(ErrorCode(command), ERROR_FLAG_COUNT);
    if flags == [] then Ok(()) else Err(ScaException(ErrorCode(command), flags))
  }

  /** The message text for one error flag. Flags 6 and 7 share a name, and
      flag 0 shares its name with every unknown flag. */
  function FlagName(flag: nat): (name: string)
    ensures name == "channel busy" <==> flag == 6 || flag == 7
    ensures name == "generic error flag" <==> flag == 0 || flag > 7
  {
    match flag
    case 1 => "invalid channel request"
    case 2 => "invalid command request"
    case 3 => "invalid transaction number"
    case 4 => "invalid length"
    case 5 => "channel not enabled"
    case 6 => "channel busy"
    case 7 => "channel busy"
    case _ => "generic error flag"
  }

  function FlagNames(flags: seq<nat>): (names: seq<string>)
    ensures |names| == |flags|
    ensures forall i :: 0 <= i < |flags| ==> names[i] == FlagName(flags[i])
  {
    if flags == [] then [] else [FlagName(flags[0])] + FlagNames(flags[1..])
  }

  /** Sca::isChannelBusy: the word's low byte is 0x40, so its only error
      flag is flag 6, "channel busy". */
  predicate IsChannelBusy(command: Word)
    ensures IsChannelBusy(command) ==> ErrorFlags(command) == [6] && FlagName(6) == "channel busy"
  {
    var busy := command & 0xff == 0x40;
    assert busy ==> ErrorCode(command) == 0x40 && FlagsBelow(0x40, ERROR_FLAG_COUNT) == [6];
    busy
  }

  /** Bits 0 to 6 of a command word are its error flags. */
  lemma LowBits(command: Word)
    ensures command & 0x7f != 0 <==>
      var code := ErrorCode(command);
      Bit(code, 0) || Bit(code, 1) || Bit(code, 2) || Bit(code, 3)
      || Bit(code, 4) || Bit(code, 5) || Bit(code, 6)
  {
  }

  lemma NoFlagWithoutLowBit(command: Word)
    ensures ErrorFlags(command) != [] ==> command & 0x7f != 0
  {
    var flags := ErrorFlags(command);
    FlagsBelowMeaning(ErrorCode(command), ERROR_FLAG_COUNT);
    LowBits(command);
    assert |flags| > 0 ==> flags[0] in flags;
  }

  lemma LowBitRaisesFlag(command: Word)
    ensures command & 0x7f != 0 ==> ErrorFlags(command) != []
  {
    var code := ErrorCode(command);
    FlagsBelowMeaning(code, ERROR_FLAG_COUNT);
    LowBits(command);
    if command & 0x7f != 0 {
      var f: nat :| f < 7 && Bit(code, f);
      assert f in ErrorFlags(command);
    }
  }

  lemma InvalidChannelAndLength(command: Word)
    requires command & 0xff == 0x12
    ensures ErrorCheck(command) == Err(ScaException(0x12, [1, 4]))
    ensures FlagNames(ErrorCheck(command).error.flags) == ["invalid channel request", "invalid length"]
  {
    assert ErrorCode(command) == 0x12;
    assert FlagsBelow(0x12, 7) == [1, 4];
  }

  lemma BusyWordReportsChannelBusy(command: Word)
    requires IsChannelBusy(command)
    ensures ErrorCheck(command) == Err(ScaException(0x40, [6]))
    ensures FlagNames(ErrorCheck(command).error.flags) == ["channel busy"]
  {
    assert ErrorCode(command) == 0x40;
    assert FlagsBelow(0x40, 7) == [6];
  }

  lemma Bit7AloneIsNoError(command: Word)
    requires command & 0xff == 0x80
    ensures ErrorCheck(command) == Ok(())
  {
  }

  // ---------------------------------------------------------------------------
  // Register programs and their meaning

  /** One register-level step of an SCA operation: a write of `value` to a
      register (barWrite), a busy wait of at most `budget` polls
      (waitOnBusyClear), or the fetch of a response (read). */
  datatype Step = Poke(register: int, value: Word) | AwaitNotBusy(budget: nat) | Fetch

  type Program = seq<Step>

  /** The accesses a run appends to the log, and either the responses it
      fetched, in order, or the error that stopped it. */
  datatype Run = Run(trace: seq<Access>, result: Result<seq<ReadResult>, ScaError>)

  function Last<T>(s: seq<T>): T
    requires |s| > 0
  {
    s[|s| - 1]
  }

  /** Polling BUSY at most `budget` times, stopping at the first zero. */
  function BusyWait(dev: Responder, offset: int, log: seq<Access>, budget: nat): Run
    decreases budget
  {
    if budget == 0 then Run([], Err(BusyTimeout))
    else
      var poll := Load(BUSY + offset, BusyValue(dev, offset, log));
      if poll.value == 0 then Run([poll], Ok([]))
      else
        var rest := BusyWait(dev, offset, log + [poll], budget - 1);
        Run([poll] + rest.trace, rest.result)
  }

  /** What BUSY reads as after the accesses `log`. */
  function BusyValue(dev: Responder, offset: int, log: seq<Access>): Word
  {
    dev(log, BUSY + offset)
  }

  /** A busy wait makes at most `budget` polls, all of BUSY, succeeds exactly
      when the last poll read zero, sees no zero before that, and otherwise
      times out having used its whole budget. */
  lemma {:induction false} BusyWaitPolls(dev: Responder, offset: int, log: seq<Access>, budget: nat)
    ensures var r := BusyWait(dev, offset, log, budget);
      && |r.trace| <= budget
      && (forall k :: 0 <= k < |r.trace| ==> r.trace[k].Load? && r.trace[k].index == BUSY + offset)
      && (forall k :: 0 <= k < |r.trace| - 1 ==> r.trace[k].value != 0)
      && (r.result.Ok? <==> r.trace != [] && Last(r.trace).value == 0)
      && (r.result == Ok([]) || (r.result == Err(BusyTimeout) && |r.trace| == budget))
    decreases budget
  {
    if budget > 0 {
      var poll := Load(BUSY + offset, BusyValue(dev, offset, log));
      if poll.value != 0 {
        BusyWaitPolls(dev, offset, log + [poll], budget - 1);
        var rest := BusyWait(dev, offset, log + [poll], budget - 1);
        var r := BusyWait(dev, offset, log, budget);
        assert r.trace == [poll] + rest.trace;
        assert forall k :: 1 <= k < |r.trace| ==> r.trace[k] == rest.trace[k - 1];
      }
    }
  }

  /** A busy flag that never clears makes the wait time out after exactly
      `budget` polls. */
  lemma {:induction false} BusyWaitNeverClears(dev: Responder, offset: int, log: seq<Access>, budget: nat)
    requires forall h :: BusyValue(dev, offset, h) != 0
    ensures BusyWait(dev, offset, log, budget).result == Err(BusyTimeout)
    ensures |BusyWait(dev, offset, log, budget).trace| == budget
    decreases budget
  {
    if budget > 0 {
      var poll := Load(BUSY + offset, BusyValue(dev, offset, log));
      BusyWaitNeverClears(dev, offset, log + [poll], budget - 1);
    }
  }

  /** The two reads of a fetch, and what Sca::read makes of them. */
  function FetchRun(dev: Responder, offset: int, log: seq<Access>): Run
  {
    var data := dev(log, READ_DATA + offset);
    var command := dev(log + [Load(READ_DATA + offset, data)], READ_COMMAND + offset);
    var trace := [Load(READ_DATA + offset, data), Load(READ_COMMAND + offset, command)];
    match ErrorCheck(command)
    case Ok(_) => Run(trace, Ok([ReadResult(command, data)]))
    case Err(e) => Run(trace, Err(e))
  }

  function StepRun(dev: Responder, offset: int, log: seq<Access>, step: Step): Run
  {
    match step
    case Poke(register, value) => Run([Store(register + offset, value)], Ok([]))
    case AwaitNotBusy(budget) => BusyWait(dev, offset, log, budget)
    case Fetch => FetchRun(dev, offset, log)
  }

  /** Run `second` after `first`, unless `first` failed. */
  function Chain(first: Run, second: Run): Run
  {
    if first.result.Err? then first
    else Run(first.trace + second.trace,
             match second.result
             case Ok(responses) => Ok(first.result.value + responses)
             case Err(e) => Err(e))
  }

  /** Running a program: its steps in order, stopping at the first error. */
  function Exec(dev: Responder, offset: int, log: seq<Access>, program: Program): Run
    decreases |program|
  {
    if program == [] then Run([], Ok([]))
    else
      var first := StepRun(dev, offset, log, program[0]);
      Chain(first, Exec(dev, offset, log + first.trace, program[1..]))
  }

  lemma ChainAssociative(a: Run, b: Run, c: Run)
    ensures Chain(a, Chain(b, c)) == Chain(Chain(a, b), c)
  {
    if a.result.Ok? && b.result.Ok? {
      assert a.trace + (b.trace + c.trace) == a.trace + b.trace + c.trace;
      if c.result.Ok? {
        assert a.result.value + (b.result.value + c.result.value)
            == a.result.value + b.result.value + c.result.value;
      }
    }
  }

  lemma ExecSingle(dev: Responder, offset: int, log: seq<Access>, step: Step)
    ensures Exec(dev, offset, log, [step]) == StepRun(dev, offset, log, step)
  {
    var first := StepRun(dev, offset, log, step);
    assert [step][1..] == [];
    if first.result.Ok? {
      assert first.trace + [] == first.trace;
      assert first.result.value + [] == first.result.value;
    }
  }

  /** A single write of a register. */
  lemma PokeRun(dev: Responder, offset: int, log: seq<Access>, register: int, value: Word)
    ensures Exec(dev, offset, log, [Poke(register, value)]) == Run([Store(register + offset, value)], Ok([]))
  {
    ExecSingle(dev, offset, log, Poke(register, value));
  }

  /** A single busy wait. */
  lemma AwaitRun(dev: Responder, offset: int, log: seq<Access>, budget: nat)
    ensures Exec(dev, offset, log, [AwaitNotBusy(budget)]) == BusyWait(dev, offset, log, budget)
  {
    ExecSingle(dev, offset, log, AwaitNotBusy(budget));
  }

  /** Running `p + q` is running `p`, then `q` from where `p` left the log. */
  lemma {:induction false} ExecAppend(dev: Responder, offset: int, log: seq<Access>, p: Program, q: Program)
    ensures var a := Exec(dev, offset, log, p);
      Exec(dev, offset, log, p + q) == Chain(a, Exec(dev, offset, log + a.trace, q))
    decreases |p|
  {
    var a := Exec(dev, offset, log, p);
    if p == [] {
      assert p + q == q && log + a.trace == log;
      ChainUnit(Exec(dev, offset, log, q));
    } else {
      var first := StepRun(dev, offset, log, p[0]);
      var log1 := log + first.trace;
      var rest := Exec(dev, offset, log1, p[1..]);
      assert a == Chain(first, rest);
      assert Exec(dev, offset, log, p + q) == Chain(first, Exec(dev, offset, log1, p[1..] + q)) by {
        assert (p + q)[0] == p[0];
        assert (p + q)[1..] == p[1..] + q;
      }
      if first.result.Ok? {
        var tail := Exec(dev, offset, log1 + rest.trace, q);
        assert log + a.trace == log1 + rest.trace by {
          assert a.trace == first.trace + rest.trace;
        }
        calc {
          Exec(dev, offset, log, p + q);
          Chain(first, Exec(dev, offset, log1, p[1..] + q));
          { ExecAppend(dev, offset, log1, p[1..], q); }
          Chain(first, Chain(rest, tail));
          { ChainAssociative(first, rest, tail); }
          Chain(a, tail);
        }
      }
    }
  }

  lemma ChainUnit(b: Run)
    ensures Chain(Run([], Ok([])), b) == b
  {
    assert [] + b.trace == b.trace;
    if b.result.Ok? {
      assert [] + b.result.value == b.result.value;
    }
  }

  // ---------------------------------------------------------------------------
  // Views of a trace

  /** The (index, value) pairs written, in order. */
  function Writes(trace: seq<Access>): seq<(int, Word)>
  {
    if trace == [] then []
    else (if trace[0].Store? then [(trace[0].index, trace[0].value)] else []) + Writes(trace[1..])
  }

  /** The (index, value) pairs a program writes when every step succeeds. */
  function Pokes(program: Program, offset: int): seq<(int, Word)>
  {
    if program == [] then []
    else (if program[0].Poke? then [(program[0].register + offset, program[0].value)] else [])
         + Pokes(program[1..], offset)
  }

  /** The SCA-level traffic of a trace: data and command words sent, and
      responses fetched (reads of READ_COMMAND). */
  datatype Event = Data(data: Word) | Command(command: Word) | Response

  function AccessEvents(access: Access, offset: int): seq<Event>
  {
    match access
    case Store(index, value) =>
      if index == WRITE_DATA + offset then [Data(value)]
      else if index == WRITE_COMMAND + offset then [Command(value)]
      else []
    case Load(index, _) => if index == READ_COMMAND + offset then [Response] else []
  }

  function Events(trace: seq<Access>, offset: int): seq<Event>
  {
    if trace == [] then [] else AccessEvents(trace[0], offset) + Events(trace[1..], offset)
  }

  function StepEvents(step: Step): seq<Event>
  {
    match step
    case Poke(register, value) =>
      if register == WRITE_DATA then [Data(value)]
      else if register == WRITE_COMMAND then [Command(value)]
      else []
    case AwaitNotBusy(_) => []
    case Fetch => [Response]
  }

  function ProgramEvents(program: Program): seq<Event>
  {
    if program == [] then [] else StepEvents(program[0]) + ProgramEvents(program[1..])
  }

  lemma {:induction false} WritesAppend(a: seq<Access>, b: seq<Access>)
    ensures Writes(a + b) == Writes(a) + Writes(b)
    decreases |a|
  {
    if a == [] {
      assert a + b == b;
    } else {
      assert (a + b)[0] == a[0];
      assert (a + b)[1..] == a[1..] + b;
      WritesAppend(a[1..], b);
    }
  }

  lemma {:induction false} EventsAppend(a: seq<Access>, b: seq<Access>, offset: int)
    ensures Events(a + b, offset) == Events(a, offset) + Events(b, offset)
    decreases |a|
  {
    if a == [] {
      assert a + b == b;
    } else {
      assert (a + b)[0] == a[0];
      assert (a + b)[1..] == a[1..] + b;
      EventsAppend(a[1..], b, offset);
    }
  }

  lemma {:induction false} PokesAppend(p: Program, q: Program, offset: int)
    ensures Pokes(p + q, offset) == Pokes(p, offset) + Pokes(q, offset)
    decreases |p|
  {
    if p == [] {
      assert p + q == q;
    } else {
      assert (p + q)[0] == p[0];
      assert (p + q)[1..] == p[1..] + q;
      PokesAppend(p[1..], q, offset);
    }
  }

  lemma {:induction false} ProgramEventsAppend(p: Program, q: Program)
    ensures ProgramEvents(p + q) == ProgramEvents(p) + ProgramEvents(q)
    decreases |p|
  {
    if p == [] {
      assert p + q == q;
    } else {
      assert (p + q)[0] == p[0];
      assert (p + q)[1..] == p[1..] + q;
      ProgramEventsAppend(p[1..], q);
    }
  }

  /** A trace of BUSY polls writes nothing and carries no SCA traffic. */
  lemma {:induction false} PollsAreSilent(polls: seq<Access>, offset: int)
    requires forall k :: 0 <= k < |polls| ==> polls[k].Load? && polls[k].index == BUSY + offset
    ensures Writes(polls) == [] && Events(polls, offset) == []
    decreases |polls|
  {
    if polls != [] {
      PollsAreSilent(polls[1..], offset);
    }
  }

  lemma FetchViews(dev: Responder, offset: int, log: seq<Access>)
    ensures var r := FetchRun(dev, offset, log);
      Writes(r.trace) == [] && Events(r.trace, offset) == [Response]
  {
    var t := FetchRun(dev, offset, log).trace;
    var data := dev(log, READ_DATA + offset);
    var command := dev(log + [Load(READ_DATA + offset, data)], READ_COMMAND + offset);
    assert t == [Load(READ_DATA + offset, data), Load(READ_COMMAND + offset, command)];
    assert t[1..][1..] == [];
    assert Writes(t[1..]) == [] && Events(t[1..], offset) == [Response];
  }

  lemma StepViews(dev: Responder, offset: int, log: seq<Access>, step: Step)
    ensures var r := StepRun(dev, offset, log, step);
      && Writes(r.trace) == Pokes([step], offset)
      && Events(r.trace, offset) == StepEvents(step)
      && (r.result.Err? ==> step.Fetch? || (step.AwaitNotBusy? && r.result.error == BusyTimeout))
  {
    var r := StepRun(dev, offset, log, step);
    assert Pokes([step], offset) == (if step.Poke? then [(step.register + offset, step.value)] else []) by {
      assert [step][1..] == [];
    }
    match step
    case Poke(register, value) =>
      assert r.trace == [Store(register + offset, value)];
      assert r.trace[1..] == [];
    case AwaitNotBusy(budget) =>
      BusyWaitPolls(dev, offset, log, budget);
      PollsAreSilent(r.trace, offset);
    case Fetch =>
      FetchViews(dev, offset, log);
  }

  /** What a run writes is what its program pokes, up to the step that failed:
      all of it when the run succeeds. */
  lemma {:induction false} ExecWrites(dev: Responder, offset: int, log: seq<Access>, p: Program)
    ensures var r := Exec(dev, offset, log, p);
      && Writes(r.trace) <= Pokes(p, offset)
      && (r.result.Ok? ==> Writes(r.trace) == Pokes(p, offset))
    decreases |p|
  {
    if p != [] {
      var first := StepRun(dev, offset, log, p[0]);
      var rest := Exec(dev, offset, log + first.trace, p[1..]);
      StepViews(dev, offset, log, p[0]);
      assert Pokes([p[0]], offset) + Pokes(p[1..], offset) == Pokes(p, offset) by {
        assert [p[0]][1..] == [];
      }
      if first.result.Ok? {
        ExecWrites(dev, offset, log + first.trace, p[1..]);
        WritesAppend(first.trace, rest.trace);
      }
    }
  }

  /** Only a fetch can fail with an SCA error; every other failure is a
      busy timeout. */
  lemma {:induction false} ExecErrors(dev: Responder, offset: int, log: seq<Access>, p: Program)
    ensures var r := Exec(dev, offset, log, p);
      r.result.Err? ==> Fetch in p || r.result.error == BusyTimeout
    decreases |p|
  {
    if p != [] {
      var first := StepRun(dev, offset, log, p[0]);
      StepViews(dev, offset, log, p[0]);
      if first.result.Ok? {
        ExecErrors(dev, offset, log + first.trace, p[1..]);
        assert Fetch in p[1..] ==> Fetch in p;
      }
    }
  }

  /** The SCA traffic of a run is that of its program, up to the step that
      failed: all of it when the run succeeds. */
  lemma {:induction false} ExecEvents(dev: Responder, offset: int, log: seq<Access>, p: Program)
    ensures var r := Exec(dev, offset, log, p);
      && Events(r.trace, offset) <= ProgramEvents(p)
      && (r.result.Ok? ==> Events(r.trace, offset) == ProgramEvents(p))
    decreases |p|
  {
    if p != [] {
      var first := StepRun(dev, offset, log, p[0]);
      var rest := Exec(dev, offset, log + first.trace, p[1..]);
      StepViews(dev, offset, log, p[0]);
      if first.result.Ok? {
        ExecEvents(dev, offset, log + first.trace, p[1..]);
        EventsAppend(first.trace, rest.trace, offset);
      }
    }
  }

  /** A program that ends with a fetch returns, on success, the response
      made of its last two reads. */
  lemma ExecEndsWithFetch(dev: Responder, offset: int, log: seq<Access>, p: Program)
    ensures var r := Exec(dev, offset, log, p + [Fetch]);
      r.result.Ok? ==>
        && |r.trace| >= 2 && |r.result.value| > 0
        && r.trace[|r.trace| - 2].Load? && r.trace[|r.trace| - 2].index == READ_DATA + offset
        && r.trace[|r.trace| - 1].Load? && r.trace[|r.trace| - 1].index == READ_COMMAND + offset
        && Last(r.result.value) == ReadResult(r.trace[|r.trace| - 1].value, r.trace[|r.trace| - 2].value)
  {
    var a := Exec(dev, offset, log, p);
    ExecAppend(dev, offset, log, p, [Fetch]);
    ExecSingle(dev, offset, log + a.trace, Fetch);
  }

  // ---------------------------------------------------------------------------
  // The SCA operations as register programs

  /** Sca::executeCommand */
  function ExecuteCommandProgram(budget: nat): Program
  {
    [Poke(CONTROL, 4), Poke(CONTROL, 0), AwaitNotBusy(budget)]
  }

  /** Sca::write */
  function WriteProgram(command: Word, data: Word, budget: nat): Program
  {
    [Poke(WRITE_DATA, data), Poke(WRITE_COMMAND, command)] + ExecuteCommandProgram(budget)
  }

  /** Sca::read */
  const READ: Program := [Fetch]

  /** Sca::init */
  function InitProgram(budget: nat): Program
  {
    [Poke(CONTROL, 1), AwaitNotBusy(budget), Poke(CONTROL, 2), AwaitNotBusy(budget),
     Poke(CONTROL, 1), AwaitNotBusy(budget), Poke(CONTROL, 0)]
  }

  /** Sca::gpioEnable: four writes, only three reads. */
  function GpioEnableProgram(budget: nat): Program
  {
    WriteProgram(0x00010002, 0xff000000, budget) + (READ +
    (WriteProgram(0x00020003, 0xff000000, budget) + (READ +
    (WriteProgram(0x02030020, 0xffffffff, budget) +
    (WriteProgram(0x02040021, 0x0, budget) + READ)))))
  }

  /** Sca::initialize */
  function InitializeProgram(budget: nat): Program
  {
    InitProgram(budget) + GpioEnableProgram(budget)
  }

  /** Sca::gpioWrite after its initialisation. */
  function GpioWriteTail(data: Word, budget: nat): Program
  {
    WriteProgram(0x02040010, data, budget) +
    (WriteProgram(0x02050011, 0x0, budget) + (READ +
    (WriteProgram(0x02060001, 0x0, budget) + READ)))
  }

  /** Sca::gpioWrite */
  function GpioWriteProgram(data: Word, budget: nat): Program
  {
    InitializeProgram(budget) + GpioWriteTail(data, budget)
  }

  /** Sca::gpioRead */
  function GpioReadProgram(budget: nat): Program
  {
    WriteProgram(0x02050011, 0x0, budget) + READ
  }

  // The same operations as the calls their C++ bodies make, in order.

  function InitParts(budget: nat): seq<Program>
  {
    [[Poke(CONTROL, 1)], [AwaitNotBusy(budget)], [Poke(CONTROL, 2)], [AwaitNotBusy(budget)],
     [Poke(CONTROL, 1)], [AwaitNotBusy(budget)], [Poke(CONTROL, 0)]]
  }

  function GpioEnableParts(budget: nat): seq<Program>
  {
    [WriteProgram(0x00010002, 0xff000000, budget), READ,
     WriteProgram(0x00020003, 0xff000000, budget), READ,
     WriteProgram(0x02030020, 0xffffffff, budget),
     WriteProgram(0x02040021, 0x0, budget), READ]
  }

  function InitializeParts(budget: nat): seq<Program>
  {
    [InitProgram(budget), GpioEnableProgram(budget)]
  }

  function GpioWriteParts(data: Word, budget: nat): seq<Program>
  {
    [InitializeProgram(budget),
     WriteProgram(0x02040010, data, budget),
     WriteProgram(0x02050011, 0x0, budget), READ,
     WriteProgram(0x02060001, 0x0, budget), READ]
  }

  function GpioReadParts(budget: nat): seq<Program>
  {
    [WriteProgram(0x02050011, 0x0, budget), READ]
  }

  lemma FlattenLast(parts: seq<Program>, last: Program)
    requires |parts| == 1 && parts[0] == last
    ensures Flatten(parts) == last
  {
    assert parts[1..] == [];
    assert last + [] == last;
  }

  lemma InitByParts(budget: nat)
    ensures Flatten(InitParts(budget)) == InitProgram(budget)
  {
    var ps := InitParts(budget);
    FlattenLast(ps[6..], [Poke(CONTROL, 0)]);
    FlattenAt(ps, 5);
    FlattenAt(ps, 4);
    FlattenAt(ps, 3);
    FlattenAt(ps, 2);
    FlattenAt(ps, 1);
    FlattenAt(ps, 0);
  }

  lemma GpioEnableByParts(budget: nat)
    ensures Flatten(GpioEnableParts(budget)) == GpioEnableProgram(budget)
  {
    var ps := GpioEnableParts(budget);
    FlattenLast(ps[6..], READ);
    FlattenAt(ps, 5);
    FlattenAt(ps, 4);
    FlattenAt(ps, 3);
    FlattenAt(ps, 2);
    FlattenAt(ps, 1);
    FlattenAt(ps, 0);
  }

  lemma InitializeByParts(budget: nat)
    ensures Flatten(InitializeParts(budget)) == InitializeProgram(budget)
  {
    var ps := InitializeParts(budget);
    FlattenLast(ps[1..], GpioEnableProgram(budget));
    FlattenAt(ps, 0);
  }

  lemma GpioWriteByParts(data: Word, budget: nat)
    ensures Flatten(GpioWriteParts(data, budget)) == GpioWriteProgram(data, budget)
  {
    var ps := GpioWriteParts(data, budget);
    FlattenLast(ps[5..], READ);
    FlattenAt(ps, 4);
    FlattenAt(ps, 3);
    FlattenAt(ps, 2);
    FlattenAt(ps, 1);
    FlattenAt(ps, 0);
  }

  lemma GpioReadByParts(budget: nat)
    ensures Flatten(GpioReadParts(budget)) == GpioReadProgram(budget)
  {
    var ps := GpioReadParts(budget);
    FlattenLast(ps[1..], READ);
    FlattenAt(ps, 0);
  }

  lemma PokesAt(p: Program, offset: int, k: nat)
    requires k < |p|
    ensures Pokes(p[k..], offset) == Pokes([p[k]], offset) + Pokes(p[k + 1..], offset)
  {
    assert p[k..][0] == p[k] && p[k..][1..] == p[k + 1..];
    assert [p[k]][1..] == [];
  }

  lemma ProgramEventsAt(p: Program, k: nat)
    requires k < |p|
    ensures ProgramEvents(p[k..]) == StepEvents(p[k]) + ProgramEvents(p[k + 1..])
  {
    assert p[k..][0] == p[k] && p[k..][1..] == p[k + 1..];
  }

  lemma ExecuteCommandEvents(budget: nat)
    ensures ProgramEvents(ExecuteCommandProgram(budget)) == []
  {
    var p := ExecuteCommandProgram(budget);
    assert p[3..] == [] && p[0..] == p;
    ProgramEventsAt(p, 2);
    ProgramEventsAt(p, 1);
    ProgramEventsAt(p, 0);
  }

  lemma WriteProgramEvents(command: Word, data: Word, budget: nat)
    ensures ProgramEvents(WriteProgram(command, data, budget)) == [Data(data), Command(command)]
  {
    var stores := [Poke(WRITE_DATA, data), Poke(WRITE_COMMAND, command)];
    assert ProgramEvents(stores) == [Data(data), Command(command)] by {
      assert stores[2..] == [] && stores[0..] == stores;
      ProgramEventsAt(stores, 1);
      ProgramEventsAt(stores, 0);
    }
    ExecuteCommandEvents(budget);
    ProgramEventsAppend(stores, ExecuteCommandProgram(budget));
  }

  lemma ReadEvents()
    ensures ProgramEvents(READ) == [Response]
  {
    assert READ[1..] == [];
  }

  lemma InitPokes(offset: int, budget: nat)
    ensures Pokes(InitProgram(budget), offset)
         == [(CONTROL + offset, 1), (CONTROL + offset, 2), (CONTROL + offset, 1), (CONTROL + offset, 0)]
  {
    assert InitProgram(budget)[7..] == [] && InitProgram(budget)[0..] == InitProgram(budget);
    PokesAt(InitProgram(budget), offset, 6);
    PokesAt(InitProgram(budget), offset, 5);
    PokesAt(InitProgram(budget), offset, 4);
    PokesAt(InitProgram(budget), offset, 3);
    PokesAt(InitProgram(budget), offset, 2);
    PokesAt(InitProgram(budget), offset, 1);
    PokesAt(InitProgram(budget), offset, 0);
  }

  lemma InitEvents(budget: nat)
    ensures ProgramEvents(InitProgram(budget)) == []
  {
    assert InitProgram(budget)[7..] == [] && InitProgram(budget)[0..] == InitProgram(budget);
    ProgramEventsAt(InitProgram(budget), 6);
    ProgramEventsAt(InitProgram(budget), 5);
    ProgramEventsAt(InitProgram(budget), 4);
    ProgramEventsAt(InitProgram(budget), 3);
    ProgramEventsAt(InitProgram(budget), 2);
    ProgramEventsAt(InitProgram(budget), 1);
    ProgramEventsAt(InitProgram(budget), 0);
  }

  /** Sca::init as its first six steps, then the final write of CONTROL. */
  lemma InitSplit(dev: Responder, offset: int, log: seq<Access>, budget: nat)
    ensures var front := InitProgram(budget)[..6];
      var a := Exec(dev, offset, log, front);
      var r := Exec(dev, offset, log, InitProgram(budget));
      && InitProgram(budget) == front + [Poke(CONTROL, 0)]
      && (a.result.Err? ==> r == a)
      && (a.result.Ok? ==> r.result.Ok? && r.trace == a.trace + [Store(CONTROL + offset, 0)])
  {
    var front := InitProgram(budget)[..6];
    var a := Exec(dev, offset, log, front);
    assert InitProgram(budget) == front + [Poke(CONTROL, 0)];
    ExecAppend(dev, offset, log, front, [Poke(CONTROL, 0)]);
    PokeRun(dev, offset, log + a.trace, CONTROL, 0);
  }

  lemma InitSilent(dev: Responder, offset: int, log: seq<Access>, budget: nat)
    ensures Events(Exec(dev, offset, log, InitProgram(budget)).trace, offset) == []
  {
    ExecEvents(dev, offset, log, InitProgram(budget));
    InitEvents(budget);
  }

  lemma InitStops(dev: Responder, offset: int, log: seq<Access>, budget: nat)
    ensures var r := Exec(dev, offset, log, InitProgram(budget));
      var c := CONTROL + offset;
      r.result.Err? ==>
        r.result.error == BusyTimeout && Writes(r.trace) < [(c, 1), (c, 2), (c, 1), (c, 0)]
  {
    var r := Exec(dev, offset, log, InitProgram(budget));
    if r.result.Err? {
      var front := InitProgram(budget)[..6];
      InitSplit(dev, offset, log, budget);
      ExecErrors(dev, offset, log, InitProgram(budget));
      assert Fetch !in InitProgram(budget);
      ExecWrites(dev, offset, log, front);
      PokesAppend(front, [Poke(CONTROL, 0)], offset);
      assert |Pokes([Poke(CONTROL, 0)], offset)| == 1 by {
        assert [Poke(CONTROL, 0)][1..] == [];
      }
      InitPokes(offset, budget);
    }
  }

  /** The polls of a busy wait that ended well: reads of BUSY, the last one
      zero and none before it. */
  ghost predicate ClearedPolls(polls: seq<Access>, offset: int)
  {
    && |polls| > 0
    && (forall k :: 0 <= k < |polls| ==> polls[k].Load? && polls[k].index == BUSY + offset)
    && (forall k :: 0 <= k < |polls| - 1 ==> polls[k].value != 0)
    && polls[|polls| - 1].value == 0
  }

  /** Reads of BUSY that all saw it set. */
  ghost predicate StuckPolls(polls: seq<Access>, offset: int)
  {
    forall k :: 0 <= k < |polls| ==> polls[k].Load? && polls[k].index == BUSY + offset && polls[k].value != 0
  }

  lemma BusyWaitShape(dev: Responder, offset: int, log: seq<Access>, budget: nat)
    ensures var w := BusyWait(dev, offset, log, budget);
      && (w.result.Ok? ==> w.result == Ok([]) && ClearedPolls(w.trace, offset))
      && (w.result.Err? ==> w.result == Err(BusyTimeout) && |w.trace| == budget && StuckPolls(w.trace, offset))
  {
    BusyWaitPolls(dev, offset, log, budget);
  }

  /** A write of CONTROL followed by a busy wait. */
  lemma PulseRun(dev: Responder, offset: int, log: seq<Access>, value: Word, budget: nat)
    ensures var store := Store(CONTROL + offset, value);
      Exec(dev, offset, log, [Poke(CONTROL, value), AwaitNotBusy(budget)])
      == Prepend([store], BusyWait(dev, offset, log + [store], budget))
  {
    var p := [Poke(CONTROL, value)];
    assert p + [AwaitNotBusy(budget)] == [Poke(CONTROL, value), AwaitNotBusy(budget)];
    ExecPokesThen(dev, offset, log, p, [AwaitNotBusy(budget)]);
    assert StoresOf(p, offset) == [Store(CONTROL + offset, value)];
    AwaitRun(dev, offset, log + [Store(CONTROL + offset, value)], budget);
  }

  lemma ChainAfterWait(a: Run, b: Run)
    requires a.result == Ok([])
    ensures Chain(a, b) == Run(a.trace + b.trace, b.result)
  {
    if b.result.Ok? {
      assert [] + b.result.value == b.result.value;
    }
  }

  lemma TimeoutTail(front: seq<Access>, store: Access, polls: seq<Access>, offset: int, budget: nat)
    requires |polls| == budget && StuckPolls(polls, offset)
    ensures var t := front + [store] + polls;
      |t| > budget && t[|t| - budget - 1] == store && StuckPolls(t[|t| - budget..], offset)
  {
    var t := front + [store] + polls;
    assert t[|t| - budget..] == polls;
  }

  /** A write of CONTROL and a busy wait, then the program `q` unless the
      wait timed out: `polls` are the reads of the wait. */
  lemma PulseThen(dev: Responder, offset: int, log: seq<Access>, value: Word, budget: nat, q: Program)
    returns (polls: seq<Access>, cleared: bool)
    ensures var store := Store(CONTROL + offset, value);
      var r := Exec(dev, offset, log, [Poke(CONTROL, value), AwaitNotBusy(budget)] + q);
      && (cleared ==>
            ClearedPolls(polls, offset) && r == Prepend([store] + polls, Exec(dev, offset, log + ([store] + polls), q)))
      && (!cleared ==>
            |polls| == budget && StuckPolls(polls, offset) && r == Run([store] + polls, Err(BusyTimeout)))
  {
    var store := Store(CONTROL + offset, value);
    var w := BusyWait(dev, offset, log + [store], budget);
    ExecAppend(dev, offset, log, [Poke(CONTROL, value), AwaitNotBusy(budget)], q);
    PulseRun(dev, offset, log, value, budget);
    BusyWaitShape(dev, offset, log + [store], budget);
    polls, cleared := w.trace, w.result.Ok?;
    if cleared {
      ChainAfterWait(Prepend([store], w), Exec(dev, offset, log + ([store] + w.trace), q));
    }
  }

  /** The last pulse of Sca::init and its final write of CONTROL. */
  lemma LastPulse(dev: Responder, offset: int, log: seq<Access>, budget: nat)
    returns (p3: seq<Access>, cleared: bool)
    ensures var r := Exec(dev, offset, log, [Poke(CONTROL, 1), AwaitNotBusy(budget)] + [Poke(CONTROL, 0)]);
      var c := CONTROL + offset;
      && (cleared ==> ClearedPolls(p3, offset) && r == Run([Store(c, 1)] + p3 + [Store(c, 0)], Ok([])))
      && (!cleared ==> |p3| == budget && StuckPolls(p3, offset) && r == Run([Store(c, 1)] + p3, Err(BusyTimeout)))
  {
    var c := CONTROL + offset;
    p3, cleared := PulseThen(dev, offset, log, 1, budget, [Poke(CONTROL, 0)]);
    if cleared {
      PokeRun(dev, offset, log + ([Store(c, 1)] + p3), CONTROL, 0);
    }
  }

  /** The last two pulses of Sca::init: `stage` of their waits cleared. */
  lemma LastTwoPulses(dev: Responder, offset: int, log: seq<Access>, budget: nat)
    returns (p2: seq<Access>, p3: seq<Access>, stage: nat)
    ensures var r := Exec(dev, offset, log,
                          [Poke(CONTROL, 2), AwaitNotBusy(budget)] + ([Poke(CONTROL, 1), AwaitNotBusy(budget)] + [Poke(CONTROL, 0)]));
      var c := CONTROL + offset;
      && stage <= 2
      && (stage >= 1 ==> ClearedPolls(p2, offset))
      && (stage == 2 ==> ClearedPolls(p3, offset))
      && (stage == 0 ==> |p2| == budget && StuckPolls(p2, offset) && r == Run([Store(c, 2)] + p2, Err(BusyTimeout)))
      && (stage == 1 ==> |p3| == budget && StuckPolls(p3, offset)
                         && r == Run([Store(c, 2)] + p2 + ([Store(c, 1)] + p3), Err(BusyTimeout)))
      && (stage == 2 ==> r == Run([Store(c, 2)] + p2 + ([Store(c, 1)] + p3 + [Store(c, 0)]), Ok([])))
  {
    var c := CONTROL + offset;
    var ok2, ok3;
    p2, ok2 := PulseThen(dev, offset, log, 2, budget, [Poke(CONTROL, 1), AwaitNotBusy(budget)] + [Poke(CONTROL, 0)]);
    if !ok2 {
      return p2, [], 0;
    }
    p3, ok3 := LastPulse(dev, offset, log + ([Store(c, 2)] + p2), budget);
    stage := if ok3 then 2 else 1;
  }

  /** How a run of Sca::init ends after `stage` of its busy waits cleared,
      with polls `p1`, `p2`, `p3`, writing CONTROL at address `c`. */
  ghost predicate InitShape(r: Run, c: int, offset: int, budget: nat,
                            p1: seq<Access>, p2: seq<Access>, p3: seq<Access>, stage: nat)
  {
      && stage <= 3
      && (stage >= 1 ==> ClearedPolls(p1, offset))
      && (stage >= 2 ==> ClearedPolls(p2, offset))
      && (stage == 3 ==> ClearedPolls(p3, offset))
      && (stage == 0 ==> |p1| == budget && StuckPolls(p1, offset) && r == Run([Store(c, 1)] + p1, Err(BusyTimeout)))
      && (stage == 1 ==> |p2| == budget && StuckPolls(p2, offset)
                         && r == Run([Store(c, 1)] + p1 + ([Store(c, 2)] + p2), Err(BusyTimeout)))
      && (stage == 2 ==> |p3| == budget && StuckPolls(p3, offset)
                         && r == Run([Store(c, 1)] + p1 + ([Store(c, 2)] + p2 + ([Store(c, 1)] + p3)), Err(BusyTimeout)))
      && (stage == 3 ==>
            r == Run([Store(c, 1)] + p1 + ([Store(c, 2)] + p2 + ([Store(c, 1)] + p3 + [Store(c, 0)])), Ok([])))
  }

  /** The run of Sca::init, stage by stage: `stage` busy waits cleared
      before the run ended, with polls `p1`, `p2`, `p3`. */
  lemma InitStages(dev: Responder, offset: int, log: seq<Access>, budget: nat)
    returns (p1: seq<Access>, p2: seq<Access>, p3: seq<Access>, stage: nat)
    ensures InitShape(Exec(dev, offset, log, InitProgram(budget)), CONTROL + offset, offset, budget, p1, p2, p3, stage)
  {
    var c := CONTROL + offset;
    var rest := [Poke(CONTROL, 2), AwaitNotBusy(budget)] + ([Poke(CONTROL, 1), AwaitNotBusy(budget)] + [Poke(CONTROL, 0)]);
    assert InitProgram(budget) == [Poke(CONTROL, 1), AwaitNotBusy(budget)] + rest;
    var ok1, later;
    p1, ok1 := PulseThen(dev, offset, log, 1, budget, rest);
    if !ok1 {
      return p1, [], [], 0;
    }
    p2, p3, later := LastTwoPulses(dev, offset, log + ([Store(c, 1)] + p1), budget);
    stage := later + 1;
  }

  /** What an InitShape run says about the accesses of init; each branch
      names the split of the trace it rests on. */
  lemma InitShapeMeaning(r: Run, c: int, offset: int, budget: nat,
                         p1: seq<Access>, p2: seq<Access>, p3: seq<Access>, stage: nat)
    requires InitShape(r, c, offset, budget, p1, p2, p3, stage)
    ensures
      && (r.result.Ok? ==>
            exists q1 :: ClearedPolls(q1, offset) && (
              exists q2 :: ClearedPolls(q2, offset) && (
                exists q3 :: ClearedPolls(q3, offset) && (
                  r.trace == [Store(c, 1)] + q1 + [Store(c, 2)] + q2 + [Store(c, 1)] + q3 + [Store(c, 0)]))))
      && (r.result.Err? ==>
            && |r.trace| > budget
            && (r.trace[|r.trace| - budget - 1] == Store(c, 1) || r.trace[|r.trace| - budget - 1] == Store(c, 2))
            && StuckPolls(r.trace[|r.trace| - budget..], offset))
  {
    var t1, t2 := [Store(c, 1)] + p1, [Store(c, 2)] + p2;
    if stage == 0 {
      TimeoutTail([], Store(c, 1), p1, offset, budget);
    } else if stage == 1 {
      AppendAssociative(t1, [Store(c, 2)], p2);
      TimeoutTail(t1, Store(c, 2), p2, offset, budget);
    } else if stage == 2 {
      AppendAssociative(t1, t2, [Store(c, 1)] + p3);
      AppendAssociative(t1 + t2, [Store(c, 1)], p3);
      TimeoutTail(t1 + t2, Store(c, 1), p3, offset, budget);
    } else {
      assert t1 + (t2 + ([Store(c, 1)] + p3 + [Store(c, 0)]))
          == [Store(c, 1)] + p1 + [Store(c, 2)] + p2 + [Store(c, 1)] + p3 + [Store(c, 0)];
    }
  }

  /** Sca::init waits for BUSY to clear after each of its first three writes
      of CONTROL; a wait that never sees it clear ends init right there. */
  lemma InitWaits(dev: Responder, offset: int, log: seq<Access>, budget: nat)
    ensures var r := Exec(dev, offset, log, InitProgram(budget));
      var c := CONTROL + offset;
      && (r.result.Ok? ==>
            exists q1 :: ClearedPolls(q1, offset) && (
              exists q2 :: ClearedPolls(q2, offset) && (
                exists q3 :: ClearedPolls(q3, offset) && (
                  r.trace == [Store(c, 1)] + q1 + [Store(c, 2)] + q2 + [Store(c, 1)] + q3 + [Store(c, 0)]))))
      && (r.result.Err? ==>
            && |r.trace| > budget
            && (r.trace[|r.trace| - budget - 1] == Store(c, 1) || r.trace[|r.trace| - budget - 1] == Store(c, 2))
            && StuckPolls(r.trace[|r.trace| - budget..], offset))
  {
    var p1, p2, p3, stage := InitStages(dev, offset, log, budget);
    InitShapeMeaning(Exec(dev, offset, log, InitProgram(budget)), CONTROL + offset, offset, budget, p1, p2, p3, stage);
  }

  /** Sca::init writes CONTROL with 1, 2, 1 and 0 in that order and nothing
      else, sends no command and fetches nothing; a busy timeout stops it
      before CONTROL is written 0. */
  lemma InitPulsesControl(dev: Responder, offset: int, log: seq<Access>, budget: nat)
    ensures var r := Exec(dev, offset, log, InitProgram(budget));
      var c := CONTROL + offset;
      && Events(r.trace, offset) == []
      && (r.result.Ok? ==>
            Writes(r.trace) == [(c, 1), (c, 2), (c, 1), (c, 0)] && Last(r.trace) == Store(c, 0))
      && (r.result.Err? ==>
            r.result.error == BusyTimeout && Writes(r.trace) < [(c, 1), (c, 2), (c, 1), (c, 0)])
  {
    InitSilent(dev, offset, log, budget);
    InitStops(dev, offset, log, budget);
    var r := Exec(dev, offset, log, InitProgram(budget));
    if r.result.Ok? {
      InitSplit(dev, offset, log, budget);
      ExecWrites(dev, offset, log, InitProgram(budget));
      InitPokes(offset, budget);
    }
  }

  ghost predicate AllPokes(p: Program)
  {
    forall k :: 0 <= k < |p| ==> p[k].Poke?
  }

  /** The register writes of a program made only of writes. */
  function StoresOf(p: Program, offset: int): (stores: seq<Access>)
    requires AllPokes(p)
  {
    seq(|p|, k requires 0 <= k < |p| => Store(p[k].register + offset, p[k].value))
  }

  /** A program made only of writes cannot fail and performs exactly its
      writes, in order. */
  lemma {:induction false} ExecStores(dev: Responder, offset: int, log: seq<Access>, p: Program)
    requires AllPokes(p)
    ensures Exec(dev, offset, log, p) == Run(StoresOf(p, offset), Ok([]))
    decreases |p|
  {
    if p != [] {
      var first := StepRun(dev, offset, log, p[0]);
      assert AllPokes(p[1..]) by {
        assert forall k :: 0 <= k < |p[1..]| ==> p[1..][k] == p[k + 1];
      }
      ExecStores(dev, offset, log + first.trace, p[1..]);
      assert first == Run([Store(p[0].register + offset, p[0].value)], Ok([]));
      assert StoresOf(p, offset) == first.trace + StoresOf(p[1..], offset);
      assert first.result.value + [] == [];
    }
  }

  lemma WriteCommandPrefix(dev: Responder, offset: int, log: seq<Access>, command: Word, data: Word)
    ensures var pokes := [Poke(WRITE_DATA, data), Poke(WRITE_COMMAND, command), Poke(CONTROL, 4), Poke(CONTROL, 0)];
      Exec(dev, offset, log, pokes)
      == Run([Store(WRITE_DATA + offset, data), Store(WRITE_COMMAND + offset, command),
              Store(CONTROL + offset, 4), Store(CONTROL + offset, 0)], Ok([]))
  {
    var pokes := [Poke(WRITE_DATA, data), Poke(WRITE_COMMAND, command), Poke(CONTROL, 4), Poke(CONTROL, 0)];
    ExecStores(dev, offset, log, pokes);
  }

  /** Sca::write stores the data word, then the command word, then pulses
      CONTROL with 4 and 0, then only polls BUSY; it fails only when all
      budget polls read non-zero. */
  lemma WriteStoresDataThenCommand(dev: Responder, offset: int, log: seq<Access>, command: Word, data: Word, budget: nat)
    ensures var r := Exec(dev, offset, log, WriteProgram(command, data, budget));
      && |r.trace| >= 4
      && r.trace[..4] == [Store(WRITE_DATA + offset, data), Store(WRITE_COMMAND + offset, command),
                          Store(CONTROL + offset, 4), Store(CONTROL + offset, 0)]
      && (forall k :: 4 <= k < |r.trace| ==> r.trace[k].Load? && r.trace[k].index == BUSY + offset)
      && (r.result.Ok? <==> |r.trace| > 4 && Last(r.trace).value == 0)
      && (r.result.Err? ==> r.result == Err(BusyTimeout) && |r.trace| == 4 + budget)
  {
    var pulse := [Store(WRITE_DATA + offset, data), Store(WRITE_COMMAND + offset, command),
                  Store(CONTROL + offset, 4), Store(CONTROL + offset, 0)];
    var pokes := [Poke(WRITE_DATA, data), Poke(WRITE_COMMAND, command), Poke(CONTROL, 4), Poke(CONTROL, 0)];
    assert WriteProgram(command, data, budget) == pokes + [AwaitNotBusy(budget)];
    ExecAppend(dev, offset, log, pokes, [AwaitNotBusy(budget)]);
    WriteCommandPrefix(dev, offset, log, command, data);
    ExecSingle(dev, offset, log + pulse, AwaitNotBusy(budget));
    var w := BusyWait(dev, offset, log + pulse, budget);
    BusyWaitPolls(dev, offset, log + pulse, budget);
    var r := Exec(dev, offset, log, WriteProgram(command, data, budget));
    assert r.trace == pulse + w.trace;
    assert r.trace[..4] == pulse;
    assert forall k :: 4 <= k < |r.trace| ==> r.trace[k] == w.trace[k - 4];
  }

  /** A BUSY register that never reads zero makes Sca::write time out after
      exactly budget polls. */
  lemma WriteTimesOut(dev: Responder, offset: int, log: seq<Access>, command: Word, data: Word, budget: nat)
    requires forall h :: BusyValue(dev, offset, h) != 0
    ensures var r := Exec(dev, offset, log, WriteProgram(command, data, budget));
      r.result == Err(BusyTimeout) && |r.trace| == 4 + budget
  {
    var pulse := [Store(WRITE_DATA + offset, data), Store(WRITE_COMMAND + offset, command),
                  Store(CONTROL + offset, 4), Store(CONTROL + offset, 0)];
    var pokes := [Poke(WRITE_DATA, data), Poke(WRITE_COMMAND, command), Poke(CONTROL, 4), Poke(CONTROL, 0)];
    assert WriteProgram(command, data, budget) == pokes + [AwaitNotBusy(budget)];
    ExecAppend(dev, offset, log, pokes, [AwaitNotBusy(budget)]);
    WriteCommandPrefix(dev, offset, log, command, data);
    ExecSingle(dev, offset, log + pulse, AwaitNotBusy(budget));
    BusyWaitNeverClears(dev, offset, log + pulse, budget);
  }

  /** Sca::read reads READ_DATA once, then READ_COMMAND once, writes nothing,
      and fails exactly when the command word carries an error flag. */
  lemma ReadFetchesDataThenCommand(dev: Responder, offset: int, log: seq<Access>)
    ensures var r := Exec(dev, offset, log, READ);
      && |r.trace| == 2
      && r.trace[0] == Load(READ_DATA + offset, dev(log, READ_DATA + offset))
      && r.trace[1] == Load(READ_COMMAND + offset, dev(log + [r.trace[0]], READ_COMMAND + offset))
      && (r.result.Ok? <==> ErrorFlags(r.trace[1].value) == [])
      && (r.result.Ok? ==> r.result.value == [ReadResult(r.trace[1].value, r.trace[0].value)])
      && (r.result.Err? ==>
            r.result.error == ScaException(ErrorCode(r.trace[1].value), ErrorFlags(r.trace[1].value)))
  {
    ExecSingle(dev, offset, log, Fetch);
  }

  lemma GpioEnableEvents(budget: nat)
    ensures ProgramEvents(GpioEnableProgram(budget))
         == [Data(0xff000000), Command(0x00010002), Response,
             Data(0xff000000), Command(0x00020003), Response,
             Data(0xffffffff), Command(0x02030020),
             Data(0x0), Command(0x02040021), Response]
  {
    var w1, w2, w3, w4 := WriteProgram(0x00010002, 0xff000000, budget), WriteProgram(0x00020003, 0xff000000, budget),
                          WriteProgram(0x02030020, 0xffffffff, budget), WriteProgram(0x02040021, 0x0, budget);
    WriteProgramEvents(0x00010002, 0xff000000, budget);
    WriteProgramEvents(0x00020003, 0xff000000, budget);
    WriteProgramEvents(0x02030020, 0xffffffff, budget);
    WriteProgramEvents(0x02040021, 0x0, budget);
    ReadEvents();
    ProgramEventsAppend(w4, READ);
    ProgramEventsAppend(w3, w4 + READ);
    ProgramEventsAppend(READ, w3 + (w4 + READ));
    ProgramEventsAppend(w2, READ + (w3 + (w4 + READ)));
    ProgramEventsAppend(READ, w2 + (READ + (w3 + (w4 + READ))));
    ProgramEventsAppend(w1, READ + (w2 + (READ + (w3 + (w4 + READ)))));
  }

  /** Sca::gpioEnable sends four commands but fetches only three responses:
      the 0x02030020 command has no read after it. */
  lemma GpioEnableTraffic(dev: Responder, offset: int, log: seq<Access>, budget: nat)
    ensures var r := Exec(dev, offset, log, GpioEnableProgram(budget));
      var expected := [Data(0xff000000), Command(0x00010002), Response,
                       Data(0xff000000), Command(0x00020003), Response,
                       Data(0xffffffff), Command(0x02030020),
                       Data(0x0), Command(0x02040021), Response];
      && Events(r.trace, offset) <= expected
      && (r.result.Ok? ==> Events(r.trace, offset) == expected)
  {
    GpioEnableEvents(budget);
    ExecEvents(dev, offset, log, GpioEnableProgram(budget));
  }

  /** Sca::gpioRead sends one command, fetches one response and returns it. */
  lemma GpioReadTraffic(dev: Responder, offset: int, log: seq<Access>, budget: nat)
    ensures var r := Exec(dev, offset, log, GpioReadProgram(budget));
      && Events(r.trace, offset) <= [Data(0x0), Command(0x02050011), Response]
      && (r.result.Ok? ==>
            && Events(r.trace, offset) == [Data(0x0), Command(0x02050011), Response]
            && |r.trace| >= 2 && |r.result.value| > 0
            && r.trace[|r.trace| - 1].Load? && r.trace[|r.trace| - 1].index == READ_COMMAND + offset
            && Last(r.result.value) == ReadResult(r.trace[|r.trace| - 1].value, r.trace[|r.trace| - 2].value))
  {
    WriteProgramEvents(0x02050011, 0x0, budget);
    ReadEvents();
    ProgramEventsAppend(WriteProgram(0x02050011, 0x0, budget), READ);
    ExecEvents(dev, offset, log, GpioReadProgram(budget));
    ExecEndsWithFetch(dev, offset, log, WriteProgram(0x02050011, 0x0, budget));
  }

  /** Sca::gpioWrite re-runs the whole initialisation: a successful run
      starts by pulsing CONTROL with 1, 2, 1 and 0. */
  lemma GpioWriteReinitialises(dev: Responder, offset: int, log: seq<Access>, data: Word, budget: nat)
    ensures var r := Exec(dev, offset, log, GpioWriteProgram(data, budget));
      var c := CONTROL + offset;
      r.result.Ok? ==> [(c, 1), (c, 2), (c, 1), (c, 0)] <= Writes(r.trace)
  {
    var r := Exec(dev, offset, log, GpioWriteProgram(data, budget));
    var init := Exec(dev, offset, log, InitProgram(budget));
    assert GpioWriteProgram(data, budget) == InitProgram(budget) + (GpioEnableProgram(budget) + GpioWriteTail(data, budget));
    ExecAppend(dev, offset, log, InitProgram(budget), GpioEnableProgram(budget) + GpioWriteTail(data, budget));
    if r.result.Ok? {
      InitPulsesControl(dev, offset, log, budget);
      var rest := r.trace[|init.trace|..];
      assert r.trace == init.trace + rest;
      WritesAppend(init.trace, rest);
    }
  }

  lemma GpioWriteTailEvents(data: Word, budget: nat)
    ensures ProgramEvents(GpioWriteTail(data, budget))
         == [Data(data), Command(0x02040010), Data(0x0), Command(0x02050011), Response,
             Data(0x0), Command(0x02060001), Response]
  {
    var w1, w2, w3 := WriteProgram(0x02040010, data, budget), WriteProgram(0x02050011, 0x0, budget),
                      WriteProgram(0x02060001, 0x0, budget);
    WriteProgramEvents(0x02040010, data, budget);
    WriteProgramEvents(0x02050011, 0x0, budget);
    WriteProgramEvents(0x02060001, 0x0, budget);
    ReadEvents();
    ProgramEventsAppend(w3, READ);
    ProgramEventsAppend(READ, w3 + READ);
    ProgramEventsAppend(w2, READ + (w3 + READ));
    ProgramEventsAppend(w1, w2 + (READ + (w3 + READ)));
  }

  /** After the initialisation traffic, Sca::gpioWrite sends the output
      data, reads it back, asks for the input register and fetches it. */
  lemma GpioWriteTraffic(dev: Responder, offset: int, log: seq<Access>, data: Word, budget: nat)
    ensures var r := Exec(dev, offset, log, GpioWriteProgram(data, budget));
      r.result.Ok? ==>
        Events(r.trace, offset)
        == ProgramEvents(GpioEnableProgram(budget))
           + [Data(data), Command(0x02040010), Data(0x0), Command(0x02050011), Response,
              Data(0x0), Command(0x02060001), Response]
  {
    ExecEvents(dev, offset, log, GpioWriteProgram(data, budget));
    GpioWriteTailEvents(data, budget);
    InitEvents(budget);
    ProgramEventsAppend(InitProgram(budget), GpioEnableProgram(budget));
    ProgramEventsAppend(InitializeProgram(budget), GpioWriteTail(data, budget));
  }

  /** Sca::gpioWrite returns the response of its last read. */
  lemma GpioWriteReturnsLastRead(dev: Responder, offset: int, log: seq<Access>, data: Word, budget: nat)
    ensures var r := Exec(dev, offset, log, GpioWriteProgram(data, budget));
      r.result.Ok? ==>
        && |r.trace| >= 2 && |r.result.value| > 0
        && r.trace[|r.trace| - 1].Load? && r.trace[|r.trace| - 1].index == READ_COMMAND + offset
        && Last(r.result.value) == ReadResult(r.trace[|r.trace| - 1].value, r.trace[|r.trace| - 2].value)
  {
    var front := InitializeProgram(budget) + WriteProgram(0x02040010, data, budget) + WriteProgram(0x02050011, 0x0, budget)
                 + READ + WriteProgram(0x02060001, 0x0, budget);
    assert GpioWriteProgram(data, budget) == front + READ;
    ExecEndsWithFetch(dev, offset, log, front);
  }

  // ---------------------------------------------------------------------------
  // The engine

  /** `run`, after the accesses `trace` that could not fail. */
  function Prepend(trace: seq<Access>, run: Run): Run
  {
    Run(trace + run.trace, run.result)
  }

  /** One poll of a busy wait with budget left. */
  lemma BusyWaitStep(dev: Responder, offset: int, log: seq<Access>, budget: nat)
    requires budget > 0
    ensures var poll := Load(BUSY + offset, BusyValue(dev, offset, log));
      BusyWait(dev, offset, log, budget)
      == if poll.value == 0 then Run([poll], Ok([]))
         else Prepend([poll], BusyWait(dev, offset, log + [poll], budget - 1))
  {
  }

  /** `polls` are the reads of BUSY a wait from `log` makes, in order, none
      of them zero. */
  ghost predicate FailedPolls(dev: Responder, offset: int, log: seq<Access>, polls: seq<Access>)
  {
    forall k :: 0 <= k < |polls| ==>
      polls[k] == Load(BUSY + offset, BusyValue(dev, offset, log + polls[..k])) && polls[k].value != 0
  }

  /** A busy wait that has seen the non-zero polls `polls` goes on from
      where they leave the log. */
  lemma {:induction false} BusyWaitAfter(dev: Responder, offset: int, log: seq<Access>, polls: seq<Access>, budget: nat)
    requires |polls| <= budget && FailedPolls(dev, offset, log, polls)
    ensures BusyWait(dev, offset, log, budget)
         == Prepend(polls, BusyWait(dev, offset, log + polls, budget - |polls|))
    decreases |polls|
  {
    if polls == [] {
      assert log + [] == log;
    } else {
      var poll := polls[0];
      assert polls[..0] == [] && log + [] == log;
      var rest := polls[1..];
      assert FailedPolls(dev, offset, log + [poll], rest) by {
        forall k | 0 <= k < |rest|
          ensures rest[k] == Load(BUSY + offset, BusyValue(dev, offset, log + [poll] + rest[..k])) && rest[k].value != 0
        {
          assert rest[k] == polls[k + 1];
          assert log + [poll] + rest[..k] == log + polls[..k + 1];
        }
      }
      BusyWaitAfter(dev, offset, log + [poll], rest, budget - 1);
      AppendAssociative(log, [poll], rest);
      assert polls == [poll] + rest;
      var tail := BusyWait(dev, offset, log + polls, budget - |polls|);
      BusyWaitStep(dev, offset, log, budget);
      AppendAssociative([poll], rest, tail.trace);
    }
  }

  /** One more non-zero poll. */
  lemma FailedPollsExtend(dev: Responder, offset: int, log: seq<Access>, polls: seq<Access>, poll: Access)
    requires FailedPolls(dev, offset, log, polls)
    requires poll == Load(BUSY + offset, BusyValue(dev, offset, log + polls)) && poll.value != 0
    ensures FailedPolls(dev, offset, log, polls + [poll])
  {
    var next := polls + [poll];
    forall k | 0 <= k < |next|
      ensures next[k] == Load(BUSY + offset, BusyValue(dev, offset, log + next[..k])) && next[k].value != 0
    {
      if k < |polls| {
        assert next[..k] == polls[..k];
      } else {
        assert next[..k] == polls;
      }
    }
  }

  /** Writes that cannot fail, followed by `q`. */
  lemma ExecPokesThen(dev: Responder, offset: int, log: seq<Access>, p: Program, q: Program)
    requires AllPokes(p)
    ensures Exec(dev, offset, log, p + q)
         == Prepend(StoresOf(p, offset), Exec(dev, offset, log + StoresOf(p, offset), q))
  {
    ExecAppend(dev, offset, log, p, q);
    ExecStores(dev, offset, log, p);
    var rest := Exec(dev, offset, log + StoresOf(p, offset), q);
    if rest.result.Ok? {
      assert [] + rest.result.value == rest.result.value;
    }
  }

  lemma ExecuteCommandRun(dev: Responder, offset: int, log: seq<Access>, budget: nat)
    ensures var pulse := [Store(CONTROL + offset, 4), Store(CONTROL + offset, 0)];
      Exec(dev, offset, log, ExecuteCommandProgram(budget))
      == Prepend(pulse, BusyWait(dev, offset, log + pulse, budget))
  {
    var pokes := [Poke(CONTROL, 4), Poke(CONTROL, 0)];
    assert ExecuteCommandProgram(budget) == pokes + [AwaitNotBusy(budget)];
    assert AllPokes(pokes);
    assert StoresOf(pokes, offset) == [Store(CONTROL + offset, 4), Store(CONTROL + offset, 0)];
    ExecPokesThen(dev, offset, log, pokes, [AwaitNotBusy(budget)]);
    ExecSingle(dev, offset, log + StoresOf(pokes, offset), AwaitNotBusy(budget));
  }

  lemma WriteRun(dev: Responder, offset: int, log: seq<Access>, command: Word, data: Word, budget: nat)
    ensures var stores := [Store(WRITE_DATA + offset, data), Store(WRITE_COMMAND + offset, command)];
      Exec(dev, offset, log, WriteProgram(command, data, budget))
      == Prepend(stores, Exec(dev, offset, log + stores, ExecuteCommandProgram(budget)))
  {
    var pokes := [Poke(WRITE_DATA, data), Poke(WRITE_COMMAND, command)];
    assert AllPokes(pokes);
    assert StoresOf(pokes, offset) == [Store(WRITE_DATA + offset, data), Store(WRITE_COMMAND + offset, command)];
    ExecPokesThen(dev, offset, log, pokes, ExecuteCommandProgram(budget));
  }

  /** Running `part + rest` after `done`. */
  lemma ChainAppend(dev: Responder, offset: int, log: seq<Access>, done: Run, part: Program, rest: Program)
    ensures var next := Exec(dev, offset, log, part);
      Chain(done, Exec(dev, offset, log, part + rest))
      == Chain(Chain(done, next), Exec(dev, offset, log + next.trace, rest))
  {
    var next := Exec(dev, offset, log, part);
    ExecAppend(dev, offset, log, part, rest);
    ChainAssociative(done, next, Exec(dev, offset, log + next.trace, rest));
  }

  /** The program made of `parts`, one after the other. */
  function Flatten(parts: seq<Program>): Program
  {
    if parts == [] then [] else parts[0] + Flatten(parts[1..])
  }

  /** The run of the first k parts, one after the other, from `log`. */
  function RunParts(dev: Responder, offset: int, log: seq<Access>, parts: seq<Program>, k: nat): Run
    requires k <= |parts|
  {
    if k == 0 then Run([], Ok([]))
    else
      var done := RunParts(dev, offset, log, parts, k - 1);
      Chain(done, Exec(dev, offset, log + done.trace, parts[k - 1]))
  }

  lemma FlattenAt(parts: seq<Program>, k: nat)
    requires k < |parts|
    ensures Flatten(parts[k..]) == parts[k] + Flatten(parts[k + 1..])
  {
    assert parts[k..][0] == parts[k] && parts[k..][1..] == parts[k + 1..];
  }

  /** Running `part + rest` after `done`, from the log `done` left. */
  lemma ChainNext(dev: Responder, offset: int, log: seq<Access>, done: Run, part: Program, rest: Program)
    ensures var after := Chain(done, Exec(dev, offset, log + done.trace, part));
      Chain(done, Exec(dev, offset, log + done.trace, part + rest))
      == Chain(after, Exec(dev, offset, log + after.trace, rest))
  {
    if done.result.Ok? {
      var next := Exec(dev, offset, log + done.trace, part);
      ChainAppend(dev, offset, log + done.trace, done, part, rest);
      assert log + done.trace + next.trace == log + Chain(done, next).trace;
    }
  }

  /** Running the first k parts, then the rest, is running all of them. */
  lemma {:induction false} RunPartsThenRest(dev: Responder, offset: int, log: seq<Access>, parts: seq<Program>, k: nat)
    requires k <= |parts|
    ensures var done := RunParts(dev, offset, log, parts, k);
      Exec(dev, offset, log, Flatten(parts))
      == Chain(done, Exec(dev, offset, log + done.trace, Flatten(parts[k..])))
    decreases k
  {
    if k == 0 {
      assert parts[0..] == parts && log + [] == log;
      ChainUnit(Exec(dev, offset, log, Flatten(parts)));
    } else {
      RunPartsThenRest(dev, offset, log, parts, k - 1);
      FlattenAt(parts, k - 1);
      ChainNext(dev, offset, log, RunParts(dev, offset, log, parts, k - 1), parts[k - 1], Flatten(parts[k..]));
    }
  }

  lemma AppendAssociative<T>(a: seq<T>, b: seq<T>, c: seq<T>)
    ensures a + b + c == a + (b + c)
  {
  }

  /** A part that completes, run after parts that succeeded: the log and the
      outcome of the first k + 1 parts. */
  lemma AdvanceCompleted(dev: Responder, offset: int, log: seq<Access>, parts: seq<Program>, k: nat, part: Program,
                         before: seq<Access>, after: seq<Access>, r: Result<(), ScaError>)
    requires k < |parts| && parts[k] == part && RunParts(dev, offset, log, parts, k).result.Ok?
    requires before == log + RunParts(dev, offset, log, parts, k).trace
    requires var next := Exec(dev, offset, before, part);
      after == before + next.trace && Completed(next, r)
    ensures after == log + RunParts(dev, offset, log, parts, k + 1).trace
    ensures Completed(RunParts(dev, offset, log, parts, k + 1), r)
  {
    var done := RunParts(dev, offset, log, parts, k);
    var next := Exec(dev, offset, before, part);
    assert RunParts(dev, offset, log, parts, k + 1) == Chain(done, next);
    ChainCompleted(done, next, r);
    AppendAssociative(log, done.trace, next.trace);
  }

  /** A single register write, run after parts that succeeded. */
  lemma AdvancePoke(dev: Responder, offset: int, log: seq<Access>, parts: seq<Program>, k: nat,
                    register: int, value: Word, before: seq<Access>, after: seq<Access>)
    requires k < |parts| && parts[k] == [Poke(register, value)] && RunParts(dev, offset, log, parts, k).result.Ok?
    requires before == log + RunParts(dev, offset, log, parts, k).trace
    requires after == before + [Store(register + offset, value)]
    ensures after == log + RunParts(dev, offset, log, parts, k + 1).trace
    ensures RunParts(dev, offset, log, parts, k + 1).result.Ok?
  {
    PokeRun(dev, offset, before, register, value);
    AdvanceCompleted(dev, offset, log, parts, k, [Poke(register, value)], before, after, Ok(()));
  }

  /** A part that returns a response, run after parts that succeeded. */
  lemma AdvanceReturned(dev: Responder, offset: int, log: seq<Access>, parts: seq<Program>, k: nat, part: Program,
                        before: seq<Access>, after: seq<Access>, r: Result<ReadResult, ScaError>)
    requires k < |parts| && parts[k] == part && RunParts(dev, offset, log, parts, k).result.Ok?
    requires before == log + RunParts(dev, offset, log, parts, k).trace
    requires var next := Exec(dev, offset, before, part);
      after == before + next.trace && Returned(next, r)
    ensures after == log + RunParts(dev, offset, log, parts, k + 1).trace
    ensures Returned(RunParts(dev, offset, log, parts, k + 1), r)
  {
    var done := RunParts(dev, offset, log, parts, k);
    var next := Exec(dev, offset, before, part);
    assert RunParts(dev, offset, log, parts, k + 1) == Chain(done, next);
    ChainReturned(done, next, r);
    AppendAssociative(log, done.trace, next.trace);
  }

  /** A run of parts that has used them all, or has failed, is the run of
      the whole program. */
  lemma ExecByParts(dev: Responder, offset: int, log: seq<Access>, parts: seq<Program>, k: nat, program: Program)
    requires Flatten(parts) == program && k <= |parts|
    requires k == |parts| || RunParts(dev, offset, log, parts, k).result.Err?
    ensures Exec(dev, offset, log, program) == RunParts(dev, offset, log, parts, k)
  {
    RunPartsThenRest(dev, offset, log, parts, k);
    var done := RunParts(dev, offset, log, parts, k);
    if k == |parts| {
      assert parts[k..] == [];
      if done.result.Ok? {
        assert done.trace + [] == done.trace;
        assert done.result.value + [] == done.result.value;
      }
    }
  }


  /** How a run that returns nothing reports its outcome. */
  ghost predicate Completed(run: Run, r: Result<(), ScaError>)
  {
    if run.result.Ok? then r == Ok(()) else r == Err(run.result.error)
  }

  /** How a run that returns the last response reports its outcome. */
  ghost predicate Returned(run: Run, r: Result<ReadResult, ScaError>)
  {
    if run.result.Ok? then |run.result.value| > 0 && r == Ok(Last(run.result.value))
    else r == Err(run.result.error)
  }

  /** The outcome of a program run part by part, once the parts are used up
      or one of them has failed. */
  lemma FinishCompleted(dev: Responder, offset: int, log: seq<Access>, parts: seq<Program>, k: nat,
                        program: Program, after: seq<Access>, r: Result<(), ScaError>)
    requires Flatten(parts) == program && k <= |parts|
    requires k == |parts| || RunParts(dev, offset, log, parts, k).result.Err?
    requires after == log + RunParts(dev, offset, log, parts, k).trace
    requires Completed(RunParts(dev, offset, log, parts, k), r)
    ensures after == log + Exec(dev, offset, log, program).trace
    ensures Completed(Exec(dev, offset, log, program), r)
  {
    ExecByParts(dev, offset, log, parts, k, program);
  }

  lemma FinishReturned(dev: Responder, offset: int, log: seq<Access>, parts: seq<Program>, k: nat,
                       program: Program, after: seq<Access>, r: Result<ReadResult, ScaError>)
    requires Flatten(parts) == program && k <= |parts|
    requires k == |parts| || RunParts(dev, offset, log, parts, k).result.Err?
    requires after == log + RunParts(dev, offset, log, parts, k).trace
    requires Returned(RunParts(dev, offset, log, parts, k), r)
    ensures after == log + Exec(dev, offset, log, program).trace
    ensures Returned(Exec(dev, offset, log, program), r)
  {
    ExecByParts(dev, offset, log, parts, k, program);
  }

  /** A part that completes after parts that succeeded. */
  lemma ChainCompleted(done: Run, next: Run, r: Result<(), ScaError>)
    requires done.result.Ok? && Completed(next, r)
    ensures Chain(done, next).trace == done.trace + next.trace
    ensures Completed(Chain(done, next), r)
  {
  }

  /** A part that returns a response after parts that succeeded. */
  lemma ChainReturned(done: Run, next: Run, r: Result<ReadResult, ScaError>)
    requires done.result.Ok? && Returned(next, r)
    ensures Chain(done, next).trace == done.trace + next.trace
    ensures Returned(Chain(done, next), r)
  {
    if next.result.Ok? {
      var all := done.result.value + next.result.value;
      assert all[|all| - 1] == next.result.value[|next.result.value| - 1];
    }
  }

  /** Sca: the SCA operations over the BAR 2 register window. A failure that
      the C++ code throws as ScaException is returned as an Err. */
  class Sca {
    const bar2: RegisterBar
    const offset: int
    /** How many times a busy wait polls BUSY before it gives up. */
    const maxBusyIterations: nat

    constructor (bar2: RegisterBar, cardType: CardType)
      ensures this.bar2 == bar2 && offset == OffsetFor(cardType)
      ensures maxBusyIterations == MAX_BUSY_ITERATIONS
    {
      this.bar2 := bar2;
      offset := if cardType == Crorc then OFFSET_CRORC
                else if cardType == Cru then OFFSET_CRU
                else OFFSET_OTHER;
      maxBusyIterations := MAX_BUSY_ITERATIONS;
    }

    /** The run of `program` from the register log `log`. */
    ghost function Spec(log: seq<Access>, program: Program): Run
    {
      Exec(bar2.respond, offset, log, program)
    }

    method BarWrite(index: int, data: Word)
      modifies bar2
      ensures bar2.log == old(bar2.log) + [Store(index + offset, data)]
    {
      bar2.WriteRegister(index + offset, data);
    }

    method BarRead(index: int) returns (data: Word)
      modifies bar2
      ensures data == bar2.respond(old(bar2.log), index + offset)
      ensures bar2.log == old(bar2.log) + [Load(index + offset, data)]
    {
      data := bar2.ReadRegister(index + offset);
    }

    method WaitOnBusyClear() returns (r: Result<(), ScaError>)
      modifies bar2
      ensures var run := Spec(old(bar2.log), [AwaitNotBusy(maxBusyIterations)]);
        bar2.log == old(bar2.log) + run.trace && Completed(run, r)
    {
      ghost var dev, log0 := bar2.respond, bar2.log;
      ghost var polls: seq<Access> := [];
      AwaitRun(dev, offset, log0, maxBusyIterations);
      for i := 0 to maxBusyIterations
        invariant |polls| == i && bar2.log == log0 + polls
        invariant FailedPolls(dev, offset, log0, polls)
      {
        var busy := BarRead(BUSY);
        ghost var poll := Load(BUSY + offset, busy);
        if busy == 0 {
          BusyWaitAfter(dev, offset, log0, polls, maxBusyIterations);
          BusyWaitStep(dev, offset, log0 + polls, maxBusyIterations - i);
          return Ok(());
        }
        FailedPollsExtend(dev, offset, log0, polls, poll);
        polls := polls + [poll];
      }
      BusyWaitAfter(dev, offset, log0, polls, maxBusyIterations);
      assert polls + [] == polls;
      return Err(BusyTimeout);
    }

    method ExecuteCommand() returns (r: Result<(), ScaError>)
      modifies bar2
      ensures var run := Spec(old(bar2.log), ExecuteCommandProgram(maxBusyIterations));
        bar2.log == old(bar2.log) + run.trace && Completed(run, r)
    {
      ghost var log0 := bar2.log;
      ghost var pulse := [Store(CONTROL + offset, 4), Store(CONTROL + offset, 0)];
      ExecuteCommandRun(bar2.respond, offset, log0, maxBusyIterations);
      BarWrite(CONTROL, 0x4);
      BarWrite(CONTROL, 0x0);
      assert bar2.log == log0 + pulse;
      AwaitRun(bar2.respond, offset, log0 + pulse, maxBusyIterations);
      r := WaitOnBusyClear();
      ghost var polls := BusyWait(bar2.respond, offset, log0 + pulse, maxBusyIterations).trace;
      AppendAssociative(log0, pulse, polls);
    }

    method Write(command: Word, data: Word) returns (r: Result<(), ScaError>)
      modifies bar2
      ensures var run := Spec(old(bar2.log), WriteProgram(command, data, maxBusyIterations));
        bar2.log == old(bar2.log) + run.trace && Completed(run, r)
    {
      ghost var log0 := bar2.log;
      ghost var stores := [Store(WRITE_DATA + offset, data), Store(WRITE_COMMAND + offset, command)];
      WriteRun(bar2.respond, offset, log0, command, data, maxBusyIterations);
      BarWrite(WRITE_DATA, data);
      BarWrite(WRITE_COMMAND, command);
      assert bar2.log == log0 + stores;
      r := ExecuteCommand();
      ghost var rest := Spec(log0 + stores, ExecuteCommandProgram(maxBusyIterations)).trace;
      AppendAssociative(log0, stores, rest);
    }

    /** Sca::checkError: which of flags 0 to 6 the low byte raises. */
    static method CheckError(command: Word) returns (r: Result<(), ScaError>)
      ensures r == ErrorCheck(command)
    {
      var errorCode := command & 0xff;
      var flags: seq<nat> := [];
      for flag := 0 to 7
        invariant flags == FlagsBelow(errorCode, flag)
      {
        if (errorCode >> flag) & 1 == 1 {
          flags := flags + [flag];
        }
      }
      if flags != [] {
        return Err(ScaException(errorCode, flags));
      }
      return Ok(());
    }

    method Read() returns (r: Result<ReadResult, ScaError>)
      modifies bar2
      ensures var run := Spec(old(bar2.log), READ);
        bar2.log == old(bar2.log) + run.trace && Returned(run, r)
    {
      ExecSingle(bar2.respond, offset, bar2.log, Fetch);
      var data := BarRead(READ_DATA);
      var command := BarRead(READ_COMMAND);
      for i := 0 to MAX_BUSY_ITERATIONS {
        if !IsChannelBusy(command) {
          break;
        }
      }
      var check := CheckError(command);
      if check.Err? {
        return Err(check.error);
      }
      return Ok(ReadResult(command, data));
    }

    method Init() returns (r: Result<(), ScaError>)
      modifies bar2
      ensures var run := Spec(old(bar2.log), InitProgram(maxBusyIterations));
        bar2.log == old(bar2.log) + run.trace && Completed(run, r)
    {
      ghost var dev, log0, parts, program := bar2.respond, bar2.log, InitParts(maxBusyIterations), InitProgram(maxBusyIterations);
      ghost var before := bar2.log;
      InitByParts(maxBusyIterations);
      assert log0 + RunParts(dev, offset, log0, parts, 0).trace == log0;

      before := bar2.log;
      BarWrite(CONTROL, 0x1);
      AdvancePoke(dev, offset, log0, parts, 0, CONTROL, 0x1, before, bar2.log);

      before := bar2.log;
      r := WaitOnBusyClear();
      AdvanceCompleted(dev, offset, log0, parts, 1, [AwaitNotBusy(maxBusyIterations)], before, bar2.log, r);
      if r.Err? {
        FinishCompleted(dev, offset, log0, parts, 2, program, bar2.log, r);
        return;
      }

      before := bar2.log;
      BarWrite(CONTROL, 0x2);
      AdvancePoke(dev, offset, log0, parts, 2, CONTROL, 0x2, before, bar2.log);

      before := bar2.log;
      r := WaitOnBusyClear();
      AdvanceCompleted(dev, offset, log0, parts, 3, [AwaitNotBusy(maxBusyIterations)], before, bar2.log, r);
      if r.Err? {
        FinishCompleted(dev, offset, log0, parts, 4, program, bar2.log, r);
        return;
      }

      before := bar2.log;
      BarWrite(CONTROL, 0x1);
      AdvancePoke(dev, offset, log0, parts, 4, CONTROL, 0x1, before, bar2.log);

      before := bar2.log;
      r := WaitOnBusyClear();
      AdvanceCompleted(dev, offset, log0, parts, 5, [AwaitNotBusy(maxBusyIterations)], before, bar2.log, r);
      if r.Err? {
        FinishCompleted(dev, offset, log0, parts, 6, program, bar2.log, r);
        return;
      }

      before := bar2.log;
      BarWrite(CONTROL, 0x0);
      AdvancePoke(dev, offset, log0, parts, 6, CONTROL, 0x0, before, bar2.log);

      r := Ok(());
      FinishCompleted(dev, offset, log0, parts, 7, program, bar2.log, r);
    }

    method GpioEnable() returns (r: Result<(), ScaError>)
      modifies bar2
      ensures var run := Spec(old(bar2.log), GpioEnableProgram(maxBusyIterations));
        bar2.log == old(bar2.log) + run.trace && Completed(run, r)
    {
      var response: Result<ReadResult, ScaError>;
      ghost var dev, log0, parts, program := bar2.respond, bar2.log, GpioEnableParts(maxBusyIterations), GpioEnableProgram(maxBusyIterations);
      ghost var before := bar2.log;
      GpioEnableByParts(maxBusyIterations);
      assert log0 + RunParts(dev, offset, log0, parts, 0).trace == log0;

      before := bar2.log;
      // WR CONTROL REG B
      r := Write(0x00010002, 0xff000000);
      AdvanceCompleted(dev, offset, log0, parts, 0, WriteProgram(0x00010002, 0xff000000, maxBusyIterations), before, bar2.log, r);
      if r.Err? {
        FinishCompleted(dev, offset, log0, parts, 1, program, bar2.log, r);
        return;
      }

      before := bar2.log;
      response := Read();
      AdvanceReturned(dev, offset, log0, parts, 1, READ, before, bar2.log, response);
      if response.Err? {
        r := Err(response.error);
        FinishCompleted(dev, offset, log0, parts, 2, program, bar2.log, r);
        return;
      }

      before := bar2.log;
      // RD CONTROL REG B
      r := Write(0x00020003, 0xff000000);
      AdvanceCompleted(dev, offset, log0, parts, 2, WriteProgram(0x00020003, 0xff000000, maxBusyIterations), before, bar2.log, r);
      if r.Err? {
        FinishCompleted(dev, offset, log0, parts, 3, program, bar2.log, r);
        return;
      }

      before := bar2.log;
      response := Read();
      AdvanceReturned(dev, offset, log0, parts, 3, READ, before, bar2.log, response);
      if response.Err? {
        r := Err(response.error);
        FinishCompleted(dev, offset, log0, parts, 4, program, bar2.log, r);
        return;
      }

      before := bar2.log;
      // WR GPIO DIR
      r := Write(0x02030020, 0xffffffff);
      AdvanceCompleted(dev, offset, log0, parts, 4, WriteProgram(0x02030020, 0xffffffff, maxBusyIterations), before, bar2.log, r);
      if r.Err? {
        FinishCompleted(dev, offset, log0, parts, 5, program, bar2.log, r);
        return;
      }

      before := bar2.log;
      // RD GPIO DIR
      r := Write(0x02040021, 0x0);
      AdvanceCompleted(dev, offset, log0, parts, 5, WriteProgram(0x02040021, 0x0, maxBusyIterations), before, bar2.log, r);
      if r.Err? {
        FinishCompleted(dev, offset, log0, parts, 6, program, bar2.log, r);
        return;
      }

      before := bar2.log;
      response := Read();
      AdvanceReturned(dev, offset, log0, parts, 6, READ, before, bar2.log, response);
      r := if response.Ok? then Ok(()) else Err(response.error);

      FinishCompleted(dev, offset, log0, parts, 7, program, bar2.log, r);
    }

    method Initialize() returns (r: Result<(), ScaError>)
      modifies bar2
      ensures var run := Spec(old(bar2.log), InitializeProgram(maxBusyIterations));
        bar2.log == old(bar2.log) + run.trace && Completed(run, r)
    {
      ghost var dev, log0, parts, program := bar2.respond, bar2.log, InitializeParts(maxBusyIterations), InitializeProgram(maxBusyIterations);
      ghost var before := bar2.log;
      InitializeByParts(maxBusyIterations);
      assert log0 + RunParts(dev, offset, log0, parts, 0).trace == log0;

      before := bar2.log;
      r := Init();
      AdvanceCompleted(dev, offset, log0, parts, 0, InitProgram(maxBusyIterations), before, bar2.log, r);
      if r.Err? {
        FinishCompleted(dev, offset, log0, parts, 1, program, bar2.log, r);
        return;
      }

      before := bar2.log;
      r := GpioEnable();
      AdvanceCompleted(dev, offset, log0, parts, 1, GpioEnableProgram(maxBusyIterations), before, bar2.log, r);

      FinishCompleted(dev, offset, log0, parts, 2, program, bar2.log, r);
    }

    method GpioWrite(data: Word) returns (r: Result<ReadResult, ScaError>)
      modifies bar2
      ensures var run := Spec(old(bar2.log), GpioWriteProgram(data, maxBusyIterations));
        bar2.log == old(bar2.log) + run.trace && Returned(run, r)
    {
      var done0: Result<(), ScaError>;
      ghost var dev, log0, parts, program := bar2.respond, bar2.log, GpioWriteParts(data, maxBusyIterations), GpioWriteProgram(data, maxBusyIterations);
      ghost var before := bar2.log;
      GpioWriteByParts(data, maxBusyIterations);
      assert log0 + RunParts(dev, offset, log0, parts, 0).trace == log0;

      before := bar2.log;
      done0 := Initialize();
      AdvanceCompleted(dev, offset, log0, parts, 0, InitializeProgram(maxBusyIterations), before, bar2.log, done0);
      if done0.Err? {
        r := Err(done0.error);
        FinishReturned(dev, offset, log0, parts, 1, program, bar2.log, r);
        return;
      }

      before := bar2.log;
      // WR REGISTER OUT DATA
      done0 := Write(0x02040010, data);
      AdvanceCompleted(dev, offset, log0, parts, 1, WriteProgram(0x02040010, data, maxBusyIterations), before, bar2.log, done0);
      if done0.Err? {
        r := Err(done0.error);
        FinishReturned(dev, offset, log0, parts, 2, program, bar2.log, r);
        return;
      }

      before := bar2.log;
      // RD DATA
      done0 := Write(0x02050011, 0x0);
      AdvanceCompleted(dev, offset, log0, parts, 2, WriteProgram(0x02050011, 0x0, maxBusyIterations), before, bar2.log, done0);
      if done0.Err? {
        r := Err(done0.error);
        FinishReturned(dev, offset, log0, parts, 3, program, bar2.log, r);
        return;
      }

      before := bar2.log;
      r := Read();
      AdvanceReturned(dev, offset, log0, parts, 3, READ, before, bar2.log, r);
      if r.Err? {
        FinishReturned(dev, offset, log0, parts, 4, program, bar2.log, r);
        return;
      }

      before := bar2.log;
      // RD REGISTER DATAIN
      done0 := Write(0x02060001, 0x0);
      AdvanceCompleted(dev, offset, log0, parts, 4, WriteProgram(0x02060001, 0x0, maxBusyIterations), before, bar2.log, done0);
      if done0.Err? {
        r := Err(done0.error);
        FinishReturned(dev, offset, log0, parts, 5, program, bar2.log, r);
        return;
      }

      before := bar2.log;
      r := Read();
      AdvanceReturned(dev, offset, log0, parts, 5, READ, before, bar2.log, r);

      FinishReturned(dev, offset, log0, parts, 6, program, bar2.log, r);
    }

    method GpioRead() returns (r: Result<ReadResult, ScaError>)
      modifies bar2
      ensures var run := Spec(old(bar2.log), GpioReadProgram(maxBusyIterations));
        bar2.log == old(bar2.log) + run.trace && Returned(run, r)
    {
      var done0: Result<(), ScaError>;
      ghost var dev, log0, parts, program := bar2.respond, bar2.log, GpioReadParts(maxBusyIterations), GpioReadProgram(maxBusyIterations);
      ghost var before := bar2.log;
      GpioReadByParts(maxBusyIterations);
      assert log0 + RunParts(dev, offset, log0, parts, 0).trace == log0;

      before := bar2.log;
      // RD DATA
      done0 := Write(0x02050011, 0x0);
      AdvanceCompleted(dev, offset, log0, parts, 0, WriteProgram(0x02050011, 0x0, maxBusyIterations), before, bar2.log, done0);
      if done0.Err? {
        r := Err(done0.error);
        FinishReturned(dev, offset, log0, parts, 1, program, bar2.log, r);
        return;
      }

      before := bar2.log;
      r := Read();
      AdvanceReturned(dev, offset, log0, parts, 1, READ, before, bar2.log, r);

      FinishReturned(dev, offset, log0, parts, 2, program, bar2.log, r);
    }
  }
}
