/** Loss-tolerant extraction writes: packages/documents/src/persist-mutation.ts and the
    failure path of packages/documents/src/persist.ts. Storage may refuse a dispatch, lose
    its reply, or commit it long after the reply was given up; what it does, how long it takes
    and when the user gives up is a schedule, one fate for every await. */
module ExtractionWrite {
  import opened Common

  /** What a write asks for; the request digest stands for this, SHA-256 being injective. */
  datatype Payload =
    | Begin(document: nat)
    | Resume(run: nat)
    | StagePage(run: nat, page: nat, content: nat)
    | PublishPage(run: nat, page: nat)
    | Complete(run: nat)
    | Interrupt(run: nat)

  datatype Receipt = Receipt(payload: Payload, result: nat)

  datatype Dispatch = Dispatch(operation: nat, payload: Payload)

  /** UNKNOWN_OUTCOME is a lost reply; any code but it and OVERLOADED is a definite refusal. */
  datatype Code = Overloaded | UnknownOutcome | Refused | Cancelled | ReadFailed

  datatype Answer = Answered(result: nat) | Failing(code: Code)

  /** What happens in one await: operations in flight that commit, with their results; the
      answer; how long it takes; and whether the signal is aborted meanwhile. */
  datatype Fate = Fate(lands: map<nat, nat>, answer: Answer, took: nat, aborts: bool)

  type Schedule = nat -> Fate

  /** Storage, the clock and the signal: operation IDs below `next` have been handed out, those in
      `flying` were dispatched without a reply. */
  datatype World = World(next: nat, committed: map<nat, Receipt>, flying: map<nat, Payload>, log: seq<Dispatch>,
                         time: nat, clock: nat, aborted: bool)

  datatype Reply = Replied(result: nat) | Failed(code: Code)

  datatype Lookup = NotFound | Found(receipt: Receipt) | LookupFailed(code: Code)

  datatype Outcome =
    | Value(result: nat)
    | Pending(operation: nat, payload: Payload)     // PendingExtractionOperationError
    | Error(code: Code)

  const BACKOFF := 25
  const PATIENCE := 30000

  // ----- one await -----

  /** An operation commits at most once. */
  function Landed(committed: map<nat, Receipt>, flying: map<nat, Payload>, lands: map<nat, nat>): map<nat, Receipt> {
    committed + map o | o in lands && o in flying && o !in committed :: Receipt(flying[o], lands[o])
  }

  function Reached(s: Schedule, w: World): World {
    var f := s(w.time);
    w.(committed := Landed(w.committed, w.flying, f.lands), time := w.time + 1, clock := w.clock + f.took, aborted := w.aborted || f.aborts)
  }

  /** The pause after a refused admission. */
  function Paused(s: Schedule, w: World): World {
    var v := Reached(s, w);
    v.(clock := v.clock + BACKOFF)
  }

  datatype Step<T> = Step(world: World, reply: T)

  /** One dispatch. The same operation ID never takes effect twice. */
  function Request(s: Schedule, w: World, operation: nat, payload: Payload): Step<Reply> {
    var v := Reached(s, w);
    var sent := v.(log := v.log + [Dispatch(operation, payload)]);
    match s(w.time).answer
    case Failing(code) =>
      Step(if code == UnknownOutcome then sent.(flying := sent.flying[operation := payload]) else sent, Failed(code))
    case Answered(result) =>
      if operation in sent.committed then Step(sent, Replied(sent.committed[operation].result))
      else Step(sent.(committed := sent.committed[operation := Receipt(payload, result)]), Replied(result))
  }

  /** getExtractionOperation: what is committed now, if the read gets through. */
  function Read(s: Schedule, w: World, operation: nat): Step<Lookup> {
    var v := Reached(s, w);
    Step(v, match s(w.time).answer
            case Failing(code) => LookupFailed(code)
            case Answered(_) => if operation in v.committed then Found(v.committed[operation]) else NotFound)
  }

  // ----- one write -----

  datatype Written = Written(world: World, outcome: Outcome)

  /** A control write is not stopped by the signal. */
  predicate Heard(w: World, control: bool) { control || !w.aborted }

  function GivenUp(operation: nat, payload: Payload, uncertain: bool, code: Code): Outcome {
    if uncertain then Pending(operation, payload) else Error(code)
  }

  function WriteFrom(s: Schedule, w: World, operation: nat, payload: Payload, control: bool, started: nat, retries: nat, uncertain: bool): Written
    requires retries <= 1
    decreases 1 - retries, Max(0, started + PATIENCE - w.clock)
  {
    if !Heard(w, control) then Written(w, GivenUp(operation, payload, uncertain, Cancelled))
    else
      var r := Request(s, w, operation, payload);
      if r.reply.Replied? then Written(r.world, Value(r.reply.result))
      else if r.reply.code == Overloaded && r.world.clock < started + PATIENCE then
        if !Heard(r.world, control) then Written(r.world, GivenUp(operation, payload, uncertain, Cancelled))
        else WriteFrom(s, Paused(s, r.world), operation, payload, control, started, retries, uncertain)
      else if r.reply.code != UnknownOutcome then Written(r.world, GivenUp(operation, payload, uncertain, r.reply.code))
      else
        var found := Read(s, r.world, operation);
        if found.reply.Found? && found.reply.receipt.payload == payload then Written(found.world, Value(found.reply.receipt.result))
        else if !found.reply.NotFound? || retries == 1 then Written(found.world, Pending(operation, payload))
        else WriteFrom(s, found.world, operation, payload, control, started, 1, true)
  }

  /** writeExtractionMutation, under a fresh ID. */
  function Write(s: Schedule, w: World, payload: Payload, control: bool): Written {
    WriteFrom(s, w.(next := w.next + 1), w.next, payload, control, w.clock, 0, false)
  }

  /** The operation of a write, under which it goes to storage, and how it is run. */
  datatype Call = Call(operation: nat, payload: Payload, control: bool, started: nat)

  function Sent(s: Schedule, w: World, c: Call): Step<Reply> { Request(s, w, c.operation, c.payload) }

  /** The dispatch from here is refused admission, within 30 seconds, and the write may go on. */
  predicate RefusedInTime(s: Schedule, w: World, c: Call) {
    var r := Sent(s, w, c);
    (c.control || !w.aborted) && r.reply == Failed(Overloaded) && r.world.clock < c.started + 30000 && (c.control || !r.world.aborted)
  }

  function Goes(s: Schedule, w: World, c: Call, retries: nat, uncertain: bool): Written
    requires retries <= 1
  {
    WriteFrom(s, w, c.operation, c.payload, c.control, c.started, retries, uncertain)
  }

  lemma GoesOne(s: Schedule, w: World, c: Call, retries: nat, uncertain: bool)
    requires retries <= 1
    ensures Goes(s, w, c, retries, uncertain) ==
      var r := Sent(s, w, c);
      if !c.control && w.aborted then Written(w, GivenUp(c.operation, c.payload, uncertain, Cancelled))
      else if r.reply.Replied? then Written(r.world, Value(r.reply.result))
      else if RefusedInTime(s, w, c) then Goes(s, Paused(s, r.world), c, retries, uncertain)
      else if r.reply.code == Overloaded && r.world.clock < c.started + 30000 then Written(r.world, GivenUp(c.operation, c.payload, uncertain, Cancelled))
      else if r.reply.code != UnknownOutcome then Written(r.world, GivenUp(c.operation, c.payload, uncertain, r.reply.code))
      else
        var found := Read(s, r.world, c.operation);
        if found.reply.Found? && found.reply.receipt.payload == c.payload then Written(found.world, Value(found.reply.receipt.result))
        else if !found.reply.NotFound? || retries == 1 then Written(found.world, Pending(c.operation, c.payload))
        else Goes(s, found.world, c, 1, true)
  {
    hide Request, Read, Paused;
  }

  lemma WriteGoes(s: Schedule, w: World, payload: Payload, control: bool)
    ensures Write(s, w, payload, control) == Goes(s, w.(next := w.next + 1), Call(w.next, payload, control, w.clock), 0, false)
  {
    hide WriteFrom;
  }

  // ----- the workflow around it -----

  datatype Went = Went(world: World, error: Option<Outcome>)

  /** A read or a progress report between writes, and the look at the signal behind it. */
  function Between(s: Schedule, w: World): Went {
    var v := Reached(s, w);
    Went(v, if s(w.time).answer.Failing? then Some(Error(s(w.time).answer.code)) else if v.aborted then Some(Error(Cancelled)) else None)
  }

  /** Writes one after another; stops at the first failure. */
  function Writes(s: Schedule, w: World, payloads: seq<Payload>): Went
    decreases |payloads|
  {
    if payloads == [] then Went(w, None)
    else
      var b := Between(s, w);
      if b.error.Some? then b
      else
        var r := Write(s, b.world, payloads[0], false);
        if !r.outcome.Value? then Went(r.world, Some(r.outcome)) else Writes(s, r.world, payloads[1..])
  }

  datatype Extracted = Extracted(world: World, error: Option<Outcome>, completed: bool)

  /** The writes of the body, the one that completes the run, and the report of it. */
  function Extraction(s: Schedule, w: World, run: nat, body: seq<Payload>): Extracted {
    var b := Writes(s, w, body);
    if b.error.Some? then Extracted(b.world, b.error, false)
    else
      var r := Write(s, b.world, Complete(run), false);
      if !r.outcome.Value? then Extracted(r.world, Some(r.outcome), false)
      else
        var v := Reached(s, r.world);
        Extracted(v, if s(r.world.time).answer.Failing? then Some(Error(s(r.world.time).answer.code)) else None, true)
  }

  datatype Ending = Completed | Broken(error: Outcome)

  datatype Persisted = Persisted(world: World, ending: Ending, completed: bool)

  /** persistPdfDocument: `opening` acquires the run, which may turn out to be completed already,
      and `body` extracts it. A failure while the run is working interrupts it, unless a write
      is pending. */
  function Persistence(s: Schedule, w: World, run: nat, opening: seq<Payload>, body: seq<Payload>, working: bool): Persisted {
    var o := Writes(s, w, opening);
    if o.error.Some? then Persisted(o.world, Broken(o.error.value), false)
    else if !working then
      var b := Between(s, o.world);
      Persisted(b.world, if b.error.Some? then Broken(b.error.value) else Completed, true)
    else
      var e := Extraction(s, o.world, run, body);
      if e.error.None? then Persisted(e.world, Completed, true)
      else if e.error.value.Pending? || e.completed then Persisted(e.world, Broken(e.error.value), e.completed)
      else
        var r := Write(s, e.world, Interrupt(run), true);
        Persisted(r.world, Broken(if r.outcome.Value? then e.error.value else r.outcome), false)
  }

  // ----- the code -----

  /** The storage peer, the clock and the signal under a schedule. */
  class Storage {
    const schedule: Schedule
    var next: nat
    var committed: map<nat, Receipt>
    var flying: map<nat, Payload>
    var log: seq<Dispatch>
    var time: nat
    var clock: nat
    var aborted: bool

    function Now(): World
      reads this
    {
      World(next, committed, flying, log, time, clock, aborted)
    }

    constructor (schedule: Schedule)
      ensures this.schedule == schedule && Now() == World(0, map[], map[], [], 0, 0, false)
    {
      this.schedule := schedule;
      next, committed, flying, log, time, clock, aborted := 0, map[], map[], [], 0, 0, false;
    }

    method Await() returns (answer: Answer)
      modifies this
      ensures Now() == Reached(schedule, old(Now())) && answer == schedule(old(time)).answer
    {
      var f := schedule(time);
      committed := Landed(committed, flying, f.lands);
      time, clock, aborted := time + 1, clock + f.took, aborted || f.aborts;
      answer := f.answer;
    }

    method Pause()
      modifies this
      ensures Now() == Paused(schedule, old(Now()))
    {
      var answer := Await();
      clock := clock + BACKOFF;
    }

    method Send(operation: nat, payload: Payload) returns (reply: Reply)
      modifies this
      ensures Step(Now(), reply) == Request(schedule, old(Now()), operation, payload)
    {
      var answer := Await();
      log := log + [Dispatch(operation, payload)];
      match answer
      case Failing(code) =>
        if code == UnknownOutcome {
          flying := flying[operation := payload];
        }
        return Failed(code);
      case Answered(result) =>
        if operation !in committed {
          committed := committed[operation := Receipt(payload, result)];
        }
        return Replied(committed[operation].result);
    }

    method Look(operation: nat) returns (found: Lookup)
      modifies this
      ensures Step(Now(), found) == Read(schedule, old(Now()), operation)
    {
      var answer := Await();
      match answer
      case Failing(code) => return LookupFailed(code);
      case Answered(_) => return if operation in committed then Found(committed[operation]) else NotFound;
    }
  }

  /** writeExtractionMutation. */
  method WriteMutation(storage: Storage, payload: Payload, control: bool) returns (outcome: Outcome)
    modifies storage
    ensures Written(storage.Now(), outcome) == Write(storage.schedule, old(storage.Now()), payload, control)
  {
    hide Request, Read, Reached, Paused, Goes, Write;
    WriteGoes(storage.schedule, storage.Now(), payload, control);
    var id := storage.next;
    storage.next := storage.next + 1;
    ghost var c := Call(id, payload, control, storage.clock);
    var started, unknownRetries, uncertain := storage.clock, 0, false;
    while true
      invariant unknownRetries <= 1
      invariant Write(storage.schedule, old(storage.Now()), payload, control) ==
                Goes(storage.schedule, storage.Now(), c, unknownRetries, uncertain)
      invariant started == c.started
      decreases 1 - unknownRetries, Max(0, started + PATIENCE - storage.clock)
    {
      ghost var before := storage.Now();
      ClockGoesOn(storage.schedule, before, id, payload);
      GoesOne(storage.schedule, before, c, unknownRetries, uncertain);
      if !control && storage.aborted {
        return if uncertain then Pending(id, payload) else Error(Cancelled);
      }
      var reply := storage.Send(id, payload);
      if reply.Replied? {
        return Value(reply.result);
      }
      if reply.code == Overloaded && storage.clock < started + PATIENCE {
        // Admission was refused; the same ID is dispatched again after a pause.
        if !control && storage.aborted {
          return if uncertain then Pending(id, payload) else Error(Cancelled);
        }
        ClockGoesOn(storage.schedule, storage.Now(), id, payload);
        storage.Pause();
      } else if reply.code != UnknownOutcome {
        return if uncertain then Pending(id, payload) else Error(reply.code);
      } else {
        uncertain := true;
        var found := storage.Look(id);
        if found.Found? {
          return if found.receipt.payload != payload then Pending(id, payload) else Value(found.receipt.result);
        }
        if found.LookupFailed? || unknownRetries == 1 {
          return Pending(id, payload);
        }
        unknownRetries := unknownRetries + 1;
      }
    }
  }

  lemma ClockGoesOn(s: Schedule, w: World, operation: nat, payload: Payload)
    ensures Request(s, w, operation, payload).world.clock >= w.clock
    ensures Paused(s, w).clock >= w.clock + 25
  {
  }

  method WriteAll(storage: Storage, payloads: seq<Payload>) returns (error: Option<Outcome>)
    modifies storage
    ensures Went(storage.Now(), error) == Writes(storage.schedule, old(storage.Now()), payloads)
  {
    hide Write, Reached;
    error := None;
    assert payloads[0..] == payloads;
    for k := 0 to |payloads|
      invariant Writes(storage.schedule, old(storage.Now()), payloads) == Writes(storage.schedule, storage.Now(), payloads[k..])
    {
      assert payloads[k..][1..] == payloads[k + 1..];
      var answer := storage.Await();
      if answer.Failing? {
        return Some(Error(answer.code));
      }
      if storage.aborted {
        return Some(Error(Cancelled));
      }
      var outcome := WriteMutation(storage, payloads[k], false);
      if !outcome.Value? {
        return Some(outcome);
      }
    }
    assert payloads[|payloads|..] == [];
  }

  method Extract(storage: Storage, run: nat, body: seq<Payload>) returns (error: Option<Outcome>, completed: bool)
    modifies storage
    ensures Extracted(storage.Now(), error, completed) == Extraction(storage.schedule, old(storage.Now()), run, body)
  {
    hide Write, Writes, Reached;
    error := WriteAll(storage, body);
    if error.Some? {
      return error, false;
    }
    var outcome := WriteMutation(storage, Complete(run), false);
    if !outcome.Value? {
      return Some(outcome), false;
    }
    // The progress report that follows may fail.
    var answer := storage.Await();
    return if answer.Failing? then Some(Error(answer.code)) else None, true;
  }

  /** persistPdfDocument. */
  method Persist(storage: Storage, run: nat, opening: seq<Payload>, body: seq<Payload>, working: bool) returns (ending: Ending, completed: bool)
    modifies storage
    ensures Persisted(storage.Now(), ending, completed) == Persistence(storage.schedule, old(storage.Now()), run, opening, body, working)
  {
    hide Write, Writes, Extraction, Reached;
    var error := WriteAll(storage, opening);
    if error.Some? {
      return Broken(error.value), false;
    }
    if !working {
      // Only reads and progress reports are left.
      var answer := storage.Await();
      return if answer.Failing? then Broken(Error(answer.code)) else if storage.aborted then Broken(Error(Cancelled)) else Completed, true;
    }
    error, completed := Extract(storage, run, body);
    if error.None? {
      return Completed, true;
    }
    if error.value.Pending? || completed {
      return Broken(error.value), completed;
    }
    var outcome := WriteMutation(storage, Interrupt(run), true);
    return Broken(if outcome.Value? then error.value else outcome), false;
  }

  // ----- what a write returns -----

  /** Where the write is after `n` such dispatches and a pause behind each. */
  function Backed(s: Schedule, w: World, c: Call, n: nat): World
    decreases n
  {
    if n == 0 then w
    else
      var v := Reached(s, Sent(s, Backed(s, w, c, n - 1), c).world);
      v.(clock := v.clock + 25)
  }

  predicate Series(s: Schedule, w: World, c: Call, n: nat) { forall k :: 0 <= k < n ==> RefusedInTime(s, Backed(s, w, c, k), c) }

  /** The dispatch behind `n` refusals of admission is made, and this is its reply. */
  predicate Hears(s: Schedule, w: World, c: Call, n: nat, reply: Reply) {
    var v := Backed(s, w, c, n);
    Series(s, w, c, n) && (c.control || !v.aborted) && Sent(s, v, c).reply == reply
  }

  /** The receipt read behind a lost reply. */
  function Receipts(s: Schedule, w: World, c: Call, n: nat): Step<Lookup> {
    Read(s, Sent(s, Backed(s, w, c, n), c).world, c.operation)
  }

  /** Behind refusals of admission a dispatch is answered, or its reply is lost and its receipt
      is found. */
  predicate Succeeds(s: Schedule, w: World, c: Call, n: nat, result: nat) {
    || Hears(s, w, c, n, Replied(result))
    || (Hears(s, w, c, n, Failed(UnknownOutcome)) && Receipts(s, w, c, n).reply == Found(Receipt(c.payload, result)))
  }

  /** The reply is lost and no receipt is there: the write dispatches once more. */
  predicate Unseen(s: Schedule, w: World, c: Call, n: nat) {
    Hears(s, w, c, n, Failed(UnknownOutcome)) && Receipts(s, w, c, n).reply == NotFound
  }

  predicate SucceedsLater(s: Schedule, w: World, c: Call, n: nat, m: nat, result: nat) {
    Unseen(s, w, c, n) && Succeeds(s, Receipts(s, w, c, n).world, c, m, result)
  }

  ghost predicate Yields(s: Schedule, w: World, c: Call, result: nat) {
    (exists n :: Succeeds(s, w, c, n, result)) || (exists n, m :: SucceedsLater(s, w, c, n, m, result))
  }

  ghost predicate Loses(s: Schedule, w: World, c: Call) { exists n :: Hears(s, w, c, n, Failed(UnknownOutcome)) }

  /** A dispatch is definitely refused, or refused admission when 30 seconds are over. */
  predicate DeniedAt(s: Schedule, w: World, c: Call, n: nat, code: Code) {
    && code != UnknownOutcome && Hears(s, w, c, n, Failed(code))
    && (code == Overloaded ==> Sent(s, Backed(s, w, c, n), c).world.clock >= c.started + 30000)
  }

  /** The signal is seen before a dispatch, or between a refusal of admission and its pause. */
  predicate StoppedAt(s: Schedule, w: World, c: Call, n: nat) {
    var v := Backed(s, w, c, n);
    && !c.control && Series(s, w, c, n)
    && (v.aborted || (Sent(s, v, c).reply == Failed(Overloaded) && Sent(s, v, c).world.clock < c.started + 30000 && Sent(s, v, c).world.aborted))
  }

  ghost predicate Fails(s: Schedule, w: World, c: Call, code: Code) {
    (exists n :: DeniedAt(s, w, c, n, code)) || (code == Cancelled && exists n :: StoppedAt(s, w, c, n))
  }

  lemma {:induction false} BackedFrom(s: Schedule, w: World, c: Call, n: nat)
    ensures Backed(s, Backed(s, w, c, 1), c, n) == Backed(s, w, c, n + 1)
    decreases n
  {
    hide Request, Paused;
    if n > 0 {
      BackedFrom(s, w, c, n - 1);
    } else {
      assert Backed(s, w, c, 0) == w;
    }
  }

  /** The refusals of admission come to an end, and the write is where they leave it. */
  lemma {:induction false} SeriesEnds(s: Schedule, w: World, c: Call, retries: nat, uncertain: bool) returns (n: nat)
    requires retries <= 1
    ensures Series(s, w, c, n) && !RefusedInTime(s, Backed(s, w, c, n), c)
    ensures Goes(s, w, c, retries, uncertain) == Goes(s, Backed(s, w, c, n), c, retries, uncertain)
    decreases Max(0, c.started + 30000 - w.clock)
  {
    hide Request, Goes;
    assert Backed(s, w, c, 0) == w;
    if RefusedInTime(s, w, c) {
      hide Paused;
      GoesOne(s, w, c, retries, uncertain);
      ClockGoesOn(s, w, c.operation, c.payload);
      ClockGoesOn(s, Sent(s, w, c).world, c.operation, c.payload);
      assert Backed(s, w, c, 1) == Paused(s, Sent(s, w, c).world);
      var m := SeriesEnds(s, Backed(s, w, c, 1), c, retries, uncertain);
      hide RefusedInTime, Backed;
      n := m + 1;
      BackedFrom(s, w, c, m);
      forall k | 0 <= k < n
        ensures RefusedInTime(s, Backed(s, w, c, k), c)
      {
        if k > 0 {
          BackedFrom(s, w, c, k - 1);
        }
      }
    } else {
      n := 0;
    }
  }

  /** It ends in one way. */
  lemma OneEnd(s: Schedule, w: World, c: Call, n: nat, m: nat)
    requires Series(s, w, c, n) && !RefusedInTime(s, Backed(s, w, c, n), c)
    ensures Series(s, w, c, m) && !RefusedInTime(s, Backed(s, w, c, m), c) ==> m == n
  {
    hide RefusedInTime, Backed;
  }

  /** Every reply is the one of the dispatch that ends the refusals, whatever may be asked of it. */
  lemma EndsThere(s: Schedule, w: World, c: Call, n: nat, m: nat)
    requires Series(s, w, c, n) && !RefusedInTime(s, Backed(s, w, c, n), c)
    ensures forall x :: Succeeds(s, w, c, m, x) ==> m == n
    ensures Unseen(s, w, c, m) || Hears(s, w, c, m, Failed(UnknownOutcome)) ==> m == n
    ensures forall code :: DeniedAt(s, w, c, m, code) ==> m == n
    ensures StoppedAt(s, w, c, m) ==> m == n
  {
    hide Request, Read, Backed;
    OneEnd(s, w, c, n, m);
  }

  /** A write whose reply was lost before yields a value or stays in doubt. */
  lemma SecondReturns(s: Schedule, w: World, c: Call)
    ensures var r := Goes(s, w, c, 1, true).outcome;
      && (forall x :: r == Value(x) <==> exists n :: Succeeds(s, w, c, n, x))
      && (!r.Value? ==> r == Pending(c.operation, c.payload))
  {
    hide Request, Read, Goes, Series, Backed;
    var n := SeriesEnds(s, w, c, 1, true);
    GoesOne(s, Backed(s, w, c, n), c, 1, true);
    forall x, m | Succeeds(s, w, c, m, x)
      ensures m == n
    {
      EndsThere(s, w, c, n, m);
    }
    var r := Goes(s, w, c, 1, true).outcome;
    if r.Value? {
      assert Succeeds(s, w, c, n, r.result);
    }
  }

  /** The same, for the dispatch that ends the first refusals. */
  ghost predicate YieldsAt(s: Schedule, w: World, c: Call, n: nat, result: nat) {
    Succeeds(s, w, c, n, result) || exists m :: SucceedsLater(s, w, c, n, m, result)
  }

  lemma FirstReturns(s: Schedule, w: World, c: Call, n: nat)
    requires Series(s, w, c, n) && !RefusedInTime(s, Backed(s, w, c, n), c)
    ensures var r := Goes(s, Backed(s, w, c, n), c, 0, false).outcome;
      && (forall x :: r == Value(x) <==> YieldsAt(s, w, c, n, x))
      && (r == Pending(c.operation, c.payload) <==> Hears(s, w, c, n, Failed(UnknownOutcome)) && forall x :: !YieldsAt(s, w, c, n, x))
      && (r.Pending? ==> r == Pending(c.operation, c.payload))
      && (forall code :: r == Error(code) <==> DeniedAt(s, w, c, n, code) || (code == Cancelled && StoppedAt(s, w, c, n)))
  {
    hide Request, Read, Series, Backed, Goes;
    var end := Backed(s, w, c, n);
    GoesOne(s, end, c, 0, false);
    var r := Goes(s, end, c, 0, false).outcome;
    if Unseen(s, w, c, n) {
      var v := Receipts(s, w, c, n).world;
      SecondReturns(s, v, c);
      assert r == Goes(s, v, c, 1, true).outcome;
      forall x ensures YieldsAt(s, w, c, n, x) <==> exists m :: Succeeds(s, v, c, m, x)
      {
        if m :| Succeeds(s, v, c, m, x) {
          assert SucceedsLater(s, w, c, n, m, x);
        }
      }
    }
  }

  lemma YieldsThere(s: Schedule, w: World, c: Call, n: nat, x: nat)
    requires Series(s, w, c, n) && !RefusedInTime(s, Backed(s, w, c, n), c)
    ensures Yields(s, w, c, x) <==> YieldsAt(s, w, c, n, x)
  {
    hide Succeeds, Unseen, Series, RefusedInTime;
    if m :| Succeeds(s, w, c, m, x) {
      EndsThere(s, w, c, n, m);
    }
    if m, k :| SucceedsLater(s, w, c, m, k, x) {
      EndsThere(s, w, c, n, m);
    }
  }

  lemma FailsThere(s: Schedule, w: World, c: Call, n: nat, code: Code)
    requires Series(s, w, c, n) && !RefusedInTime(s, Backed(s, w, c, n), c)
    ensures Fails(s, w, c, code) <==> DeniedAt(s, w, c, n, code) || (code == Cancelled && StoppedAt(s, w, c, n))
    ensures Loses(s, w, c) <==> Hears(s, w, c, n, Failed(UnknownOutcome))
  {
    hide DeniedAt, StoppedAt, Hears, Series, RefusedInTime;
    if m :| DeniedAt(s, w, c, m, code) {
      EndsThere(s, w, c, n, m);
    }
    if m :| StoppedAt(s, w, c, m) {
      EndsThere(s, w, c, n, m);
    }
    if m :| Hears(s, w, c, m, Failed(UnknownOutcome)) {
      EndsThere(s, w, c, n, m);
    }
  }

  /** For every schedule. A value is returned exactly when, behind refusals of admission within
      30 seconds, a dispatch is answered or its reply is lost and its receipt found, the first
      time or the second; the write is in doubt exactly when a reply was lost and neither
      follows; otherwise it fails with the refusal, or because the signal was seen. */
  lemma WriteReturns(s: Schedule, w: World, payload: Payload, control: bool)
    ensures var c, v := Call(w.next, payload, control, w.clock), w.(next := w.next + 1);
      var r := Write(s, w, payload, control).outcome;
      && (forall x :: r == Value(x) <==> Yields(s, v, c, x))
      && (r == Pending(w.next, payload) <==> Loses(s, v, c) && forall x :: !Yields(s, v, c, x))
      && (r.Pending? ==> r == Pending(w.next, payload))
      && (forall code :: r == Error(code) <==> Fails(s, v, c, code))
  {
    hide Series, Backed, Goes, Write, RefusedInTime, Yields, YieldsAt, Fails, Loses, DeniedAt, StoppedAt, Hears;
    var c, v := Call(w.next, payload, control, w.clock), w.(next := w.next + 1);
    WriteGoes(s, w, payload, control);
    var n := SeriesEnds(s, v, c, 0, false);
    FirstReturns(s, v, c, n);
    FailsThere(s, v, c, n, Cancelled);
    forall x ensures Yields(s, v, c, x) <==> YieldsAt(s, v, c, n, x)
    {
      YieldsThere(s, v, c, n, x);
    }
    forall code ensures Fails(s, v, c, code) <==> DeniedAt(s, v, c, n, code) || (code == Cancelled && StoppedAt(s, v, c, n))
    {
      FailsThere(s, v, c, n, code);
    }
  }

  // ----- what a write leaves behind -----

  ghost predicate Inv(w: World) {
    && (forall o :: o in w.committed || o in w.flying ==> o < w.next)
    && (forall o :: o in w.committed && o in w.flying ==> w.committed[o].payload == w.flying[o])
    && (forall d :: d in w.log ==> d.operation < w.next)
  }

  /** Operations that may yet commit. */
  function Unsettled(w: World): set<nat> { w.flying.Keys - w.committed.Keys }

  /** An operation of this payload, wherever it has got. */
  ghost predicate Owns(w: World, operation: nat, payload: Payload) {
    && operation < w.next && (operation in w.committed ==> w.committed[operation].payload == payload)
    && (operation in w.flying ==> w.flying[operation] == payload)
  }

  /** What went on: nothing is undone, only this operation is dispatched, and only it may have come
      into doubt. */
  ghost predicate OnlyThis(w: World, v: World, operation: nat, payload: Payload) {
    && Inv(v) && Owns(v, operation, payload) && v.next == w.next && w.log <= v.log
    && (forall i :: |w.log| <= i < |v.log| ==> v.log[i] == Dispatch(operation, payload))
    && (forall o :: o in w.committed ==> o in v.committed && v.committed[o] == w.committed[o])
    && Unsettled(v) <= Unsettled(w) + {operation}
  }

  predicate Untouched(w: World, operation: nat) { operation !in w.committed && operation !in w.flying }

  lemma ReachedOnly(s: Schedule, w: World, operation: nat, payload: Payload)
    requires Inv(w) && Owns(w, operation, payload)
    ensures var v := Reached(s, w);
      && OnlyThis(w, v, operation, payload) && v.flying == w.flying && v.log == w.log && Unsettled(v) <= Unsettled(w)
      && (Untouched(w, operation) ==> Untouched(v, operation))
  {
  }

  lemma OnlyThen(w: World, v: World, u: World, operation: nat, payload: Payload)
    requires OnlyThis(w, v, operation, payload) && OnlyThis(v, u, operation, payload)
    ensures OnlyThis(w, u, operation, payload)
  {
    forall i | |w.log| <= i < |u.log|
      ensures u.log[i] == Dispatch(operation, payload)
    {
      if i < |v.log| {
        assert u.log[i] == v.log[i];
      }
    }
  }

  lemma RequestOnly(s: Schedule, w: World, operation: nat, payload: Payload)
    requires Inv(w) && Owns(w, operation, payload)
    ensures var r := Request(s, w, operation, payload);
      && OnlyThis(w, r.world, operation, payload)
      && r.world.log == w.log + [Dispatch(operation, payload)]
      && (r.reply.Replied? ==> operation in r.world.committed && r.world.committed[operation] == Receipt(payload, r.reply.result))
      && (r.reply.Failed? && r.reply.code != UnknownOutcome && Untouched(w, operation) ==> Untouched(r.world, operation))
  {
    hide Reached, Unsettled;
    ReachedOnly(s, w, operation, payload);
    var v, r := Reached(s, w), Request(s, w, operation, payload).world;
    SentOnly(v, r, operation, payload);
    OnlyThen(w, v, r, operation, payload);
  }

  lemma SentOnly(v: World, r: World, operation: nat, payload: Payload)
    requires Inv(v) && Owns(v, operation, payload) && r.next == v.next && r.log == v.log + [Dispatch(operation, payload)]
    requires || (r.committed == v.committed && (r.flying == v.flying || r.flying == v.flying[operation := payload]))
             || (r.flying == v.flying && operation !in v.committed
                 && exists result :: r.committed == v.committed[operation := Receipt(payload, result)])
    ensures OnlyThis(v, r, operation, payload)
  {
  }

  /** A write leaves a value under its ID, or nothing at all, or its operation in doubt. */
  predicate Leaves(v: World, outcome: Outcome, operation: nat, payload: Payload) {
    match outcome
    case Value(result) => operation in v.committed && v.committed[operation] == Receipt(payload, result)
    case Pending(o, p) => o == operation && p == payload
    case Error(_) => Untouched(v, operation)
  }

  lemma {:induction false} GoesOnly(s: Schedule, w: World, c: Call, retries: nat, uncertain: bool)
    requires retries <= 1 && Inv(w) && Owns(w, c.operation, c.payload) && (!uncertain ==> Untouched(w, c.operation))
    ensures var r := Goes(s, w, c, retries, uncertain);
      && OnlyThis(w, r.world, c.operation, c.payload) && Leaves(r.world, r.outcome, c.operation, c.payload)
      && (r.world.log == w.log ==> !c.control && w.aborted)
    decreases 1 - retries, Max(0, c.started + 30000 - w.clock)
  {
    hide Request, Reached, Goes, Inv, Owns, OnlyThis;
    var o, p := c.operation, c.payload;
    GoesOne(s, w, c, retries, uncertain);
    OnlyNothing(w, o, p);
    if c.control || !w.aborted {
      RequestOnly(s, w, o, p);
      var r := Sent(s, w, c);
      OnlyOwns(w, r.world, o, p);
      if RefusedInTime(s, w, c) {
        ClockGoesOn(s, w, o, p);
        ClockGoesOn(s, r.world, o, p);
        PausedOnly(s, r.world, o, p);
        OnlyThen(w, r.world, Paused(s, r.world), o, p);
        OnlyOwns(r.world, Paused(s, r.world), o, p);
        GoesOnly(s, Paused(s, r.world), c, retries, uncertain);
        OnlyThen(w, Paused(s, r.world), Goes(s, Paused(s, r.world), c, retries, uncertain).world, o, p);
        OnlyOwns(Paused(s, r.world), Goes(s, Paused(s, r.world), c, retries, uncertain).world, o, p);
      } else if r.reply == Failed(UnknownOutcome) {
        ReachedOnly(s, r.world, o, p);
        var v := Reached(s, r.world);
        OnlyThen(w, r.world, v, o, p);
        OnlyOwns(r.world, v, o, p);
        if retries == 0 {
          GoesOnly(s, v, c, 1, true);
          OnlyOwns(v, Goes(s, v, c, 1, true).world, o, p);
          OnlyThen(w, v, Goes(s, v, c, 1, true).world, o, p);
        }
      }
    }
  }

  lemma OnlyNothing(w: World, operation: nat, payload: Payload)
    requires Inv(w) && Owns(w, operation, payload)
    ensures OnlyThis(w, w, operation, payload)
  {
  }

  lemma OnlyOwns(w: World, v: World, operation: nat, payload: Payload)
    requires OnlyThis(w, v, operation, payload)
    ensures Inv(v) && Owns(v, operation, payload) && |w.log| <= |v.log|
  {
  }

  lemma PausedOnly(s: Schedule, w: World, operation: nat, payload: Payload)
    requires Inv(w) && Owns(w, operation, payload)
    ensures var v := Paused(s, w);
      OnlyThis(w, v, operation, payload) && (Untouched(w, operation) ==> Untouched(v, operation))
  {
    hide Reached;
    ReachedOnly(s, w, operation, payload);
  }

  /** Whatever storage does: one new operation ID and this payload is all that is ever dispatched,
      it is dispatched unless the signal stops the write before, a value is its committed result, a
      plain error means it neither has committed nor will, and only a pending one is in doubt. */
  lemma WriteLeaves(s: Schedule, w: World, payload: Payload, control: bool)
    requires Inv(w)
    ensures var r := Write(s, w, payload, control);
      && OnlyThis(w.(next := w.next + 1), r.world, w.next, payload) && Leaves(r.world, r.outcome, w.next, payload)
      && (!r.outcome.Pending? ==> Unsettled(r.world) <= Unsettled(w))
      && (r.world.log == w.log ==> !control && w.aborted)
  {
    hide Goes, Write;
    WriteGoes(s, w, payload, control);
    var v := w.(next := w.next + 1);
    assert Unsettled(v) == Unsettled(w);
    GoesOnly(s, v, Call(w.next, payload, control, w.clock), 0, false);
  }

  // ----- what the workflow leaves behind -----

  /** From the first dispatch of a pending operation on, nothing else is dispatched. */
  ghost predicate NothingAfter(log: seq<Dispatch>, from: nat, operation: nat) {
    forall i, j :: from <= i < j < |log| && log[i].operation == operation ==> log[j].operation == operation
  }

  /** The operation an error leaves in doubt. */
  function Doubt(error: Option<Outcome>): set<nat> {
    if error.Some? && error.value.Pending? then {error.value.operation} else {}
  }

  /** New operations of these payloads are dispatched, nothing is undone, and only a pending
      operation, with nothing dispatched behind it, is in doubt. */
  ghost predicate Proceeds(w: World, v: World, payloads: seq<Payload>, error: Option<Outcome>) {
    && Inv(v) && w.log <= v.log && w.next <= v.next
    && (forall i :: |w.log| <= i < |v.log| ==> v.log[i].payload in payloads && v.log[i].operation >= w.next)
    && (forall o :: o in w.committed ==> o in v.committed && v.committed[o] == w.committed[o])
    && Unsettled(v) <= Unsettled(w) + Doubt(error)
    && (error.Some? && error.value.Pending? ==> error.value.operation >= w.next && NothingAfter(v.log, |w.log|, error.value.operation))
    && (error.Some? ==> !error.value.Value?)
  }

  lemma ProceedsThen(w: World, v: World, u: World, payloads: seq<Payload>, more: seq<Payload>, all: seq<Payload>, error: Option<Outcome>)
    requires Proceeds(w, v, payloads, None) && Proceeds(v, u, more, error)
    requires forall p :: p in payloads || p in more ==> p in all
    ensures Proceeds(w, u, all, error)
  {
    forall i | |w.log| <= i < |u.log|
      ensures u.log[i].payload in all && u.log[i].operation >= w.next
      ensures i < |v.log| ==> u.log[i].operation < v.next
    {
      if i < |v.log| {
        assert u.log[i] == v.log[i] && v.log[i] in v.log;
      }
    }
  }

  lemma BetweenProceeds(s: Schedule, w: World, payloads: seq<Payload>)
    requires Inv(w)
    ensures Proceeds(w, Between(s, w).world, payloads, Between(s, w).error)
  {
  }

  lemma WriteProceeds(s: Schedule, w: World, payload: Payload, control: bool)
    requires Inv(w)
    ensures var r := Write(s, w, payload, control);
      Proceeds(w, r.world, [payload], if r.outcome.Value? then None else Some(r.outcome))
  {
    hide Write, Unsettled;
    WriteLeaves(s, w, payload, control);
    assert Unsettled(w.(next := w.next + 1)) == Unsettled(w) by { SameUnsettled(w); }
  }

  lemma SameUnsettled(w: World)
    ensures Unsettled(w.(next := w.next + 1)) == Unsettled(w)
  {
  }

  lemma {:induction false} WritesProceed(s: Schedule, w: World, payloads: seq<Payload>)
    requires Inv(w)
    ensures Proceeds(w, Writes(s, w, payloads).world, payloads, Writes(s, w, payloads).error)
    decreases |payloads|
  {
    hide Write, Between, Proceeds, Inv;
    NothingProceeds(w, payloads);
    if payloads != [] {
      BetweenProceeds(s, w, payloads);
      var b := Between(s, w);
      if b.error.None? {
        ProceedsKeeps(w, b.world, payloads, None);
        WriteProceeds(s, b.world, payloads[0], false);
        var r := Write(s, b.world, payloads[0], false);
        ProceedsThen(w, b.world, r.world, payloads, [payloads[0]], payloads, if r.outcome.Value? then None else Some(r.outcome));
        if r.outcome.Value? {
          ProceedsKeeps(w, r.world, payloads, None);
          WritesProceed(s, r.world, payloads[1..]);
          ProceedsThen(w, r.world, Writes(s, r.world, payloads[1..]).world, payloads, payloads[1..], payloads, Writes(s, r.world, payloads[1..]).error);
        }
      }
    }
  }

  lemma NothingProceeds(w: World, payloads: seq<Payload>)
    requires Inv(w)
    ensures Proceeds(w, w, payloads, None)
  {
  }

  lemma ProceedsKeeps(w: World, v: World, payloads: seq<Payload>, error: Option<Outcome>)
    requires Proceeds(w, v, payloads, error)
    ensures Inv(v)
  {
  }

  ghost predicate CommittedIn(w: World, payload: Payload) { exists o :: o in w.committed && w.committed[o].payload == payload }

  lemma ExtractionProceeds(s: Schedule, w: World, run: nat, body: seq<Payload>)
    requires Inv(w)
    ensures var e := Extraction(s, w, run, body);
      && Proceeds(w, e.world, body + [Complete(run)], e.error)
      && (e.completed ==> CommittedIn(e.world, Complete(run))) && (e.error.None? ==> e.completed)
      && (e.error.Some? && e.error.value.Pending? ==> !e.completed)
  {
    hide Write, Writes, Reached, Proceeds, Inv;
    var all := body + [Complete(run)];
    WritesProceed(s, w, body);
    var b := Writes(s, w, body);
    ProceedsKeeps(w, b.world, body, b.error);
    ProceedsMore(w, b.world, body, all, b.error);
    if b.error.None? {
      WriteProceeds(s, b.world, Complete(run), false);
      WriteLeaves(s, b.world, Complete(run), false);
      var r := Write(s, b.world, Complete(run), false);
      ProceedsThen(w, b.world, r.world, body, [Complete(run)], all, if r.outcome.Value? then None else Some(r.outcome));
      if r.outcome.Value? {
        ProceedsKeeps(w, r.world, all, None);
        ReportProceeds(s, r.world, all);
        ProceedsThen(w, r.world, Reached(s, r.world), all, all, all, Extraction(s, w, run, body).error);
        assert b.world.next in r.world.committed && r.world.committed[b.world.next].payload == Complete(run);
      }
    }
  }

  lemma ProceedsMore(w: World, v: World, payloads: seq<Payload>, all: seq<Payload>, error: Option<Outcome>)
    requires Proceeds(w, v, payloads, error) && forall p :: p in payloads ==> p in all
    ensures Proceeds(w, v, all, error)
  {
  }

  lemma ReportProceeds(s: Schedule, w: World, payloads: seq<Payload>)
    requires Inv(w)
    ensures var v := Reached(s, w);
      && Proceeds(w, v, payloads, None) && forall code :: Proceeds(w, v, payloads, Some(Error(code)))
    ensures forall o :: o in w.committed ==> o in Reached(s, w).committed && Reached(s, w).committed[o] == w.committed[o]
  {
  }

  /** The operations of these payloads, one after another, from this ID on. */
  function Dispatches(payloads: seq<Payload>, next: nat): (log: seq<Dispatch>)
    ensures |log| == |payloads| && forall k :: 0 <= k < |log| ==> log[k] == Dispatch(next + k, payloads[k])
  {
    seq(|payloads|, k requires 0 <= k < |payloads| => Dispatch(next + k, payloads[k]))
  }

  predicate Interrupts(payloads: seq<Payload>) { exists k :: 0 <= k < |payloads| && payloads[k].Interrupt? }

  ghost predicate InterruptedAfter(w: World, v: World, run: nat) {
    exists i :: |w.log| <= i < |v.log| && v.log[i].payload == Interrupt(run)
  }

  /** Behind a pending operation nothing else is dispatched and nothing but it is in doubt; a run
      said to be completed is; a run that is completed, before or by this, is not interrupted; and
      a working run whose extraction fails for certain is. */
  lemma PersistenceLeaves(s: Schedule, w: World, run: nat, opening: seq<Payload>, body: seq<Payload>, working: bool)
    requires Inv(w) && !Interrupts(body)
    ensures var r := Persistence(s, w, run, opening, body, working);
      && Proceeds(w, r.world, opening + body + [Complete(run), Interrupt(run)], if r.ending.Broken? then Some(r.ending.error) else None)
      && (r.ending == Completed ==> r.completed)
      && (r.completed && working ==> CommittedIn(r.world, Complete(run)))
      && var o := Writes(s, w, opening);
        && (!working || r.completed || o.error.Some? ==>
              forall i :: |o.world.log| <= i < |r.world.log| ==> !r.world.log[i].payload.Interrupt?)
        && (working && o.error.None? && !r.completed ==>
              (InterruptedAfter(o.world, r.world, run) <==> Extraction(s, o.world, run, body).error.value.Error?))
  {
    hide Write, Writes, Extraction, Between, Proceeds, Inv;
    var all := opening + body + [Complete(run), Interrupt(run)];
    WritesProceed(s, w, opening);
    var o := Writes(s, w, opening);
    ProceedsKeeps(w, o.world, opening, o.error);
    ProceedsMore(w, o.world, opening, all, o.error);
    if o.error.None? && !working {
      BetweenProceeds(s, o.world, []);
      var b := Between(s, o.world);
      ProceedsThen(w, o.world, b.world, opening, [], all, b.error);
      NoInterrupt(o.world, b.world, [], b.error);
    } else if o.error.None? {
      ExtractionProceeds(s, o.world, run, body);
      var e := Extraction(s, o.world, run, body);
      ProceedsThen(w, o.world, e.world, opening, body + [Complete(run)], all, e.error);
      NoInterrupt(o.world, e.world, body + [Complete(run)], e.error);
      if e.error.Some? && e.error.value.Error? && !e.completed {
        ProceedsKeeps(o.world, e.world, body + [Complete(run)], e.error);
        InterruptProceeds(s, o.world, e.world, run, body + [Complete(run)], e.error);
        ProceedsThen(w, o.world, Write(s, e.world, Interrupt(run), true).world, opening, body + [Complete(run)] + [Interrupt(run)], all,
                     Some(if Write(s, e.world, Interrupt(run), true).outcome.Value? then e.error.value else Write(s, e.world, Interrupt(run), true).outcome));
      }
    }
  }

  lemma NoInterrupt(w: World, v: World, payloads: seq<Payload>, error: Option<Outcome>)
    requires Proceeds(w, v, payloads, error) && !Interrupts(payloads)
    ensures forall i :: |w.log| <= i < |v.log| ==> !v.log[i].payload.Interrupt?
  {
    assert forall p :: p in payloads ==> !p.Interrupt?;
  }

  lemma InterruptProceeds(s: Schedule, w: World, v: World, run: nat, payloads: seq<Payload>, error: Option<Outcome>)
    requires Proceeds(w, v, payloads, error) && error.Some? && error.value.Error?
    ensures var r := Write(s, v, Interrupt(run), true);
      && Proceeds(w, r.world, payloads + [Interrupt(run)], Some(if r.outcome.Value? then error.value else r.outcome))
      && InterruptedAfter(w, r.world, run)
  {
    hide Write;
    WriteLeaves(s, v, Interrupt(run), true);
    WriteProceeds(s, v, Interrupt(run), true);
    var r := Write(s, v, Interrupt(run), true);
    var ended := if r.outcome.Value? then None else Some(r.outcome);
    assert Proceeds(w, v, payloads, None);
    ProceedsThen(w, v, r.world, payloads, [Interrupt(run)], payloads + [Interrupt(run)], ended);
    assert r.world.log[|v.log|].payload == Interrupt(run);
  }

  // ----- when everything is answered -----

  /** Every await is answered, and the signal is never aborted. */
  ghost predicate Calm(s: Schedule) { forall t :: s(t).answer.Answered? && !s(t).aborts }

  /** Just these were dispatched, once each and in order, and all are committed. */
  ghost predicate Done(w: World, v: World, payloads: seq<Payload>) {
    && Inv(v) && !v.aborted && v.next == w.next + |payloads| && v.log == w.log + Dispatches(payloads, w.next)
    && (forall k :: 0 <= k < |payloads| ==> CommittedAs(v, w.next, payloads, k))
  }

  /** The k-th of these payloads is committed under the k-th operation from `first`. */
  predicate CommittedAs(v: World, first: nat, payloads: seq<Payload>, k: nat)
    requires k < |payloads|
  {
    first + k in v.committed && v.committed[first + k].payload == payloads[k]
  }

  lemma CalmWrite(s: Schedule, w: World, payload: Payload, control: bool)
    requires Calm(s) && Inv(w) && !w.aborted
    ensures var r := Write(s, w, payload, control); r.outcome.Value? && Done(w, r.world, [payload])
  {
    hide Goes, Write, Reached, Inv, OnlyThis, Owns;
    WriteGoes(s, w, payload, control);
    WriteLeaves(s, w, payload, control);
    GoesOne(s, w.(next := w.next + 1), Call(w.next, payload, control, w.clock), 0, false);
    CalmRequest(s, w, payload);
    OnlyOwns(w.(next := w.next + 1), Write(s, w, payload, control).world, w.next, payload);
  }

  lemma CalmRequest(s: Schedule, w: World, payload: Payload)
    requires Calm(s) && Inv(w) && !w.aborted
    ensures var r := Request(s, w.(next := w.next + 1), w.next, payload);
      && r.reply.Replied? && !r.world.aborted && r.world.next == w.next + 1 && r.world.log == w.log + Dispatches([payload], w.next)
  {
    assert Dispatches([payload], w.next) == [Dispatch(w.next, payload)];
  }

  lemma DoneThen(w: World, v: World, u: World, a: seq<Payload>, b: seq<Payload>)
    requires Done(w, v, a) && Done(v, u, b) && forall o :: o in v.committed ==> o in u.committed && u.committed[o] == v.committed[o]
    ensures Done(w, u, a + b)
  {
    hide Inv, Dispatches, CommittedAs;
    DispatchesThen(a, b, w.next);
    assert w.log + (Dispatches(a, w.next) + Dispatches(b, v.next)) == w.log + Dispatches(a, w.next) + Dispatches(b, v.next);
    forall k | 0 <= k < |a + b| ensures CommittedAs(u, w.next, a + b, k) {
      CommittedThen(w, v, u, a, b, k);
    }
  }

  lemma DispatchesThen(a: seq<Payload>, b: seq<Payload>, next: nat)
    ensures Dispatches(a + b, next) == Dispatches(a, next) + Dispatches(b, next + |a|)
  {
  }

  lemma CommittedThen(w: World, v: World, u: World, a: seq<Payload>, b: seq<Payload>, k: nat)
    requires Done(w, v, a) && Done(v, u, b) && forall o :: o in v.committed ==> o in u.committed && u.committed[o] == v.committed[o]
    requires k < |a + b|
    ensures CommittedAs(u, w.next, a + b, k)
  {
    hide Inv, Dispatches;
    if k < |a| {
      assert CommittedAs(v, w.next, a, k);
    } else {
      assert CommittedAs(u, v.next, b, k - |a|);
    }
  }

  lemma CalmReached(s: Schedule, w: World)
    requires Calm(s) && Inv(w) && !w.aborted
    ensures Done(w, Reached(s, w), []) && s(w.time).answer.Answered? && !Reached(s, w).aborted
    ensures forall o :: o in w.committed ==> o in Reached(s, w).committed && Reached(s, w).committed[o] == w.committed[o]
  {
    assert w.log + [] == w.log && Dispatches([], w.next) == [];
  }

  lemma {:induction false} CalmWrites(s: Schedule, w: World, payloads: seq<Payload>)
    requires Calm(s) && Inv(w) && !w.aborted
    ensures var r := Writes(s, w, payloads); r.error.None? && Done(w, r.world, payloads)
    decreases |payloads|
  {
    hide Write, Reached, Inv, Dispatches;
    if payloads == [] {
      NothingDone(w);
    } else {
      CalmReached(s, w);
      var b := Reached(s, w);
      CalmWrite(s, b, payloads[0], false);
      WriteLeaves(s, b, payloads[0], false);
      var r := Write(s, b, payloads[0], false);
      DoneThen(w, b, r.world, [], [payloads[0]]);
      CalmWrites(s, r.world, payloads[1..]);
      WritesProceed(s, r.world, payloads[1..]);
      DoneThen(w, r.world, Writes(s, r.world, payloads[1..]).world, [] + [payloads[0]], payloads[1..]);
      assert [] + [payloads[0]] + payloads[1..] == payloads;
    }
  }

  lemma NothingDone(w: World)
    requires Inv(w) && !w.aborted
    ensures Done(w, w, [])
  {
    assert w.log + Dispatches([], w.next) == w.log;
  }

  /** Then the workflow completes: each write is dispatched once, in order, and committed. */
  lemma PersistenceCompletes(s: Schedule, w: World, run: nat, opening: seq<Payload>, body: seq<Payload>, working: bool)
    requires Calm(s) && Inv(w) && !w.aborted
    ensures var r := Persistence(s, w, run, opening, body, working);
      && r.ending == Completed && r.completed
      && Done(w, r.world, if working then opening + body + [Complete(run)] else opening)
  {
    hide Write, Writes, Reached, Inv, Done;
    CalmWrites(s, w, opening);
    var o := Writes(s, w, opening).world;
    DoneInv(w, o, opening);
    if working {
      CalmWrites(s, o, body);
      WritesProceed(s, o, body);
      var b := Writes(s, o, body).world;
      DoneInv(o, b, body);
      DoneThen(w, o, b, opening, body);
      CalmWrite(s, b, Complete(run), false);
      WriteLeaves(s, b, Complete(run), false);
      var c := Write(s, b, Complete(run), false).world;
      DoneInv(b, c, [Complete(run)]);
      DoneThen(w, b, c, opening + body, [Complete(run)]);
      CalmReached(s, c);
      DoneThen(w, c, Reached(s, c), opening + body + [Complete(run)], []);
      assert opening + body + [Complete(run)] + [] == opening + body + [Complete(run)];
    } else {
      CalmReached(s, o);
      DoneThen(w, o, Reached(s, o), opening, []);
      assert opening + [] == opening;
    }
  }

  lemma DoneInv(w: World, v: World, payloads: seq<Payload>)
    requires Done(w, v, payloads)
    ensures Inv(v) && !v.aborted
  {
  }
}
