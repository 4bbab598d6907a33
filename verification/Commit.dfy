/** One checkpoint commit of packages/providers/src/generation.ts: three attempts over a
    storage that may refuse, lose replies, and commit late. A batch is one transaction;
    storage knows it by its ID and compares the staged blob it names
    (packages/storage/src/worker/canonical/repository.ts). What storage does is a schedule,
    one fate for every request. */
module Commit {
  import opened Common

  const ATTEMPTS := 3

  /** UNKNOWN_OUTCOME and CLOSED are `Lost`; anything else is final. */
  datatype Fault = Lost | Refused | Conflict | Inconsistent

  datatype Reply<T> = Ok(value: T) | Failed(fault: Fault)

  /** The transfer a commit request stages, if any: all that tells two requests of the
      transaction apart. */
  type Staged = Option<nat>

  /** What lands before a request is served: a commit or a discard whose reply was lost. */
  datatype Landing = Nothing | Commits(staged: Staged) | Drops(transfer: nat)

  datatype Answer = Answered | Rejected | Dropped

  datatype Fate = Fate(landing: Landing, answer: Answer)

  type Schedule = nat -> Fate

  /** What storage holds of one transaction: its effects, the commit requests whose reply was
      lost, the transfers that can still be published, those whose discard is under way and
      those whose discard failed; and how many requests it has seen. */
  datatype World = World(effects: seq<Staged>, flying: set<Staged>, live: set<nat>,
                         dropping: set<nat>, failed: set<nat>, next: nat, time: nat)

  const START := World([], {}, {}, {}, {}, 0, 0)

  predicate Publishable(w: World, d: Staged) { d.Some? ==> d.value in w.live }

  /** Only what is under way lands, and a transaction takes effect once. */
  function Meanwhile(w: World, l: Landing): World {
    match l
    case Nothing => w
    case Commits(d) => if d in w.flying && Publishable(w, d) && w.effects == [] then w.(effects := [d]) else w
    case Drops(t) => if t in w.dropping then w.(live := w.live - {t}) else w
  }

  function Reached(s: Schedule, w: World): World { Meanwhile(w, s(w.time).landing).(time := w.time + 1) }

  datatype Step<T> = Step(world: World, reply: Reply<T>)

  function Missed(a: Answer): Fault { if a == Dropped then Lost else Refused }

  /** beginBlobTransfer; a transfer begun although the reply was lost is never named. */
  function Begin(s: Schedule, w: World): Step<nat> {
    var v := Reached(s, w);
    var begun := v.(live := v.live + {v.next}, next := v.next + 1);
    match s(w.time).answer
    case Answered => Step(begun, Ok(v.next))
    case Rejected => Step(v, Failed(Refused))
    case Dropped => Step(begun, Failed(Lost))
  }

  /** The chunks and finishBlobTransfer. */
  function Finish(s: Schedule, w: World): Step<()> {
    Step(Reached(s, w), if s(w.time).answer == Answered then Ok(()) else Failed(Missed(s(w.time).answer)))
  }

  /** The commit request. A transaction ID already used with another payload conflicts. */
  function Send(s: Schedule, w: World, d: Staged): Step<()> {
    var v := Reached(s, w);
    match s(w.time).answer
    case Rejected => Step(v, Failed(Refused))
    case Dropped => Step(v.(flying := v.flying + {d}), Failed(Lost))
    case Answered =>
      if v.effects == [] then Step(v.(effects := [d]), Ok(()))
      else Step(v, if v.effects[0] == d then Ok(()) else Failed(Conflict))
  }

  /** operationStatus of one operation. */
  function Poll(s: Schedule, w: World): Step<bool> {
    var v := Reached(s, w);
    Step(v, if s(w.time).answer == Answered then Ok(v.effects != []) else Failed(Missed(s(w.time).answer)))
  }

  /** The statuses of the batch's operations, one request after another. */
  function StatusFrom(s: Schedule, w: World, n: nat, some: bool, every: bool): Step<bool>
    decreases n
  {
    if n == 0 then Step(w, if some && !every then Failed(Inconsistent) else Ok(every))
    else
      var p := Poll(s, w);
      if p.reply.Failed? then p else StatusFrom(s, p.world, n - 1, some || p.reply.value, every && p.reply.value)
  }

  function Status(s: Schedule, w: World, operations: nat): Step<bool> { StatusFrom(s, w, operations, false, true) }

  /** discardBlobTransfer; its failure is ignored. */
  function Discard(s: Schedule, w: World, transfer: nat): World {
    var v := Reached(s, w);
    match s(w.time).answer
    case Answered => v.(live := v.live - {transfer})
    case Rejected => v.(failed := v.failed + {transfer})
    case Dropped => v.(failed := v.failed + {transfer}, dropping := v.dropping + {transfer})
  }

  datatype Tried = Tried(world: World, transfer: Option<nat>, reply: Reply<()>)

  /** The body of an attempt: resolve, stage, commit. */
  function Try(s: Schedule, w: World, operations: nat, blob: bool, first: bool): Tried {
    var known := if first then Step(w, Ok(false)) else Status(s, w, operations);
    if known.reply.Failed? then Tried(known.world, None, Failed(known.reply.fault))
    else if known.reply.value then Tried(known.world, None, Ok(()))
    else if !blob then
      var sent := Send(s, known.world, None);
      Tried(sent.world, None, sent.reply)
    else
      var begun := Begin(s, known.world);
      if begun.reply.Failed? then Tried(begun.world, None, Failed(begun.reply.fault))
      else
        var finished := Finish(s, begun.world);
        if finished.reply.Failed? then Tried(finished.world, Some(begun.reply.value), Failed(finished.reply.fault))
        else
          var sent := Send(s, finished.world, Some(begun.reply.value));
          Tried(sent.world, Some(begun.reply.value), sent.reply)
  }

  datatype Outcome = Done | Thrown(fault: Fault)

  datatype Judged = Judged(world: World, ended: Option<Outcome>)

  /** Unknown outcomes are resolved by operation identity; any other failure is final. */
  function Judge(s: Schedule, t: Tried, operations: nat): Judged {
    if t.reply.Ok? then Judged(t.world, Some(Done))
    else if t.reply.fault != Lost then Judged(t.world, Some(Thrown(t.reply.fault)))
    else
      var known := Status(s, t.world, operations);
      Judged(known.world,
             if known.reply.Ok? then (if known.reply.value then Some(Done) else None)
             else if known.reply.fault != Lost then Some(Thrown(known.reply.fault)) else None)
  }

  /** And the transfer is discarded, however the attempt ended. */
  function Attempt(s: Schedule, w: World, operations: nat, blob: bool, first: bool): Judged {
    var t := Try(s, w, operations, blob, first);
    var j := Judge(s, t, operations);
    if t.transfer.Some? then j.(world := Discard(s, j.world, t.transfer.value)) else j
  }

  datatype Run = Run(world: World, outcome: Outcome)

  function Attempts(s: Schedule, w: World, operations: nat, blob: bool, left: nat): Run
    requires left <= ATTEMPTS
    decreases left
  {
    if left == 0 then Run(w, Thrown(Lost))
    else
      var a := Attempt(s, w, operations, blob, left == ATTEMPTS);
      if a.ended.Some? then Run(a.world, a.ended.value) else Attempts(s, a.world, operations, blob, left - 1)
  }

  function Whole(s: Schedule, operations: nat, blob: bool): Run { Attempts(s, START, operations, blob, ATTEMPTS) }

  // ----- the loops -----

  /** Storage under a schedule. */
  class Storage {
    const schedule: Schedule
    var effects: seq<Staged>
    var flying: set<Staged>
    var live: set<nat>
    var dropping: set<nat>
    var failed: set<nat>
    var next: nat
    var time: nat

    function Now(): World
      reads this
    {
      World(effects, flying, live, dropping, failed, next, time)
    }

    constructor (schedule: Schedule)
      ensures this.schedule == schedule && Now() == START
    {
      this.schedule := schedule;
      effects, flying, live, dropping, failed, next, time := [], {}, {}, {}, {}, 0, 0;
    }

    method Reach() returns (answer: Answer)
      modifies this
      ensures Now() == Reached(schedule, old(Now())) && answer == schedule(old(time)).answer
    {
      match schedule(time).landing {
        case Nothing =>
        case Commits(d) =>
          if d in flying && (d.Some? ==> d.value in live) && effects == [] {
            effects := [d];
          }
        case Drops(t) =>
          if t in dropping {
            live := live - {t};
          }
      }
      answer := schedule(time).answer;
      time := time + 1;
    }

    method BeginTransfer() returns (reply: Reply<nat>)
      modifies this
      ensures Step(Now(), reply) == Begin(schedule, old(Now()))
    {
      var answer := Reach();
      if answer == Rejected {
        return Failed(Refused);
      }
      live, next := live + {next}, next + 1;
      return if answer == Answered then Ok(next - 1) else Failed(Lost);
    }

    method FinishTransfer() returns (reply: Reply<()>)
      modifies this
      ensures Step(Now(), reply) == Finish(schedule, old(Now()))
    {
      var answer := Reach();
      return if answer == Answered then Ok(()) else Failed(Missed(answer));
    }

    method CommitRequest(d: Staged) returns (reply: Reply<()>)
      modifies this
      ensures Step(Now(), reply) == Send(schedule, old(Now()), d)
    {
      var answer := Reach();
      if answer == Rejected {
        return Failed(Refused);
      }
      if answer == Dropped {
        flying := flying + {d};
        return Failed(Lost);
      }
      if effects == [] {
        effects := [d];
        return Ok(());
      }
      return if effects[0] == d then Ok(()) else Failed(Conflict);
    }

    method OperationStatus() returns (reply: Reply<bool>)
      modifies this
      ensures Step(Now(), reply) == Poll(schedule, old(Now()))
    {
      var answer := Reach();
      return if answer == Answered then Ok(effects != []) else Failed(Missed(answer));
    }

    method DiscardTransfer(transfer: nat)
      modifies this
      ensures Now() == Discard(schedule, old(Now()), transfer)
    {
      var answer := Reach();
      if answer == Answered {
        live := live - {transfer};
      } else {
        failed := failed + {transfer};
        if answer == Dropped {
          dropping := dropping + {transfer};
        }
      }
    }
  }

  /** The status of the whole batch. */
  method BatchStatus(storage: Storage, operations: nat) returns (reply: Reply<bool>)
    modifies storage
    ensures Step(storage.Now(), reply) == Status(storage.schedule, old(storage.Now()), operations)
  {
    hide Poll;
    var some, every := false, true;
    for k := 0 to operations
      invariant Status(storage.schedule, old(storage.Now()), operations) == StatusFrom(storage.schedule, storage.Now(), operations - k, some, every)
    {
      var known := storage.OperationStatus();
      if known.Failed? {
        return known;
      }
      some, every := some || known.value, every && known.value;
    }
    return if some && !every then Failed(Inconsistent) else Ok(every);
  }

  /** The body of one attempt. */
  method TryOnce(storage: Storage, operations: nat, blob: bool, first: bool) returns (reply: Reply<()>, transfer: Option<nat>)
    modifies storage
    ensures Tried(storage.Now(), transfer, reply) == Try(storage.schedule, old(storage.Now()), operations, blob, first)
  {
    hide Status, Begin, Finish, Send;
    transfer := None;
    if !first {
      var known := BatchStatus(storage, operations);
      if known.Failed? {
        return Failed(known.fault), None;
      }
      if known.value {
        return Ok(()), None;
      }
    }
    if blob {
      var begun := storage.BeginTransfer();
      if begun.Failed? {
        return Failed(begun.fault), None;
      }
      transfer := Some(begun.value);
      var finished := storage.FinishTransfer();
      if finished.Failed? {
        return Failed(finished.fault), transfer;
      }
    }
    reply := storage.CommitRequest(transfer);
  }

  /** The three attempts: outcome and storage are those of the schedule's run. */
  method CommitBatch(storage: Storage, operations: nat, blob: bool) returns (outcome: Outcome)
    modifies storage
    ensures Run(storage.Now(), outcome) == Attempts(storage.schedule, old(storage.Now()), operations, blob, ATTEMPTS)
  {
    hide Status, Try, Discard;
    for attempt := 0 to ATTEMPTS
      invariant Attempts(storage.schedule, old(storage.Now()), operations, blob, ATTEMPTS) ==
                Attempts(storage.schedule, storage.Now(), operations, blob, ATTEMPTS - attempt)
    {
      var reply, transfer := TryOnce(storage, operations, blob, attempt == 0);
      var ended := None;
      if reply.Ok? {
        ended := Some(Done);
      } else if reply.fault != Lost {
        ended := Some(Thrown(reply.fault));
      } else {
        var known := BatchStatus(storage, operations);
        if known.Ok? && known.value {
          ended := Some(Done);
        } else if known.Failed? && known.fault != Lost {
          ended := Some(Thrown(known.fault));
        }
      }
      if transfer.Some? {
        storage.DiscardTransfer(transfer.value);
      }
      if ended.Some? {
        return ended.value;
      }
    }
    return Thrown(Lost);
  }

  // ----- what every run keeps -----

  predicate Known(w: World) {
    && (forall d :: d in w.flying && d.Some? ==> d.value < w.next)
    && (forall t :: t in w.live ==> t < w.next) && (forall t :: t in w.failed ==> t < w.next) && w.dropping <= w.failed
  }

  /** Nothing has been answered yet: an effect can only be that of a lost request. */
  predicate Unanswered(w: World, blob: bool) {
    && Known(w) && |w.effects| <= 1 && (w.effects != [] ==> w.effects[0] in w.flying)
    && forall d :: d in w.flying ==> (d.Some? <==> blob)
  }

  /** A lost request's transfer is gone unless its discard failed. */
  predicate Discarded(w: World) { forall t :: Some(t) in w.flying && t in w.live ==> t in w.failed }

  /** Storage has gone on by itself. */
  predicate Later(w: World, v: World) {
    && w.effects <= v.effects && v.flying == w.flying && v.failed == w.failed && v.dropping == w.dropping && v.next == w.next
    && v.live <= w.live && (w.effects == [] && v.effects != [] ==> Publishable(w, v.effects[0]))
  }

  lemma ReachedKeeps(s: Schedule, w: World, blob: bool)
    requires Unanswered(w, blob)
    ensures Unanswered(Reached(s, w), blob) && Later(w, Reached(s, w))
  {
  }

  lemma LaterKeeps(w: World, v: World)
    requires Later(w, v)
    ensures Discarded(w) ==> Discarded(v)
  {
  }

  /** The statuses say truly, and disagree only when the batch commits in between. */
  lemma {:induction false} StatusKeeps(s: Schedule, w: World, n: nat, some: bool, every: bool, blob: bool)
    requires Unanswered(w, blob) && (some ==> w.effects != [])
    ensures var r := StatusFrom(s, w, n, some, every);
      && Unanswered(r.world, blob) && Later(w, r.world)
      && (r.reply == Ok(true) && n > 0 ==> r.world.effects != [])
      && (r.reply == Ok(false) && every ==> w.effects == [])
      && (r.reply == Failed(Inconsistent) ==> r.world.effects != [] && (n > 1 || (n == 1 && some == every) || (some && !every)))
      && (r.reply.Failed? ==> r.reply.fault != Conflict)
    decreases n
  {
    hide Reached, Unanswered, Later;
    UnansweredLater(w, w, w);
    if n > 0 {
      ReachedKeeps(s, w, blob);
      var p := Poll(s, w);
      UnansweredLater(w, p.world, p.world);
      if p.reply.Ok? {
        StatusKeeps(s, p.world, n - 1, some || p.reply.value, every && p.reply.value, blob);
        UnansweredLater(w, p.world, StatusFrom(s, p.world, n - 1, some || p.reply.value, every && p.reply.value).world);
      }
    }
  }

  lemma UnansweredLater(w: World, v: World, u: World)
    ensures Later(w, w)
    ensures Later(w, v) && Later(v, u) ==> Later(w, u)
    ensures Later(w, v) && w.effects != [] ==> v.effects != []
  {
  }

  lemma StatusSays(s: Schedule, w: World, operations: nat, blob: bool)
    requires Unanswered(w, blob) && operations > 0
    ensures var r := Status(s, w, operations);
      && Unanswered(r.world, blob) && Later(w, r.world)
      && (r.reply == Ok(true) ==> r.world.effects != [])
      && (r.reply == Ok(false) ==> w.effects == [])
      && (r.reply == Failed(Inconsistent) ==> r.world.effects != [] && operations > 1)
      && (r.reply.Failed? ==> r.reply.fault != Conflict)
  {
    StatusKeeps(s, w, operations, false, true, blob);
  }

  /** The world when an attempt's body is done: a batch that took effect did so by a lost
      request, unless the body says so; and a request in doubt has its transfer discarded
      or about to be. */
  predicate Left(t: Tried, blob: bool) {
    && Known(t.world) && |t.world.effects| <= 1
    && (t.reply.Ok? ==> t.world.effects != [])
    && (t.reply.Failed? ==> Unanswered(t.world, blob))
    && (forall d :: d in t.world.flying ==> (d.Some? <==> blob))
    && (t.transfer.Some? ==> t.transfer.value < t.world.next)
    && (forall x :: Some(x) in t.world.flying && x in t.world.live ==> x in t.world.failed || t.transfer == Some(x))
  }

  /** An effect that is not an answered request's is a transfer's whose discard failed. */
  predicate Undone(w: World, blob: bool) {
    w.effects != [] && blob ==> w.effects[0].Some? && w.effects[0].value in w.failed
  }

  /** Storage goes on, and has new transfers. */
  predicate Grown(w: World, v: World) {
    && w.effects <= v.effects && v.flying == w.flying && v.failed == w.failed && w.next <= v.next
    && (w.effects == [] && v.effects != [] ==> Publishable(w, v.effects[0]))
  }

  lemma UndoneStays(w: World, v: World, blob: bool)
    requires Discarded(w) && Undone(w, blob) && Unanswered(v, blob) && Grown(w, v)
    ensures Undone(v, blob)
  {
  }

  lemma LaterGrows(w: World, v: World, u: World)
    ensures Later(w, v) ==> Grown(w, v)
    ensures Grown(w, v) && Later(v, u) ==> w.flying == u.flying && w.next <= u.next && w.failed == u.failed
  {
  }

  lemma SendLeaves(s: Schedule, w: World, d: Staged, blob: bool)
    requires Unanswered(w, blob) && Discarded(w) && Undone(w, blob)
    requires (d.Some? <==> blob) && (d.Some? ==> d.value < w.next && d !in w.flying)
    ensures var r := Send(s, w, d);
      && Left(Tried(r.world, d, r.reply), blob)
      && (r.reply == Failed(Conflict) ==> blob && r.world.effects != [] && Undone(r.world, blob))
      && (r.reply.Failed? ==> r.reply.fault != Inconsistent) && w.flying <= r.world.flying
      && (r.reply.Failed? && r.reply.fault != Lost ==> r.world.flying == w.flying)
  {
    hide Discarded, Undone;
    var v := Reached(s, w);
    ReachedKeeps(s, w, blob);
    LaterKeeps(w, v);
    LaterGrows(w, v, v);
    UndoneStays(w, v, blob);
    SendsOne(v, d, Send(s, w, d), blob);
  }

  lemma SendsOne(v: World, d: Staged, r: Step<()>, blob: bool)
    requires Unanswered(v, blob) && Discarded(v) && (d.Some? <==> blob) && (d.Some? ==> d.value < v.next)
    requires r in {Step(v, Failed(Refused)), Step(v.(flying := v.flying + {d}), Failed(Lost)), Step(v.(effects := [d]), Ok(())),
                   Step(v, Ok(())), Step(v, Failed(Conflict))}
    requires r == Step(v, Ok(())) ==> v.effects != []
    ensures Left(Tried(r.world, d, r.reply), blob)
  {
  }

  /** Beginning and filling a transfer. */
  lemma BeginLeaves(s: Schedule, w: World, blob: bool)
    requires Unanswered(w, blob) && Discarded(w)
    ensures var b := Begin(s, w);
      && Unanswered(b.world, blob) && Discarded(b.world) && Grown(w, b.world)
      && (b.reply.Ok? ==> b.reply.value < b.world.next && Some(b.reply.value) !in w.flying)
      && (b.reply.Failed? ==> b.reply.fault in {Lost, Refused})
  {
    ReachedKeeps(s, w, blob);
    LaterKeeps(w, Reached(s, w));
    assert forall d :: d in w.flying && d.Some? ==> d.value < w.next;
  }

  lemma FinishLeaves(s: Schedule, w: World, blob: bool)
    requires Unanswered(w, blob) && Discarded(w)
    ensures var f := Finish(s, w);
      && Unanswered(f.world, blob) && Discarded(f.world) && Grown(w, f.world)
      && (f.reply.Failed? ==> f.reply.fault in {Lost, Refused})
  {
    ReachedKeeps(s, w, blob);
    LaterKeeps(w, Reached(s, w));
  }

  lemma LeavesEarly(w: World, transfer: Option<nat>, reply: Reply<()>, blob: bool)
    requires Unanswered(w, blob) && Discarded(w) && (reply.Ok? ==> w.effects != []) && (transfer.Some? ==> transfer.value < w.next)
    ensures Left(Tried(w, transfer, reply), blob)
  {
  }

  lemma TryLeaves(s: Schedule, w: World, operations: nat, blob: bool, first: bool)
    requires Unanswered(w, blob) && Discarded(w) && operations > 0
    requires first ==> w.effects == [] && w.flying == {}
    ensures var t := Try(s, w, operations, blob, first);
      && Left(t, blob) && w.flying <= t.world.flying
      && (t.reply == Failed(Conflict) ==> blob && t.world.effects != [] && Undone(t.world, blob))
      && (t.reply == Failed(Inconsistent) ==> operations > 1 && t.world.effects != [])
      && (first && t.reply.Failed? && t.reply.fault != Lost ==> t.world.flying == {})
  {
    hide Unanswered, Discarded, Undone, Left, Status, Begin, Finish, Send;
    var known := if first then Step(w, Ok(false)) else Status(s, w, operations);
    var v := known.world;
    if !first {
      StatusSays(s, w, operations, blob);
      LaterKeeps(w, v);
    }
    if known.reply.Failed? {
      LeavesEarly(v, None, Failed(known.reply.fault), blob);
    } else if known.reply.value {
      LeavesEarly(v, None, Ok(()), blob);
    } else {
      NoneUndone(w, blob);
      LaterGrows(w, v, v);
      GrowsSelf(w);
      UndoneStays(w, v, blob);
      if blob {
        BeginLeaves(s, v, blob);
        var begun := Begin(s, v);
        UndoneStays(v, begun.world, blob);
        if begun.reply.Failed? {
          LeavesEarly(begun.world, None, Failed(begun.reply.fault), blob);
        } else {
          FinishLeaves(s, begun.world, blob);
          var finished := Finish(s, begun.world);
          UndoneStays(begun.world, finished.world, blob);
          if finished.reply.Failed? {
            LeavesEarly(finished.world, Some(begun.reply.value), Failed(finished.reply.fault), blob);
          } else {
            SendLeaves(s, finished.world, Some(begun.reply.value), blob);
          }
        }
      } else {
        SendLeaves(s, v, None, blob);
      }
    }
  }

  lemma NoneUndone(w: World, blob: bool)
    ensures w.effects == [] ==> Undone(w, blob)
  {
  }

  lemma GrowsSelf(w: World)
    ensures Grown(w, w)
  {
  }

  /** What an outcome says of the world it leaves. */
  predicate Verdict(r: Run, operations: nat, blob: bool) {
    && |r.world.effects| <= 1
    && (r.outcome == Done ==> r.world.effects != [])
    && (r.outcome.Thrown? ==> Unanswered(r.world, blob) && Discarded(r.world))
    && (r.outcome == Thrown(Conflict) ==> blob && r.world.effects != [] && Undone(r.world, blob))
    && (r.outcome == Thrown(Inconsistent) ==> operations > 1 && r.world.effects != [])
  }

  lemma DiscardLeaves(s: Schedule, w: World, transfer: nat, blob: bool)
    requires transfer < w.next && Known(w) && |w.effects| <= 1
    requires forall x :: Some(x) in w.flying && x in w.live ==> x in w.failed || x == transfer
    requires (w.effects != [] ==> w.effects[0] in w.flying) ==> Unanswered(w, blob)
    ensures var v := Discard(s, w, transfer);
      && (Unanswered(w, blob) ==> Unanswered(v, blob) && Discarded(v) && w.flying == v.flying)
      && w.effects <= v.effects && |v.effects| <= 1
      && (w.effects != [] && Undone(w, blob) ==> Undone(v, blob))
  {
  }

  /** What the status request before the next attempt leaves as it is. */
  lemma JudgeLeaves(s: Schedule, t: Tried, operations: nat, blob: bool)
    requires Left(t, blob) && operations > 0
    requires t.reply == Failed(Conflict) ==> blob && t.world.effects != [] && Undone(t.world, blob)
    requires t.reply == Failed(Inconsistent) ==> operations > 1 && t.world.effects != []
    ensures var j := Judge(s, t, operations);
      && Left(t.(world := j.world), blob) && t.world.flying == j.world.flying
      && (j.ended.None? ==> Unanswered(j.world, blob))
      && (j.ended.Some? ==>
            var o := j.ended.value;
            && (o == Done ==> j.world.effects != [])
            && (o.Thrown? ==> Unanswered(j.world, blob))
            && (o == Thrown(Conflict) ==> blob && j.world.effects != [] && Undone(j.world, blob))
            && (o == Thrown(Inconsistent) ==> operations > 1 && j.world.effects != []))
  {
    hide Unanswered, Undone, Status;
    if t.reply == Failed(Lost) {
      StatusSays(s, t.world, operations, blob);
      var k := Status(s, t.world, operations);
      LeftLater(t, k.world, blob);
    }
  }

  lemma LeftLater(t: Tried, v: World, blob: bool)
    requires Left(t, blob) && Later(t.world, v) && Unanswered(v, blob) && t.reply.Failed?
    ensures Left(t.(world := v), blob)
  {
  }

  lemma AttemptLeaves(s: Schedule, w: World, operations: nat, blob: bool, first: bool)
    requires Unanswered(w, blob) && Discarded(w) && operations > 0
    requires first ==> w.effects == [] && w.flying == {}
    ensures var a := Attempt(s, w, operations, blob, first);
      && (a.ended.None? ==> Unanswered(a.world, blob) && Discarded(a.world))
      && (a.ended.Some? ==> Verdict(Run(a.world, a.ended.value), operations, blob))
  {
    hide Unanswered, Discarded, Undone, Try, Judge, Discard;
    var t := Try(s, w, operations, blob, first);
    TryLeaves(s, w, operations, blob, first);
    JudgeLeaves(s, t, operations, blob);
    var j := Judge(s, t, operations);
    LeftIs(t.(world := j.world), blob);
    if t.transfer.Some? {
      DiscardLeaves(s, j.world, t.transfer.value, blob);
    }
  }

  lemma LeftIs(t: Tried, blob: bool)
    requires Left(t, blob)
    ensures Known(t.world) && |t.world.effects| <= 1
    ensures t.transfer.None? ==> Discarded(t.world)
    ensures t.transfer.Some? ==> t.transfer.value < t.world.next
    ensures t.transfer.Some? ==> forall x :: Some(x) in t.world.flying && x in t.world.live ==> x in t.world.failed || x == t.transfer.value
    ensures (t.world.effects != [] ==> t.world.effects[0] in t.world.flying) ==> Unanswered(t.world, blob)
  {
  }

  lemma {:induction false} AttemptsLeave(s: Schedule, w: World, operations: nat, blob: bool, left: nat)
    requires Unanswered(w, blob) && Discarded(w) && operations > 0 && left <= ATTEMPTS
    requires left == ATTEMPTS ==> w.effects == [] && w.flying == {}
    ensures Verdict(Attempts(s, w, operations, blob, left), operations, blob)
    decreases left
  {
    hide Attempt, Discarded, Undone;
    if left > 0 {
      AttemptLeaves(s, w, operations, blob, left == ATTEMPTS);
      var a := Attempt(s, w, operations, blob, left == ATTEMPTS);
      if a.ended.None? {
        AttemptsLeave(s, a.world, operations, blob, left - 1);
      }
    }
  }

  // ----- what a throw leaves -----

  /** The batch is durable, or a request whose reply was lost may still make it so. */
  predicate Doubtful(w: World) { w.effects != [] || exists d :: d in w.flying && Publishable(w, d) }

  /** Of every run: it returns only once the batch is durable, and the batch takes effect at
      most once. A throw with no commit reply lost leaves the batch out for good; without a
      blob one with a lost reply never does, and with a blob exactly one that finds it durable,
      or whose discard of the doubtful transfer failed. */
  lemma RunLeaves(s: Schedule, operations: nat, blob: bool)
    requires operations > 0
    ensures var r := Whole(s, operations, blob);
      && |r.world.effects| <= 1
      && (r.outcome == Done ==> r.world.effects != [])
      && (r.outcome.Thrown? && r.world.flying == {} ==> !Doubtful(r.world))
      && (r.outcome.Thrown? && !blob ==> (Doubtful(r.world) <==> r.world.flying != {}))
      && (r.outcome.Thrown? && blob ==>
            (Doubtful(r.world) <==> r.world.effects != [] || exists t :: t in r.world.failed && t in r.world.live && Some(t) in r.world.flying))
  {
    AttemptsLeave(s, START, operations, blob, ATTEMPTS);
    var w := Whole(s, operations, blob).world;
    if Whole(s, operations, blob).outcome.Thrown? {
      if !blob && w.flying != {} {
        var d :| d in w.flying;
        assert Publishable(w, d);
      }
      if blob && w.effects == [] && Doubtful(w) {
        var d :| d in w.flying && Publishable(w, d);
        assert d.value in w.failed && d.value in w.live && Some(d.value) in w.flying;
      }
      if t :| t in w.failed && t in w.live && Some(t) in w.flying {
        assert Publishable(w, Some(t));
      }
    }
  }

  /** Anything the first attempt learns but a lost reply is final, and the batch is out. */
  lemma FirstRefusalIsFinal(s: Schedule, operations: nat, blob: bool)
    requires operations > 0
    requires var t := Try(s, START, operations, blob, true); t.reply.Failed? && t.reply.fault != Lost
    ensures var r := Whole(s, operations, blob);
      r.outcome == Thrown(Try(s, START, operations, blob, true).reply.fault) && !Doubtful(r.world)
  {
    hide Try, Discard, Status, Doubtful;
    TryLeaves(s, START, operations, blob, true);
    RunLeaves(s, operations, blob);
    var t := Try(s, START, operations, blob, true);
    if t.transfer.Some? {
      DiscardFlies(s, t.world, t.transfer.value);
    }
  }

  lemma DiscardFlies(s: Schedule, w: World, transfer: nat)
    ensures Discard(s, w, transfer).flying == w.flying
  {
  }

  // ----- when storage answers -----

  /** From this time on nothing is in the way. */
  ghost predicate Calm(s: Schedule, time: nat) { forall t :: t >= time ==> s(t) == Fate(Nothing, Answered) }

  lemma {:induction false} CalmStatus(s: Schedule, w: World, n: nat, some: bool, every: bool)
    requires Calm(s, w.time) && (some ==> w.effects != []) && (!every ==> w.effects == [])
    ensures StatusFrom(s, w, n, some, every) == Step(w.(time := w.time + n), Ok(every && (n == 0 || w.effects != [])))
    decreases n
  {
    if n > 0 {
      assert s(w.time) == Fate(Nothing, Answered);
      assert Poll(s, w) == Step(w.(time := w.time + 1), Ok(w.effects != []));
      CalmStatus(s, w.(time := w.time + 1), n - 1, some || w.effects != [], every && w.effects != []);
    }
  }

  lemma CalmTry(s: Schedule, w: World, operations: nat, blob: bool, first: bool)
    requires Calm(s, w.time) && operations > 0 && (first ==> w.effects == [])
    ensures var t := Try(s, w, operations, blob, first); t.reply == Ok(()) && t.world.effects != [] && t.world.time >= w.time
  {
    hide Begin, Finish, Send, Status;
    var known := if first then Step(w, Ok(false)) else Status(s, w, operations);
    if !first {
      CalmStatusAll(s, w, operations);
    }
    if !known.reply.value {
      var v := known.world;
      if blob {
        CalmBegin(s, v);
        CalmFinish(s, Begin(s, v).world);
        CalmSend(s, Finish(s, Begin(s, v).world).world, Some(Begin(s, v).reply.value));
      } else {
        CalmSend(s, v, None);
      }
    }
  }

  lemma CalmStatusAll(s: Schedule, w: World, operations: nat)
    requires Calm(s, w.time) && operations > 0
    ensures Status(s, w, operations) == Step(w.(time := w.time + operations), Ok(w.effects != []))
  {
    hide StatusFrom;
    CalmStatus(s, w, operations, false, true);
  }

  lemma CalmBegin(s: Schedule, w: World)
    requires Calm(s, w.time)
    ensures var b := Begin(s, w); b.reply.Ok? && b.world.effects == w.effects && b.world.time == w.time + 1
  {
    assert s(w.time) == Fate(Nothing, Answered);
  }

  lemma CalmFinish(s: Schedule, w: World)
    requires Calm(s, w.time)
    ensures Finish(s, w) == Step(w.(time := w.time + 1), Ok(()))
  {
    assert s(w.time) == Fate(Nothing, Answered);
  }

  lemma CalmSend(s: Schedule, w: World, d: Staged)
    requires Calm(s, w.time) && w.effects == []
    ensures Send(s, w, d) == Step(w.(effects := [d], time := w.time + 1), Ok(()))
  {
    assert s(w.time) == Fate(Nothing, Answered);
  }

  /** The world after so many attempts that left the batch undecided. */
  function Undecided(s: Schedule, operations: nat, blob: bool, attempts: nat): Option<World>
    requires attempts <= 3
  {
    if attempts == 0 then Some(START)
    else
      var w := Undecided(s, operations, blob, attempts - 1);
      if w.None? then None
      else
        var a := Attempt(s, w.value, operations, blob, attempts == 1);
        if a.ended.None? then Some(a.world) else None
  }

  lemma {:induction false} UndecidedGoesOn(s: Schedule, operations: nat, blob: bool, attempts: nat)
    requires attempts <= 3 && Undecided(s, operations, blob, attempts).Some?
    ensures Whole(s, operations, blob) == Attempts(s, Undecided(s, operations, blob, attempts).value, operations, blob, 3 - attempts)
    decreases attempts
  {
    hide Attempt;
    if attempts > 0 {
      UndecidedGoesOn(s, operations, blob, attempts - 1);
    }
  }

  /** A batch that has not been decided is committed and returned as soon as storage answers
      everything from the next of its three attempts on. */
  lemma ReturnsOnceAnswered(s: Schedule, operations: nat, blob: bool, attempts: nat)
    requires operations > 0 && attempts < 3 && Undecided(s, operations, blob, attempts).Some?
    requires Calm(s, Undecided(s, operations, blob, attempts).value.time)
    ensures var r := Whole(s, operations, blob); r.outcome == Done && |r.world.effects| == 1
  {
    hide Try, Discard, Calm;
    UndecidedGoesOn(s, operations, blob, attempts);
    var w := Undecided(s, operations, blob, attempts).value;
    CalmTry(s, w, operations, blob, attempts == 0);
    RunLeaves(s, operations, blob);
    assert Attempt(s, w, operations, blob, attempts == 0).ended == Some(Done);
  }

  /** And when storage answers everything once a reply has been lost, the status decides: what has
      become durable is returned, and what has not is committed by the next attempt, if any. */
  lemma ReturnsAfterLoss(s: Schedule, operations: nat, blob: bool, attempts: nat)
    requires operations > 0 && attempts < 3 && Undecided(s, operations, blob, attempts).Some?
    requires var t := Try(s, Undecided(s, operations, blob, attempts).value, operations, blob, attempts == 0);
      t.reply == Failed(Lost) && Calm(s, t.world.time)
    ensures var t, r := Try(s, Undecided(s, operations, blob, attempts).value, operations, blob, attempts == 0), Whole(s, operations, blob);
      r.outcome == if t.world.effects != [] || attempts < 2 then Done else Thrown(Lost)
  {
    hide Try, Discard, Calm, Status;
    var w := Undecided(s, operations, blob, attempts).value;
    var t := Try(s, w, operations, blob, attempts == 0);
    UndecidedGoesOn(s, operations, blob, attempts);
    CalmStatusAll(s, t.world, operations);
    var a := Attempt(s, w, operations, blob, attempts == 0);
    if t.world.effects == [] {
      assert a.ended.None?;
      assert Undecided(s, operations, blob, attempts + 1) == Some(a.world);
      if attempts < 2 {
        LaterCalm(s, t.world, operations, t.transfer);
        ReturnsOnceAnswered(s, operations, blob, attempts + 1);
      } else {
        UndecidedGoesOn(s, operations, blob, 3);
      }
    }
  }

  lemma LaterCalm(s: Schedule, w: World, operations: nat, transfer: Option<nat>)
    requires Calm(s, w.time)
    ensures var v := Status(s, w, operations).world; v.time >= w.time && Calm(s, v.time)
    ensures var v := Status(s, w, operations).world; transfer.Some? ==> Calm(s, Discard(s, v, transfer.value).time)
  {
    hide Status;
    StatusGoesOn(s, w, operations, false, true);
  }

  lemma {:induction false} StatusGoesOn(s: Schedule, w: World, n: nat, some: bool, every: bool)
    ensures StatusFrom(s, w, n, some, every).world.time >= w.time
    ensures Status(s, w, n).world == StatusFrom(s, w, n, false, true).world
    decreases n
  {
    if n > 0 && Poll(s, w).reply.Ok? {
      StatusGoesOn(s, Poll(s, w).world, n - 1, some || Poll(s, w).reply.value, every && Poll(s, w).reply.value);
    }
  }

  // ----- the failing schedules -----

  /** A run that throws a fault although the batch is durable. */
  predicate ThrowsDurable(s: Schedule, operations: nat, blob: bool, fault: Fault) {
    var r := Whole(s, operations, blob);
    r.outcome == Thrown(fault) && r.world.effects != []
  }

  function Sent(blob: bool): nat { if blob then 2 else 0 }

  function FirstStaged(blob: bool): Staged { if blob then Some(0) else None }

  /** The world in which the first commit request's reply has been lost. */
  function AfterLoss(blob: bool): World {
    if blob then World([], {Some(0)}, {0}, {}, {}, 1, 3) else World([], {None}, {}, {}, {}, 0, 1)
  }

  predicate LosesFirst(s: Schedule, blob: bool) {
    && (forall n: nat :: n < Sent(blob) ==> s(n).answer == Answered) && s(Sent(blob)).answer == Dropped
  }

  lemma FirstLoss(s: Schedule, operations: nat, blob: bool)
    requires LosesFirst(s, blob)
    ensures Try(s, START, operations, blob, true) == Tried(AfterLoss(blob), FirstStaged(blob), Failed(Lost))
  {
    if blob {
      var a := World([], {}, {0}, {}, {}, 1, 1);
      assert s(0).answer == Answered && s(1).answer == Answered;
      assert Begin(s, START) == Step(a, Ok(0));
      assert Finish(s, a) == Step(a.(time := 2), Ok(()));
      assert Send(s, a.(time := 2), Some(0)) == Step(AfterLoss(true), Failed(Lost));
    } else {
      assert Send(s, START, None) == Step(AfterLoss(false), Failed(Lost));
    }
  }

  /** After the lost commit nothing is heard, or everything is refused. */
  function Silence(blob: bool, later: Answer): Schedule {
    (n: nat) => Fate(Commits(FirstStaged(blob)), if n < Sent(blob) then Answered else if n == Sent(blob) then Dropped else later)
  }

  lemma LossLands(s: Schedule, operations: nat, blob: bool)
    requires operations > 0 && s(Sent(blob) + 1).landing == Commits(FirstStaged(blob)) && s(Sent(blob) + 1).answer != Answered
    ensures var r := Status(s, AfterLoss(blob), operations);
      r.world.effects == [FirstStaged(blob)] && r.world.time == Sent(blob) + 2 && r.reply == Failed(Missed(s(Sent(blob) + 1).answer))
  {
    assert AfterLoss(blob).time == Sent(blob) + 1;
    assert Reached(s, AfterLoss(blob)).effects == [FirstStaged(blob)];
  }

  lemma {:induction false} NothingHeard(s: Schedule, w: World, operations: nat, blob: bool, left: nat)
    requires operations > 0 && w.effects != [] && left < ATTEMPTS && forall n: nat :: n >= w.time ==> s(n).answer == Dropped
    ensures Attempts(s, w, operations, blob, left).outcome == Thrown(Lost) && Attempts(s, w, operations, blob, left).world.effects != []
    decreases left
  {
    if left > 0 {
      var a := Status(s, w, operations);
      assert a.reply == Failed(Lost) && a.world.effects != [] && a.world.time == w.time + 1;
      var b := Status(s, a.world, operations);
      assert b.reply == Failed(Lost) && b.world.effects != [] && b.world.time == w.time + 2;
      assert Attempt(s, w, operations, blob, false) == Judged(b.world, None);
      NothingHeard(s, b.world, operations, blob, left - 1);
    }
  }

  lemma SilenceThrows(operations: nat, blob: bool, later: Answer)
    requires operations > 0 && later != Answered
    ensures ThrowsDurable(Silence(blob, later), operations, blob, Missed(later))
  {
    hide Attempts, Try, Status;
    var s := Silence(blob, later);
    FirstLoss(s, operations, blob);
    LossLands(s, operations, blob);
    var known := Status(s, AfterLoss(blob), operations);
    var a := Attempt(s, START, operations, blob, true);
    assert a.world.effects != [] && a.ended == if later == Dropped then None else Some(Thrown(Refused));
    AttemptsOne(s, START, operations, blob, ATTEMPTS);
    if later == Dropped {
      assert a.world.time >= Sent(blob) + 2;
      NothingHeard(s, a.world, operations, blob, 2);
    }
  }

  lemma AttemptsOne(s: Schedule, w: World, operations: nat, blob: bool, left: nat)
    requires 0 < left <= ATTEMPTS
    ensures var a := Attempt(s, w, operations, blob, left == ATTEMPTS);
      Attempts(s, w, operations, blob, left) ==
      if a.ended.Some? then Run(a.world, a.ended.value) else Attempts(s, a.world, operations, blob, left - 1)
  {
    hide Attempt;
  }

  /** The lost commit lands between the first two status requests. */
  function Between(blob: bool): Schedule {
    (n: nat) => Fate(if n <= Sent(blob) + 1 then Nothing else Commits(FirstStaged(blob)), if n == Sent(blob) then Dropped else Answered)
  }

  lemma {:induction false} Mixed(s: Schedule, w: World, n: nat)
    requires w.effects != [] && forall k: nat :: k >= w.time ==> s(k).answer == Answered
    ensures var r := StatusFrom(s, w, n, true, false); r.reply == Failed(Inconsistent) && r.world.effects != []
    decreases n
  {
    if n > 0 {
      Mixed(s, Reached(s, w), n - 1);
    }
  }

  lemma BetweenThrows(operations: nat, blob: bool)
    requires operations > 1
    ensures ThrowsDurable(Between(blob), operations, blob, Inconsistent)
  {
    hide Attempts, Try, StatusFrom;
    var s := Between(blob);
    FirstLoss(s, operations, blob);
    var w := AfterLoss(blob);
    var v := Reached(s, w);
    assert Poll(s, w) == Step(v, Ok(false)) && v.time == Sent(blob) + 2 && v.effects == [] && v.flying == {FirstStaged(blob)};
    var u := Reached(s, v);
    assert Poll(s, v) == Step(u, Ok(true)) && u.effects != [];
    StatusOne(s, w, operations, false, true);
    StatusOne(s, v, operations - 1, false, false);
    Mixed(s, u, operations - 2);
    assert Status(s, w, operations).reply == Failed(Inconsistent);
    AttemptsOne(s, START, operations, blob, ATTEMPTS);
  }

  lemma StatusOne(s: Schedule, w: World, n: nat, some: bool, every: bool)
    requires n > 0
    ensures var p := Poll(s, w);
      StatusFrom(s, w, n, some, every) == if p.reply.Failed? then p else StatusFrom(s, p.world, n - 1, some || p.reply.value, every && p.reply.value)
  {
    hide Poll;
  }

  /** The first discard fails and the first commit lands just before the second is served. */
  function Overtaken(operations: nat): Schedule {
    (n: nat) => Fate(if n == 6 + 2 * operations then Commits(Some(0)) else Nothing, if n == 2 || n == 3 + operations then Dropped else Answered)
  }

  lemma {:induction false} NoneYet(s: Schedule, w: World, n: nat, every: bool)
    requires w.effects == [] && forall k: nat :: w.time <= k < w.time + n ==> s(k) == Fate(Nothing, Answered)
    ensures StatusFrom(s, w, n, false, every) == Step(w.(time := w.time + n), Ok(every && n == 0))
    decreases n
  {
    if n > 0 {
      assert Poll(s, w) == Step(w.(time := w.time + 1), Ok(false));
      NoneYet(s, w.(time := w.time + 1), n - 1, false);
    }
  }

  lemma OvertakenThrows(operations: nat)
    requires operations > 0
    ensures ThrowsDurable(Overtaken(operations), operations, true, Conflict)
  {
    hide Attempts, StatusFrom;
    var s := Overtaken(operations);
    var w := AfterLoss(true);
    assert s(3 + operations).answer == Dropped;
    AttemptsOne(s, START, operations, true, 3);
    assert Attempt(s, START, operations, true, true) == Judged(World([], {Some(0)}, {0}, {0}, {0}, 1, 4 + operations), None) by {
      hide Try;
      FirstLoss(s, operations, true);
      NoneYet(s, w, operations, true);
    }
    var v := World([], {Some(0)}, {0}, {0}, {0}, 1, 4 + operations);
    NoneYet(s, v, operations, true);
    var u := v.(time := 4 + 2 * operations);
    assert Status(s, v, operations) == Step(u, Ok(false));
    var b := u.(live := {0, 1}, next := 2, time := u.time + 1);
    assert Begin(s, u) == Step(b, Ok(1));
    var f := b.(time := b.time + 1);
    assert Finish(s, b) == Step(f, Ok(()));
    assert Send(s, f, Some(1)) == Step(f.(effects := [Some(0)], time := f.time + 1), Failed(Conflict));
    AttemptsOne(s, v, operations, true, 2);
  }

  /** Which throws can come over a durable batch, and over which batches: any lost or refused
      reply's, a conflict's exactly over a batch with a blob, an inconsistency's exactly over
      one of several operations. */
  lemma ThrowsOverDurable(operations: nat, blob: bool, fault: Fault)
    requires operations > 0
    ensures (exists s :: ThrowsDurable(s, operations, blob, fault)) <==> (fault == Conflict ==> blob) && (fault == Inconsistent ==> operations > 1)
  {
    hide Whole, Verdict;
    forall s | ThrowsDurable(s, operations, blob, fault)
      ensures (fault == Conflict ==> blob) && (fault == Inconsistent ==> operations > 1)
    {
      Faults(s, operations, blob);
    }
    match fault {
      case Lost => SilenceThrows(operations, blob, Dropped);
      case Refused => SilenceThrows(operations, blob, Rejected);
      case Conflict =>
        if blob {
          OvertakenThrows(operations);
        }
      case Inconsistent =>
        if operations > 1 {
          BetweenThrows(operations, blob);
        }
    }
  }

  /** A conflict is always thrown over a durable batch, and means a discard failed; so is an
      inconsistency. */
  lemma Faults(s: Schedule, operations: nat, blob: bool)
    requires operations > 0
    ensures var r := Whole(s, operations, blob);
      && (r.outcome == Thrown(Conflict) ==> blob && r.world.effects != [] && r.world.effects[0].Some? && r.world.effects[0].value in r.world.failed)
      && (r.outcome == Thrown(Inconsistent) ==> operations > 1 && r.world.effects != [])
  {
    hide Attempts;
    AttemptsLeave(s, START, operations, blob, ATTEMPTS);
  }
}
