/** Restartable preservation of one blob, packages/importers/src/upload.ts, over a durable
    checkpoint saved by compare-and-set, packages/importers/src/storage.ts. A run may be cut
    off at any storage call; what it had asked for may still take effect at any later one,
    while other runs are under way. */
module Upload {
  import opened Common

  type Bytes = seq<bv8>

  /** SHA-256 taken as injective: a digest is known by its content. */
  datatype Digest = Digest(content: Bytes)

  datatype Blob = Blob(transfer: nat, sha256: Digest, byteLength: nat)

  /** The durable state of one slot. Operation IDs are allocated per attempt. */
  datatype Slot =
    | Absent
    | Uploading(attempt: nat)
    | Finishing(attempt: nat, blob: Blob)
    | Verified(attempt: nat, blob: Blob)

  datatype Transfer = Receiving(received: Bytes, complete: bool) | Dropped | Sealed(blob: Blob)

  /** What has happened, in order; `Checked` is a status read of an attempt's begin operation,
      and `Passed` the moment a run that read it at `at` goes on to the next attempt. */
  datatype Event =
    | Checked(attempt: nat)
    | Passed(attempt: nat, at: nat)
    | Began(attempt: nat, transfer: nat)
    | Discarded(transfer: nat)
    | Saved(slot: Slot)
    | Finished(blob: Blob)
    | Returned(blob: Blob)

  type Log = seq<Event>

  // ----- what holds of every history -----

  /** Slots in the order they were saved. */
  function SlotsOf(log: Log): seq<Slot> {
    if log == [] then []
    else
      var last := log[|log| - 1];
      SlotsOf(log[..|log| - 1]) + (if last.Saved? then [last.slot] else [])
  }

  function SlotAt(saved: seq<Slot>, revision: nat): Slot
    requires revision <= |saved|
  {
    if revision == 0 then Absent else saved[revision - 1]
  }

  /** The next durable state: attempts follow one another, one of them is finished, once. */
  predicate Next(before: Slot, after: Slot) {
    match after
    case Absent => false
    case Uploading(a) => if a == 0 then before.Absent? else before == Uploading(a - 1)
    case Finishing(a, _) => before == Uploading(a)
    case Verified(a, blob) => before == Finishing(a, blob)
  }

  ghost predicate Chain(saved: seq<Slot>) { forall r :: 0 <= r < |saved| ==> Next(SlotAt(saved, r), saved[r]) }

  predicate BeganAs(e: Event, attempt: nat) { e.Began? && e.attempt == attempt }

  ghost predicate DiscardedIn(log: Log, from: nat, to: nat, transfer: nat)
    requires to <= |log|
  {
    exists d :: from < d < to && log[d] == Discarded(transfer)
  }

  /** Some attempt's transfer, after a status read of that attempt. */
  ghost predicate Sweepable(log: Log, transfer: nat) {
    exists i, k :: 0 <= i < k < |log| && log[i].Began? && log[i].transfer == transfer && log[k] == Checked(log[i].attempt)
  }

  ghost predicate PassedIn(log: Log, attempt: nat) { exists p :: 0 <= p < |log| && log[p].Passed? && log[p].attempt == attempt }

  /** What may happen next. */
  ghost predicate Fine(log: Log, e: Event) {
    match e
    case Checked(_) => true
    case Passed(a, at) =>
      && at < |log| && log[at] == Checked(a)
      && forall i :: 0 <= i < at && BeganAs(log[i], a) ==> DiscardedIn(log, at, |log|, log[i].transfer)
    case Began(a, t) => Saved(Uploading(a)) in log && forall i :: 0 <= i < |log| && log[i].Began? ==> log[i].attempt != a && log[i].transfer != t
    case Discarded(t) => Sweepable(log, t)
    case Saved(slot) =>
      && Next(SlotAt(SlotsOf(log), |SlotsOf(log)|), slot)
      && (slot.Uploading? && slot.attempt > 0 ==> PassedIn(log, slot.attempt - 1))
    case Finished(blob) => (exists a :: Saved(Finishing(a, blob)) in log) && Discarded(blob.transfer) !in log
    case Returned(blob) => Finished(blob) in log
  }

  ghost predicate Disciplined(log: Log) { forall j :: 0 <= j < |log| ==> Fine(log[..j], log[j]) }

  lemma DisciplinedMore(log: Log, e: Event)
    requires Disciplined(log) && Fine(log, e)
    ensures Disciplined(log + [e])
  {
    hide Fine;
    var next := log + [e];
    forall j | 0 <= j < |next|
      ensures Fine(next[..j], next[j])
    {
      assert next[..j] == log[..j];
      if j == |log| {
        assert log[..j] == log;
      }
    }
  }

  lemma SlotsMore(log: Log, e: Event)
    ensures SlotsOf(log + [e]) == SlotsOf(log) + (if e.Saved? then [e.slot] else [])
  {
    assert (log + [e])[..|log|] == log;
  }

  lemma {:induction false} SlotsIn(log: Log, slot: Slot)
    ensures slot in SlotsOf(log) <==> Saved(slot) in log
    decreases |log|
  {
    if log != [] {
      var front, last := log[..|log| - 1], log[|log| - 1];
      SlotsIn(front, slot);
      assert log == front + [last];
    }
  }

  lemma {:induction false} SlotsChain(log: Log)
    requires Disciplined(log)
    ensures Chain(SlotsOf(log))
    decreases |log|
  {
    hide Next;
    if log != [] {
      var front, last := log[..|log| - 1], log[|log| - 1];
      assert forall j :: 0 <= j < |front| ==> front[..j] == log[..j];
      SlotsChain(front);
      assert Fine(front, last);
    }
  }

  /** Once `finishing` is durable the slot is that blob's for good. */
  lemma {:induction false} FinishingIsFinal(saved: seq<Slot>, i: nat, j: nat)
    requires Chain(saved) && i < j < |saved| && (saved[i].Finishing? || saved[i].Verified?)
    ensures saved[i].Finishing? && j == i + 1 && saved[j] == Verified(saved[i].attempt, saved[i].blob)
    decreases j - i
  {
    assert Next(SlotAt(saved, i + 1), saved[i + 1]);
    if i + 1 < j {
      FinishingIsFinal(saved, i + 1, j);
    }
  }

  /** Hence one blob is ever made durable. */
  lemma OneFinishing(log: Log, a: nat, x: Blob, b: nat, y: Blob)
    requires Disciplined(log) && Saved(Finishing(a, x)) in log && Saved(Finishing(b, y)) in log
    ensures a == b && x == y
  {
    hide Fine, Chain;
    SlotsChain(log);
    var saved := SlotsOf(log);
    SlotsIn(log, Finishing(a, x));
    SlotsIn(log, Finishing(b, y));
    var i :| 0 <= i < |saved| && saved[i] == Finishing(a, x);
    var j :| 0 <= j < |saved| && saved[j] == Finishing(b, y);
    if i < j {
      FinishingIsFinal(saved, i, j);
    } else if j < i {
      FinishingIsFinal(saved, j, i);
    }
  }

  lemma FineAt(log: Log, e: Event)
    requires Disciplined(log) && e in log
    ensures exists j :: 0 <= j < |log| && log[j] == e && Fine(log[..j], e)
  {
    hide Fine;
    var j :| 0 <= j < |log| && log[j] == e;
    assert Fine(log[..j], log[j]);
  }

  lemma ReturnedIsDurable(log: Log, blob: Blob)
    requires Disciplined(log) && Returned(blob) in log
    ensures Finished(blob) in log && exists a :: Saved(Finishing(a, blob)) in log
  {
    FineAt(log, Returned(blob));
    FineAt(log, Finished(blob));
  }

  /** All runs that return give the same transfer, digest and length. */
  lemma ReturnsAgree(log: Log, x: Blob, y: Blob)
    requires Disciplined(log) && Returned(x) in log && Returned(y) in log
    ensures x == y
  {
    hide Disciplined, Fine;
    ReturnedIsDurable(log, x);
    ReturnedIsDurable(log, y);
    var a :| Saved(Finishing(a, x)) in log;
    var b :| Saved(Finishing(b, y)) in log;
    OneFinishing(log, a, x, b, y);
  }

  /** Transfers and attempts are begun once. */
  lemma BeginsDiffer(log: Log, i: nat, j: nat)
    requires Disciplined(log) && i < j < |log| && log[i].Began? && log[j].Began?
    ensures log[i].transfer != log[j].transfer && log[i].attempt != log[j].attempt
  {
    assert Fine(log[..j], log[j]);
    assert log[..j][i] == log[i];
  }

  lemma OneBegin(log: Log, i: nat, j: nat)
    requires Disciplined(log) && i < |log| && j < |log| && log[i].Began? && log[j].Began?
    requires log[i].transfer == log[j].transfer || log[i].attempt == log[j].attempt
    ensures i == j
  {
    hide Disciplined;
    if i < j {
      BeginsDiffer(log, i, j);
    } else if j < i {
      BeginsDiffer(log, j, i);
    }
  }

  /** A run that passes an attempt has discarded what had begun of it. */
  lemma PassedSwept(log: Log, a: nat, at: nat, i: nat)
    requires Disciplined(log) && Passed(a, at) in log && i < at && i < |log| && BeganAs(log[i], a)
    ensures Discarded(log[i].transfer) in log
  {
    FineAt(log, Passed(a, at));
    var p :| 0 <= p < |log| && log[p] == Passed(a, at) && Fine(log[..p], log[p]);
    assert BeganAs(log[..p][i], a);
    var d :| at < d < p && log[..p][d] == Discarded(log[i].transfer);
    assert log[d] == Discarded(log[i].transfer);
  }

  /** What is discarded had begun before some status read of its attempt. */
  lemma DiscardedWasRead(log: Log, i: nat) returns (k: nat)
    requires Disciplined(log) && i < |log| && log[i].Began? && Discarded(log[i].transfer) in log
    ensures i < k < |log| && log[k] == Checked(log[i].attempt)
  {
    var t := log[i].transfer;
    FineAt(log, Discarded(t));
    var d :| 0 <= d < |log| && log[d] == Discarded(t) && Fine(log[..d], log[d]);
    var before := log[..d];
    var b, c :| 0 <= b < c < |before| && before[b].Began? && before[b].transfer == t && before[c] == Checked(before[b].attempt);
    assert log[b] == before[b] && log[c] == before[c];
    hide Disciplined, Fine;
    OneBegin(log, b, i);
    k := c;
  }

  /** An attempt's transfer is discarded if it had begun by a status read that let a run pass
      to the next attempt, and only if it had begun by some status read of the attempt. */
  lemma EscapesBetween(log: Log, a: nat, i: nat)
    requires Disciplined(log) && i < |log| && BeganAs(log[i], a)
    ensures (exists at :: i < at && Passed(a, at) in log) ==> Discarded(log[i].transfer) in log
    ensures Discarded(log[i].transfer) in log ==> exists k :: i < k < |log| && log[k] == Checked(a)
  {
    hide Disciplined;
    if at :| i < at && Passed(a, at) in log {
      PassedSwept(log, a, at, i);
    }
    if Discarded(log[i].transfer) in log {
      var k := DiscardedWasRead(log, i);
    }
  }

  /** When one status read of an attempt let a run pass to the next, and no run read it again,
      the attempt's transfer is discarded exactly if it had begun by then: a begin that lands
      later is never noticed. */
  lemma EscapesExactly(log: Log, a: nat, at: nat, i: nat)
    requires Disciplined(log) && Passed(a, at) in log && i < |log| && BeganAs(log[i], a)
    requires forall k :: 0 <= k < |log| && log[k] == Checked(a) ==> k == at
    ensures Discarded(log[i].transfer) in log <==> i < at
  {
    hide Disciplined;
    EscapesBetween(log, a, i);
  }

  lemma NeverFinished(log: Log, blob: Blob, d: nat)
    requires Disciplined(log) && d < |log| && log[d] == Discarded(blob.transfer) && Finished(blob) !in log[..d]
    ensures Finished(blob) !in log
  {
    forall j | 0 <= j < |log|
      ensures log[j] != Finished(blob)
    {
      assert Fine(log[..j], log[j]);
      if j < d {
        assert log[..d][j] == log[j];
      } else if d < j {
        assert log[..j][d] == log[d];
      }
    }
  }

  /** A durable blob whose transfer was discarded before it was finished is never returned, nor
      is any other. */
  lemma LostForGood(log: Log, a: nat, blob: Blob, d: nat)
    requires Disciplined(log) && Saved(Finishing(a, blob)) in log
    requires d < |log| && log[d] == Discarded(blob.transfer) && Finished(blob) !in log[..d]
    ensures forall x :: Returned(x) !in log
  {
    hide Disciplined, Fine;
    NeverFinished(log, blob, d);
    forall x
      ensures Returned(x) !in log
    {
      if Returned(x) in log {
        ReturnedIsDurable(log, x);
        var b :| Saved(Finishing(b, x)) in log;
        OneFinishing(log, a, blob, b, x);
      }
    }
  }

  // ----- storage -----

  /** What a run may have asked for when it was cut off. */
  datatype Request = SaveAt(expected: nat, value: Slot) | BeginFor(attempt: nat) | DiscardOf(transfer: nat) | FinishOf(attempt: nat, blob: Blob)

  /** What happens in one await of a run: requests left behind that take effect, and whether the
      run is cut off there. */
  datatype Fate = Fate(lands: seq<Request>, cut: bool)

  /** How a transfer can change under the requests of other runs. */
  predicate Evolves(transfer: nat, before: Transfer, after: Transfer) {
    || after == before || after == Dropped
    || (before.Receiving? && before.complete && after == Sealed(Blob(transfer, Digest(before.received), |before.received|)))
  }

  /** The transfer holds the very bytes a blob names, or did until it was discarded. */
  predicate Holds(transfers: map<nat, Transfer>, blob: Blob) {
    && blob.byteLength == |blob.sha256.content| && blob.transfer in transfers
    && transfers[blob.transfer] in {Receiving(blob.sha256.content, true), Sealed(blob), Dropped}
  }

  /** What lies behind a saved state. */
  ghost predicate Backed(log: Log, transfers: map<nat, Transfer>, value: Slot) {
    match value
    case Absent => false
    case Uploading(a) => a > 0 ==> PassedIn(log, a - 1)
    case Finishing(_, blob) => Holds(transfers, blob)
    case Verified(_, blob) => Finished(blob) in log
  }

  /** A request its run was entitled to make. */
  ghost predicate Entitled(log: Log, saved: seq<Slot>, transfers: map<nat, Transfer>, request: Request) {
    match request
    case SaveAt(expected, value) => expected <= |saved| && Next(SlotAt(saved, expected), value) && Backed(log, transfers, value)
    case BeginFor(a) => Uploading(a) in saved
    case DiscardOf(t) => Sweepable(log, t)
    case FinishOf(a, blob) => Finishing(a, blob) in saved
  }

  /** Begun attempts and transfers, as the history has them. */
  ghost predicate BeginsAre(log: Log, begun: map<nat, nat>) {
    forall i :: 0 <= i < |log| && log[i].Began? ==> log[i].attempt in begun && begun[log[i].attempt] == log[i].transfer
  }

  ghost predicate BegunAreIn(log: Log, begun: map<nat, nat>) { forall a :: a in begun ==> Began(a, begun[a]) in log }

  ghost predicate DropsAre(log: Log, transfers: map<nat, Transfer>) {
    forall t :: t in transfers ==> (transfers[t] == Dropped <==> Discarded(t) in log)
  }

  /** The storage peer: an operation takes effect once per operation ID; the checkpoint's is
      keyed by the revision it expects. */
  class Store {
    const fates: nat -> Fate            // one for every await
    var time: nat
    var saved: seq<Slot>                // the revision is their number
    var begun: map<nat, nat>            // transfer of each attempt's begin operation
    var transfers: map<nat, Transfer>
    var finished: map<nat, Blob>        // result of each attempt's finish operation
    var inFlight: set<Request>          // requests of runs that were cut off
    ghost var log: Log

    constructor (fates: nat -> Fate)
      ensures Inv() && log == [] && saved == [] && inFlight == {} && begun == map[] && time == 0 && this.fates == fates
    {
      this.fates, time := fates, 0;
      saved, begun, transfers, finished, inFlight, log := [], map[], map[], map[], {}, [];
    }

    /** From now on nothing left behind lands and nobody is cut off. */
    ghost predicate Calm()
      reads this`time
    {
      forall t :: t >= time ==> fates(t) == Fate([], false)
    }

    ghost predicate Inv()
      reads this
    {
      && Disciplined(log) && saved == SlotsOf(log)
      && BeginsAre(log, begun) && BegunAreIn(log, begun) && begun.Values <= transfers.Keys
      && DropsAre(log, transfers)
      && (forall r :: 0 <= r < |saved| ==> Backed(log, transfers, saved[r]))
      && (forall a :: a in finished ==> Finished(finished[a]) in log && Finishing(a, finished[a]) in saved)
      && (forall q :: q in inFlight ==> Entitled(log, saved, transfers, q))
    }

    /** Nothing that was there is gone, and an unfinished transfer that no request would
        discard is as it was. */
    ghost predicate Since(log0: Log, saved0: seq<Slot>, begun0: map<nat, nat>, transfers0: map<nat, Transfer>, inFlight0: set<Request>)
      reads this
    {
      && log0 <= log && saved0 <= saved && inFlight == inFlight0 && Changed(transfers0, transfers, inFlight0)
      && (forall a :: a in begun && a !in begun0 ==> BeginFor(a) in inFlight0)
      && (|saved| == |saved0| || exists q :: q in inFlight0 && q.SaveAt? && q.expected == |saved| - 1)
    }

    /** One more event, which saves nothing. */
    lemma Happens(e: Event, begun1: map<nat, nat>, transfers1: map<nat, Transfer>)
      requires Inv() && Fine(log, e) && !e.Saved? && Evolved(transfers, transfers1)
      requires BeginsAre(log + [e], begun1) && BegunAreIn(log + [e], begun1) && begun1.Values <= transfers1.Keys && DropsAre(log + [e], transfers1)
      ensures var next := log + [e];
        && Disciplined(next) && saved == SlotsOf(next)
        && (forall r :: 0 <= r < |saved| ==> Backed(next, transfers1, saved[r]))
        && (forall a :: a in finished ==> Finished(finished[a]) in next)
        && (forall q :: q in inFlight ==> Entitled(next, saved, transfers1, q))
    {
      hide Disciplined, Fine, Backed, Entitled, Evolved, DropsAre, BeginsAre, BegunAreIn;
      DisciplinedMore(log, e);
      SlotsMore(log, e);
      assert saved + [] == saved;
      forall r | 0 <= r < |saved|
        ensures Backed(log + [e], transfers1, saved[r])
      {
        BackedStays(log, e, transfers, transfers1, saved[r]);
      }
      forall q | q in inFlight
        ensures Entitled(log + [e], saved, transfers1, q)
      {
        EntitledStays(log, e, saved, saved, transfers, transfers1, q);
      }
    }

    /** operationStatus of an attempt's begin. */
    method Status(attempt: nat) returns (transfer: Option<nat>)
      requires Inv()
      modifies this`log
      ensures Inv() && log == old(log) + [Checked(attempt)]
      ensures transfer == if attempt in begun then Some(begun[attempt]) else None
    {
      hide Disciplined, Backed, Entitled;
      NothingBegins(log, Checked(attempt), begun, transfers);
      EvolvedSelf(transfers);
      Happens(Checked(attempt), begun, transfers);
      log := log + [Checked(attempt)];
      return if attempt in begun then Some(begun[attempt]) else None;
    }

    /** A run goes on to the next attempt. */
    ghost method Pass(attempt: nat, at: nat)
      requires Inv() && Fine(log, Passed(attempt, at))
      modifies this`log
      ensures Inv() && log == old(log) + [Passed(attempt, at)] && PassedIn(log, attempt)
    {
      hide Disciplined, Backed, Entitled, Fine;
      NothingBegins(log, Passed(attempt, at), begun, transfers);
      EvolvedSelf(transfers);
      Happens(Passed(attempt, at), begun, transfers);
      log := log + [Passed(attempt, at)];
      assert log[|log| - 1] == Passed(attempt, at);
    }

    /** discardBlobTransfer; it takes a finished transfer as well. */
    method Discard(transfer: nat)
      requires Inv() && Sweepable(log, transfer)
      modifies this`transfers, this`log
      ensures Inv() && log == old(log) + [Discarded(transfer)]
      ensures transfer in old(transfers) && transfers == old(transfers)[transfer := Dropped]
    {
      hide Disciplined, Backed, Entitled, Sweepable, BeginsAre, BegunAreIn, DropsAre, Evolved;
      SweepsKnown(log, begun, transfers, transfer);
      ghost var after := transfers[transfer := Dropped];
      NothingBegins(log, Discarded(transfer), begun, transfers);
      DropsMore(log, transfer, transfers);
      Happens(Discarded(transfer), begun, after);
      transfers := transfers[transfer := Dropped];
      log := log + [Discarded(transfer)];
    }

    /** beginBlobTransfer, once per operation ID; one that has ended is not begun again. */
    method Begin(attempt: nat) returns (transfer: Option<nat>)
      requires Inv() && Uploading(attempt) in saved
      modifies this`begun, this`transfers, this`log
      ensures Inv()
      ensures attempt in old(begun) ==> log == old(log) && begun == old(begun) && transfers == old(transfers)
      ensures attempt !in old(begun) ==>
        && transfer.Some? && transfer.value !in old(transfers) && log == old(log) + [Began(attempt, transfer.value)]
        && begun == old(begun)[attempt := transfer.value] && transfers == old(transfers)[transfer.value := Receiving([], false)]
    {
      hide Disciplined, Backed, Entitled;
      if attempt in begun {
        var prior := begun[attempt];
        assert prior in begun.Values;
        return if transfers[prior] == Dropped then None else Some(prior);
      }
      var unused := Unused();
      var e := Began(attempt, unused);
      ghost var after := transfers[unused := Receiving([], false)];
      BeginsOnce(log, saved, begun, transfers, attempt, unused);
      Happens(e, begun[attempt := unused], after);
      begun := begun[attempt := unused];
      transfers := transfers[unused := Receiving([], false)];
      log := log + [e];
      return Some(unused);
    }

    /** A transfer id not handed out before. */
    method Unused() returns (transfer: nat)
      ensures transfer !in transfers
    {
      transfer := 0;
      ghost var left := transfers.Keys;
      while transfer in transfers
        invariant forall t :: t in transfers && t >= transfer ==> t in left
        invariant forall t :: t in left ==> t >= transfer
        decreases |left|
      {
        ghost var smaller := left - {transfer};
        assert left == smaller + {transfer};
        left := smaller;
        transfer := transfer + 1;
      }
    }

    method Send(transfer: nat, bytes: Bytes, final: bool) returns (ok: bool)
      requires Inv()
      modifies this`transfers
      ensures Inv()
      ensures ok == (transfer in old(transfers) && old(transfers)[transfer].Receiving? && !old(transfers)[transfer].complete)
      ensures ok ==> transfers == old(transfers)[transfer := Receiving(old(transfers)[transfer].received + bytes, final)]
      ensures !ok ==> transfers == old(transfers)
    {
      hide Disciplined, Backed, Entitled;
      if transfer !in transfers || !transfers[transfer].Receiving? || transfers[transfer].complete {
        return false;
      }
      ghost var before := transfers;
      SendKeeps(log, saved, transfers, inFlight, transfer, Receiving(transfers[transfer].received + bytes, final));
      transfers := transfers[transfer := Receiving(transfers[transfer].received + bytes, final)];
      return true;
    }

    /** importWorkCheckpoint: compare-and-set by revision, once per operation ID, which the
        revision expected determines. */
    method Checkpoint(expected: nat, value: Slot) returns (ok: bool)
      requires Inv() && Entitled(log, saved, transfers, SaveAt(expected, value))
      modifies this`saved, this`log
      ensures Inv()
      ensures expected == |old(saved)| ==> ok && saved == old(saved) + [value] && log == old(log) + [Saved(value)]
      ensures expected < |old(saved)| ==> ok == (old(saved)[expected] == value) && saved == old(saved) && log == old(log)
    {
      hide Disciplined, Backed, Next, Fine, SlotsOf;
      if expected < |saved| {
        return saved[expected] == value;
      }
      var e := Saved(value);
      DisciplinedMore(log, e) by { SaveIsFine(log, saved, transfers, value); }
      SlotsMore(log, e);
      NothingBegins(log, e, begun, transfers);
      EvolvedSelf(transfers);
      forall r | 0 <= r < |saved + [value]|
        ensures Backed(log + [e], transfers, (saved + [value])[r])
      {
        BackedStays(log, e, transfers, transfers, (saved + [value])[r]);
      }
      forall q | q in inFlight
        ensures Entitled(log + [e], saved + [value], transfers, q)
      {
        EntitledStays(log, e, saved, saved + [value], transfers, transfers, q);
      }
      saved := saved + [value];
      log := log + [e];
      return true;
    }

    /** finishBlobTransfer: verifies length and digest, once per operation ID. What was made
        durable finishes exactly if its transfer has not been discarded. */
    method Finish(attempt: nat, blob: Blob) returns (result: Option<Blob>)
      requires Inv() && Finishing(attempt, blob) in saved
      modifies this`transfers, this`finished, this`log
      ensures Inv() && old(log) <= log
      ensures result == if Discarded(blob.transfer) in old(log) then None else Some(blob)
      ensures result.Some? ==> Finished(blob) in log && attempt in finished
      ensures result.None? || attempt in old(finished) ==> log == old(log) && transfers == old(transfers) && finished == old(finished)
      ensures result.Some? && attempt !in old(finished) ==>
        && log == old(log) + [Finished(blob)] && finished == old(finished)[attempt := blob]
        && transfers == old(transfers)[blob.transfer := Sealed(blob)]
      ensures Changed(old(transfers), transfers, inFlight)
    {
      hide Disciplined, Entitled, Fine;
      assert Backed(log, transfers, Finishing(attempt, blob));
      var staged := transfers[blob.transfer];
      if staged == Dropped {
        return None;
      }
      if attempt in finished {
        FinishedIs(log, saved, attempt, blob, finished[attempt]);
        return Some(finished[attempt]);
      }
      if staged.Receiving? && (!staged.complete || |staged.received| != blob.byteLength || Digest(staged.received) != blob.sha256) {
        return None;
      }
      ghost var after := transfers[blob.transfer := Sealed(blob)];
      ghost var e := Finished(blob);
      FinishIsFine(log, saved, transfers, attempt, blob);
      NothingBegins(log, e, begun, transfers);
      SealKeeps(log, transfers, blob);
      Happens(e, begun, after);
      transfers := transfers[blob.transfer := Sealed(blob)];
      finished := finished[attempt := blob];
      log := log + [e];
      return Some(blob);
    }

    lemma DiscardsAreKnown()
      requires Inv()
      ensures forall t :: DiscardOf(t) in inFlight ==> t in transfers
    {
      hide Disciplined, Sweepable;
      forall t | DiscardOf(t) in inFlight
        ensures t in transfers
      {
        SweepsKnown(log, begun, transfers, t);
      }
    }

    ghost method Return(blob: Blob)
      requires Inv() && Finished(blob) in log
      modifies this`log
      ensures Inv() && log == old(log) + [Returned(blob)]
    {
      hide Disciplined, Backed, Entitled;
      NothingBegins(log, Returned(blob), begun, transfers);
      EvolvedSelf(transfers);
      Happens(Returned(blob), begun, transfers);
      log := log + [Returned(blob)];
    }

    /** A run is cut off when it has asked for this. */
    method Leave(q: Request)
      requires Inv() && Entitled(log, saved, transfers, q)
      modifies this`inFlight
      ensures Inv() && inFlight == old(inFlight) + {q}
    {
      hide Disciplined, Backed, Entitled;
      inFlight := inFlight + {q};
    }

    /** A request left behind takes effect. */
    method Land(q: Request)
      requires Inv() && q in inFlight
      modifies this`saved, this`begun, this`transfers, this`finished, this`log
      ensures Inv() && Since(old(log), old(saved), old(begun), old(transfers), inFlight)
      ensures q.SaveAt? && q.expected == |old(saved)| ==>
        saved == old(saved) + [q.value] && log == old(log) + [Saved(q.value)] && transfers == old(transfers)
      ensures q.BeginFor? && q.attempt !in old(begun) ==>
        q.attempt in begun && log == old(log) + [Began(q.attempt, begun[q.attempt])] && saved == old(saved)
    {
      hide Disciplined, Backed, SlotsOf, BeginsAre, BegunAreIn, DropsAre, Next;
      ghost var transfers0 := transfers;
      EvolvedSelf(transfers);
      match q {
        case SaveAt(expected, value) =>
          var ok := Checkpoint(expected, value);
        case BeginFor(a) =>
          var transfer := Begin(a);
        case DiscardOf(t) => Discard(t);
        case FinishOf(a, blob) =>
          var result := Finish(a, blob);
      }
    }

    /** Requests left behind take effect, in this order. */
    method Late(lands: seq<Request>)
      requires Inv()
      modifies this`saved, this`begun, this`transfers, this`finished, this`log
      ensures Inv() && Since(old(log), old(saved), old(begun), old(transfers), inFlight)
      ensures lands == [] ==> saved == old(saved) && begun == old(begun) && transfers == old(transfers) && finished == old(finished) && log == old(log)
    {
      hide Inv, Evolved;
      EvolvedSelf(transfers);
      for i := 0 to |lands|
        invariant Inv() && inFlight == old(inFlight) && Since(old(log), old(saved), old(begun), old(transfers), inFlight)
        invariant i == 0 ==> saved == old(saved) && begun == old(begun) && transfers == old(transfers) && finished == old(finished) && log == old(log)
      {
        if lands[i] in inFlight {
          ghost var transfers1 := transfers;
          Land(lands[i]);
          ChangedTwice(old(transfers), transfers1, transfers, inFlight);
        }
      }
    }
  }

  predicate Evolved(before: map<nat, Transfer>, after: map<nat, Transfer>) {
    forall t :: t in before ==> t in after && Evolves(t, before[t], after[t])
  }

  predicate Changed(before: map<nat, Transfer>, after: map<nat, Transfer>, inFlight: set<Request>) {
    && Evolved(before, after)
    && forall t :: t in before && DiscardOf(t) !in inFlight && before[t].Receiving? && !before[t].complete ==> after[t] == before[t]
  }

  lemma SweepableStays(log: Log, e: Event, t: nat)
    requires Sweepable(log, t)
    ensures Sweepable(log + [e], t)
  {
    var next := log + [e];
    var i, k :| 0 <= i < k < |log| && log[i].Began? && log[i].transfer == t && log[k] == Checked(log[i].attempt);
    assert next[i] == log[i] && next[k] == log[k];
  }

  lemma PassedStays(log: Log, e: Event, a: nat)
    requires PassedIn(log, a)
    ensures PassedIn(log + [e], a)
  {
    var p :| 0 <= p < |log| && log[p].Passed? && log[p].attempt == a;
    assert (log + [e])[p] == log[p];
  }

  lemma BackedStays(log: Log, e: Event, before: map<nat, Transfer>, after: map<nat, Transfer>, value: Slot)
    requires Backed(log, before, value) && Evolved(before, after)
    ensures Backed(log + [e], after, value)
  {
    hide PassedIn;
    if value.Uploading? && value.attempt > 0 {
      PassedStays(log, e, value.attempt - 1);
    }
    if value.Finishing? {
      assert Evolves(value.blob.transfer, before[value.blob.transfer], after[value.blob.transfer]);
    }
  }

  lemma EntitledStays(log: Log, e: Event, saved0: seq<Slot>, saved1: seq<Slot>, before: map<nat, Transfer>, after: map<nat, Transfer>, q: Request)
    requires Entitled(log, saved0, before, q) && saved0 <= saved1 && Evolved(before, after)
    ensures Entitled(log + [e], saved1, after, q)
  {
    hide Sweepable, Backed, Next, Evolved;
    if q.SaveAt? {
      BackedStays(log, e, before, after, q.value);
    }
    if q.DiscardOf? {
      SweepableStays(log, e, q.transfer);
    }
  }

  lemma EvolvedSelf(transfers: map<nat, Transfer>)
    ensures Evolved(transfers, transfers)
  {
  }

  /** Any event but a begin or a discard leaves the begun and the dropped as they are. */
  lemma NothingBegins(log: Log, e: Event, begun: map<nat, nat>, transfers: map<nat, Transfer>)
    requires BeginsAre(log, begun) && BegunAreIn(log, begun) && DropsAre(log, transfers) && !e.Began?
    ensures BeginsAre(log + [e], begun) && BegunAreIn(log + [e], begun)
    ensures !e.Discarded? ==> DropsAre(log + [e], transfers)
  {
  }

  lemma SweepsKnown(log: Log, begun: map<nat, nat>, transfers: map<nat, Transfer>, t: nat)
    requires BeginsAre(log, begun) && begun.Values <= transfers.Keys && Sweepable(log, t)
    ensures t in transfers
  {
    var i, k :| 0 <= i < k < |log| && log[i].Began? && log[i].transfer == t && log[k] == Checked(log[i].attempt);
    assert begun[log[i].attempt] in begun.Values;
  }

  lemma DropsMore(log: Log, t: nat, transfers: map<nat, Transfer>)
    requires DropsAre(log, transfers) && t in transfers
    ensures DropsAre(log + [Discarded(t)], transfers[t := Dropped]) && Evolved(transfers, transfers[t := Dropped])
  {
  }

  lemma BeginsOnce(log: Log, saved: seq<Slot>, begun: map<nat, nat>, transfers: map<nat, Transfer>, attempt: nat, t: nat)
    requires Disciplined(log) && saved == SlotsOf(log) && Uploading(attempt) in saved && attempt !in begun && t !in transfers
    requires BeginsAre(log, begun) && BegunAreIn(log, begun) && begun.Values <= transfers.Keys && DropsAre(log, transfers)
    ensures var e, after := Began(attempt, t), transfers[t := Receiving([], false)];
      && Fine(log, e) && BeginsAre(log + [e], begun[attempt := t]) && BegunAreIn(log + [e], begun[attempt := t])
      && begun[attempt := t].Values <= after.Keys && DropsAre(log + [e], after) && Evolved(transfers, after)
  {
    hide Disciplined;
    SlotsIn(log, Uploading(attempt));
    forall i | 0 <= i < |log| && log[i].Began?
      ensures log[i].transfer != t
    {
      assert begun[log[i].attempt] in begun.Values;
    }
    if Discarded(t) in log {
      FineAt(log, Discarded(t));
    }
  }

  lemma SendKeeps(log: Log, saved: seq<Slot>, transfers: map<nat, Transfer>, inFlight: set<Request>, t: nat, grown: Transfer)
    requires t in transfers && transfers[t].Receiving? && !transfers[t].complete && grown.Receiving? && DropsAre(log, transfers)
    ensures var after := transfers[t := grown];
      && DropsAre(log, after)
      && (forall value :: Backed(log, transfers, value) ==> Backed(log, after, value))
      && (forall q :: Entitled(log, saved, transfers, q) ==> Entitled(log, saved, after, q))
  {
    hide PassedIn, Sweepable, Next;
  }

  lemma SaveIsFine(log: Log, saved: seq<Slot>, transfers: map<nat, Transfer>, value: Slot)
    requires saved == SlotsOf(log) && Entitled(log, saved, transfers, SaveAt(|saved|, value))
    ensures Fine(log, Saved(value))
  {
    hide PassedIn, Next;
  }

  lemma FinishIsFine(log: Log, saved: seq<Slot>, transfers: map<nat, Transfer>, attempt: nat, blob: Blob)
    requires saved == SlotsOf(log) && Finishing(attempt, blob) in saved && DropsAre(log, transfers)
    requires blob.transfer in transfers && transfers[blob.transfer] != Dropped
    ensures Fine(log, Finished(blob))
  {
    SlotsIn(log, Finishing(attempt, blob));
  }

  lemma SealKeeps(log: Log, transfers: map<nat, Transfer>, blob: Blob)
    requires DropsAre(log, transfers) && Holds(transfers, blob) && transfers[blob.transfer] != Dropped
    ensures var after := transfers[blob.transfer := Sealed(blob)];
      DropsAre(log + [Finished(blob)], after) && Evolved(transfers, after) && forall inFlight :: Changed(transfers, after, inFlight)
  {
  }

  lemma FinishedIs(log: Log, saved: seq<Slot>, a: nat, x: Blob, y: Blob)
    requires Disciplined(log) && saved == SlotsOf(log) && Finishing(a, x) in saved && Finishing(a, y) in saved
    ensures x == y
  {
    hide Disciplined;
    SlotsIn(log, Finishing(a, x));
    SlotsIn(log, Finishing(a, y));
    OneFinishing(log, a, x, a, y);
  }

  lemma ChangedTwice(a: map<nat, Transfer>, b: map<nat, Transfer>, c: map<nat, Transfer>, inFlight: set<Request>)
    requires Changed(a, b, inFlight) && Changed(b, c, inFlight)
    ensures Changed(a, c, inFlight)
  {
  }

  // ----- the run -----

  function Flatten(pieces: seq<Bytes>): Bytes {
    if pieces == [] then [] else Flatten(pieces[..|pieces| - 1]) + pieces[|pieces| - 1]
  }

  lemma FlattenMore(pieces: seq<Bytes>, k: nat)
    requires k < |pieces|
    ensures Flatten(pieces[..k + 1]) == Flatten(pieces[..k]) + pieces[k]
  {
    assert pieces[..k + 1][..k] == pieces[..k];
  }

  lemma NothingFlat()
    ensures Flatten([]) == []
  {
  }

  /** An await changes nothing but the time. */
  twostate predicate Unmoved(store: Store)
    reads store
  {
    && store.saved == old(store.saved) && store.begun == old(store.begun) && store.transfers == old(store.transfers)
    && store.finished == old(store.finished) && store.log == old(store.log) && store.inFlight == old(store.inFlight)
  }

  /** A call of storage: what other runs left behind may take effect first, and the run may be
      cut off. */
  method Await(store: Store) returns (cut: bool)
    requires store.Inv()
    modifies store
    ensures store.Inv() && store.Since(old(store.log), old(store.saved), old(store.begun), old(store.transfers), store.inFlight)
    ensures store.inFlight == old(store.inFlight)
    ensures store.time == old(store.time) + 1 && cut == store.fates(old(store.time)).cut
    ensures old(store.Calm()) ==> !cut && store.Calm() && Unmoved(store)
  {
    var fate := store.fates(store.time);
    store.time := store.time + 1;
    store.Late(fate.lands);
    cut := fate.cut;
  }

  /** Attempts up to the present one. */
  ghost predicate UpTo(saved: seq<Slot>, slot: Slot) {
    forall k :: 0 <= k < |saved| && saved[k].Uploading? ==> !slot.Absent? && saved[k].attempt <= slot.attempt
  }

  lemma GrowsOnce(front: seq<Slot>, before: Slot, after: Slot)
    requires UpTo(front, before) && Next(before, after)
    ensures UpTo(front + [after], after)
  {
  }

  lemma ChainAt(saved: seq<Slot>, r: nat)
    requires Chain(saved) && r < |saved|
    ensures Next(SlotAt(saved, r), saved[r]) && saved[..r + 1] == saved[..r] + [saved[r]]
  {
  }

  lemma {:induction false} AttemptsGrow(saved: seq<Slot>, r: nat)
    requires Chain(saved) && r <= |saved|
    ensures UpTo(saved[..r], SlotAt(saved, r))
    decreases r
  {
    hide Chain, Next;
    if r > 0 {
      hide UpTo;
      AttemptsGrow(saved, r - 1);
      ChainAt(saved, r - 1);
      GrowsOnce(saved[..r - 1], SlotAt(saved, r - 1), saved[r - 1]);
    }
  }

  datatype Saving = Kept | Refused | CutOff

  /** A run's view of its work item, under the run's exclusive lease. */
  class WorkCheckpoint {
    const store: Store
    var revision: nat
    var value: Slot

    /** What was saved at the revision this run knows; others may have saved behind it. */
    ghost predicate Holds()
      reads this, store
    {
      store.Inv() && revision <= |store.saved| && value == SlotAt(store.saved, revision)
    }

    /** No save left behind by another run expects more than this revision, or as much. */
    ghost predicate Unrivalled(strictly: bool)
      reads this, store
    {
      && (forall q :: q in store.inFlight && q.SaveAt? ==> if strictly then q.expected < revision else q.expected <= revision)
      && |store.saved| <= if strictly then revision else revision + 1
    }

    /** The attempt has not been begun and nobody has asked for it. */
    ghost predicate Unbegun(attempt: nat)
      reads this, store
    {
      attempt !in store.begun && BeginFor(attempt) !in store.inFlight
    }

    constructor (store: Store)
      requires store.Inv()
      ensures this.store == store && Holds() && revision == |store.saved| && Unrivalled(false)
      ensures value.Absent? ==> Unbegun(0)
      ensures value.Uploading? ==> Unbegun(value.attempt + 1)
    {
      hide Disciplined, Backed, Next, Chain, Fine;
      this.store := store;
      revision := |store.saved|;
      value := if store.saved == [] then Absent else store.saved[|store.saved| - 1];
      new;
      SlotsChain(store.log);
      AttemptsGrow(store.saved, |store.saved|);
      assert store.saved[..|store.saved|] == store.saved;
      forall a | a in store.begun
        ensures Uploading(a) in store.saved
      {
        assert Began(a, store.begun[a]) in store.log;
        BeganIsSaved(store.log, a, store.begun[a]);
      }
    }

    /** A save is refused only where a run cut off earlier has saved something else, and after
        one save of its own none of a run's saves is. */
    method Save(next: Slot) returns (outcome: Saving)
      requires Holds() && Entitled(store.log, store.saved, store.transfers, SaveAt(revision, next))
      modifies this, store
      ensures store.Inv() && old(store.log) <= store.log
      ensures outcome.Kept? ==>
        && Holds() && value == next && next in store.saved && revision == old(revision) + 1 && store.inFlight == old(store.inFlight)
        && Changed(old(store.transfers), store.transfers, store.inFlight)
        && (forall a :: a in store.begun && a !in old(store.begun) ==> BeginFor(a) in store.inFlight)
      ensures outcome.Kept? && old(Unrivalled(false)) ==> Unrivalled(true)
      ensures outcome.Refused? ==> !old(Unrivalled(true)) && old(revision) < |store.saved| && store.saved[old(revision)] != next
      ensures old(store.Calm()) && old(revision) == |old(store.saved)| ==>
        && outcome.Kept? && store.Calm() && store.saved == old(store.saved) + [next] && store.log == old(store.log) + [Saved(next)]
        && store.transfers == old(store.transfers) && store.begun == old(store.begun)
    {
      hide Disciplined, Backed, Entitled, Next, BeginsAre, BegunAreIn, DropsAre, SlotsOf, Evolved, Fine;
      ghost var begun0, transfers0, saved0 := store.begun, store.transfers, store.saved;
      var cut := Await(store);
      StillEntitled(store.log, saved0, store.saved, transfers0, store.transfers, SaveAt(revision, next), old(store.log));
      if cut {
        store.Leave(SaveAt(revision, next));
        return CutOff;
      }
      var ok := store.Checkpoint(revision, next);
      if !ok {
        return Refused;
      }
      ghost var transfers1, saved1 := store.transfers, store.saved;
      assert saved1[revision] == next;
      cut := Await(store);
      if cut {
        return CutOff;
      }
      ChangedTwice(transfers0, transfers1, store.transfers, store.inFlight);
      revision, value := revision + 1, next;
      assert store.saved[revision - 1] == next;
      return Kept;
    }
  }

  /** A request a run is entitled to stays one while time passes. */
  lemma StillEntitled(log: Log, saved0: seq<Slot>, saved1: seq<Slot>, before: map<nat, Transfer>, after: map<nat, Transfer>, q: Request, log0: Log)
    requires Entitled(log0, saved0, before, q) && log0 <= log && saved0 <= saved1 && Evolved(before, after)
    ensures Entitled(log, saved1, after, q)
    decreases |log| - |log0|
  {
    hide Evolved;
    if log0 == log {
      JustEntitled(log, saved0, saved1, before, after, q);
    } else {
      var e := log[|log0|];
      EntitledStays(log0, e, saved0, saved1, before, after, q);
      EvolvedSelf(after);
      assert log0 + [e] <= log;
      StillEntitled(log, saved1, saved1, after, after, q, log0 + [e]);
    }
  }

  lemma JustEntitled(log: Log, saved0: seq<Slot>, saved1: seq<Slot>, before: map<nat, Transfer>, after: map<nat, Transfer>, q: Request)
    requires Entitled(log, saved0, before, q) && saved0 <= saved1 && Evolved(before, after)
    ensures Entitled(log, saved1, after, q)
  {
    hide Sweepable, PassedIn, Next;
    if q.SaveAt? && q.value.Finishing? {
      assert Evolves(q.value.blob.transfer, before[q.value.blob.transfer], after[q.value.blob.transfer]);
    }
  }

  lemma BeganIsSaved(log: Log, a: nat, t: nat)
    requires Disciplined(log) && Began(a, t) in log
    ensures Uploading(a) in SlotsOf(log)
  {
    hide SlotsOf;
    FineAt(log, Began(a, t));
    SlotsIn(log, Uploading(a));
  }

  /** What a run knows while it restarts an attempt. */
  ghost predicate Restarting(work: WorkCheckpoint, next: nat)
    reads work, work.store
  {
    work.Holds() && work.Unrivalled(false) && work.Unbegun(next)
  }

  method AwaitRestart(work: WorkCheckpoint, ghost next: nat) returns (cut: bool)
    requires Restarting(work, next)
    modifies work.store
    ensures Restarting(work, next) && work.store.Inv() && old(work.store.log) <= work.store.log
    ensures old(work.store.Calm()) ==> !cut && work.store.Calm() && work.store.saved == old(work.store.saved)
  {
    hide Disciplined, Backed, Entitled, SlotsOf, BeginsAre, BegunAreIn, DropsAre, Next, Changed;
    cut := Await(work.store);
  }

  /** A status read, and a discard, change nothing a restarting run knows. */
  method ReadStatus(work: WorkCheckpoint, attempt: nat, ghost next: nat) returns (prior: Option<nat>)
    requires Restarting(work, next)
    modifies work.store`log
    ensures Restarting(work, next) && work.store.Inv() && work.store.log == old(work.store.log) + [Checked(attempt)]
    ensures prior == if attempt in work.store.begun then Some(work.store.begun[attempt]) else None
    ensures BeginsAre(old(work.store.log), work.store.begun) && BegunAreIn(old(work.store.log), work.store.begun)
  {
    hide Disciplined, Backed, Entitled, SlotsOf, BeginsAre, BegunAreIn, DropsAre, Next;
    prior := work.store.Status(attempt);
  }

  method DiscardPrior(work: WorkCheckpoint, transfer: nat, ghost next: nat)
    requires Restarting(work, next) && Sweepable(work.store.log, transfer)
    modifies work.store`transfers, work.store`log
    ensures Restarting(work, next) && work.store.Inv() && work.store.log == old(work.store.log) + [Discarded(transfer)]
  {
    hide Disciplined, Backed, Entitled, SlotsOf, BeginsAre, BegunAreIn, DropsAre, Next, Sweepable;
    work.store.Discard(transfer);
  }

  ghost method PassOn(work: WorkCheckpoint, attempt: nat, at: nat, next: nat)
    requires Restarting(work, next) && Fine(work.store.log, Passed(attempt, at))
    modifies work.store`log
    ensures Restarting(work, next) && work.store.Inv() && old(work.store.log) <= work.store.log && PassedIn(work.store.log, attempt)
  {
    hide Disciplined, Backed, Entitled, SlotsOf, BeginsAre, BegunAreIn, DropsAre, Next, Fine, PassedIn;
    work.store.Pass(attempt, at);
  }

  lemma RestartingKnows(work: WorkCheckpoint, next: nat)
    requires Restarting(work, next)
    ensures work.Holds() && work.Unrivalled(false) && work.Unbegun(next) && work.store.Inv()
  {
  }

  lemma RestartingIs(work: WorkCheckpoint, next: nat)
    requires work.Holds() && work.Unrivalled(false) && work.Unbegun(next)
    ensures Restarting(work, next) && work.store.Inv()
  {
  }

  /** Discards what an interrupted attempt began, if it has begun, and names the next. */
  method Restart(work: WorkCheckpoint) returns (next: Option<nat>)
    requires work.Holds() && work.value.Uploading? && work.Unrivalled(false) && work.Unbegun(work.value.attempt + 1)
    modifies work.store
    ensures work.store.Inv() && old(work.store.log) <= work.store.log
    ensures next.Some? ==>
      && next.value == work.value.attempt + 1 && work.Holds() && work.Unrivalled(false) && work.Unbegun(next.value)
      && PassedIn(work.store.log, work.value.attempt)
    ensures old(work.store.Calm()) ==> next.Some? && work.store.Calm() && work.store.saved == old(work.store.saved)
  {
    hide *;
    var store, attempt := work.store, work.value.attempt;
    RestartingIs(work, attempt + 1);
    var cut := AwaitRestart(work, attempt + 1);
    if cut {
      return None;
    }
    ghost var log0 := store.log;
    var prior := ReadStatus(work, attempt, attempt + 1);
    ghost var begun0 := store.begun;
    cut := AwaitRestart(work, attempt + 1);
    if prior.Some? {
      ReadIsSweepable(log0, begun0, attempt, store.log);
      if cut {
        SweepEntitles(store.log, store.saved, store.transfers, prior.value);
        store.Leave(DiscardOf(prior.value));
        return None;
      }
      ghost var d := |store.log|;
      DiscardPrior(work, prior.value, attempt + 1);
      cut := AwaitRestart(work, attempt + 1);
      if cut {
        return None;
      }
      SweptPasses(log0, begun0, attempt, store.log, d);
    } else {
      if cut {
        return None;
      }
      NonePasses(log0, begun0, attempt, store.log);
    }
    PassOn(work, attempt, |log0|, attempt + 1);
    RestartingKnows(work, attempt + 1);
    return Some(attempt + 1);
  }

  lemma SweepEntitles(log: Log, saved: seq<Slot>, transfers: map<nat, Transfer>, t: nat)
    requires Sweepable(log, t)
    ensures Entitled(log, saved, transfers, DiscardOf(t))
  {
  }

  lemma ReadIsSweepable(log0: Log, begun0: map<nat, nat>, attempt: nat, log: Log)
    requires BegunAreIn(log0, begun0) && attempt in begun0 && log0 + [Checked(attempt)] <= log
    ensures Sweepable(log, begun0[attempt])
  {
    assert Began(attempt, begun0[attempt]) in log0;
    var i :| 0 <= i < |log0| && log0[i] == Began(attempt, begun0[attempt]);
    assert log[i] == log0[i] && log[|log0|] == Checked(attempt);
  }

  lemma SweptPasses(log0: Log, begun0: map<nat, nat>, attempt: nat, log: Log, d: nat)
    requires BeginsAre(log0, begun0) && attempt in begun0 && log0 + [Checked(attempt)] <= log
    requires |log0| < d < |log| && log[d] == Discarded(begun0[attempt])
    ensures Fine(log, Passed(attempt, |log0|))
  {
    forall i | 0 <= i < |log0| && BeganAs(log[i], attempt)
      ensures DiscardedIn(log, |log0|, |log|, log[i].transfer)
    {
      assert log[i] == log0[i];
    }
  }

  lemma NonePasses(log0: Log, begun0: map<nat, nat>, attempt: nat, log: Log)
    requires BeginsAre(log0, begun0) && attempt !in begun0 && log0 + [Checked(attempt)] <= log
    ensures Fine(log, Passed(attempt, |log0|))
  {
    forall i | 0 <= i < |log0|
      ensures !BeganAs(log[i], attempt)
    {
      assert log[i] == log0[i];
    }
  }

  /** A transfer that only this run touches. */
  ghost predicate Own(store: Store, transfer: nat, received: Bytes)
    reads store
  {
    DiscardOf(transfer) !in store.inFlight && transfer in store.transfers && store.transfers[transfer] == Receiving(received, false)
  }

  /** One chunk behind what has been sent. */
  method SendOne(work: WorkCheckpoint, transfer: nat, ghost received: Bytes, bytes: Bytes) returns (ok: bool)
    requires work.Holds() && work.Unrivalled(true) && Own(work.store, transfer, received)
    modifies work.store
    ensures work.store.Inv() && old(work.store.log) <= work.store.log
    ensures ok ==> work.Holds() && work.Unrivalled(true) && Own(work.store, transfer, received + bytes)
    ensures old(work.store.Calm()) ==> ok && work.store.Calm() && work.store.saved == old(work.store.saved)
  {
    hide Disciplined, Backed, Entitled, SlotsOf, BeginsAre, BegunAreIn, DropsAre, Next, Evolves;
    var sent := work.store.Send(transfer, bytes, false);
    var cut := Await(work.store);
    return sent && !cut;
  }

  /** The source's chunks, hashed as they are sent. */
  method SendAll(work: WorkCheckpoint, transfer: nat, source: seq<Bytes>) returns (ok: bool, hashed: Bytes, offset: nat)
    requires work.Holds() && work.Unrivalled(true) && Own(work.store, transfer, [])
    modifies work.store
    ensures work.store.Inv() && old(work.store.log) <= work.store.log
    ensures ok ==> work.Holds() && work.Unrivalled(true) && Own(work.store, transfer, hashed) && hashed == Flatten(source) && offset == |hashed|
    ensures old(work.store.Calm()) ==> ok && work.store.Calm() && work.store.saved == old(work.store.saved)
  {
    hide *;
    hashed, offset := [], 0;
    assert source[..0] == [] && Flatten([]) == [] by { NothingFlat(); }
    HoldsKnows(work);
    for i := 0 to |source|
      invariant work.Holds() && work.Unrivalled(true) && work.store.Inv() && old(work.store.log) <= work.store.log
      invariant Own(work.store, transfer, hashed) && hashed == Flatten(source[..i]) && offset == |hashed|
      invariant old(work.store.Calm()) ==> work.store.Calm() && work.store.saved == old(work.store.saved)
    {
      FlattenMore(source, i);
      ok := SendOne(work, transfer, hashed, source[i]);
      hashed := hashed + source[i];
      if !ok {
        return;
      }
      offset := offset + |source[i]|;
    }
    assert source[..|source|] == source;
    ok := true;
  }

  lemma HoldsKnows(work: WorkCheckpoint)
    requires work.Holds()
    ensures work.store.Inv() && work.revision <= |work.store.saved| && work.value == SlotAt(work.store.saved, work.revision)
  {
  }

  /** The final chunk, and `finishing` saved. */
  method Close(work: WorkCheckpoint, attempt: nat, blob: Blob) returns (ok: bool)
    requires work.Holds() && work.value == Uploading(attempt) && work.Unrivalled(true)
    requires Own(work.store, blob.transfer, blob.sha256.content) && blob.byteLength == |blob.sha256.content|
    modifies work, work.store
    ensures work.store.Inv() && old(work.store.log) <= work.store.log
    ensures ok ==> work.Holds() && work.value == Finishing(attempt, blob) && work.value in work.store.saved && work.Unrivalled(true)
    ensures old(work.store.Calm()) && old(work.revision) == |old(work.store.saved)| ==>
      ok && work.store.Calm() && work.revision == |work.store.saved| && Discarded(blob.transfer) !in work.store.log
  {
    hide Disciplined, Backed, Entitled, SlotsOf, BeginsAre, BegunAreIn, DropsAre, Next, Evolves;
    var store := work.store;
    var last := store.Send(blob.transfer, [], true);
    assert blob.sha256.content + [] == blob.sha256.content;
    FinishingEntitles(store.log, store.saved, store.transfers, work.revision, attempt, blob);
    ghost var saved1, transfers1, log1 := store.saved, store.transfers, store.log;
    var cut := Await(store);
    if cut || !last {
      return false;
    }
    StillEntitled(store.log, saved1, store.saved, transfers1, store.transfers, SaveAt(work.revision, Finishing(attempt, blob)), log1);
    StillHeld(log1, transfers1, blob.transfer);
    var saving := work.Save(Finishing(attempt, blob));
    return saving.Kept?;
  }

  lemma StillHeld(log: Log, transfers: map<nat, Transfer>, t: nat)
    requires DropsAre(log, transfers) && t in transfers && transfers[t].Receiving?
    ensures Discarded(t) !in log
  {
  }

  /** A new transfer for an attempt nobody has begun. */
  method Open(work: WorkCheckpoint, attempt: nat) returns (transfer: Option<nat>)
    requires work.Holds() && work.value == Uploading(attempt) && work.value in work.store.saved
    requires work.Unrivalled(true) && work.Unbegun(attempt)
    modifies work.store
    ensures work.store.Inv() && old(work.store.log) <= work.store.log
    ensures transfer.Some? ==> work.Holds() && work.value == Uploading(attempt) && work.Unrivalled(true) && Own(work.store, transfer.value, [])
    ensures old(work.store.Calm()) ==> transfer.Some? && work.store.Calm() && work.store.saved == old(work.store.saved)
  {
    hide Disciplined, Backed, Entitled, SlotsOf, BeginsAre, BegunAreIn, DropsAre, Next, Evolves;
    var store := work.store;
    var cut := Await(store);
    if cut {
      BeginEntitles(store.log, store.saved, store.transfers, attempt);
      store.Leave(BeginFor(attempt));
      return None;
    }
    store.DiscardsAreKnown();
    transfer := store.Begin(attempt);
    cut := Await(store);
    if cut {
      return None;
    }
  }

  /** Sends the source into a new transfer and makes `finishing` durable. */
  method Preserve(work: WorkCheckpoint, attempt: nat, expected: Option<nat>, source: seq<Bytes>) returns (ok: bool)
    requires work.Holds() && work.value == Uploading(attempt) && work.value in work.store.saved
    requires work.Unrivalled(true) && work.Unbegun(attempt)
    modifies work, work.store
    ensures work.store.Inv() && old(work.store.log) <= work.store.log
    ensures ok ==> work.Holds() && work.value.Finishing? && work.value in work.store.saved && work.Unrivalled(true)
    ensures ok ==> work.value.blob.sha256 == Digest(Flatten(source)) && (expected.Some? ==> work.value.blob.byteLength == expected.value)
    ensures old(work.store.Calm()) && old(work.revision) == |old(work.store.saved)| ==>
      && (ok <==> expected in {None, Some(|Flatten(source)|)}) && work.store.Calm()
      && (ok ==> work.revision == |work.store.saved| && Discarded(work.value.blob.transfer) !in work.store.log)
  {
    hide *;
    var transfer := Open(work, attempt);
    if transfer.None? {
      return false;
    }
    var sent, hashed, offset := SendAll(work, transfer.value, source);
    if !sent || (expected.Some? && offset != expected.value) {
      return false;
    }
    ok := Close(work, attempt, Blob(transfer.value, Digest(hashed), offset));
  }

  lemma BeginEntitles(log: Log, saved: seq<Slot>, transfers: map<nat, Transfer>, a: nat)
    requires Uploading(a) in saved
    ensures Entitled(log, saved, transfers, BeginFor(a))
  {
  }

  lemma FinishingEntitles(log: Log, saved: seq<Slot>, transfers: map<nat, Transfer>, revision: nat, a: nat, blob: Blob)
    requires revision <= |saved| && SlotAt(saved, revision) == Uploading(a) && Holds(transfers, blob)
    ensures Entitled(log, saved, transfers, SaveAt(revision, Finishing(a, blob)))
  {
  }

  datatype Outcome = Done(blob: Blob) | Stopped

  /** Finalization and publication always retry the original identity. */
  method Complete(work: WorkCheckpoint) returns (outcome: Outcome)
    requires work.Holds() && work.value.Finishing? && work.value in work.store.saved
    modifies work, work.store
    ensures work.store.Inv() && old(work.store.log) <= work.store.log
    ensures outcome.Done? ==> Returned(outcome.blob) in work.store.log && outcome.blob == old(work.value).blob
    ensures old(work.store.Calm()) && old(work.revision) == |old(work.store.saved)| ==>
      (outcome.Done? <==> Discarded(old(work.value).blob.transfer) !in old(work.store.log))
  {
    hide Disciplined, Backed, Entitled, SlotsOf, BeginsAre, BegunAreIn, DropsAre, Next, Fine, Changed;
    var store := work.store;
    var attempt, blob := work.value.attempt, work.value.blob;
    var cut := Await(store);
    if cut {
      FinishEntitles(store.log, store.saved, store.transfers, attempt, blob);
      store.Leave(FinishOf(attempt, blob));
      return Stopped;
    }
    var result := store.Finish(attempt, blob);
    cut := Await(store);
    if cut || result.None? {
      return Stopped;
    }
    VerifiedEntitles(store.log, store.saved, store.transfers, work.revision, attempt, blob);
    var saving := work.Save(Verified(attempt, blob));
    if !saving.Kept? {
      return Stopped;
    }
    store.Return(blob);
    assert store.log[|store.log| - 1] == Returned(blob);
    return Done(blob);
  }

  lemma FinishEntitles(log: Log, saved: seq<Slot>, transfers: map<nat, Transfer>, a: nat, blob: Blob)
    requires Finishing(a, blob) in saved
    ensures Entitled(log, saved, transfers, FinishOf(a, blob))
  {
  }

  lemma VerifiedEntitles(log: Log, saved: seq<Slot>, transfers: map<nat, Transfer>, revision: nat, a: nat, blob: Blob)
    requires revision <= |saved| && SlotAt(saved, revision) == Finishing(a, blob) && Finished(blob) in log
    ensures Entitled(log, saved, transfers, SaveAt(revision, Verified(a, blob)))
  {
  }

  lemma UploadingEntitles(log: Log, saved: seq<Slot>, transfers: map<nat, Transfer>, revision: nat, a: nat)
    requires revision <= |saved| && Next(SlotAt(saved, revision), Uploading(a)) && (a > 0 ==> PassedIn(log, a - 1))
    ensures Entitled(log, saved, transfers, SaveAt(revision, Uploading(a)))
  {
  }

  /** Names the next attempt and makes it durable before anything is begun. */
  method Attempt(work: WorkCheckpoint) returns (attempt: Option<nat>)
    requires work.Holds() && work.Unrivalled(false)
    requires if work.value.Absent? then work.Unbegun(0) else work.value.Uploading? && work.Unbegun(work.value.attempt + 1)
    modifies work, work.store
    ensures work.store.Inv() && old(work.store.log) <= work.store.log
    ensures attempt.Some? ==> work.Holds() && work.Unrivalled(true) && work.Unbegun(attempt.value)
    ensures attempt.Some? ==> work.value == Uploading(attempt.value) && work.value in work.store.saved
    ensures old(work.store.Calm()) && old(work.revision) == |old(work.store.saved)| ==>
      attempt.Some? && work.store.Calm() && work.revision == |work.store.saved|
  {
    hide Disciplined, Backed, Entitled, SlotsOf, BeginsAre, BegunAreIn, DropsAre, Fine, Changed, PassedIn;
    var store := work.store;
    attempt := Some(0);
    if work.value.Uploading? {
      attempt := Restart(work);
      if attempt.None? {
        return None;
      }
    }
    UploadingEntitles(store.log, store.saved, store.transfers, work.revision, attempt.value);
    var saving := work.Save(Uploading(attempt.value));
    if !saving.Kept? {
      return None;
    }
  }

  /** What keeps an upload from returning although nothing goes wrong: a finished transfer that was
      discarded, or a source of another length than announced. */
  predicate Completable(value: Slot, log: Log, expected: Option<nat>, source: seq<Bytes>) {
    match value
    case Verified(_, _) => true
    case Finishing(_, blob) => Discarded(blob.transfer) !in log
    case _ => expected in {None, Some(|Flatten(source)|)}
  }

  /** One upload, resumed or not. When nothing lands late and it is not cut off it returns,
      exactly unless its transfer was discarded before or its source is not what was announced. */
  method Upload(work: WorkCheckpoint, expected: Option<nat>, source: seq<Bytes>) returns (outcome: Outcome)
    requires work.Holds() && work.revision == |work.store.saved| && work.Unrivalled(false)
    requires work.value.Absent? ==> work.Unbegun(0)
    requires work.value.Uploading? ==> work.Unbegun(work.value.attempt + 1)
    modifies work, work.store
    ensures work.store.Inv() && old(work.store.log) <= work.store.log
    ensures outcome.Done? ==> Returned(outcome.blob) in work.store.log
    ensures outcome.Done? && (old(work.value).Finishing? || old(work.value).Verified?) ==> outcome.blob == old(work.value).blob
    ensures outcome.Done? && !(old(work.value).Finishing? || old(work.value).Verified?) ==>
      outcome.blob.sha256 == Digest(Flatten(source)) && (expected.Some? ==> outcome.blob.byteLength == expected.value)
    ensures old(work.store.Calm()) ==> (outcome.Done? <==> Completable(old(work.value), old(work.store.log), expected, source))
  {
    hide Disciplined, Entitled, SlotsOf, BeginsAre, BegunAreIn, DropsAre, Next, Flatten, Fine;
    var store := work.store;
    if work.value.Verified? {
      assert Backed(store.log, store.transfers, store.saved[work.revision - 1]);
      store.Return(work.value.blob);
      assert store.log[|store.log| - 1] == Returned(work.value.blob);
      return Done(work.value.blob);
    }
    if !work.value.Finishing? {
      var attempt := Attempt(work);
      if attempt.None? {
        return Stopped;
      }
      var ok := Preserve(work, attempt.value, expected, source);
      if !ok {
        return Stopped;
      }
    }
    outcome := Complete(work);
  }

  /** Any number of runs over one store, each cut off anywhere or not, each finding any
      source, with whatever they leave behind taking effect at any later moment. */
  method Runs(fates: nat -> Fate, sources: seq<(Option<nat>, seq<Bytes>)>) returns (outcomes: seq<Outcome>, ghost log: Log)
    ensures Disciplined(log) && |outcomes| == |sources|
    ensures forall o :: o in outcomes && o.Done? ==> Returned(o.blob) in log
    ensures forall j, k :: 0 <= j < k < |outcomes| && outcomes[j].Done? && outcomes[k].Done? ==> outcomes[j].blob == outcomes[k].blob
  {
    hide Disciplined;
    var store := new Store(fates);
    outcomes := [];
    for i := 0 to |sources|
      invariant store.Inv() && fresh(store) && |outcomes| == i
      invariant forall o :: o in outcomes && o.Done? ==> Returned(o.blob) in store.log
    {
      var work := new WorkCheckpoint(store);
      var outcome := Upload(work, sources[i].0, sources[i].1);
      outcomes := outcomes + [outcome];
    }
    log := store.log;
    forall j, k | 0 <= j < k < |outcomes| && outcomes[j].Done? && outcomes[k].Done? ensures outcomes[j].blob == outcomes[k].blob {
      assert outcomes[j] in outcomes && outcomes[k] in outcomes;
      ReturnsAgree(log, outcomes[j].blob, outcomes[k].blob);
    }
  }

  // ----- what goes wrong late -----

  /** A begin left behind lands after the next run has read its status: that run goes on, and
      the transfer is never discarded. */
  method LateBegin() returns (store: Store, ghost transfer: nat)
    ensures store.Inv() && store.saved == [Uploading(0), Uploading(1)]
    ensures Began(0, transfer) in store.log && Discarded(transfer) !in store.log
  {
    hide *;
    store := new Store(_ => Fate([], false));
    FirstEntitles(store.log, store.saved, store.transfers);
    var ok := store.Checkpoint(0, Uploading(0));
    BeginEntitles(store.log, store.saved, store.transfers, 0);
    store.Leave(BeginFor(0));
    var prior := store.Status(0);
    assert store.log == [Saved(Uploading(0)), Checked(0)];
    NobodyBegan(store.log);
    store.Pass(0, 1);
    NextEntitles(store.log, store.saved, store.transfers);
    ok := store.Checkpoint(1, Uploading(1));
    store.Land(BeginFor(0));
    transfer := store.begun[0];
    assert store.log == [Saved(Uploading(0)), Checked(0), Passed(0, 1), Saved(Uploading(1)), Began(0, transfer)];
  }

  lemma FirstEntitles(log: Log, saved: seq<Slot>, transfers: map<nat, Transfer>)
    requires saved == []
    ensures Entitled(log, saved, transfers, SaveAt(0, Uploading(0)))
  {
  }

  lemma NobodyBegan(log: Log)
    requires log == [Saved(Uploading(0)), Checked(0)]
    ensures Fine(log, Passed(0, 1))
  {
  }

  lemma NextEntitles(log: Log, saved: seq<Slot>, transfers: map<nat, Transfer>)
    requires saved == [Uploading(0)] && PassedIn(log, 0)
    ensures Entitled(log, saved, transfers, SaveAt(1, Uploading(1)))
  {
  }

  /** A transfer filled by a run that is cut off while it saves `finishing`. */
  method LeftFinishing(bytes: Bytes) returns (store: Store, blob: Blob)
    ensures store.Inv() && fresh(store) && store.saved == [Uploading(0)] && SaveAt(1, Finishing(0, blob)) in store.inFlight
    ensures store.log == [Saved(Uploading(0)), Began(0, blob.transfer)] && store.begun == map[0 := blob.transfer] && blob.sha256 == Digest(bytes)
  {
    hide *;
    store := new Store(_ => Fate([], false));
    FirstEntitles(store.log, store.saved, store.transfers);
    var ok := store.Checkpoint(0, Uploading(0));
    var transfer := store.Begin(0);
    var sent := store.Send(transfer.value, bytes, true);
    assert [] + bytes == bytes;
    blob := Blob(transfer.value, Digest(bytes), |bytes|);
    SentEntitles(store.log, store.saved, store.transfers, blob);
    store.Leave(SaveAt(1, Finishing(0, blob)));
  }

  /** A `finishing` save left behind lands while the next run discards its transfer: the slot is
      finished for good, cannot be finalized, and no run ever returns. */
  method LateFinishing(bytes: Bytes) returns (store: Store, result: Option<Blob>)
    ensures store.Inv() && result.None?
    ensures |store.saved| == 2 && store.saved[1].Finishing? && store.saved[1].blob.sha256 == Digest(bytes)
    ensures forall later: Log, x :: Disciplined(store.log + later) ==> Returned(x) !in store.log + later
  {
    hide *;
    var blob;
    store, blob := LeftFinishing(bytes);
    var prior := store.Status(0);
    store.Land(SaveAt(1, Finishing(0, blob)));
    assert store.log == [Saved(Uploading(0)), Began(0, blob.transfer), Checked(0), Saved(Finishing(0, blob))];
    LandedSweeps(store.log, blob.transfer);
    store.Discard(prior.value);
    ghost var log := store.log;
    assert log == [Saved(Uploading(0)), Began(0, blob.transfer), Checked(0), Saved(Finishing(0, blob)), Discarded(blob.transfer)];
    result := store.Finish(0, blob);
    forall later: Log, x | Disciplined(store.log + later)
      ensures Returned(x) !in store.log + later
    {
      NeverReturned(store.log + later, log, blob, x);
    }
  }

  lemma NeverReturned(all: Log, log: Log, blob: Blob, x: Blob)
    requires Disciplined(all) && log <= all
    requires log == [Saved(Uploading(0)), Began(0, blob.transfer), Checked(0), Saved(Finishing(0, blob)), Discarded(blob.transfer)]
    ensures Returned(x) !in all
  {
    hide *;
    assert all[3] == log[3] && all[4] == log[4];
    assert Finished(blob) !in all[..4] by {
      forall k | 0 <= k < 4
        ensures all[k] != Finished(blob)
      {
        assert all[k] == log[k];
      }
    }
    LostForGood(all, 0, blob, 4);
  }

  lemma SentEntitles(log: Log, saved: seq<Slot>, transfers: map<nat, Transfer>, blob: Blob)
    requires saved == [Uploading(0)] && blob.transfer in transfers && transfers[blob.transfer] == Receiving(blob.sha256.content, true)
    requires blob.byteLength == |blob.sha256.content|
    ensures Entitled(log, saved, transfers, SaveAt(1, Finishing(0, blob)))
  {
  }

  lemma LandedSweeps(log: Log, t: nat)
    requires |log| > 2 && log[1] == Began(0, t) && log[2] == Checked(0)
    ensures Sweepable(log, t)
  {
  }
}
