/** The open-addressing vocabulary of packages/quixi-embed/native/tokenizer.c: lines
    of a file, inserted in order by linear probing, found by the same probing. */
module Vocabulary {
  import opened Common
  import opened Utf8

  const WORDS := 30522
  const SLOTS := 65536
  const MAX_LINE := 65535
  const NEWLINE: Byte := 10

  /** Hash of a byte sequence, as a slot. Each step is exclusive-or, multiply, modulo 2^32. */
  function Fnv(bytes: seq<Byte>): bv32 {
    if bytes == [] then 2166136261
    else Mix(Fnv(bytes[..|bytes| - 1]), bytes[|bytes| - 1])
  }

  function Mix(hash: bv32, b: Byte): bv32 {
    (hash ^ (b as bv32)) * 16777619
  }

  function Hash(bytes: seq<Byte>): nat { Fnv(bytes) as nat }

  method HashBytes(bytes: seq<Byte>) returns (h: nat)
    ensures h == Hash(bytes)
  {
    hide Mix;
    var hash: bv32 := 2166136261;
    assert bytes[..0] == [];
    for i := 0 to |bytes|
      invariant hash == Fnv(bytes[..i])
    {
      assert bytes[..i + 1][..i] == bytes[..i];
      hash := Mix(hash, bytes[i]);
    }
    assert bytes[..|bytes|] == bytes;
    h := hash as nat;
  }

  function Home(bytes: seq<Byte>): (s: nat)
    ensures s < SLOTS
  {
    Hash(bytes) % SLOTS
  }

  /** The slot `distance` steps after the home slot. */
  function Probe(bytes: seq<Byte>, distance: nat): (s: nat)
    ensures s < SLOTS
  {
    (Home(bytes) + distance) % SLOTS
  }

  lemma ProbeNext(bytes: seq<Byte>, distance: nat)
    ensures Probe(bytes, distance + 1) == (Probe(bytes, distance) + 1) % SLOTS
  {
  }

  lemma ProbeReaches(bytes: seq<Byte>, slot: nat) returns (distance: nat)
    requires slot < SLOTS
    ensures distance < SLOTS && Probe(bytes, distance) == slot
  {
    var home := Home(bytes);
    distance := if home <= slot then slot - home else slot + SLOTS - home;
  }

  lemma ProbeInjective(bytes: seq<Byte>, d: nat, e: nat)
    requires d < SLOTS && e < SLOTS && Probe(bytes, d) == Probe(bytes, e)
    ensures d == e
  {
  }

  // ----- the table -----

  /** `distance[id]` is how far word `id` sits from its home slot. Every slot before it
      was taken, and of two equal words the earlier one sits closer. */
  ghost predicate Table(lines: seq<seq<Byte>>, slots: seq<nat>, distance: seq<nat>) {
    && |slots| == SLOTS && |distance| == |lines|
    && (forall id :: 0 <= id < |lines| ==> Placed(lines, slots, distance, id))
    && (forall s :: 0 <= s < SLOTS && slots[s] != 0 ==> Owned(lines, slots, distance, s))
    && (forall i, j :: 0 <= i < j < |lines| && lines[i] == lines[j] ==> distance[i] < distance[j])
  }

  ghost predicate Placed(lines: seq<seq<Byte>>, slots: seq<nat>, distance: seq<nat>, id: nat)
    requires |slots| == SLOTS && |distance| == |lines| && id < |lines|
  {
    && distance[id] < SLOTS
    && slots[Probe(lines[id], distance[id])] == id + 1
    && Taken(slots, lines[id], distance[id])
  }

  /** Every slot nearer home than `distance` is taken. */
  ghost predicate Taken(slots: seq<nat>, bytes: seq<Byte>, distance: nat)
    requires |slots| == SLOTS
  {
    forall d :: 0 <= d < distance ==> slots[Probe(bytes, d)] != 0
  }

  ghost predicate Owned(lines: seq<seq<Byte>>, slots: seq<nat>, distance: seq<nat>, s: nat)
    requires |slots| == SLOTS && |distance| == |lines| && s < SLOTS
  {
    0 < slots[s] <= |lines| && s == Probe(lines[slots[s] - 1], distance[slots[s] - 1])
  }

  /** First line equal to the bytes. */
  function Lookup(lines: seq<seq<Byte>>, bytes: seq<Byte>, from: nat): Option<nat>
    requires from <= |lines|
    decreases |lines| - from
  {
    if from == |lines| then None
    else if lines[from] == bytes then Some(from)
    else Lookup(lines, bytes, from + 1)
  }

  lemma {:induction false} LookupIsFirst(lines: seq<seq<Byte>>, bytes: seq<Byte>, from: nat)
    requires from <= |lines|
    ensures var r := Lookup(lines, bytes, from);
      && (r.Some? ==> from <= r.value < |lines| && lines[r.value] == bytes
                      && forall i :: from <= i < r.value ==> lines[i] != bytes)
      && (r.None? ==> forall i :: from <= i < |lines| ==> lines[i] != bytes)
    decreases |lines| - from
  {
    if from < |lines| && lines[from] != bytes {
      LookupIsFirst(lines, bytes, from + 1);
    }
  }

  lemma LookupUnique(lines: seq<seq<Byte>>, bytes: seq<Byte>, id: nat)
    requires id < |lines| && lines[id] == bytes && forall i :: 0 <= i < id ==> lines[i] != bytes
    ensures Lookup(lines, bytes, 0) == Some(id)
  {
    LookupIsFirst(lines, bytes, 0);
  }

  /** A table with fewer words than slots has a free slot: words own distinct slots. */
  lemma FreeSlot(lines: seq<seq<Byte>>, slots: seq<nat>, distance: seq<nat>) returns (s: nat)
    requires Table(lines, slots, distance) && |lines| < SLOTS
    ensures s < SLOTS && slots[s] == 0
  {
    if forall t :: 0 <= t < SLOTS ==> slots[t] != 0 {
      forall t | 0 <= t < SLOTS
        ensures 0 < slots[t] <= |lines| && t == Probe(lines[slots[t] - 1], distance[slots[t] - 1])
      {
        assert Owned(lines, slots, distance, t);
      }
      assert Owned(lines, slots, distance, 0);
      var owners := seq(SLOTS, t requires 0 <= t < SLOTS => slots[t] - 1);
      Pigeonhole(owners, |lines|);
      assert false;
    }
    s :| 0 <= s < SLOTS && slots[s] == 0;
  }

  /** More positions than values: two positions agree. */
  lemma {:induction false} Pigeonhole(owners: seq<int>, n: nat)
    requires 1 <= n < |owners| && forall t :: 0 <= t < |owners| ==> 0 <= owners[t] < n
    ensures exists a, b :: 0 <= a < b < |owners| && owners[a] == owners[b]
    decreases n
  {
    if n == 1 {
      assert owners[0] == owners[1];
    } else {
      var last := |owners| - 1;
      if a :| 0 <= a < last && owners[a] == owners[last] {
      } else {
        // Rename value n - 1 to the last one's value: the rest use n - 1 values.
        var v := owners[last];
        var rest := seq(last, t requires 0 <= t < last => if owners[t] == n - 1 then v else owners[t]);
        Pigeonhole(rest, n - 1);
        var a, b :| 0 <= a < b < |rest| && rest[a] == rest[b];
        assert owners[a] == owners[b];
      }
    }
  }

  /** Inserting at the first free slot on the word's path keeps the table. */
  lemma Inserted(lines: seq<seq<Byte>>, slots: seq<nat>, distance: seq<nat>, word: seq<Byte>, d: nat)
    requires Table(lines, slots, distance) && d < SLOTS
    requires slots[Probe(word, d)] == 0 && Taken(slots, word, d)
    ensures Table(lines + [word], slots[Probe(word, d) := |lines| + 1], distance + [d])
  {
    hide Probe;
    var s := Probe(word, d);
    var lines', slots', distance' := lines + [word], slots[s := |lines| + 1], distance + [d];
    forall id | 0 <= id < |lines'|
      ensures Placed(lines', slots', distance', id)
    {
      if id < |lines| {
        assert Placed(lines, slots, distance, id);
      }
    }
    forall t | 0 <= t < SLOTS && slots'[t] != 0
      ensures Owned(lines', slots', distance', t)
    {
      if t != s {
        assert Owned(lines, slots, distance, t);
      }
    }
    forall i, j | 0 <= i < j < |lines'| && lines'[i] == lines'[j]
      ensures distance'[i] < distance'[j]
    {
      if j == |lines| {
        assert Placed(lines, slots, distance, i);
      }
    }
  }

  method Insert(slots: array<nat>, id: nat, word: seq<Byte>, ghost lines: seq<seq<Byte>>, ghost distance: seq<nat>)
    returns (ghost distance': seq<nat>)
    requires slots.Length == SLOTS && id == |lines| < SLOTS && Table(lines, slots[..], distance)
    modifies slots
    ensures Table(lines + [word], slots[..], distance')
  {
    hide Table, Probe, Home, Hash;
    var hash := HashBytes(word);
    var slot := hash % SLOTS;
    ghost var was := slots[..];
    ghost var free := FreeSlot(lines, was, distance);
    ghost var bound := ProbeReaches(word, free);
    ghost var d := 0;
    assert slot == Probe(word, 0) by { ProbeStart(word); }
    while slots[slot] != 0
      invariant slot < SLOTS && slot == Probe(word, d) && d <= bound < SLOTS
      invariant slots[..] == was && Taken(was, word, d)
      invariant was[Probe(word, bound)] == 0
      decreases bound - d
    {
      ProbeNext(word, d);
      slot := (slot + 1) % SLOTS;
      d := d + 1;
    }
    slots[slot] := id + 1;
    Inserted(lines, was, distance, word, d);
    assert slots[..] == was[slot := id + 1];
    distance' := distance + [d];
  }

  lemma ProbeStart(bytes: seq<Byte>)
    ensures Probe(bytes, 0) == Hash(bytes) % SLOTS
  {
    hide Hash;
  }

  /** Probing stops at a free slot or at an equal word; either way it agrees with a
      search of the lines from the first. */
  method Find(lines: seq<seq<Byte>>, slots: seq<nat>, bytes: seq<Byte>, ghost distance: seq<nat>) returns (found: Option<nat>)
    requires Table(lines, slots, distance)
    ensures found == Lookup(lines, bytes, 0)
  {
    hide Probe, Home, Hash, Lookup;
    var hash := HashBytes(bytes);
    var slot := hash % SLOTS;
    assert slot == Probe(bytes, 0) by { ProbeStart(bytes); }
    var probe := 0;
    while probe < SLOTS
      invariant probe <= SLOTS && slot < SLOTS && slot == Probe(bytes, probe)
      invariant Taken(slots, bytes, probe)
      invariant Missed(lines, slots, bytes, probe)
    {
      var entry := slots[slot];
      if entry == 0 {
        NothingFurther(lines, slots, distance, bytes, probe);
        return None;
      }
      assert Owned(lines, slots, distance, slot);
      var id := entry - 1;
      if lines[id] == bytes {
        FirstFound(lines, slots, distance, bytes, probe);
        return Some(id);
      }
      ProbeNext(bytes, probe);
      slot := (slot + 1) % SLOTS;
      probe := probe + 1;
    }
    NothingFurther(lines, slots, distance, bytes, probe);
    return None;
  }

  /** No word met before `probe` equals the bytes. */
  ghost predicate Missed(lines: seq<seq<Byte>>, slots: seq<nat>, bytes: seq<Byte>, probe: nat)
    requires |slots| == SLOTS
  {
    forall d :: 0 <= d < probe ==> 0 < slots[Probe(bytes, d)] <= |lines| ==> lines[slots[Probe(bytes, d)] - 1] != bytes
  }

  lemma NothingFurther(lines: seq<seq<Byte>>, slots: seq<nat>, distance: seq<nat>, bytes: seq<Byte>, probe: nat)
    requires Table(lines, slots, distance) && Missed(lines, slots, bytes, probe)
    requires probe == SLOTS || slots[Probe(bytes, probe)] == 0
    ensures Lookup(lines, bytes, 0) == None
  {
    hide Probe;
    LookupIsFirst(lines, bytes, 0);
    forall id | 0 <= id < |lines|
      ensures lines[id] != bytes
    {
      assert Placed(lines, slots, distance, id);
    }
  }

  lemma FirstFound(lines: seq<seq<Byte>>, slots: seq<nat>, distance: seq<nat>, bytes: seq<Byte>, probe: nat)
    requires Table(lines, slots, distance) && probe < SLOTS && Missed(lines, slots, bytes, probe)
    requires 0 < slots[Probe(bytes, probe)] <= |lines| && lines[slots[Probe(bytes, probe)] - 1] == bytes
    ensures Lookup(lines, bytes, 0) == Some(slots[Probe(bytes, probe)] - 1)
  {
    hide Probe;
    var id := slots[Probe(bytes, probe)] - 1;
    assert Owned(lines, slots, distance, Probe(bytes, probe));
    assert Placed(lines, slots, distance, id);
    ProbeInjective(bytes, probe, distance[id]);
    forall i | 0 <= i < id
      ensures lines[i] != bytes
    {
      assert Placed(lines, slots, distance, i);
    }
    LookupUnique(lines, bytes, id);
  }

  // ----- reading the file -----

  /** Each line followed by a newline. */
  function Joined(lines: seq<seq<Byte>>): seq<Byte> {
    if lines == [] then [] else Joined(lines[..|lines| - 1]) + lines[|lines| - 1] + [NEWLINE]
  }

  predicate Line(l: seq<Byte>) { 1 <= |l| <= MAX_LINE && NEWLINE !in l }

  predicate Acceptable(lines: seq<seq<Byte>>) { forall k :: 0 <= k < |lines| ==> Line(lines[k]) }

  /** Lines of 1 to 65,535 bytes without a newline. */
  lemma AcceptableIs(lines: seq<seq<Byte>>)
    ensures Acceptable(lines) <==> forall l :: l in lines ==> 1 <= |l| <= 65535 && 10 !in l
  {
    if Acceptable(lines) {
      forall l | l in lines ensures Line(l) {
        var k :| 0 <= k < |lines| && lines[k] == l;
      }
    }
    if forall l :: l in lines ==> 1 <= |l| <= 65535 && 10 !in l {
      forall k | 0 <= k < |lines| ensures Line(lines[k]) {
        assert lines[k] in lines;
      }
    }
  }

  lemma EmptyTable(slots: seq<nat>)
    requires |slots| == SLOTS && forall s :: 0 <= s < SLOTS ==> slots[s] == 0
    ensures Table([], slots, []) && Joined([]) == []
  {
  }

  /** One pass over the file; succeeds exactly on `WORDS` acceptable lines, and then
      the table holds them in order. */
  method Load(data: seq<Byte>) returns (ok: bool, lines: seq<seq<Byte>>, slots: seq<nat>, ghost distance: seq<nat>)
    ensures ok ==> Joined(lines) == data && Acceptable(lines) && |lines| == 30522 && Table(lines, slots, distance)
    ensures ok ==> forall l :: l in lines ==> 1 <= |l| <= 65535 && 10 !in l
    ensures !ok ==> forall ls :: Joined(ls) == data && (forall l :: l in ls ==> 1 <= |l| <= 65535 && 10 !in l) ==> |ls| != 30522
  {
    hide Table, Joined;
    var table := new nat[SLOTS](_ => 0);
    lines, distance := [], [];
    var start := 0;
    slots := [];
    EmptyTable(table[..]);
    assert data[..0] == [];
    for i := 0 to |data|
      invariant 0 <= start <= i && |lines| <= WORDS && Acceptable(lines)
      invariant Joined(lines) == data[..start]
      invariant NEWLINE !in data[start..i]
      invariant Table(lines, table[..], distance)
    {
      if data[i] == NEWLINE {
        var line := data[start..i];
        if |lines| >= WORDS || i == start || i - start > MAX_LINE {
          RejectLine(data, lines, start, i);
          return false, lines, slots, distance;
        }
        distance := Insert(table, |lines|, line, lines, distance);
        JoinedOne(lines, line);
        assert data[..start] + line + [NEWLINE] == data[..i + 1];
        lines := lines + [line];
        start := i + 1;
      }
    }
    ok := |lines| == WORDS && start == |data|;
    slots := table[..];
    if ok {
      assert data[..start] == data;
    } else {
      RejectEnd(data, lines, start);
    }
  }

  lemma JoinedOne(lines: seq<seq<Byte>>, line: seq<Byte>)
    ensures Joined(lines + [line]) == Joined(lines) + line + [NEWLINE]
  {
    assert (lines + [line])[..|lines|] == lines;
  }

  /** Two splittings of one text into acceptable lines agree as far as both go. */
  lemma {:induction false} SameLines(ls: seq<seq<Byte>>, lines: seq<seq<Byte>>, n: nat)
    requires Acceptable(ls) && Acceptable(lines) && n <= |lines|
    requires Joined(lines) <= Joined(ls)
    ensures n <= |ls| && lines[..n] == ls[..n]
    decreases n
  {
    hide *;
    if n > 0 {
      assert ls[..|ls|] == ls;
      SameLines(ls, lines, n - 1);
      NextLine(lines, n - 1);
      var data := Joined(ls);
      if n - 1 < |ls| {
        NextLine(ls, n - 1);
        var at := |Joined(ls[..n - 1])|;
        Between(data, Joined(ls[..n - 1]), ls[n - 1]);
        Between(data, Joined(ls[..n - 1]), lines[n - 1]);
        LineAt(ls, n - 1);
        LineAt(lines, n - 1);
        assert NEWLINE !in lines[n - 1] by { LineClean(lines[n - 1]); }
        SameNext(ls[n - 1], lines[n - 1], data, at);
        assert ls[..n] == ls[..n - 1] + [ls[n - 1]];
        assert lines[..n] == lines[..n - 1] + [lines[n - 1]];
      }
    }
  }

  lemma LineAt(ls: seq<seq<Byte>>, k: nat)
    requires Acceptable(ls) && k < |ls|
    ensures Line(ls[k])
  {
  }

  lemma LineClean(l: seq<Byte>)
    requires Line(l)
    ensures NEWLINE !in l
  {
  }

  lemma Between(data: seq<Byte>, before: seq<Byte>, line: seq<Byte>)
    requires before + line + [NEWLINE] <= data
    ensures var at := |before|;
      at + |line| < |data| && data[at..at + |line|] == line && data[at + |line|] == NEWLINE
  {
    var whole := before + line + [NEWLINE];
    assert data[..|whole|] == whole;
    assert data[|before|..|before| + |line|] == whole[|before|..|before| + |line|];
    assert data[|before| + |line|] == whole[|before| + |line|];
  }

  /** The text up to and including line `n`. */
  lemma {:induction false} NextLine(ls: seq<seq<Byte>>, n: nat)
    requires n < |ls|
    ensures Joined(ls[..n]) + ls[n] + [NEWLINE] <= Joined(ls)
    decreases |ls|
  {
    var last := |ls| - 1;
    if n < last {
      NextLine(ls[..last], n);
      assert ls[..last][..n] == ls[..n];
    }
  }

  lemma SameNext(a: seq<Byte>, b: seq<Byte>, data: seq<Byte>, at: nat)
    requires at + |a| < |data| && at + |b| < |data|
    requires data[at..at + |a|] == a && data[at + |a|] == NEWLINE && Line(a)
    requires data[at..at + |b|] == b && data[at + |b|] == NEWLINE && NEWLINE !in b
    ensures a == b
  {
    forall k | at <= k < at + |a|
      ensures data[k] != NEWLINE
    {
      assert data[at..at + |a|][k - at] == a[k - at];
    }
    forall k | at <= k < at + |b|
      ensures data[k] != NEWLINE
    {
      assert data[at..at + |b|][k - at] == b[k - at];
    }
  }

  /** What comes after the lines already read, in any acceptable splitting. */
  lemma After(ls: seq<seq<Byte>>, lines: seq<seq<Byte>>, data: seq<Byte>, start: nat)
    requires Joined(ls) == data && Acceptable(ls) && Acceptable(lines)
    requires start <= |data| && Joined(lines) == data[..start]
    ensures |lines| <= |ls|
    ensures |ls| == |lines| ==> start == |data|
    ensures |ls| > |lines| ==>
      var next := ls[|lines|];
      start + |next| < |data| && data[start..start + |next|] == next && data[start + |next|] == NEWLINE && Line(next)
  {
    hide Joined, Line;
    var n := |lines|;
    SameLines(ls, lines, n);
    assert lines[..n] == lines;
    if n < |ls| {
      NextLine(ls, n);
      Between(data, data[..start], ls[n]);
      assert Line(ls[n]);
    } else {
      assert ls[..n] == ls;
    }
  }

  lemma RejectLine(data: seq<Byte>, lines: seq<seq<Byte>>, start: nat, i: nat)
    requires start <= i < |data| && data[i] == NEWLINE && NEWLINE !in data[start..i]
    requires Joined(lines) == data[..start] && Acceptable(lines)
    requires |lines| >= WORDS || i == start || i - start > MAX_LINE
    ensures forall ls :: Joined(ls) == data && Acceptable(ls) ==> |ls| != WORDS
  {
    hide Joined, Acceptable;
    forall ls | Joined(ls) == data && Acceptable(ls)
      ensures |ls| != WORDS
    {
      After(ls, lines, data, start);
      if |lines| < |ls| {
        SameNext(ls[|lines|], data[start..i], data, start);
      }
    }
  }

  lemma RejectEnd(data: seq<Byte>, lines: seq<seq<Byte>>, start: nat)
    requires start <= |data| && NEWLINE !in data[start..]
    requires Joined(lines) == data[..start] && Acceptable(lines)
    requires |lines| != WORDS || start != |data|
    ensures forall ls :: Joined(ls) == data && Acceptable(ls) ==> |ls| != WORDS
  {
    hide Joined, Acceptable;
    forall k | start <= k < |data|
      ensures data[k] != NEWLINE
    {
      assert data[start..][k - start] == data[k];
    }
    forall ls | Joined(ls) == data && Acceptable(ls)
      ensures |ls| != WORDS
    {
      After(ls, lines, data, start);
    }
  }
}
