/** Import of one conversation tree: the work table of
    packages/storage/migrations/index.ts and packages/storage/src/worker/canonical/import-work.ts,
    worked off by packages/importers/src/normalize.ts. */
module Import {
  import opened Common

  type Key = nat

  /** Identities are allocated once per run and key. */
  datatype Id = Allocated(run: nat, key: Key)

  datatype Role = System | User | Assistant | Tool

  /** A native id within its namespace: the message's own id, or its mapping node's. */
  datatype Name = Name(ofMessage: bool, native: nat)

  /** `digest` stands for the bytes of the message record, SHA-256 being injective;
      `role` is None when it is missing or unsupported. */
  datatype Payload = Structural | Record(name: Name, digest: nat, role: Option<Role>) | Part

  datatype Item = Item(parent: Option<Key>, payload: Payload)

  type Group = map<Key, Item>

  /** Identity by content: bytes, canonical parent and role. */
  datatype Revision = Revision(digest: nat, parent: Option<Id>, role: Role)

  datatype Scope = Native(name: Name) | Revised(name: Name, revision: Revision)

  datatype Message = Message(id: Id, parent: Option<Id>, role: Role, editedFrom: Option<Id>)

  /** What is published: identities and messages. Staged records are not visible here. */
  datatype Store = Store(identities: map<Scope, Id>, messages: map<Id, Message>)

  datatype Result = Result(canonical: Option<Id>, skip: bool)

  datatype Staged = Staged(key: Key, name: Name, digest: nat, message: Message)

  // ----- the dependency graph -----

  ghost predicate Complete(g: Group) { forall k :: k in g && g[k].parent.Some? ==> g[k].parent.value in g }

  /** A walk from child to parent. */
  ghost predicate Walk(g: Group, p: seq<Key>) {
    && (forall k :: k in p ==> k in g)
    && forall i :: 0 <= i < |p| - 1 ==> g[p[i]].parent == Some(p[i + 1])
  }

  ghost predicate Acyclic(g: Group) { forall p :: Walk(g, p) && |p| >= 2 ==> p[0] != p[|p| - 1] }

  /** At most `n` parents above, the last a root. */
  ghost predicate Grounded(g: Group, k: Key, n: nat)
    decreases n
  {
    k in g && (g[k].parent.Some? ==> n > 0 && Grounded(g, g[k].parent.value, n - 1))
  }

  lemma {:induction false} GroundedMore(g: Group, k: Key, n: nat, m: nat)
    requires Grounded(g, k, n) && n <= m
    ensures Grounded(g, k, m)
    decreases n
  {
    if g[k].parent.Some? {
      GroundedMore(g, g[k].parent.value, n - 1, m - 1);
    }
  }

  /** Without grounding there are walks of every length. */
  lemma {:induction false} LongWalk(g: Group, k: Key, n: nat) returns (p: seq<Key>)
    requires Complete(g) && k in g && !Grounded(g, k, n)
    ensures Walk(g, p) && |p| == n + 2 && p[0] == k
    decreases n
  {
    var parent := g[k].parent.value;
    if n == 0 {
      p := [k, parent];
    } else {
      var rest := LongWalk(g, parent, n - 1);
      p := [k] + rest;
      assert forall i :: 0 < i < |p| ==> p[i] == rest[i - 1];
    }
  }

  lemma WalkDistinct(g: Group, p: seq<Key>)
    requires Acyclic(g) && Walk(g, p)
    ensures forall i, j :: 0 <= i < j < |p| ==> p[i] != p[j]
  {
    forall i, j | 0 <= i < j < |p| ensures p[i] != p[j] {
      var q := p[i..j + 1];
      assert forall k :: k in q ==> k in p;
      assert Walk(g, q) && q[0] == p[i] && q[|q| - 1] == p[j];
    }
  }

  lemma {:induction false} DistinctFit(p: seq<Key>, s: set<Key>)
    requires (forall i, j :: 0 <= i < j < |p| ==> p[i] != p[j]) && (forall k :: k in p ==> k in s)
    ensures |p| <= |s|
    decreases |p|
  {
    if p != [] {
      var front, last := p[..|p| - 1], p[|p| - 1];
      assert forall k :: k in front ==> k in s - {last};
      DistinctFit(front, s - {last});
    }
  }

  /** The walk up from a grounded item. */
  lemma {:induction false} WalkUp(g: Group, k: Key, n: nat) returns (p: seq<Key>)
    requires Grounded(g, k, n)
    ensures Walk(g, p) && p != [] && p[0] == k && g[p[|p| - 1]].parent.None? && |p| <= n + 1
    decreases n
  {
    if g[k].parent.None? {
      p := [k];
    } else {
      var rest := WalkUp(g, g[k].parent.value, n - 1);
      p := [k] + rest;
      assert forall i :: 0 < i < |p| ==> p[i] == rest[i - 1];
    }
  }

  /** A grounded item is grounded within as many steps as there are items. */
  lemma ShortGrounded(g: Group, k: Key, n: nat)
    requires Grounded(g, k, n)
    ensures Grounded(g, k, |g|)
  {
    var p := WalkUp(g, k, n);
    WalkToRoot(g, p);
    WalkUpDistinct(g, p);
    DistinctFit(p, g.Keys);
    GroundedMore(g, k, |p| - 1, |g|);
  }

  lemma {:induction false} WalkToRoot(g: Group, p: seq<Key>)
    requires Walk(g, p) && p != [] && g[p[|p| - 1]].parent.None?
    ensures Grounded(g, p[0], |p| - 1)
    decreases |p|
  {
    assert p[0] in p;
    if |p| > 1 {
      assert forall k :: k in p[1..] ==> k in p;
      WalkToRoot(g, p[1..]);
    }
  }

  /** A walk that ends at a root never repeats. */
  lemma WalkUpDistinct(g: Group, p: seq<Key>)
    requires Walk(g, p) && p != [] && g[p[|p| - 1]].parent.None?
    ensures forall i, j :: 0 <= i < j < |p| ==> p[i] != p[j]
  {
    forall i, j | 0 <= i < j < |p| ensures p[i] != p[j] {
      if p[i] == p[j] {
        SameWalk(g, p, i, j);
      }
    }
  }

  /** Equal items continue equally, so the one nearer the root has no room to repeat. */
  lemma {:induction false} SameWalk(g: Group, p: seq<Key>, i: nat, j: nat)
    requires Walk(g, p) && i < j < |p| && p[i] == p[j] && g[p[|p| - 1]].parent.None?
    ensures false
    decreases |p| - j
  {
    assert g[p[i]].parent == Some(p[i + 1]);
    if j + 1 < |p| {
      assert g[p[j]].parent == Some(p[j + 1]);
      SameWalk(g, p, i + 1, j + 1);
    }
  }

  /** Complete and acyclic is the same as: every chain of parents ends at a root. */
  lemma GroundedIffTree(g: Group)
    ensures Complete(g) && Acyclic(g) <==> forall k :: k in g ==> Grounded(g, k, |g|)
  {
    if Complete(g) && Acyclic(g) {
      forall k | k in g ensures Grounded(g, k, |g|) {
        if !Grounded(g, k, |g|) {
          var p := LongWalk(g, k, |g|);
          WalkDistinct(g, p);
          DistinctFit(p, g.Keys);
        }
      }
    }
    if forall k :: k in g ==> Grounded(g, k, |g|) {
      forall k | k in g && g[k].parent.Some? ensures g[k].parent.value in g {
        assert Grounded(g, k, |g|);
        assert Grounded(g, g[k].parent.value, |g| - 1);
      }
      forall p | Walk(g, p) && |p| >= 2 ensures p[0] != p[|p| - 1] {
        if p[0] == p[|p| - 1] {
          assert p[0] in p;
          CycleIsNotGrounded(g, p, p[0], 0, |g|);
        }
      }
    }
  }

  /** On a cycle no number of steps reaches a root. */
  lemma {:induction false} CycleIsNotGrounded(g: Group, p: seq<Key>, k: Key, i: nat, n: nat)
    requires Walk(g, p) && |p| >= 2 && p[0] == p[|p| - 1] && i < |p| - 1 && k == p[i]
    ensures !Grounded(g, k, n)
    decreases n
  {
    assert p[i] in p;
    if n > 0 {
      var next := if i + 1 < |p| - 1 then i + 1 else 0;
      assert g[p[i]].parent == Some(p[i + 1]) && p[next] == p[i + 1];
      CycleIsNotGrounded(g, p, p[next], next, n - 1);
    } else {
      assert g[p[i]].parent == Some(p[i + 1]);
    }
  }

  // ----- what each item resolves to -----

  predicate Valid(item: Item) { item.payload.Record? && item.payload.role.Some? }

  function ParentResult(g: Group, store: Store, run: nat, k: Key, n: nat): Result
    requires Grounded(g, k, n)
    decreases n, 0
  {
    if g[k].parent.None? then Result(None, false) else Expected(g, store, run, g[k].parent.value, n - 1)
  }

  function ScopeOf(item: Item, parent: Option<Id>): Scope
    requires Valid(item)
  {
    Revised(item.payload.name, Revision(item.payload.digest, parent, item.payload.role.value))
  }

  function Resolution(store: Store, run: nat, k: Key, item: Item, parent: Result): Result {
    match item.payload
    case Structural => Result(parent.canonical, false)
    case Part => if parent.skip then Result(None, true) else Result(Some(Allocated(run, k)), false)
    case Record(_, _, role) =>
      if role.None? then Result(parent.canonical, true)
      else
        var scope := ScopeOf(item, parent.canonical);
        if scope in store.identities then Result(Some(store.identities[scope]), true) else Result(Some(Allocated(run, k)), false)
  }

  function Expected(g: Group, store: Store, run: nat, k: Key, n: nat): Result
    requires Grounded(g, k, n)
    decreases n, 1
  {
    Resolution(store, run, k, g[k], ParentResult(g, store, run, k, n))
  }

  lemma {:induction false} ExpectedAnyDepth(g: Group, store: Store, run: nat, k: Key, n: nat, m: nat)
    requires Grounded(g, k, n) && Grounded(g, k, m)
    ensures Expected(g, store, run, k, n) == Expected(g, store, run, k, m)
    ensures ParentResult(g, store, run, k, n) == ParentResult(g, store, run, k, m)
    decreases n
  {
    if g[k].parent.Some? {
      ExpectedAnyDepth(g, store, run, g[k].parent.value, n - 1, m - 1);
    }
  }

  /** A valid node whose revision is not published gets a new message. */
  predicate IsNew(store: Store, item: Item, parent: Option<Id>) {
    Valid(item) && ScopeOf(item, parent) !in store.identities
  }

  function NewMessage(store: Store, run: nat, k: Key, item: Item, parent: Option<Id>): Staged
    requires Valid(item)
  {
    var role := item.payload.role.value;
    var previous := Native(item.payload.name);
    var edited :=
      if previous in store.identities && store.identities[previous] in store.messages
         && store.messages[store.identities[previous]].parent == parent && store.messages[store.identities[previous]].role == role
      then Some(store.identities[previous]) else None;
    Staged(k, item.payload.name, item.payload.digest, Message(Allocated(run, k), parent, role, edited))
  }

  /** Parts hang from message records, and nothing hangs from a part. */
  ghost predicate Scanned(g: Group) {
    forall k :: k in g ==>
      && (g[k].payload.Part? ==> g[k].parent.Some? && (g[k].parent.value in g ==> g[g[k].parent.value].payload.Record?))
      && (g[k].parent.Some? && g[k].parent.value in g ==> !g[g[k].parent.value].payload.Part?)
  }

  // ----- the worklist -----

  /** A group being worked off, `depth` recording how far each resolved item is from its root. */
  datatype Task = Task(group: Group, store: Store, run: nat)

  datatype Progress = Progress(links: map<Key, nat>, results: map<Key, Result>, staged: seq<Staged>, depth: map<Key, nat>)

  ghost predicate Resolved(t: Task, p: Progress, k: Key) {
    && k in p.results && k in p.depth && Grounded(t.group, k, p.depth[k])
    && p.results[k] == Expected(t.group, t.store, t.run, k, p.depth[k])
  }

  ghost function ParentOf(t: Task, p: Progress, k: Key): Option<Id>
    requires Resolved(t, p, k)
  {
    ParentResult(t.group, t.store, t.run, k, p.depth[k]).canonical
  }

  ghost predicate NewAt(t: Task, p: Progress, k: Key) {
    Resolved(t, p, k) && IsNew(t.store, t.group[k], ParentOf(t, p, k))
  }

  ghost predicate RightEntry(t: Task, p: Progress, s: Staged) {
    NewAt(t, p, s.key) && s == NewMessage(t.store, t.run, s.key, t.group[s.key], ParentOf(t, p, s.key))
  }

  /** Exactly the items it should be staged for, each once. */
  ghost predicate StagedRight(t: Task, p: Progress) {
    && (forall s :: s in p.staged ==> RightEntry(t, p, s))
    && (forall k :: NewAt(t, p, k) ==> exists s :: s in p.staged && s.key == k)
    && (forall i, j :: 0 <= i < j < |p.staged| ==> p.staged[i].key != p.staged[j].key)
  }

  ghost predicate LinksRight(t: Task, p: Progress) {
    && p.links.Keys == t.group.Keys
    && forall k :: k in t.group ==> (p.links[k] == 0 <==> t.group[k].parent.None? || t.group[k].parent.value in p.results)
  }

  ghost predicate Inv(t: Task, p: Progress) {
    && Scanned(t.group) && LinksRight(t, p) && StagedRight(t, p)
    && forall k :: k in p.results ==> Resolved(t, p, k) && k in p.links && p.links[k] == 0
  }

  /** The progress with one more item resolved. */
  ghost predicate OneMore(t: Task, p: Progress, q: Progress, k: Key, parent: Option<Id>) {
    && k in t.group && k !in p.results && k in q.results && k in q.depth
    && q.results == p.results[k := q.results[k]] && q.depth == p.depth[k := q.depth[k]]
    && q.staged == (if IsNew(t.store, t.group[k], parent) then p.staged + [NewMessage(t.store, t.run, k, t.group[k], parent)] else p.staged)
  }

  lemma StaysResolved(t: Task, p: Progress, q: Progress, k: Key, parent: Option<Id>, c: Key)
    requires OneMore(t, p, q, k, parent) && Resolved(t, p, c)
    ensures Resolved(t, q, c) && ParentOf(t, q, c) == ParentOf(t, p, c)
  {
  }

  lemma EntryStays(t: Task, p: Progress, q: Progress, k: Key, parent: Option<Id>, s: Staged)
    requires OneMore(t, p, q, k, parent) && RightEntry(t, p, s)
    ensures RightEntry(t, q, s) && s.key in p.results
  {
    hide IsNew, NewMessage;
    StaysResolved(t, p, q, k, parent, s.key);
  }

  lemma NewStays(t: Task, p: Progress, q: Progress, k: Key, parent: Option<Id>, c: Key)
    requires OneMore(t, p, q, k, parent) && NewAt(t, q, c) && c != k && (forall c :: c in p.results ==> Resolved(t, p, c))
    ensures NewAt(t, p, c)
  {
    hide IsNew, NewMessage;
    assert c in p.results;
    StaysResolved(t, p, q, k, parent, c);
  }

  lemma EntryAdded(t: Task, p: Progress, q: Progress, k: Key, parent: Option<Id>)
    requires OneMore(t, p, q, k, parent) && Resolved(t, q, k) && ParentOf(t, q, k) == parent
    ensures NewAt(t, q, k) <==> IsNew(t.store, t.group[k], parent)
    ensures NewAt(t, q, k) ==> q.staged != [] && q.staged == p.staged + [q.staged[|q.staged| - 1]]
                               && q.staged[|q.staged| - 1].key == k && RightEntry(t, q, q.staged[|q.staged| - 1])
    ensures !NewAt(t, q, k) ==> q.staged == p.staged
  {
  }

  lemma StagedStaysRight(t: Task, p: Progress, q: Progress, k: Key, parent: Option<Id>)
    requires StagedRight(t, p) && OneMore(t, p, q, k, parent) && Resolved(t, q, k) && ParentOf(t, q, k) == parent
    requires forall c :: c in p.results ==> Resolved(t, p, c)
    ensures StagedRight(t, q)
  {
    hide Resolved, ParentOf, IsNew, NewMessage, NewAt, RightEntry;
    EntryAdded(t, p, q, k, parent);
    forall s | s in q.staged ensures RightEntry(t, q, s) {
      if s in p.staged {
        EntryStays(t, p, q, k, parent, s);
      }
    }
    forall c | NewAt(t, q, c) ensures exists s :: s in q.staged && s.key == c {
      if c != k {
        NewStays(t, p, q, k, parent, c);
        var s :| s in p.staged && s.key == c;
        assert s in q.staged;
      } else {
        assert q.staged[|q.staged| - 1] in q.staged;
      }
    }
    forall i, j | 0 <= i < j < |q.staged| ensures q.staged[i].key != q.staged[j].key {
      assert p.staged[i] in p.staged;
      EntryStays(t, p, q, k, parent, p.staged[i]);
    }
  }

  /** Resolving a ready item keeps the invariant. */
  lemma InvMore(t: Task, p: Progress, q: Progress, k: Key, parent: Option<Id>)
    requires Inv(t, p) && OneMore(t, p, q, k, parent) && Resolved(t, q, k) && ParentOf(t, q, k) == parent
    requires p.links.Keys == q.links.Keys == t.group.Keys && p.links[k] == 0
    requires forall c :: c in t.group ==> q.links[c] == if t.group[c].parent == Some(k) then 0 else p.links[c]
    ensures Inv(t, q)
  {
    hide Resolved, ParentOf, IsNew, NewMessage, StagedRight;
    StagedStaysRight(t, p, q, k, parent);
    forall c | c in q.results ensures Resolved(t, q, c) && c in q.links && q.links[c] == 0 {
      if c != k {
        StaysResolved(t, p, q, k, parent, c);
      }
    }
  }

  /** A ready item resolves to what its chain of parents says. */
  lemma ReadyResolution(t: Task, p: Progress, k: Key)
    requires Inv(t, p) && k in t.group && p.links[k] == 0
    ensures var item := t.group[k];
      item.parent.Some? ==> item.parent.value in p.results && item.parent.value in p.depth
    ensures var item := t.group[k];
      var n := if item.parent.None? then 0 else p.depth[item.parent.value] + 1;
      var parent := if item.parent.None? then Result(None, false) else p.results[item.parent.value];
      && Grounded(t.group, k, n) && parent == ParentResult(t.group, t.store, t.run, k, n)
      && Expected(t.group, t.store, t.run, k, n) == Resolution(t.store, t.run, k, item, parent)
  {
    var item := t.group[k];
    if item.parent.Some? {
      assert Resolved(t, p, item.parent.value);
    }
  }

  class ThreadNormalizer {
    const group: Group
    const store: Store
    const run: nat
    var links: map<Key, nat>                 // pending_links
    var results: map<Key, Result>            // resolved items
    var staged: seq<Staged>
    ghost var depth: map<Key, nat>

    ghost function T(): Task { Task(group, store, run) }

    ghost function P(): Progress
      reads this
    {
      Progress(links, results, staged, depth)
    }

    /** Sealing sets one pending link for every item with a parent. */
    constructor (group: Group, store: Store, run: nat)
      requires Scanned(group)
      ensures Inv(T(), P()) && this.group == group && this.store == store && this.run == run && results == map[] && staged == []
    {
      this.group, this.store, this.run := group, store, run;
      links := map k | k in group :: if group[k].parent.None? then 0 else 1;
      results, staged, depth := map[], [], map[];
    }

    /** importWorkResolve: the item is done and its children become ready. */
    method Resolve(k: Key, result: Result, ghost n: nat)
      requires k in group && links.Keys == group.Keys
      modifies this`links, this`results, this`depth
      ensures results == old(results)[k := result] && depth == old(depth)[k := n]
      ensures links.Keys == group.Keys
      ensures forall c :: c in group ==> links[c] == if group[c].parent == Some(k) then 0 else old(links)[c]
    {
      results := results[k := result];
      depth := depth[k := n];
      links := map c | c in links :: if c in group && group[c].parent == Some(k) then 0 else links[c];
    }

    /** What one item resolves to; a new message is staged on the way. */
    method Settle(k: Key, item: Item, parent: Result) returns (result: Result)
      modifies this`staged
      ensures result == Resolution(store, run, k, item, parent)
      ensures staged == if IsNew(store, item, parent.canonical) then old(staged) + [NewMessage(store, run, k, item, parent.canonical)] else old(staged)
    {
      match item.payload {
        case Structural => return Result(parent.canonical, false);
        case Part => return if parent.skip then Result(None, true) else Result(Some(Allocated(run, k)), false);
        case Record(_, _, role) =>
          if role.None? {
            return Result(parent.canonical, true);
          }
          var scope := ScopeOf(item, parent.canonical);
          if scope in store.identities {
            return Result(Some(store.identities[scope]), true);
          }
          staged := staged + [NewMessage(store, run, k, item, parent.canonical)];
          return Result(Some(Allocated(run, k)), false);
      }
    }

    /** One ready item: a node, or a part. */
    method Work(k: Key)
      requires Inv(T(), P()) && k in group && k !in results && links[k] == 0
      modifies this
      ensures Inv(T(), P()) && results.Keys == old(results.Keys) + {k}
    {
      hide IsNew, NewMessage, Resolution, StagedRight, Expected, ParentResult, Grounded, Scanned;
      ReadyResolution(T(), P(), k);
      ghost var before := P();
      var item := group[k];
      ghost var n := if item.parent.None? then 0 else depth[item.parent.value] + 1;
      var parent := if item.parent.None? then Result(None, false) else results[item.parent.value];
      var result := Settle(k, item, parent);
      Resolve(k, result, n);
      InvMore(T(), before, P(), k, parent.canonical);
    }

    /** Works off ready items, in any order, until none is left. True, the loop's normal
        end, when every item is resolved. */
    method NormalizeGroup() returns (complete: bool)
      requires Inv(T(), P()) && results == map[]
      modifies this
      ensures Inv(T(), P())
      ensures complete <==> Complete(group) && Acyclic(group)
      ensures complete <==> results.Keys == group.Keys
    {
      hide Inv, Complete, Acyclic;
      ghost var left := group.Keys;
      var more := true;
      while more
        invariant Inv(T(), P()) && left == group.Keys - results.Keys
        invariant !more ==> forall k :: k in links && links[k] == 0 ==> k in results
        decreases |left|, more
      {
        ResultsInGroup(T(), P());
        more := WorkOne();
        if more {
          SmallerLeft(left, group.Keys - results.Keys);
          left := group.Keys - results.Keys;
        }
      }
      complete := results.Keys == group.Keys;
      NoneReady(T(), P());
    }

    /** Takes one ready item, whichever; false when none is ready. */
    method WorkOne() returns (found: bool)
      requires Inv(T(), P())
      modifies this
      ensures Inv(T(), P())
      ensures !found ==> P() == old(P()) && forall k :: k in links && links[k] == 0 ==> k in results
      ensures found ==> exists k :: k in group && k !in old(results) && results.Keys == old(results.Keys) + {k}
    {
      hide Inv;
      ResultsInGroup(T(), P());
      var ready := set k | k in links && links[k] == 0 && k !in results;
      if ready == {} {
        assert forall k :: k in links && links[k] == 0 && k !in results ==> k in ready;
        return false;
      }
      var k :| k in ready;
      Work(k);
      return true;
    }
  }

  lemma SmallerLeft<T>(a: set<T>, b: set<T>)
    requires b < a
    ensures |b| < |a|
  {
    var x :| x in a && x !in b;
    assert b <= a - {x} && |a - {x}| == |a| - 1;
    SubsetSize(b, a - {x});
  }

  lemma {:induction false} SubsetSize<T>(a: set<T>, b: set<T>)
    requires a <= b
    ensures |a| <= |b|
    decreases |a|
  {
    if a != {} {
      var x :| x in a;
      SubsetSize(a - {x}, b - {x});
    }
  }

  lemma ResultsInGroup(t: Task, p: Progress)
    requires Inv(t, p)
    ensures p.links.Keys == t.group.Keys && p.results.Keys <= t.group.Keys
  {
    forall k | k in p.results ensures k in t.group {
      assert Resolved(t, p, k);
    }
  }

  lemma NoneReady(t: Task, p: Progress)
    requires Inv(t, p) && forall k :: k in p.links && p.links[k] == 0 ==> k in p.results
    ensures p.results.Keys == t.group.Keys <==> Complete(t.group) && Acyclic(t.group)
  {
    ResultsInGroup(t, p);
    GroundedIffTree(t.group);
    if p.results.Keys == t.group.Keys {
      forall k | k in t.group ensures Grounded(t.group, k, |t.group|) {
        assert Resolved(t, p, k);
        ShortGrounded(t.group, k, p.depth[k]);
      }
    }
    if forall k :: k in t.group ==> Grounded(t.group, k, |t.group|) {
      forall k | k in t.group ensures k in p.results {
        GroundedIsResolved(t, p, k, |t.group|);
      }
    }
  }

  /** When nothing is ready, every grounded item is resolved. */
  lemma {:induction false} GroundedIsResolved(t: Task, p: Progress, k: Key, n: nat)
    requires Inv(t, p) && (forall k :: k in p.links && p.links[k] == 0 ==> k in p.results)
    requires Grounded(t.group, k, n)
    ensures k in p.results
    decreases n
  {
    if t.group[k].parent.Some? {
      GroundedIsResolved(t, p, t.group[k].parent.value, n - 1);
    }
  }

  // ----- attachment to the nearest valid ancestor -----

  /** The nearest ancestor with a valid role. */
  ghost function Nearest(g: Group, k: Key, n: nat): (r: Option<Key>)
    requires Grounded(g, k, n)
    ensures r.Some? ==> r.value in g && Valid(g[r.value])
    decreases n
  {
    if g[k].parent.None? then None
    else
      assert Grounded(g, g[k].parent.value, n - 1);
      if Valid(g[g[k].parent.value]) then g[k].parent else Nearest(g, g[k].parent.value, n - 1)
  }

  lemma {:induction false} ParentIsNearest(t: Task, p: Progress, k: Key, n: nat)
    requires Inv(t, p) && Grounded(t.group, k, n) && (t.group[k].parent.Some? ==> t.group[k].parent.value in p.results)
    ensures var a := Nearest(t.group, k, n);
      && (a.Some? ==> a.value in p.results && p.results[a.value].canonical.Some?)
      && ParentResult(t.group, t.store, t.run, k, n).canonical == if a.None? then None else p.results[a.value].canonical
    decreases n
  {
    hide StagedRight;
    if t.group[k].parent.Some? {
      var parent := t.group[k].parent.value;
      assert Resolved(t, p, parent);
      ExpectedAnyDepth(t.group, t.store, t.run, parent, n - 1, p.depth[parent]);
      if !Valid(t.group[parent]) {
        ParentsResolved(t, p, parent);
        ParentIsNearest(t, p, parent, n - 1);
      }
    }
  }

  lemma ParentsResolved(t: Task, p: Progress, k: Key)
    requires Inv(t, p) && k in p.results && k in t.group
    ensures t.group[k].parent.Some? ==> t.group[k].parent.value in p.results
  {
    assert p.links[k] == 0;
  }

  /** Every staged message hangs from what its nearest valid ancestor resolved to. */
  lemma StagedParents(t: Task, p: Progress, s: Staged)
    requires Inv(t, p) && s in p.staged
    ensures s.key in t.group && s.key in p.depth && Grounded(t.group, s.key, p.depth[s.key])
    ensures var a := Nearest(t.group, s.key, p.depth[s.key]);
      && (a.Some? ==> a.value in p.results && p.results[a.value].canonical.Some?)
      && s.message.parent == if a.None? then None else p.results[a.value].canonical
  {
    assert RightEntry(t, p, s);
    ParentsResolved(t, p, s.key);
    ParentIsNearest(t, p, s.key, p.depth[s.key]);
  }

  // ----- publication and re-import -----

  function RevisedScope(s: Staged): Scope { Revised(s.name, Revision(s.digest, s.message.parent, s.message.role)) }

  /** The identities one staged record brings: its revision's, and its native one unless that
      was published when it was staged. */
  function Claims(store: Store, s: Staged): seq<Scope> {
    [RevisedScope(s)] + (if Native(s.name) in store.identities then [] else [Native(s.name)])
  }

  function PublishOne(base: Store, store: Store, s: Staged): Store {
    var revised := store.identities[RevisedScope(s) := s.message.id];
    Store(if Native(s.name) in base.identities then revised else revised[Native(s.name) := s.message.id],
          store.messages[s.message.id := s.message])
  }

  /** A group's records are published over the store they were staged against. */
  function Publish(store: Store, staged: seq<Staged>): Store
    decreases |staged|
  {
    if staged == [] then store else PublishOne(store, Publish(store, staged[..|staged| - 1]), staged[|staged| - 1])
  }

  /** Source identities are unique by scope: a record whose identity is there refuses them all. */
  ghost predicate Publishable(store: Store, staged: seq<Staged>) {
    forall i, scope :: 0 <= i < |staged| && scope in Claims(store, staged[i]) ==> scope !in Publish(store, staged[..i]).identities
  }

  ghost predicate RevisionsDiffer(staged: seq<Staged>) {
    forall i, j :: 0 <= i < j < |staged| ==> RevisedScope(staged[i]) != RevisedScope(staged[j])
  }

  ghost predicate NamesDiffer(store: Store, staged: seq<Staged>) {
    forall i, j :: 0 <= i < j < |staged| && staged[i].name == staged[j].name ==> Native(staged[i].name) in store.identities
  }

  /** What is published is what was, and what the records bring. */
  lemma {:induction false} PublishedScopes(store: Store, staged: seq<Staged>, scope: Scope)
    ensures scope in Publish(store, staged).identities <==> scope in store.identities || exists s :: s in staged && scope in Claims(store, s)
    decreases |staged|
  {
    hide Claims, PublishOne;
    if staged != [] {
      var front, last := staged[..|staged| - 1], staged[|staged| - 1];
      PublishedScopes(store, front, scope);
      PublishOneScopes(store, Publish(store, front), last, scope);
      assert staged == front + [last];
      assert forall s :: s in staged <==> s in front || s == last;
    }
  }

  lemma PublishOneScopes(base: Store, store: Store, s: Staged, scope: Scope)
    ensures scope in PublishOne(base, store, s).identities <==> scope in store.identities || scope in Claims(base, s)
  {
    ClaimsAre(base, s);
  }

  lemma ClaimsAre(store: Store, s: Staged)
    ensures RevisedScope(s) in Claims(store, s)
    ensures Native(s.name) in Claims(store, s) <==> Native(s.name) !in store.identities
    ensures forall scope :: scope in Claims(store, s) ==> scope == RevisedScope(s) || scope == Native(s.name)
  {
    if Native(s.name) !in store.identities {
      assert Claims(store, s)[1] == Native(s.name);
    }
  }

  /** What an earlier record brings is there when a later one comes. */
  lemma EarlierIsThere(store: Store, staged: seq<Staged>, i: nat, j: nat, scope: Scope)
    requires i < j <= |staged| && scope in Claims(store, staged[i])
    ensures scope in Publish(store, staged[..j]).identities
  {
    hide Claims, Publish;
    assert staged[..j][i] == staged[i];
    PublishedScopes(store, staged[..j], scope);
  }

  lemma PublishablePairs(store: Store, staged: seq<Staged>, i: nat, j: nat)
    requires Publishable(store, staged) && i < j < |staged|
    ensures RevisedScope(staged[i]) != RevisedScope(staged[j])
    ensures staged[i].name == staged[j].name ==> Native(staged[i].name) in store.identities
  {
    hide Claims, Publish;
    ClaimsAre(store, staged[i]);
    ClaimsAre(store, staged[j]);
    EarlierIsThere(store, staged, i, j, RevisedScope(staged[i]));
    if Native(staged[i].name) !in store.identities {
      EarlierIsThere(store, staged, i, j, Native(staged[i].name));
    }
  }

  lemma PublishableNew(store: Store, staged: seq<Staged>, i: nat)
    requires Publishable(store, staged) && i < |staged|
    ensures RevisedScope(staged[i]) !in store.identities
  {
    hide Claims, Publish;
    ClaimsAre(store, staged[i]);
    PublishedScopes(store, staged[..i], RevisedScope(staged[i]));
  }

  lemma PublishableOne(store: Store, staged: seq<Staged>, i: nat, scope: Scope)
    requires RevisionsDiffer(staged) && NamesDiffer(store, staged) && i < |staged| && scope in Claims(store, staged[i])
    requires RevisedScope(staged[i]) !in store.identities
    ensures scope !in Publish(store, staged[..i]).identities
  {
    hide Claims, Publish;
    ClaimsAre(store, staged[i]);
    PublishedScopes(store, staged[..i], scope);
    forall s | s in staged[..i]
      ensures scope !in Claims(store, s)
    {
      var h :| 0 <= h < i && staged[..i][h] == s;
      assert staged[h] == s;
      ClaimsAre(store, staged[h]);
    }
  }

  /** A group is published exactly when no revision in it is published or staged twice, and no
      native id it names is staged twice unless it is published. */
  lemma PublishableIff(store: Store, staged: seq<Staged>)
    ensures Publishable(store, staged) <==>
      RevisionsDiffer(staged) && NamesDiffer(store, staged) && forall s :: s in staged ==> RevisedScope(s) !in store.identities
  {
    hide Claims, Publish;
    if Publishable(store, staged) {
      forall i, j | 0 <= i < j < |staged|
        ensures RevisedScope(staged[i]) != RevisedScope(staged[j])
        ensures staged[i].name == staged[j].name ==> Native(staged[i].name) in store.identities
      {
        PublishablePairs(store, staged, i, j);
      }
      forall s | s in staged
        ensures RevisedScope(s) !in store.identities
      {
        var i :| 0 <= i < |staged| && staged[i] == s;
        PublishableNew(store, staged, i);
      }
    }
    if RevisionsDiffer(staged) && NamesDiffer(store, staged) && forall s :: s in staged ==> RevisedScope(s) !in store.identities {
      forall i, scope | 0 <= i < |staged| && scope in Claims(store, staged[i])
        ensures scope !in Publish(store, staged[..i]).identities
      {
        PublishableOne(store, staged, i, scope);
      }
    }
  }

  /** Publication as storage does it, record by record. */
  method PublishGroup(store: Store, staged: seq<Staged>) returns (after: Option<Store>)
    ensures after == if Publishable(store, staged) then Some(Publish(store, staged)) else None
  {
    hide Claims, PublishOne;
    var here := store;
    NothingPublished(store);
    assert staged[..0] == [];
    for i := 0 to |staged|
      invariant here == Publish(store, staged[..i])
      invariant forall h, scope :: 0 <= h < i && scope in Claims(store, staged[h]) ==> scope !in Publish(store, staged[..h]).identities
    {
      var claims := Claims(store, staged[i]);
      if exists scope :: scope in claims && scope in here.identities {
        return None;
      }
      assert staged[..i + 1] == staged[..i] + [staged[i]];
      PublishMore(store, staged[..i], staged[i]);
      here := PublishOne(store, here, staged[i]);
    }
    assert staged[..|staged|] == staged;
    return Some(here);
  }

  lemma NothingPublished(store: Store)
    ensures Publish(store, []) == store
  {
  }

  function Lookup(store: Store, scope: Scope): Option<Id> {
    if scope in store.identities then Some(store.identities[scope]) else None
  }

  lemma PublishOneAt(base: Store, store: Store, s: Staged, scope: Scope)
    requires scope.Revised?
    ensures Lookup(PublishOne(base, store, s), scope) == if scope == RevisedScope(s) then Some(s.message.id) else Lookup(store, scope)
  {
  }

  lemma PublishMore(store: Store, front: seq<Staged>, last: Staged)
    ensures Publish(store, front + [last]) == PublishOne(store, Publish(store, front), last)
  {
    assert (front + [last])[..|front|] == front;
  }

  /** The published revisions of a thread: only what was there and what was staged. */
  lemma {:induction false} PublishedRevisions(store: Store, staged: seq<Staged>, scope: Scope)
    requires RevisionsDiffer(staged) && scope.Revised?
    ensures forall s :: s in staged && RevisedScope(s) == scope ==> Lookup(Publish(store, staged), scope) == Some(s.message.id)
    ensures (forall s :: s in staged ==> RevisedScope(s) != scope) ==> Lookup(Publish(store, staged), scope) == Lookup(store, scope)
    decreases |staged|
  {
    if staged != [] {
      var front, last := staged[..|staged| - 1], staged[|staged| - 1];
      assert staged == front + [last];
      PublishedRevisions(store, front, scope);
      forall s | s in front ensures RevisedScope(s) != RevisedScope(last) {
        var i :| 0 <= i < |front| && front[i] == s;
        assert staged[i] == s && staged[|front|] == last;
      }
      PublishMore(store, front, last);
      PublishOneAt(store, Publish(store, front), last, scope);
      hide *;
      assert forall s :: s in staged <==> s in front || s == last;
    }
  }

  /** Revisions name messages of earlier runs, each message under one revision. */
  ghost predicate Faithful(store: Store, run: nat) {
    && (forall x :: x in store.identities && x.Revised? ==> store.identities[x].run < run)
    && (forall x, y :: x in store.identities && y in store.identities && x.Revised? && y.Revised? ==>
          store.identities[x] == store.identities[y] ==> x == y)
  }

  /** The staged record of a resolved new item. */
  lemma EntryAt(t: Task, p: Progress, k: Key) returns (s: Staged)
    requires Inv(t, p) && NewAt(t, p, k)
    ensures s in p.staged && s.key == k && RevisedScope(s) == ScopeOf(t.group[k], ParentOf(t, p, k)) && s.message.id == Allocated(t.run, k)
    ensures p.results[k] == Result(Some(Allocated(t.run, k)), false)
  {
    s :| s in p.staged && s.key == k;
    assert RightEntry(t, p, s);
  }

  /** What a resolved valid item's revision is published as, once the group is. */
  lemma RevisionPublished(t: Task, p: Progress, k: Key)
    requires Inv(t, p) && k in p.results && k in t.group && Valid(t.group[k]) && RevisionsDiffer(p.staged)
    ensures Resolved(t, p, k)
    ensures var scope := ScopeOf(t.group[k], ParentOf(t, p, k));
      var after := Publish(t.store, p.staged);
      scope in after.identities && Some(after.identities[scope]) == p.results[k].canonical
  {
    assert Resolved(t, p, k);
    var scope := ScopeOf(t.group[k], ParentOf(t, p, k));
    PublishedRevisions(t.store, p.staged, scope);
    if NewAt(t, p, k) {
      var s := EntryAt(t, p, k);
    } else {
      forall s | s in p.staged ensures RevisedScope(s) != scope {
        assert RightEntry(t, p, s);
      }
    }
  }

  /** Publishing keeps revisions faithful for the next run. */
  lemma StaysFaithful(t: Task, p: Progress)
    requires Inv(t, p) && Faithful(t.store, t.run) && Publishable(t.store, p.staged)
    ensures Faithful(Publish(t.store, p.staged), t.run + 1)
  {
    hide Publishable;
    PublishableIff(t.store, p.staged);
    var after := Publish(t.store, p.staged);
    forall x | x in after.identities && x.Revised?
      ensures after.identities[x].run < t.run + 1
      ensures x in t.store.identities ==> after.identities[x] == t.store.identities[x]
      ensures x !in t.store.identities ==> exists s :: s in p.staged && RevisedScope(s) == x && after.identities[x] == s.message.id && s.message.id == Allocated(t.run, s.key)
    {
      PublishedRevisions(t.store, p.staged, x);
      if s :| s in p.staged && RevisedScope(s) == x {
        assert RightEntry(t, p, s);
        RightScope(t, p, s);
      }
    }
    forall x, y | x in after.identities && y in after.identities && x.Revised? && y.Revised? && after.identities[x] == after.identities[y]
      ensures x == y
    {
      if x !in t.store.identities && y !in t.store.identities {
        var r :| r in p.staged && RevisedScope(r) == x && r.message.id == after.identities[x] && r.message.id == Allocated(t.run, r.key);
        var s :| s in p.staged && RevisedScope(s) == y && s.message.id == after.identities[y] && s.message.id == Allocated(t.run, s.key);
        SameEntry(t, p, r, s);
      }
    }
  }

  lemma RightScope(t: Task, p: Progress, s: Staged)
    requires RightEntry(t, p, s)
    ensures RevisedScope(s) !in t.store.identities && s.message.id == Allocated(t.run, s.key)
  {
  }

  lemma SameEntry(t: Task, p: Progress, r: Staged, s: Staged)
    requires StagedRight(t, p) && r in p.staged && s in p.staged && r.key == s.key
    ensures r == s
  {
    var i :| 0 <= i < |p.staged| && p.staged[i] == r;
    var j :| 0 <= j < |p.staged| && p.staged[j] == s;
  }

  /** The same record: bytes, role and native id. */
  predicate SameRecord(a: Item, b: Item) { Valid(a) && Valid(b) && a.payload == b.payload }

  /** Re-importing a changed export over what the first import published: a valid node keeps
      the message of a node of the first import exactly when its bytes, role, native id and
      canonical parent are the same; and whatever keeps a message stages nothing. */
  lemma KeepsIdIffUnchanged(t: Task, p: Progress, k: Key, u: Task, q: Progress, l: Key)
    requires Inv(t, p) && Publishable(t.store, p.staged) && Faithful(t.store, t.run)
    requires Inv(u, q) && u.store == Publish(t.store, p.staged) && u.run > t.run
    requires k in p.results && k in t.group && Valid(t.group[k])
    requires l in q.results && l in u.group && Valid(u.group[l])
    ensures Resolved(t, p, k) && Resolved(u, q, l)
    ensures p.results[k].canonical == q.results[l].canonical <==>
      SameRecord(t.group[k], u.group[l]) && ParentOf(t, p, k) == ParentOf(u, q, l)
    ensures p.results[k].canonical == q.results[l].canonical ==> forall s :: s in q.staged ==> s.key != l
  {
    hide Publishable;
    PublishableIff(t.store, p.staged);
    RevisionPublished(t, p, k);
    StaysFaithful(t, p);
    assert Resolved(u, q, l);
    var mine, other := ScopeOf(t.group[k], ParentOf(t, p, k)), ScopeOf(u.group[l], ParentOf(u, q, l));
    ScopesAgree(t.group[k], ParentOf(t, p, k), u.group[l], ParentOf(u, q, l));
    if NewAt(u, q, l) {
      var s := EntryAt(u, q, l);
    } else {
      forall s | s in q.staged ensures s.key != l {
        assert RightEntry(u, q, s);
      }
      NotNew(u, q, l);
    }
  }

  /** What a staged message says of the one it was edited from: its native id's first message, if
      that hangs from the same parent in the same role. */
  lemma EditedExactly(t: Task, p: Progress, s: Staged, id: Id)
    requires Inv(t, p) && s in p.staged
    ensures s.message.editedFrom == Some(id) <==>
      && Lookup(t.store, Native(s.name)) == Some(id) && id in t.store.messages
      && t.store.messages[id].parent == s.message.parent && t.store.messages[id].role == s.message.role
  {
    assert RightEntry(t, p, s);
  }

  /** The first message published of a native id is its one. */
  lemma {:induction false} PublishedNative(store: Store, staged: seq<Staged>, s: Staged)
    requires NamesDiffer(store, staged) && s in staged && Native(s.name) !in store.identities
    requires forall i, j :: 0 <= i < j < |staged| ==> staged[i].message.id != staged[j].message.id
    ensures var after := Publish(store, staged);
      Lookup(after, Native(s.name)) == Some(s.message.id) && s.message.id in after.messages && after.messages[s.message.id] == s.message
    decreases |staged|
  {
    var front, last := staged[..|staged| - 1], staged[|staged| - 1];
    PublishMore(store, front, last);
    assert staged == front + [last];
    hide Publish;
    if s != last {
      var i :| 0 <= i < |front| && front[i] == s;
      assert staged[i] == s && staged[|front|] == last;
      PublishedNative(store, front, s);
    }
  }

  /** A re-imported message of a native id names the message of that id that the first import
      published, exactly when it hangs from the same parent in the same role. */
  lemma EditNamesFirst(t: Task, p: Progress, first: Staged, u: Task, q: Progress, s: Staged)
    requires Inv(t, p) && Publishable(t.store, p.staged) && first in p.staged && Native(first.name) !in t.store.identities
    requires Inv(u, q) && u.store == Publish(t.store, p.staged) && s in q.staged && s.name == first.name
    ensures s.message.editedFrom ==
      if s.message.parent == first.message.parent && s.message.role == first.message.role then Some(first.message.id) else None
  {
    hide Publishable, Publish;
    PublishableIff(t.store, p.staged);
    IdsDiffer(t, p);
    PublishedNative(t.store, p.staged, first);
    EditedExactly(u, q, s, first.message.id);
    if s.message.editedFrom.Some? {
      EditedExactly(u, q, s, s.message.editedFrom.value);
    }
  }

  lemma IdsDiffer(t: Task, p: Progress)
    requires Inv(t, p)
    ensures forall i, j :: 0 <= i < j < |p.staged| ==> p.staged[i].message.id != p.staged[j].message.id
  {
    hide Resolved, Grounded;
    forall i | 0 <= i < |p.staged|
      ensures p.staged[i].message.id == Allocated(t.run, p.staged[i].key)
    {
      assert RightEntry(t, p, p.staged[i]);
    }
  }

  lemma NotNew(t: Task, p: Progress, k: Key)
    requires Resolved(t, p, k) && Valid(t.group[k]) && !NewAt(t, p, k)
    ensures var scope := ScopeOf(t.group[k], ParentOf(t, p, k));
      scope in t.store.identities && p.results[k].canonical == Some(t.store.identities[scope])
  {
  }

  lemma ScopesAgree(a: Item, p: Option<Id>, b: Item, q: Option<Id>)
    requires Valid(a) && Valid(b)
    ensures ScopeOf(a, p) == ScopeOf(b, q) <==> SameRecord(a, b) && p == q
  {
  }

  /** The same record under the same chain of valid ancestors. */
  ghost predicate SameHistory(g: Group, k: Key, n: nat, h: Group, l: Key, m: nat)
    requires Grounded(g, k, n) && Grounded(h, l, m)
    decreases n
  {
    && SameRecord(g[k], h[l])
    && var a, b := NearestAt(g, k, n), NearestAt(h, l, m);
       (a.None? <==> b.None?) && (a.Some? ==> SameHistory(g, a.value.0, a.value.1, h, b.value.0, b.value.1))
  }

  /** The nearest valid ancestor, with how far it is from its root. */
  ghost function NearestAt(g: Group, k: Key, n: nat): (r: Option<(Key, nat)>)
    requires Grounded(g, k, n)
    ensures r.Some? ==> r.value.1 < n && Grounded(g, r.value.0, r.value.1)
    ensures r.Some? <==> Nearest(g, k, n).Some?
    ensures r.Some? ==> Nearest(g, k, n) == Some(r.value.0)
    decreases n
  {
    if g[k].parent.None? then None
    else
      assert Grounded(g, g[k].parent.value, n - 1);
      if Valid(g[g[k].parent.value]) then Some((g[k].parent.value, n - 1)) else NearestAt(g, g[k].parent.value, n - 1)
  }

  /** A node whose record and valid ancestry are unchanged keeps its message, whatever
      structural or malformed nodes come and go between them, and in whatever order either
      import worked. */
  lemma {:induction false} UnchangedHistoryKeepsId(t: Task, p: Progress, k: Key, n: nat, u: Task, q: Progress, l: Key, m: nat)
    requires Inv(t, p) && Publishable(t.store, p.staged) && Faithful(t.store, t.run)
    requires Inv(u, q) && u.store == Publish(t.store, p.staged) && u.run > t.run
    requires k in p.results && l in q.results && Grounded(t.group, k, n) && Grounded(u.group, l, m)
    requires SameHistory(t.group, k, n, u.group, l, m)
    ensures p.results[k].canonical == q.results[l].canonical
    decreases n
  {
    hide StagedRight, Expected, ParentResult, ScopeOf, Publish, Faithful, Publishable;
    ParentsResolved(t, p, k);
    ParentsResolved(u, q, l);
    ParentIsNearest(t, p, k, n);
    ParentIsNearest(u, q, l, m);
    var a, b := NearestAt(t.group, k, n), NearestAt(u.group, l, m);
    if a.Some? {
      UnchangedHistoryKeepsId(t, p, a.value.0, a.value.1, u, q, b.value.0, b.value.1);
    }
    KeepsIdIffUnchanged(t, p, k, u, q, l);
    ParentAnyDepth(t, p, k, n);
    ParentAnyDepth(u, q, l, m);
  }

  lemma ParentAnyDepth(t: Task, p: Progress, k: Key, n: nat)
    requires Resolved(t, p, k) && Grounded(t.group, k, n)
    ensures ParentOf(t, p, k) == ParentResult(t.group, t.store, t.run, k, n).canonical
  {
    ExpectedAnyDepth(t.group, t.store, t.run, k, p.depth[k], n);
  }

  /** A part is stored, under an id of its own, exactly when its record's message is staged. */
  lemma PartsFollow(t: Task, p: Progress, k: Key)
    requires Inv(t, p) && k in p.results && t.group[k].payload.Part?
    ensures t.group[k].parent.Some? && t.group[k].parent.value in p.results && t.group[t.group[k].parent.value].payload.Record?
    ensures var staged := exists s :: s in p.staged && s.key == t.group[k].parent.value;
      p.results[k] == if staged then Result(Some(Allocated(t.run, k)), false) else Result(None, true)
  {
    hide StagedRight;
    assert Resolved(t, p, k) && k in t.group && p.links[k] == 0;
    var parent := t.group[k].parent.value;
    assert Resolved(t, p, parent);
    ExpectedAgain(t, p, k, parent);
    StagedIff(t, p, parent);
  }

  /** A record's result is new exactly when it is staged. */
  lemma StagedIff(t: Task, p: Progress, k: Key)
    requires Inv(t, p) && k in p.results && Resolved(t, p, k) && t.group[k].payload.Record?
    ensures (exists s :: s in p.staged && s.key == k) <==> !p.results[k].skip
  {
    hide Expected, ParentResult, Scanned, LinksRight;
    if s :| s in p.staged && s.key == k {
      assert RightEntry(t, p, s);
    }
    ResultIs(t, p, k);
    if !p.results[k].skip {
      assert NewAt(t, p, k);
    }
  }

  lemma ResultIs(t: Task, p: Progress, k: Key)
    requires Resolved(t, p, k) && t.group[k].payload.Record?
    ensures !p.results[k].skip <==> IsNew(t.store, t.group[k], ParentOf(t, p, k))
  {
  }

  lemma ExpectedAgain(t: Task, p: Progress, k: Key, parent: Key)
    requires Resolved(t, p, k) && Resolved(t, p, parent) && t.group[k].parent == Some(parent) && t.group[k].payload.Part?
    ensures p.results[k] == if p.results[parent].skip then Result(None, true) else Result(Some(Allocated(t.run, k)), false)
  {
    var n := p.depth[k];
    assert ParentResult(t.group, t.store, t.run, k, n) == Expected(t.group, t.store, t.run, parent, n - 1);
    ExpectedAnyDepth(t.group, t.store, t.run, parent, n - 1, p.depth[parent]);
    hide Expected, ParentResult;
    assert p.results[k] == Resolution(t.store, t.run, k, t.group[k], p.results[parent]) by { ExpectedOne(t, p, k); }
  }

  lemma ExpectedOne(t: Task, p: Progress, k: Key)
    requires Resolved(t, p, k)
    ensures p.results[k] == Resolution(t.store, t.run, k, t.group[k], ParentResult(t.group, t.store, t.run, k, p.depth[k]))
  {
  }

  /** One new message, under a fresh id, for every other valid node and for nothing else. */
  lemma OneMessageEach(t: Task, p: Progress, k: Key)
    requires Inv(t, p) && k in p.results && k in t.group && Faithful(t.store, t.run)
    ensures Resolved(t, p, k)
    ensures (exists s :: s in p.staged && s.key == k) <==> IsNew(t.store, t.group[k], ParentOf(t, p, k))
    ensures forall r, s :: r in p.staged && s in p.staged && r.message.id == s.message.id ==> r == s
    ensures forall s, x :: s in p.staged && x in t.store.identities && x.Revised? ==> s.message.id != t.store.identities[x]
  {
    assert Resolved(t, p, k);
    forall s | s in p.staged ensures s.message.id == Allocated(t.run, s.key) && NewAt(t, p, s.key) {
      assert RightEntry(t, p, s);
      RightScope(t, p, s);
    }
    forall r, s | r in p.staged && s in p.staged && r.message.id == s.message.id ensures r == s {
      SameEntry(t, p, r, s);
    }
    if IsNew(t.store, t.group[k], ParentOf(t, p, k)) {
      var s := EntryAt(t, p, k);
    }
  }
}
