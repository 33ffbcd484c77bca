/** The durable store of Git publications, its limits, pruning on admission and the edits of one record. */
module PushStore {
  import opened Outcome
  import opened Statuses
  import opened Pruning

  const MAX_BUNDLE: nat := 32 * 1024 * 1024
  const MAX_STORAGE: nat := 256 * 1024 * 1024
  const MAX_JOBS: nat := 32
  /** Times are in seconds. */
  const RETENTION: int := 3600
  const REVIEW_TIME: int := 24 * 3600

  type Oid = string

  datatype Owner = Owner(container: string, instance: nat, epoch: nat, session: string)

  datatype Bundle = Bundle(digest: string, bytes: nat)

  /** A branch of a repository. */
  datatype Target = Target(repository: string, branch: string)

  /** The credential that is used, by its entry and the digest of its route and secret. */
  datatype Binding = Binding(entry: string, digest: string)

  /** What was asked: move `target` from `expected`, as a change on `base`; None is a new branch. */
  datatype Submission = Submission(owner: Owner, target: Target, base: Oid, expected: Option<Oid>, bundle: Bundle,
                                   binding: Binding, fingerprint: string)

  /** What the host reviews: the bundle's head for that request. */
  datatype Review = Review(target: Target, expected: Option<Oid>, head: Oid, bundle: Bundle)

  datatype Job = Job(id: Id, request: Submission, review: Option<Review>, status: Status, updated: int, expires: int,
                     acknowledged: Option<int>)

  predicate Queued(s: Status) { s.Preparing? || s.Pending? || s.Approved? }

  predicate Active(s: Status) { Queued(s) || s.Sending? }

  predicate Removable(j: Job, now: int) {
    !Active(j.status) && !j.status.Unknown? && (j.acknowledged.Some? || j.updated <= now - RETENTION)
  }

  type Store = map<Id, Job>

  // ---------------------------------------------------------------- limits and pruning

  ghost function Stored(m: Store): nat {
    if m == map[] then 0 else var k :| k in m; m[k].request.bundle.bytes + Stored(m - {k})
  }

  lemma {:induction false} StoredRemove(m: Store, k: Id)
    requires k in m
    ensures Stored(m) == m[k].request.bundle.bytes + Stored(m - {k})
    decreases |m|
  {
    var k' :| k' in m && Stored(m) == m[k'].request.bundle.bytes + Stored(m - {k'});
    if k' != k {
      StoredRemove(m - {k'}, k);
      StoredRemove(m - {k}, k');
      assert m - {k'} - {k} == m - {k} - {k'};
    }
  }

  lemma {:induction false} StoredShrinks(m: Store, ks: set<Id>)
    ensures Stored(m - ks) <= Stored(m)
    decreases |ks|
  {
    if ks != {} {
      var k :| k in ks;
      StoredShrinks(m, ks - {k});
      var n := m - (ks - {k});
      assert m - ks == n - {k};
      if k in n { StoredRemove(n, k); } else { assert n - {k} == n; }
    } else {
      assert m - ks == m;
    }
  }

  /** Stores with the same requests hold the same bundles. */
  lemma {:induction false} StoredSame(m: Store, n: Store)
    requires m.Keys == n.Keys && forall k :: k in m ==> m[k].request == n[k].request
    ensures Stored(m) == Stored(n)
    decreases |m|
  {
    if m == map[] {
      assert n == map[];
    } else {
      var k :| k in m;
      StoredRemove(m, k);
      StoredRemove(n, k);
      StoredSame(m - {k}, n - {k});
    }
  }

  ghost predicate Within(m: Store) { |m| <= MAX_JOBS && Stored(m) <= MAX_STORAGE }

  method StoredBytes(m: Store) returns (n: nat)
    ensures n == Stored(m)
  {
    var rest := m;
    n := 0;
    while rest != map[]
      invariant n + Stored(rest) == Stored(m)
      decreases |rest|
    {
      var k :| k in rest;
      StoredRemove(rest, k);
      n := n + rest[k].request.bundle.bytes;
      rest := rest - {k};
    }
    assert Stored(map[]) == 0;
  }

  function Slots(m: Store, now: int): map<Id, Slot> { map k | k in m :: Slot(k, m[k].updated, Removable(m[k], now)) }

  ghost function PrunedPushes(m: Store, now: int): Option<Store> { Pruned(m, Slots(m, now), Within) }

  /** `prune_for_admission`: what is left, and what was removed. */
  method PruneForAdmission(m: Store, now: int) returns (r: Option<Store>, removed: set<Id>)
    ensures r == PrunedPushes(m, now)
    ensures r.Some? ==> removed == m.Keys - r.value.Keys
  {
    hide PrunedSoFar, Pruned, Stored, Removable;
    var saved, slots := m, Slots(m, now);
    removed := {};
    PruningStarts(m, slots, Within);
    while true
      invariant PrunedSoFar(m, slots, saved, Within)
      invariant saved.Keys <= m.Keys && removed == m.Keys - saved.Keys
      decreases |saved|
    {
      PruningEnds(m, slots, saved, Within);
      var bytes := StoredBytes(saved);
      if |saved| <= MAX_JOBS && bytes <= MAX_STORAGE { return Some(saved), removed; }
      var candidate := OldestRemovable(slots, saved.Keys);
      if candidate.None? { return None, {}; }
      PruningSteps(m, slots, saved, candidate.value, Within);
      saved, removed := saved - {candidate.value}, removed + {candidate.value};
    }
  }

  lemma {:induction false} LessIsWithin(m: Store, few: set<Id>, many: set<Id>)
    requires few <= many && Within(Restrict(m, many))
    ensures Within(Restrict(m, few))
  {
    var small, large := Restrict(m, few), Restrict(m, many);
    assert small == large - (large.Keys - few);
    StoredShrinks(large, large.Keys - few);
    SubsetSize(small.Keys, large.Keys);
    assert |small| == |small.Keys| && |large| == |large.Keys|;
  }

  /** Admission fails exactly when even the removal of every removable publication leaves too much. */
  lemma {:induction false} PushesDoNotFitIff(m: Store, now: int)
    ensures PrunedPushes(m, now).None? <==> !Within(Restrict(m, Lasting(Slots(m, now))))
  {
    forall few, many | few <= many && Among(m, Within)(many)
      ensures Among(m, Within)(few)
    {
      LessIsWithin(m, few, many);
    }
    PruningFailsIff(m, Slots(m, now), Within);
  }

  lemma {:induction false} PrunedPushesKeep(m: Store, now: int)
    requires PrunedPushes(m, now).Some?
    ensures var r := PrunedPushes(m, now).value;
      && Within(r) && (forall k :: k in r ==> k in m && r[k] == m[k])
      && (forall k :: k in m && k !in r ==> Removable(m[k], now))
  {
    PruningKeeps(m, Slots(m, now), Within);
  }

  // ---------------------------------------------------------------- edits

  datatype Caller = Caller(container: string, instance: nat, session: string)

  predicate Owns(c: Caller, j: Job) {
    j.request.owner.container == c.container && j.request.owner.instance == c.instance
      && j.request.owner.session == c.session
  }

  datatype Request =
    | Decide(fingerprint: string, approve: bool)
    | Cancel(caller: Caller)
    | Acknowledge(caller: Caller)
    | Delete(caller: Caller)

  function Set(j: Job, status: Status, now: int): Job { j.(status := status, updated := now) }

  function RequestEdit(m: Store, id: Id, request: Request, now: int): Option<Store> {
    if id !in m then None
    else
      var j := m[id];
      match request
      case Decide(fingerprint, approve) =>
        if !j.status.Pending? || j.request.fingerprint != fingerprint || j.expires <= now then None
        else Some(m[id := Set(j, if approve then Approved else Denied, now)])
      case Cancel(caller) =>
        if !Owns(caller, j) || !Queued(j.status) then None else Some(m[id := Set(j, Cancelled, now)])
      case Acknowledge(caller) =>
        if !Owns(caller, j) || Active(j.status) || j.status.Unknown? then None
        else if j.acknowledged.Some? then Some(m)
        else Some(m[id := j.(acknowledged := Some(now))])
      case Delete(caller) =>
        if !Owns(caller, j) || Active(j.status) then None else Some(m - {id})
  }

  ghost function ActiveIds(m: Store): set<Id> { set k | k in m && Active(m[k].status) }

  ghost function ActiveOf(m: Store, container: string): set<Id> {
    set k | k in m && Active(m[k].status) && m[k].request.owner.container == container
  }

  ghost function SubmitEdit(m: Store, job: Job, now: int): Option<Store> {
    if |ActiveIds(m)| >= 8 || |ActiveOf(m, job.request.owner.container)| >= 4 then None
    else PrunedPushes(m[job.id := job], now)
  }

  function LapseEdit(m: Store, id: Id, now: int): Store {
    if id in m && Queued(m[id].status) then m[id := Set(m[id], if m[id].expires <= now then Expired else Cancelled,
                                                        now)] else m
  }

  /** The credential is gone: only a publication still in the state that was seen is blocked. */
  function BlockEdit(m: Store, id: Id, seen: Status, now: int): Store {
    if id in m && m[id].status == seen then m[id := Set(m[id], Blocked, now)] else m
  }

  function CancelPreparing(m: Store, id: Id, now: int): Store {
    if id in m && m[id].status.Preparing? then m[id := Set(m[id], Cancelled, now)] else m
  }

  /** The derived review is attached, unless the publication moved on, expired, or its bundle changed. */
  function PrepareEdit(m: Store, id: Id, prepared: Option<Review>, allowAll: bool, now: int): Option<Store> {
    if id !in m then None
    else if !m[id].status.Preparing? then Some(m)
    else
      var j := m[id];
      Some(m[id :=
        if j.expires <= now then Set(j, Expired, now)
        else if prepared.None? || prepared.value.bundle.digest != j.request.bundle.digest then Set(j, Blocked, now)
        else Set(j, if allowAll then Approved else Pending, now).(review := prepared)])
  }

  predicate Admits(m: Store, id: Id, now: int) { id in m && m[id].status.Approved? && m[id].expires > now }

  function AdmitEdit(m: Store, id: Id, now: int): Store {
    if Admits(m, id, now) then m[id := Set(m[id], Sending, now)] else m
  }

  function RecordEdit(m: Store, id: Id, verified: bool, now: int): Option<Store> {
    if id in m then Some(m[id := Set(m[id], if verified then ResponseReceived else Unknown, now)]) else None
  }

  function Restarted(j: Job, now: int): Job {
    if j.status.Sending? then Set(j, Unknown, now) else if Queued(j.status) then Set(j, Cancelled, now) else j
  }

  function LoadEdit(m: Store, now: int): Store { map k | k in m :: Restarted(m[k], now) }
}
