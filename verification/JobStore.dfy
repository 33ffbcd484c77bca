/** The durable store of GraphQL jobs: its size, its limits and pruning on admission. */
module JobStore {
  import opened Outcome
  import opened ResultText
  import opened Statuses
  import opened Pruning

  const MAX_STORAGE: nat := 256 * 1024 * 1024
  const MAX_JOBS: nat := 100
  const RESERVE: nat := 6 * MAX_RESULT + 4096
  /** Times are in seconds. */
  const RETENTION: int := 3600
  const REVIEW_TIME: int := 24 * 3600

  predicate Active(s: Status) { s.Pending? || s.Approved? || s.Sending? }

  datatype Owner = Owner(container: string, instance: nat, epoch: nat, session: string)

  /** `meta` is the serialized size of everything but the body and the result. */
  datatype Job = Job(id: Id, owner: Owner, body: string, fingerprint: string, status: Status, updated: int,
                     expires: int, result: Option<string>, acknowledged: Option<int>, meta: nat)

  predicate Removable(j: Job, now: int) {
    !Active(j.status) && !j.status.Unknown? && (j.acknowledged.Some? || j.updated <= now - RETENTION)
  }

  type Store = map<Id, Job>

  // ---------------------------------------------------------------- size

  function JobSize(j: Job): nat { j.meta + 2 + Escaped(j.body) + ResultSize(j.result) }

  /** The jobs, each with its quoted 36-character key, a colon and a comma. */
  ghost function Payload(m: Store): nat {
    if m == map[] then 0 else var k :| k in m; 40 + JobSize(m[k]) + Payload(m - {k})
  }

  ghost function ActiveIds(m: Store): set<Id> { set k | k in m && Active(m[k].status) }

  /** The serialized store: a 23-byte envelope, and no comma after the last job. */
  ghost function Size(m: Store): nat { if m == map[] then 23 else 22 + Payload(m) }

  ghost function Usage(m: Store): nat { Size(m) + |ActiveIds(m)| * RESERVE }

  ghost predicate Fits(m: Store) { Usage(m) <= MAX_STORAGE }

  lemma {:induction false} PayloadRemove(m: Store, k: Id)
    requires k in m
    ensures Payload(m) == 40 + JobSize(m[k]) + Payload(m - {k})
    decreases |m|
  {
    var k' :| k' in m && Payload(m) == 40 + JobSize(m[k']) + Payload(m - {k'});
    if k' != k {
      PayloadRemove(m - {k'}, k);
      PayloadRemove(m - {k}, k');
      assert m - {k'} - {k} == m - {k} - {k'};
    }
  }

  lemma {:induction false} PayloadUpdate(m: Store, k: Id, j: Job)
    ensures Payload(m[k := j]) == 40 + JobSize(j) + Payload(m - {k})
  {
    PayloadRemove(m[k := j], k);
    assert m[k := j] - {k} == m - {k};
  }

  ghost function Reserved(j: Job): nat { if Active(j.status) then RESERVE else 0 }

  /** Replacing a job changes the usage by the growth of that job alone. */
  lemma {:induction false} UsageReplace(m: Store, k: Id, j: Job)
    requires k in m
    ensures Usage(m[k := j]) + JobSize(m[k]) + Reserved(m[k]) == Usage(m) + JobSize(j) + Reserved(j)
  {
    hide ShortEscape, Payload, Escaped, ResultSize;
    PayloadRemove(m, k);
    PayloadUpdate(m, k, j);
    var others := ActiveIds(m) - {k};
    assert ActiveIds(m) == if Active(m[k].status) then others + {k} else others;
    assert ActiveIds(m[k := j]) == if Active(j.status) then others + {k} else others;
  }

  lemma {:induction false} ActiveRemove(m: Store, k: Id)
    requires k in m
    ensures |ActiveIds(m)| == |ActiveIds(m - {k})| + if Active(m[k].status) then 1 else 0
  {
    assert ActiveIds(m - {k}) == ActiveIds(m) - {k};
  }

  lemma {:induction false} UsageRemove(m: Store, k: Id)
    requires k in m
    ensures Usage(m - {k}) <= Usage(m)
  {
    PayloadRemove(m, k);
    ActiveRemove(m, k);
    assert Payload(map[]) == 0;
  }

  lemma {:induction false} UsageShrinks(m: Store, ks: set<Id>)
    ensures Usage(m - ks) <= Usage(m)
    decreases |ks|
  {
    if ks != {} {
      var k :| k in ks;
      UsageShrinks(m, ks - {k});
      var n := m - (ks - {k});
      assert m - ks == n - {k};
      if k in n { UsageRemove(n, k); } else { assert n - {k} == n; }
    } else {
      assert m - ks == m;
    }
  }

  /** The reservation admits at most ten active jobs, whatever the 32-job limit says. */
  lemma {:induction false} FewActive(m: Store)
    requires Fits(m)
    ensures |ActiveIds(m)| <= 10
  {
    assert |ActiveIds(m)| >= 11 ==> |ActiveIds(m)| * RESERVE >= 11 * RESERVE;
  }

  method CountJobs(m: Store) returns (bytes: nat, active: nat)
    ensures bytes == Payload(m) && active == |ActiveIds(m)|
  {
    var rest := m;
    bytes, active := 0, 0;
    while rest != map[]
      invariant bytes + Payload(rest) == Payload(m)
      invariant active + |ActiveIds(rest)| == |ActiveIds(m)|
      decreases |rest|
    {
      var k :| k in rest;
      PayloadRemove(rest, k);
      ActiveRemove(rest, k);
      bytes := bytes + 40 + JobSize(rest[k]);
      if Active(rest[k].status) { active := active + 1; }
      rest := rest - {k};
    }
    assert Payload(map[]) == 0 && ActiveIds(map[]) == {};
  }

  /** `storage_usage`: the serialized bytes and the reservations. */
  method StorageUsage(m: Store) returns (n: nat)
    ensures n == Usage(m)
  {
    var bytes, active := CountJobs(m);
    n := (if m == map[] then 23 else 22 + bytes) + active * RESERVE;
  }

  // ---------------------------------------------------------------- pruning

  ghost predicate Within(m: Store) { |m| <= MAX_JOBS && Fits(m) }

  function Slots(m: Store, now: int): map<Id, Slot> { map k | k in m :: Slot(k, m[k].updated, Removable(m[k], now)) }

  ghost function PrunedJobs(m: Store, now: int): Option<Store> { Pruned(m, Slots(m, now), Within) }

  /** `prune_for_admission`. */
  method PruneForAdmission(m: Store, now: int) returns (r: Option<Store>)
    ensures r == PrunedJobs(m, now)
  {
    var saved, slots := m, Slots(m, now);
    PruningStarts(m, slots, Within);
    while true
      invariant PrunedSoFar(m, slots, saved, Within)
      decreases |saved|
    {
      PruningEnds(m, slots, saved, Within);
      var usage := StorageUsage(saved);
      if |saved| <= MAX_JOBS && usage <= MAX_STORAGE { return Some(saved); }
      var candidate := OldestRemovable(slots, saved.Keys);
      if candidate.None? { return None; }
      PruningSteps(m, slots, saved, candidate.value, Within);
      saved := saved - {candidate.value};
    }
  }

  lemma {:induction false} LessIsWithin(m: Store, few: set<Id>, many: set<Id>)
    requires few <= many && Within(Restrict(m, many))
    ensures Within(Restrict(m, few))
  {
    var small, large := Restrict(m, few), Restrict(m, many);
    assert small == large - (large.Keys - few);
    UsageShrinks(large, large.Keys - few);
    SubsetSize(small.Keys, large.Keys);
    assert |small| == |small.Keys| && |large| == |large.Keys|;
  }

  /** Admission fails exactly when even the removal of every removable job leaves too much. */
  lemma {:induction false} JobsDoNotFitIff(m: Store, now: int)
    ensures PrunedJobs(m, now).None? <==> !Within(Restrict(m, Lasting(Slots(m, now))))
  {
    forall few, many | few <= many && Among(m, Within)(many)
      ensures Among(m, Within)(few)
    {
      LessIsWithin(m, few, many);
    }
    PruningFailsIff(m, Slots(m, now), Within);
  }

  /** Pruning never removes active or unknown jobs, or finished ones that may still be wanted. */
  lemma {:induction false} PrunedJobsKeep(m: Store, now: int)
    requires PrunedJobs(m, now).Some?
    ensures var r := PrunedJobs(m, now).value;
      && Within(r) && (forall k :: k in r ==> k in m && r[k] == m[k])
      && (forall k :: k in m && k !in r ==> Removable(m[k], now))
  {
    PruningKeeps(m, Slots(m, now), Within);
  }
}
