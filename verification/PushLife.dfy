/** The life of one publication over every run: who allowed it, how it moves, and that it never comes back. */
module PushLife {
  import opened Outcome
  import opened Statuses
  import opened Pruning
  import opened PushStore
  import opened PushRuns
  import opened PushInvariant
  import opened PushSafety

  // ---------------------------------------------------------------- who allowed it

  ghost predicate Issued(s: State, e: Event, g: Grant) {
    && s.up && s.run == g.run && g.id in s.memory
    && match g.reason
       case AllowAll =>
         e.Prepared? && e.allowAll && s.phase.Fetching? && s.phase.job.id == g.id && s.memory[g.id].status.Preparing?
       case Decided(fp) =>
         && e.Ask? && e.id == g.id && e.request == Decide(fp, true)
         && s.memory[g.id].status.Pending? && s.memory[g.id].request.fingerprint == fp && s.memory[g.id].expires > e.now
  }

  lemma {:induction false} AskGrants(s: State, e: Event, g: Grant)
    requires s.up && e.Ask? && g in AskStep(s, e).past.grants && g !in s.past.grants
    ensures Issued(s, e, g)
  {
    var next := RequestEdit(s.memory, e.id, e.request, e.now);
    CommitQuiet(s, next, e.write);
    CommitQuiet(s.(doomed := s.doomed + {e.id}), next, e.write);
    if e.request.Decide? { CommitQuiet(Allow(s, e.id, Decided(e.request.fingerprint)), next, e.write); }
  }

  lemma {:induction false} PreparedGrants(s: State, e: Event, g: Grant)
    requires s.up && e.Prepared? && g in PreparedStep(s, e).past.grants && g !in s.past.grants
    ensures Issued(s, e, g)
  {
    var job := s.phase.job;
    var next := PrepareEdit(s.memory, job.id, Derived(s, job, e.head), e.allowAll, e.now);
    CommitQuiet(s, Some(CancelPreparing(s.memory, job.id, e.now)), e.write);
    CommitQuiet(s, next, e.write);
    CommitQuiet(Allow(s, job.id, AllowAll), next, e.write);
  }

  lemma {:induction false} OthersGrantNothing(s: State, e: Event)
    requires !e.Ask? && !e.Prepared?
    ensures Step(s, e).past.grants == s.past.grants
  {
    if e.Submit? {
      SubmitQuiet(s, e);
    } else if e.Work? {
      if s.work != [] { WorkQuiet(s, e); }
    } else if e.Record? {
      RecordQuiet(s, e);
    } else {
      RestGrantsNothing(s, e);
    }
  }

  lemma {:induction false} RestGrantsNothing(s: State, e: Event)
    requires !e.Ask? && !e.Prepared? && !e.Submit? && !e.Work? && !e.Record?
    ensures Step(s, e).past.grants == s.past.grants
  {
    hide LoadStep, IsQueue, Copies, At, SubmitStep, AskStep, WorkStep, PreparedStep, RecordStep;
    if e.Load? { LoadQuiet(s, e); }
  }

  lemma {:induction false} GrantHasEvent(remote: map<Target, Oid>, es: seq<Event>, g: Grant) returns (n: nat)
    requires g in Run(remote, es).past.grants
    ensures n < |es| && Issued(Run(remote, es[..n]), es[n], g)
  {
    var last := |es| - 1;
    var s := Run(remote, es[..last]);
    if g in s.past.grants {
      n := GrantHasEvent(remote, es[..last], g);
      assert es[..last][..n] == es[..n];
    } else {
      n := last;
      if es[last].Ask? && s.up {
        AskGrants(s, es[last], g);
      } else if es[last].Prepared? && s.up {
        PreparedGrants(s, es[last], g);
      } else if !es[last].Ask? && !es[last].Prepared? {
        OthersGrantNothing(s, es[last]);
      }
    }
  }

  /** Every push that starts was allowed in the same broker run: by the allow-all policy when its review was
      derived, or by a timely decision that named exactly its fingerprint. */
  lemma {:induction false} PushWasAllowed(remote: map<Target, Oid>, es: seq<Event>, e: Event) returns (n: nat, g: Grant)
    requires Starts(Run(remote, es), e)
    ensures n < |es| && Issued(Run(remote, es[..n]), es[n], g)
    ensures var s := Run(remote, es);
      && !s.phase.Idle? && var id := s.phase.job.id;
      id !in s.past.started && id in s.disk && Justifies(g, s.run, id, s.disk[id].request.fingerprint)
  {
    hide Step, Starts;
    PushIsDurable(remote, es, e);
    var s := Run(remote, es);
    var id := s.phase.job.id;
    g :| g in s.past.grants && Justifies(g, s.run, id, s.disk[id].request.fingerprint);
    n := GrantHasEvent(remote, es, g);
  }

  // ---------------------------------------------------------------- how it moves

  predicate Follows(a: Status, b: Status) {
    || a == b
    || (a.Preparing? && (b.Pending? || b.Approved? || b.Expired? || b.Cancelled? || b.Blocked?))
    || (a.Pending? && (b.Approved? || b.Denied? || b.Expired? || b.Cancelled?))
    || (a.Approved? && (b.Sending? || b.Expired? || b.Cancelled? || b.Blocked?))
    || (a.Sending? && (b.Unknown? || b.ResponseReceived?))
  }

  /** Sending ends when the outcome of that very push is recorded, or at a restart. */
  ghost predicate OutcomeKnown(s: State, e: Event, id: Id, status: Status) {
    || (e.Record? && s.up && s.phase.Done? && s.phase.job.id == id
        && status == if s.phase.verified then ResponseReceived else Unknown)
    || (e.Load? && !s.up && status.Unknown?)
  }

  ghost predicate LivesOn(s: State, e: Event, m: Store, id: Id)
    requires id in s.disk
  {
    if id in m then
      && s.disk[id].request == m[id].request && s.disk[id].expires == m[id].expires
         && Follows(s.disk[id].status, m[id].status)
      && (s.disk[id].review.Some? ==> m[id].review == s.disk[id].review)
      && (s.disk[id].status.Sending? && !m[id].status.Sending? ==> OutcomeKnown(s, e, id, m[id].status))
    else
      (e.Ask? && e.id == id && e.request.Delete? && !Active(s.disk[id].status))
        || (e.Submit? && Removable(s.disk[id], e.now))
  }

  /** The stores that a step can commit. */
  ghost predicate NewDisk(s: State, e: Event, m: Store) {
    match e
    case Submit(_, _, _) => s.up && e.id in s.uploads && SubmitEdit(s.memory, s.uploads[e.id], e.now) == Some(m)
    case Ask(_, _, _, _) => s.up && RequestEdit(s.memory, e.id, e.request, e.now) == Some(m)
    case Work(_, _, _, _, _, _) => s.up && s.work != [] && WorkNext(s.memory, s.work[0], e) == Some(m)
    case Prepared(_, _, _, _, _) =>
      s.up && s.phase.Fetching? &&
      (m == CancelPreparing(s.memory, s.phase.job.id, e.now)
       || PrepareEdit(s.memory, s.phase.job.id, Derived(s, s.phase.job, e.head), e.allowAll, e.now) == Some(m))
    case Record(_, _) =>
      s.up && s.phase.Done? && RecordEdit(s.memory, s.phase.job.id, s.phase.verified, e.now) == Some(m)
    case Load(_, _) => !s.up && m == LoadEdit(s.disk, e.now)
    case _ => false
  }

  lemma {:induction false} CommitDisk(s: State, next: Option<Store>, w: Write)
    ensures Commit(s, next, w).disk == s.disk || next == Some(Commit(s, next, w).disk)
    ensures WorkCommit(s, next, w).disk == s.disk || next == Some(WorkCommit(s, next, w).disk)
  {
  }

  lemma {:induction false} WorkDisk(s: State, e: Event)
    requires e.Work? && s.work != []
    ensures WorkStep(s, e).disk == s.disk || WorkNext(s.memory, s.work[0], e) == Some(WorkStep(s, e).disk)
  {
    CommitDisk(s.(work := s.work[1..]), WorkNext(s.memory, s.work[0], e), e.write);
  }

  lemma {:induction false} SubmitDisk(s: State, e: Event)
    requires s.up && e.Submit?
    ensures SubmitStep(s, e).disk == s.disk || NewDisk(s, e, SubmitStep(s, e).disk)
  {
    if e.id in s.uploads {
      var next := SubmitEdit(s.memory, s.uploads[e.id], e.now);
      var gone := if Commits(next, e.write) then s.memory.Keys - next.value.Keys else {e.id};
      CommitDisk(s.(uploads := s.uploads - {e.id}, doomed := s.doomed + gone), next, e.write);
    }
  }

  lemma {:induction false} AskDisk(s: State, e: Event)
    requires s.up && e.Ask?
    ensures AskStep(s, e).disk == s.disk || NewDisk(s, e, AskStep(s, e).disk)
  {
    var next := RequestEdit(s.memory, e.id, e.request, e.now);
    if e.request.Delete? && Commits(next, e.write) {
      CommitDisk(s.(doomed := s.doomed + {e.id}), next, e.write);
    } else if e.request.Decide? && e.request.approve && next.Some? {
      CommitDisk(Allow(s, e.id, Decided(e.request.fingerprint)), next, e.write);
    } else {
      CommitDisk(s, next, e.write);
    }
  }

  lemma {:induction false} PreparedDisk(s: State, e: Event)
    requires s.up && e.Prepared?
    ensures PreparedStep(s, e).disk == s.disk || NewDisk(s, e, PreparedStep(s, e).disk)
  {
    if s.phase.Fetching? {
      var job := s.phase.job;
      CommitDisk(s, Some(CancelPreparing(s.memory, job.id, e.now)), e.write);
      var next := PrepareEdit(s.memory, job.id, Derived(s, job, e.head), e.allowAll, e.now);
      CommitDisk(s, next, e.write);
      CommitDisk(Allow(s, job.id, AllowAll), next, e.write);
    }
  }

  lemma {:induction false} RecordDisk(s: State, e: Event)
    requires s.up && e.Record?
    ensures RecordStep(s, e).disk == s.disk || NewDisk(s, e, RecordStep(s, e).disk)
  {
    if s.phase.Done? { CommitDisk(s, RecordEdit(s.memory, s.phase.job.id, s.phase.verified, e.now), e.write); }
  }

  lemma {:induction false} LoadDisk(s: State, e: Event)
    requires !s.up && e.Load?
    ensures LoadStep(s, e).disk == s.disk || NewDisk(s, e, LoadStep(s, e).disk)
  {
    hide Loadable;
    assert Saved(s, LoadEdit(s.disk, e.now)).disk == LoadEdit(s.disk, e.now);
  }

  lemma {:induction false} StepDisk(s: State, e: Event)
    ensures Step(s, e).disk == s.disk || NewDisk(s, e, Step(s, e).disk)
  {
    hide SubmitStep, AskStep, WorkStep, PreparedStep, RecordStep, LoadStep, WorkNext, SubmitEdit, RequestEdit,
      PrepareEdit, RecordEdit, LoadEdit, CancelPreparing, Derived, IsQueue, Copies;
    if e.Load? {
      if !s.up { LoadDisk(s, e); }
    } else if s.up {
      if e.Submit? {
        SubmitDisk(s, e);
      } else if e.Ask? {
        AskDisk(s, e);
      } else if e.Work? {
        if s.work != [] { WorkDisk(s, e); }
      } else if e.Prepared? {
        PreparedDisk(s, e);
      } else if e.Record? {
        RecordDisk(s, e);
      }
    }
  }

  lemma {:induction false} SubmitLivesOn(s: State, e: Event, m: Store, id: Id)
    requires Inv(s) && s.up && e.Submit? && NewDisk(s, e, m)
    ensures id in s.disk ==> LivesOn(s, e, m, id)
    ensures id !in s.disk && id !in s.uploads ==> id !in m
  {
    assert UploadOk(e.id, s.uploads[e.id], s.memory, s);
    SubmitAdds(s.memory, s.uploads[e.id], e.now);
  }

  lemma {:induction false} AskLivesOn(s: State, e: Event, m: Store, id: Id)
    requires s.memory == s.disk && s.up && e.Ask? && NewDisk(s, e, m)
    ensures id in s.disk ==> LivesOn(s, e, m, id)
    ensures id !in s.disk ==> id !in m
  {
  }

  lemma {:induction false} WorkLivesOn(s: State, e: Event, m: Store, id: Id)
    requires s.memory == s.disk && s.up && e.Work? && NewDisk(s, e, m)
    ensures id in s.disk ==> LivesOn(s, e, m, id)
    ensures id !in s.disk ==> id !in m
  {
  }

  lemma {:induction false} PreparedLivesOn(s: State, e: Event, m: Store, id: Id)
    requires s.memory == s.disk && JobsOk(s.disk, s.past) && s.up && e.Prepared? && NewDisk(s, e, m)
    ensures id in s.disk ==> LivesOn(s, e, m, id)
    ensures id !in s.disk ==> id !in m
  {
    if id in s.disk { assert JobOk(id, s.disk[id], s.past); }
  }

  lemma {:induction false} RecordLivesOn(s: State, e: Event, m: Store, id: Id)
    requires Inv(s) && s.up && e.Record? && NewDisk(s, e, m)
    ensures id in s.disk ==> LivesOn(s, e, m, id)
    ensures id !in s.disk ==> id !in m
  {
  }

  lemma {:induction false} LoadLivesOn(s: State, e: Event, m: Store, id: Id)
    requires e.Load? && NewDisk(s, e, m)
    ensures id in s.disk ==> LivesOn(s, e, m, id)
    ensures id !in s.disk ==> id !in m
  {
  }

  lemma {:induction false} NewDiskLivesOn(s: State, e: Event, m: Store, id: Id)
    requires Inv(s) && NewDisk(s, e, m)
    ensures id in s.disk ==> LivesOn(s, e, m, id)
    ensures id !in s.disk && !(s.up && id in s.uploads) ==> id !in m
  {
    hide Granted, JobOk;
    match e
    case Submit(_, _, _) => SubmitLivesOn(s, e, m, id);
    case Ask(_, _, _, _) => AskLivesOn(s, e, m, id);
    case Work(_, _, _, _, _, _) => WorkLivesOn(s, e, m, id);
    case Prepared(_, _, _, _, _) => PreparedLivesOn(s, e, m, id);
    case Record(_, _) => RecordLivesOn(s, e, m, id);
    case Load(_, _) => LoadLivesOn(s, e, m, id);
  }

  /** Every step of every run keeps a publication's request and review and moves it along its life cycle; a finished
      publication is removed only on request or to make room, and ids never come back. */
  lemma {:induction false} StepLivesOn(s: State, e: Event, id: Id)
    requires Inv(s)
    ensures id in s.disk ==> LivesOn(s, e, Step(s, e).disk, id)
    ensures id !in s.disk && !(s.up && id in s.uploads) ==> id !in Step(s, e).disk
  {
    StepDisk(s, e);
    if Step(s, e).disk != s.disk { NewDiskLivesOn(s, e, Step(s, e).disk, id); }
  }

  // ---------------------------------------------------------------- it never comes back

  /** An upload whose record is not committed yet. */
  predicate Waiting(s: State, id: Id) { s.up && id in s.uploads }

  predicate Uploading(s: State, t: State) {
    t.past.submitted == s.past.submitted && (t.up ==> s.up && t.uploads.Keys <= s.uploads.Keys)
  }

  lemma {:induction false} CommitUploads(s: State, next: Option<Store>, w: Write)
    ensures Uploading(s, Commit(s, next, w)) || !s.up
    ensures Uploading(s, WorkCommit(s, next, w)) || !s.up
  {
  }

  lemma {:induction false} WorkerUploads(s: State, e: Event)
    requires s.up
    ensures Uploading(s, WorkerStep(s, e))
  {
    if e.Work? {
      if s.phase.Idle? && s.work != [] { WorkUploads(s, e); }
    } else if e.Prepared? {
      PreparedUploads(s, e);
    } else if e.Record? {
      if s.phase.Done? { CommitUploads(s, RecordEdit(s.memory, s.phase.job.id, s.phase.verified, e.now), e.write); }
    } else {
      PhaseUploads(s, e);
    }
  }

  lemma {:induction false} PhaseUploads(s: State, e: Event)
    requires s.up && !e.Work? && !e.Prepared? && !e.Record?
    ensures Uploading(s, WorkerStep(s, e))
  {
    hide IsQueue, Copies, At, WorkStep, PreparedStep, RecordStep;
  }

  lemma {:induction false} WorkUploads(s: State, e: Event)
    requires s.up && e.Work? && s.work != []
    ensures Uploading(s, WorkStep(s, e))
  {
    CommitUploads(s.(work := s.work[1..]), WorkNext(s.memory, s.work[0], e), e.write);
  }

  lemma {:induction false} PreparedUploads(s: State, e: Event)
    requires s.up && e.Prepared?
    ensures Uploading(s, PreparedStep(s, e))
  {
    if s.phase.Fetching? {
      var job := s.phase.job;
      CommitUploads(s, Some(CancelPreparing(s.memory, job.id, e.now)), e.write);
      var next := PrepareEdit(s.memory, job.id, Derived(s, job, e.head), e.allowAll, e.now);
      CommitUploads(s, next, e.write);
      CommitUploads(Allow(s, job.id, AllowAll), next, e.write);
    }
  }

  lemma {:induction false} AskUploads(s: State, e: Event)
    requires s.up && e.Ask?
    ensures Uploading(s, AskStep(s, e))
  {
    var next := RequestEdit(s.memory, e.id, e.request, e.now);
    if e.request.Delete? && Commits(next, e.write) {
      CommitUploads(s.(doomed := s.doomed + {e.id}), next, e.write);
    } else if e.request.Decide? && e.request.approve && next.Some? {
      CommitUploads(Allow(s, e.id, Decided(e.request.fingerprint)), next, e.write);
    } else {
      CommitUploads(s, next, e.write);
    }
  }

  lemma {:induction false} SubmitUploads(s: State, e: Event)
    requires s.up && e.Submit?
    ensures Uploading(s, SubmitStep(s, e))
  {
    if e.id in s.uploads {
      var next := SubmitEdit(s.memory, s.uploads[e.id], e.now);
      var gone := if Commits(next, e.write) then s.memory.Keys - next.value.Keys else {e.id};
      CommitUploads(s.(uploads := s.uploads - {e.id}, doomed := s.doomed + gone), next, e.write);
    }
  }

  lemma {:induction false} NeverWaitsAgain(s: State, e: Event, id: Id)
    requires id in s.past.submitted && !Waiting(s, id)
    ensures id in Step(s, e).past.submitted && Step(s, e).past.submitted[id] == s.past.submitted[id]
            && !Waiting(Step(s, e), id)
  {
    hide SubmitStep, AskStep, WorkerStep, MoveBundleStep, RemoveDirStep, At, Loadable, LoadEdit;
    if e.Load? {
      LoadQuiet(s, e);
    } else if s.up && !e.Land? && !e.Foreign? && !e.Crash? {
      if !e.MakeDir? { BrokerUploads(s, e); }
    }
  }

  lemma {:induction false} BrokerUploads(s: State, e: Event)
    requires s.up && !e.MakeDir?
    ensures Uploading(s, BrokerStep(s, e))
  {
    hide AdmitEdit, BlockEdit;
    if e.Submit? {
      SubmitUploads(s, e);
    } else if e.Ask? {
      AskUploads(s, e);
    } else if !e.MoveBundle? && !e.RemoveDir? {
      WorkerUploads(s, e);
    }
  }

  /** Submitted, no longer waiting, and finished or gone. */
  predicate Over(s: State, id: Id) {
    id in s.past.submitted && !Waiting(s, id) && (id in s.disk ==> !Active(s.disk[id].status))
  }

  lemma {:induction false} OverForGood(s: State, e: Event, id: Id)
    requires Inv(s) && Over(s, id)
    ensures Over(Step(s, e), id)
  {
    NeverWaitsAgain(s, e, id);
    StepLivesOn(s, e, id);
  }

  /** Over any continuation of a run, a publication that has finished or is gone is never active again. */
  lemma {:induction false} FinishedForever(remote: map<Target, Oid>, es: seq<Event>, more: seq<Event>, id: Id)
    requires Over(Run(remote, es), id)
    ensures Over(Run(remote, es + more), id)
    decreases |more|
  {
    hide LandStep, Step;
    if more == [] {
      assert es + more == es;
    } else {
      var before, e := es + more[..|more| - 1], more[|more| - 1];
      FinishedForever(remote, es, more[..|more| - 1], id);
      RunKeeps(remote, before);
      assert es + more == before + [e];
      RunStep(remote, before, e);
      OverForGood(Run(remote, before), e, id);
    }
  }
}
