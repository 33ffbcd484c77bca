/** What holds of Git publications in every run of the broker, whatever other writers do to the branch. */
module PushSafety {
  import opened Outcome
  import opened Statuses
  import opened Pruning
  import opened PushStore
  import opened PushRuns
  import opened PushInvariant

  // ---------------------------------------------------------------- the branch

  /** A publication changes its branch at most once, and only from the submitted object to the reviewed head. */
  lemma {:induction false} OneChange(remote: map<Target, Oid>, es: seq<Event>, i: nat)
    requires i < |Run(remote, es).past.changes|
    ensures var h := Run(remote, es).past;
      var c := h.changes[i];
      && c.id in h.submitted && c.target == h.submitted[c.id].target && c.from == h.submitted[c.id].expected
      && c.id in h.reviewed && c.to == h.reviewed[c.id].head && ReviewMatches(h.reviewed[c.id], h.submitted[c.id])
      && forall j :: 0 <= j < |h.changes| && j != i ==> h.changes[j].id != c.id
  {
    RunKeeps(remote, es);
    var h := Run(remote, es).past;
    assert ChangeOk(h.changes[i], h);
    forall j | 0 <= j < |h.changes| && j != i ensures h.changes[j].id != h.changes[i].id {
      if j < i { assert h.changes[j].id != h.changes[i].id; }
    }
  }

  /** Steps that only move records: no push starts; directories, the server and the rest of the history stay. */
  predicate Quiet(s: State, t: State) {
    && (t.phase.Pushing? ==> s.phase.Pushing?)
    && t.dirs == s.dirs && t.remote == s.remote && t.inflight == s.inflight && t.past.submitted == s.past.submitted
    && t.past.grants == s.past.grants && t.past.started == s.past.started && t.past.changes == s.past.changes
    && t.past.seen == s.past.seen
  }

  lemma {:induction false} CommitQuiet(s: State, next: Option<Store>, w: Write)
    ensures Quiet(s, Commit(s, next, w)) && Quiet(s, WorkCommit(s, next, w))
  {
  }

  lemma {:induction false} WorkQuiet(s: State, e: Event)
    requires e.Work? && s.work != []
    ensures Quiet(s, WorkStep(s, e))
  {
    HandledQuiet(s.(work := s.work[1..]), WorkNext(s.memory, s.work[0], e), e.write, Fetching(s.work[0]),
                 Admitted(s.work[0]));
  }

  lemma {:induction false} HandledQuiet(t: State, next: Option<Store>, w: Write, p: Phase, q: Phase)
    requires !p.Pushing? && !q.Pushing?
    ensures var after := WorkCommit(t, next, w);
      Quiet(t, after) && Quiet(t, after.(phase := q)) && Quiet(t, t.(phase := p))
  {
    CommitQuiet(t, next, w);
  }

  lemma {:induction false} QuietAside(s: State, uploads: map<Id, Job>, doomed: set<Id>, t: State)
    requires Quiet(s.(uploads := uploads, doomed := doomed), t)
    ensures Quiet(s, t)
  {
  }

  lemma {:induction false} SubmitQuiet(s: State, e: Event)
    requires e.Submit?
    ensures Quiet(s, SubmitStep(s, e))
  {
    if e.id !in s.uploads || e.id !in s.dirs || s.dirs[e.id].None? { return; }
    hide SubmitEdit, Commit, Noted, Quiet;
    var next := SubmitEdit(s.memory, s.uploads[e.id], e.now);
    var gone := if Commits(next, e.write) then s.memory.Keys - next.value.Keys else {e.id};
    var t := s.(uploads := s.uploads - {e.id}, doomed := s.doomed + gone);
    CommitQuiet(t, next, e.write);
    QuietAside(s, t.uploads, t.doomed, Commit(t, next, e.write));
  }

  /** Requests and the preparation of a review may also grant a publication. */
  lemma {:induction false} AskQuiet(s: State, e: Event)
    requires e.Ask?
    ensures Quiet(s.(past := s.past.(grants := AskStep(s, e).past.grants)), AskStep(s, e))
  {
    hide Noted, RequestEdit;
    var next := RequestEdit(s.memory, e.id, e.request, e.now);
    if e.request.Delete? && Commits(next, e.write) {
      CommitQuiet(s.(doomed := s.doomed + {e.id}), next, e.write);
    } else if e.request.Decide? && e.request.approve && next.Some? {
      CommitQuiet(Allow(s, e.id, Decided(e.request.fingerprint)), next, e.write);
    } else {
      CommitQuiet(s, next, e.write);
    }
  }

  lemma {:induction false} PreparedQuiet(s: State, e: Event)
    requires e.Prepared?
    ensures Quiet(s.(past := s.past.(grants := PreparedStep(s, e).past.grants)), PreparedStep(s, e))
  {
    if s.phase.Fetching? {
      var job := s.phase.job;
      CommitQuiet(s, Some(CancelPreparing(s.memory, job.id, e.now)), e.write);
      var next := PrepareEdit(s.memory, job.id, Derived(s, job, e.head), e.allowAll, e.now);
      CommitQuiet(s, next, e.write);
      CommitQuiet(Allow(s, job.id, AllowAll), next, e.write);
    }
  }

  lemma {:induction false} RecordQuiet(s: State, e: Event)
    requires e.Record?
    ensures Quiet(s, RecordStep(s, e))
  {
    if s.phase.Done? { CommitQuiet(s, RecordEdit(s.memory, s.phase.job.id, s.phase.verified, e.now), e.write); }
  }

  predicate ServerStays(s: State, t: State) { t.remote == s.remote && t.past.seen == s.past.seen }

  lemma {:induction false} WorkerStays(s: State, e: Event)
    ensures e.ReadBack? || ServerStays(s, WorkerStep(s, e))
  {
    if e.Work? {
      if s.phase.Idle? && s.work != [] { WorkQuiet(s, e); }
    } else if e.Prepared? {
      PreparedQuiet(s, e);
    } else if e.Record? {
      RecordQuiet(s, e);
    } else {
      PhaseStays(s, e);
    }
  }

  lemma {:induction false} PhaseStays(s: State, e: Event)
    requires !e.Work? && !e.Prepared? && !e.Record?
    ensures e.ReadBack? || ServerStays(s, WorkerStep(s, e))
  {
    hide Queued;
    if e.Push? {
      PushStays(s);
    } else if e.Recheck? {
      RecheckStays(s, e);
    } else if e.Report? {
      ReportStays(s, e);
    }
  }

  lemma {:induction false} PushStays(s: State)
    ensures ServerStays(s, PushStep(s))
  {
  }

  lemma {:induction false} RecheckStays(s: State, e: Event)
    requires e.Recheck?
    ensures ServerStays(s, RecheckStep(s, e))
  {
  }

  lemma {:induction false} ReportStays(s: State, e: Event)
    requires e.Report?
    ensures ServerStays(s, ReportStep(s, e))
  {
  }

  lemma {:induction false} BrokerStays(s: State, e: Event)
    ensures e.ReadBack? || ServerStays(s, BrokerStep(s, e))
  {
    hide SubmitStep, AskStep, WorkerStep;
    if e.Submit? {
      SubmitQuiet(s, e);
    } else if e.Ask? {
      AskQuiet(s, e);
    } else if !e.MakeDir? && !e.MoveBundle? && !e.RemoveDir? {
      WorkerStays(s, e);
    }
  }

  lemma {:induction false} RemoteStays(s: State, e: Event)
    requires !e.Land? && !e.Foreign?
    ensures Step(s, e).remote == s.remote && (!e.ReadBack? ==> Step(s, e).past.seen == s.past.seen)
  {
    if e.Load? { LoadQuiet(s, e); } else { BrokerStays(s, e); }
  }

  lemma {:induction false} SavedQuiet(s: State, m: Store)
    ensures Quiet(s, Saved(s, m))
  {
  }

  lemma {:induction false} LoadQuiet(s: State, e: Event)
    requires e.Load?
    ensures Quiet(s, LoadStep(s, e))
  {
    SavedQuiet(s, LoadEdit(s.disk, e.now));
  }

  /** Every change of the branch is another writer's, or a logged compare-and-swap of a publication. */
  lemma {:induction false} BranchMoves(s: State, e: Event)
    requires Step(s, e).remote != s.remote
    ensures var t := Step(s, e);
      e.Foreign? ||
      (e.Land? && |t.past.changes| == |s.past.changes| + 1 && t.past.changes[..|s.past.changes|] == s.past.changes &&
       var c := t.past.changes[|s.past.changes|];
       c.id == e.id && At(s.remote, c.target) == c.from && t.remote == s.remote[c.target := c.to])
  {
    if !e.Land? && !e.Foreign? { RemoteStays(s, e); }
  }

  /** The worker hands a push to the Git server. */
  ghost predicate Starts(s: State, e: Event) { !s.phase.Pushing? && Step(s, e).phase.Pushing? }

  /** No push starts, and the server has at most what it had. */
  ghost predicate Unstarted(s: State, t: State) {
    (t.phase.Pushing? ==> s.phase.Pushing?) && t.past.started == s.past.started && t.inflight.Keys <= s.inflight.Keys
  }

  lemma {:induction false} WorkerStartsNothing(s: State, e: Event)
    requires !e.Push?
    ensures Unstarted(s, WorkerStep(s, e))
  {
    hide WorkStep, PreparedStep, RecordStep, ReadBackStep, PushStep, IsQueue, Copies, At;
    if e.Work? {
      if s.phase.Idle? && s.work != [] { WorkQuiet(s, e); }
    } else if e.Prepared? {
      PreparedQuiet(s, e);
    } else if e.Record? {
      RecordQuiet(s, e);
    } else if e.ReadBack? {
      ReadBackStartsNothing(s, e);
    }
  }

  lemma {:induction false} ReadBackStartsNothing(s: State, e: Event)
    requires e.ReadBack?
    ensures Unstarted(s, ReadBackStep(s, e))
  {
    hide At, Sighting;
    if s.phase.Pushed? && s.phase.job.review.Some? { SightingStarts(s.past, s.phase.job); }
  }

  lemma {:induction false} SightingStarts(h: History, job: Job)
    requires job.review.Some?
    ensures Sighting(h, job).started == h.started
  {
  }

  lemma {:induction false} DirsStartNothing(s: State, e: Event)
    requires e.MakeDir? || e.MoveBundle? || e.RemoveDir?
    ensures Unstarted(s, BrokerStep(s, e))
  {
    hide MakeDirStep, MoveBundleStep, RemoveDirStep;
    if e.MakeDir? {
      MakeDirStartsNothing(s, e);
    } else if e.MoveBundle? {
      MoveStartsNothing(s, e);
    } else {
      RemoveStartsNothing(s, e);
    }
  }

  lemma {:induction false} MakeDirStartsNothing(s: State, e: Event)
    requires e.MakeDir?
    ensures Unstarted(s, MakeDirStep(s, e))
  {
    hide NewJob;
  }

  lemma {:induction false} MoveStartsNothing(s: State, e: Event)
    requires e.MoveBundle?
    ensures Unstarted(s, MoveBundleStep(s, e))
  {
  }

  lemma {:induction false} RemoveStartsNothing(s: State, e: Event)
    requires e.RemoveDir?
    ensures Unstarted(s, RemoveDirStep(s, e))
  {
  }

  lemma {:induction false} LandStartsNothing(s: State, id: Id)
    ensures Unstarted(s, LandStep(s, id))
  {
    hide At;
  }

  lemma {:induction false} OthersStartNothing(s: State, e: Event)
    requires !e.Push?
    ensures Unstarted(s, Step(s, e))
  {
    hide SubmitStep, AskStep, WorkerStep, LoadStep, LandStep, MakeDirStep, MoveBundleStep, RemoveDirStep;
    if e.Land? { LandStartsNothing(s, e.id); }
    if e.Load? {
      LoadQuiet(s, e);
    } else if e.Submit? {
      SubmitQuiet(s, e);
    } else if e.Ask? {
      AskQuiet(s, e);
    } else if e.MakeDir? || e.MoveBundle? || e.RemoveDir? {
      DirsStartNothing(s, e);
    } else {
      WorkerStartsNothing(s, e);
    }
  }

  /** Each start enters the history and the server's queue, and nothing else does. */
  lemma {:induction false} StartsAreLogged(s: State, e: Event)
    ensures Starts(s, e) <==> s.up && e.Push? && s.phase.Rechecked? && s.phase.job.review.Some?
    ensures var t := Step(s, e);
      if Starts(s, e)
      then t.past.started == s.past.started + {s.phase.job.id}
           && t.inflight == s.inflight[s.phase.job.id := s.phase.job.review.value]
      else t.past.started == s.past.started && t.inflight.Keys <= s.inflight.Keys
  {
    hide ActiveIds, CancelPreparing;
    if e.Push? {
      assert Step(s, e) == if s.up then PushStep(s) else s;
    } else {
      hide Step;
      OthersStartNothing(s, e);
    }
  }

  /** Whenever a push starts, it was never started before; its record on disk already says Sending, with the review
      that is pushed, and it was allowed in this very broker run. */
  lemma {:induction false} PushIsDurable(remote: map<Target, Oid>, es: seq<Event>, e: Event)
    requires Starts(Run(remote, es), e)
    ensures var s := Run(remote, es);
      && !s.phase.Idle? && var id := s.phase.job.id;
      && id !in s.past.started && Step(s, e).past.started == s.past.started + {id}
      && id in s.disk && s.disk[id].status.Sending?
      && id in Step(s, e).inflight && s.disk[id].review == Some(Step(s, e).inflight[id])
      && id in s.past.submitted && s.disk[id].request == s.past.submitted[id]
      && Granted(s.past.grants, s.run, id, s.disk[id].request.fingerprint)
  {
    RunKeeps(remote, es);
    var s := Run(remote, es);
    hide Step, Run, Starts;
    StartsAreLogged(s, e);
    assert JobOk(s.phase.job.id, s.disk[s.phase.job.id], s.past);
  }

  // ---------------------------------------------------------------- success was seen

  lemma {:induction false} NewSight(s: State, e: Event, x: Sight)
    requires x in Step(s, e).past.seen && x !in s.past.seen
    ensures At(s.remote, x.target) == Some(x.head)
  {
    hide BrokerStep, LandStep, LoadStep;
    if e.ReadBack? {
      NewReadBack(s, e, x);
    } else if e.Land? {
      LandStays(s, e.id);
    } else if !e.Foreign? {
      RemoteStays(s, e);
    }
  }

  lemma {:induction false} NewReadBack(s: State, e: Event, x: Sight)
    requires e.ReadBack? && x in Step(s, e).past.seen && x !in s.past.seen
    ensures At(s.remote, x.target) == Some(x.head)
  {
    assert Step(s, e) == if s.up then ReadBackStep(s, e) else s;
  }

  lemma {:induction false} LandStays(s: State, id: Id)
    ensures LandStep(s, id).past.seen == s.past.seen
  {
    hide At;
  }

  lemma {:induction false} SightHasMoment(remote: map<Target, Oid>, es: seq<Event>, x: Sight) returns (n: nat)
    requires x in Run(remote, es).past.seen
    ensures n < |es| && At(Run(remote, es[..n]).remote, x.target) == Some(x.head)
  {
    var last := |es| - 1;
    if x in Run(remote, es[..last]).past.seen {
      n := SightHasMoment(remote, es[..last], x);
      assert es[..last][..n] == es[..n];
    } else {
      NewSight(Run(remote, es[..last]), es[last], x);
      n := last;
    }
  }

  /** A publication that is reported as received: at some moment of the run its branch was read at the reviewed head. */
  lemma {:induction false} ReceivedWasSeen(remote: map<Target, Oid>, es: seq<Event>, id: Id) returns (n: nat)
    requires id in Run(remote, es).disk && Run(remote, es).disk[id].status.ResponseReceived?
    ensures n < |es|
    ensures var j := Run(remote, es).disk[id];
      j.review.Some? && At(Run(remote, es[..n]).remote, j.request.target) == Some(j.review.value.head)
  {
    RunKeeps(remote, es);
    var j := Run(remote, es).disk[id];
    assert JobOk(id, j, Run(remote, es).past);
    n := SightHasMoment(remote, es, Sight(id, j.request.target, j.review.value.head));
  }

  // ---------------------------------------------------------------- directories and reload

  /** In every reachable state, so at every crash point, each saved publication has its bundle. */
  lemma {:induction false} BundlesSurvive(remote: map<Target, Oid>, es: seq<Event>, id: Id)
    requires id in Run(remote, es).disk
    ensures var s := Run(remote, es); id in s.dirs && s.dirs[id] == Some(s.disk[id].request.bundle)
  {
    RunKeeps(remote, es);
  }

  lemma {:induction false} LoadableIff(s: State)
    requires Durable(s)
    ensures Loadable(s.disk, s.dirs) <==> forall k :: k in s.disk ==>
      !(s.disk[k].status.Expired? && s.disk[k].review.None?)
  {
    forall k | k in s.disk ensures JobOk(k, s.disk[k], s.past) { }
  }

  /** A restart accepts the saved store exactly when no publication expired before it had a review. */
  lemma {:induction false} ReloadIff(remote: map<Target, Oid>, es: seq<Event>)
    ensures var s := Run(remote, es);
      Loadable(s.disk, s.dirs) <==> forall k :: k in s.disk ==> !(s.disk[k].status.Expired? && s.disk[k].review.None?)
  {
    hide Run, Loadable, Durable;
    RunKeeps(remote, es);
    LoadableIff(Run(remote, es));
  }

  /** Uploading, and then letting the review time pass before the worker looks. */
  function StuckRun(r: Submission): seq<Event> {
    [Load(0, Succeeds), MakeDir(1, r, 0), MoveBundle(1, true), Submit(1, 0, Succeeds), BeginTick([1]),
     Work(REVIEW_TIME, true, true, true, REVIEW_TIME, Succeeds), Crash]
  }

  lemma {:induction false} RunStep(remote: map<Target, Oid>, es: seq<Event>, e: Event)
    ensures Run(remote, es + [e]) == Step(Run(remote, es), e)
  {
    assert (es + [e])[..|es + [e]| - 1] == es;
  }

  lemma {:induction false} FirstSubmission(j: Job)
    requires j.request.bundle.bytes <= MAX_BUNDLE
    ensures SubmitEdit(map[], j, 0) == Some(map[j.id := j])
  {
    var none: Store, m: Store := map[], map[j.id := j];
    assert ActiveIds(map[]) == {} && ActiveOf(map[], j.request.owner.container) == {};
    assert none[j.id := j] == m;
    StoredRemove(m, j.id);
    assert m - {j.id} == map[] && Stored(map[]) == 0;
    PruningStarts(m, Slots(m, 0), Within);
    PruningEnds(m, Slots(m, 0), m, Within);
  }

  lemma {:induction false} FirstLoad(remote: map<Target, Oid>)
    ensures var s := Step(Start(remote), Load(0, Succeeds));
      s.up && s.memory == map[] && s.uploads == map[] && s.phase.Idle? && s.work == [] && s.past.submitted == map[]
  {
    assert Stored(map[]) == 0;
    assert LoadEdit(map[], 0) == map[];
  }

  lemma {:induction false} FirstUpload(s: State, r: Submission)
    requires s.up && s.past.submitted == map[] && s.uploads == map[] && 0 < r.bundle.bytes <= MAX_BUNDLE
    ensures var t := Step(Step(s, MakeDir(1, r, 0)), MoveBundle(1, true));
      t == s.(uploads := map[1 := NewJob(1, r, 0)], dirs := t.dirs, past := t.past) && 1 in t.dirs && t.dirs[1].Some?
  {
    var t := Step(s, MakeDir(1, r, 0));
    assert t.uploads == map[1 := NewJob(1, r, 0)];
  }

  lemma {:induction false} FirstCommit(s: State, r: Submission)
    requires s.up && s.memory == map[] && s.uploads == map[1 := NewJob(1, r, 0)] && 1 in s.dirs && s.dirs[1].Some?
    requires 0 < r.bundle.bytes <= MAX_BUNDLE
    ensures var t := Step(s, Submit(1, 0, Succeeds));
      t.up && t.memory == map[1 := NewJob(1, r, 0)] && t.phase == s.phase && t.work == s.work
  {
    hide Active, Approves, PrunedPushes;
    FirstSubmission(NewJob(1, r, 0));
  }

  /** The broker after the upload was accepted. */
  lemma {:induction false} UploadRun(remote: map<Target, Oid>, r: Submission)
    requires 0 < r.bundle.bytes <= MAX_BUNDLE
    ensures var s := Run(remote, StuckRun(r)[..4]);
      s.up && s.memory == map[1 := NewJob(1, r, 0)] && s.phase.Idle? && s.work == []
  {
    var es := StuckRun(r);
    assert es[..1] == [] + [es[0]] && es[..2] == es[..1] + [es[1]] && es[..3] == es[..2] + [es[2]]
      && es[..4] == es[..3] + [es[3]];
    RunStep(remote, [], es[0]);
    RunStep(remote, es[..1], es[1]);
    RunStep(remote, es[..2], es[2]);
    RunStep(remote, es[..3], es[3]);
    FirstLoad(remote);
    FirstUpload(Run(remote, es[..1]), r);
    FirstCommit(Run(remote, es[..3]), r);
  }

  lemma {:induction false} LapseRun(remote: map<Target, Oid>, r: Submission)
    requires 0 < r.bundle.bytes <= MAX_BUNDLE
    ensures var s := Run(remote, StuckRun(r));
      !s.up && 1 in s.disk && s.disk[1].status.Expired? && s.disk[1].review.None?
  {
    hide Allow, BeginStep, Commit;
    var es := StuckRun(r);
    UploadRun(remote, r);
    assert es[..5] == es[..4] + [es[4]] && es[..6] == es[..5] + [es[5]] && es == es[..6] + [es[6]];
    RunStep(remote, es[..4], es[4]);
    RunStep(remote, es[..5], es[5]);
    RunStep(remote, es[..6], es[6]);
    FirstTick(Run(remote, es[..4]), r);
    FirstLapse(Run(remote, es[..5]), r);
  }

  lemma {:induction false} FirstTick(s: State, r: Submission)
    requires s.up && s.memory == map[1 := NewJob(1, r, 0)] && s.phase.Idle? && s.work == []
    ensures Step(s, BeginTick([1])) == s.(work := [NewJob(1, r, 0)])
  {
    assert s.memory[1] == NewJob(1, r, 0) && IsQueue(s.memory, [1]);
  }

  lemma {:induction false} FirstLapse(s: State, r: Submission)
    requires s.up && s.memory == map[1 := NewJob(1, r, 0)] && s.phase.Idle? && s.work == [NewJob(1, r, 0)]
    ensures var t := Step(s, Work(REVIEW_TIME, true, true, true, REVIEW_TIME, Succeeds));
      1 in t.disk && t.disk[1].status.Expired? && t.disk[1].review.None?
  {
  }

  lemma {:induction false} StaysDown(s: State, e: Event)
    requires !s.up && 1 in s.disk && s.disk[1].status.Expired? && s.disk[1].review.None?
    ensures var t := Step(s, e); !t.up && t.disk == s.disk
  {
    hide BrokerStep, Saved, LoadEdit, Stored, ReviewMatches, At;
  }

  /** After that run the broker never starts again, whatever happens. */
  lemma {:induction false} StuckForever(remote: map<Target, Oid>, r: Submission, more: seq<Event>)
    requires 0 < r.bundle.bytes <= MAX_BUNDLE
    ensures var s := Run(remote, StuckRun(r) + more);
      !s.up && 1 in s.disk && s.disk[1].status.Expired? && s.disk[1].review.None?
    decreases |more|
  {
    if more == [] {
      assert StuckRun(r) + more == StuckRun(r);
      LapseRun(remote, r);
    } else {
      var before, e := StuckRun(r) + more[..|more| - 1], more[|more| - 1];
      StuckForever(remote, r, more[..|more| - 1]);
      assert StuckRun(r) + more == before + [e];
      RunStep(remote, before, e);
      StaysDown(Run(remote, before), e);
    }
  }
}
