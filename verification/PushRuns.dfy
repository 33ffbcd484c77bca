/** Git publications over whole broker runs: uploads and their directories, the worker, the remote branch with
    its other writers, failed writes, crashes and restarts. */
module PushRuns {
  import opened Outcome
  import opened Statuses
  import opened Pruning
  import opened PushStore
  import opened Runs

  // ---------------------------------------------------------------- state

  /** Artifact directories: None is a directory whose bundle has not arrived yet. */
  type Dirs = map<Id, Option<Bundle>>

  /** `up` to `phase` is the broker, `disk` and `dirs` survive it, `remote` and `inflight` belong to the Git
      server, and the rest is a history of what happened. */
  datatype State = State(up: bool, run: nat, memory: Store, uploads: map<Id, Job>, doomed: set<Id>, work: seq<Job>,
                         phase: Phase, disk: Store, dirs: Dirs, remote: map<Target, Oid>, inflight: map<Id, Review>,
                           past: History)

  datatype Phase = Idle | Fetching(job: Job) | Admitted(job: Job) | Rechecked(job: Job) | Pushing(job: Job)
                 | Pushed(job: Job) | Done(job: Job, verified: bool)

  datatype History = History(submitted: map<Id, Submission>, reviewed: map<Id, Review>, grants: set<Grant>,
                             started: set<Id>, changes: seq<Change>, seen: set<Sight>)

  datatype Grant = Grant(run: nat, id: Id, reason: Reason)
  datatype Reason = AllowAll | Decided(fingerprint: string)
  /** A change of a branch by a publication. */
  datatype Change = Change(id: Id, target: Target, from: Option<Oid>, to: Oid)
  /** A read-back that found the branch at the reviewed head. */
  datatype Sight = Sight(id: Id, target: Target, head: Oid)

  datatype Write = Fails | Succeeds | Dies

  datatype Event =
    | MakeDir(id: Id, input: Submission, now: int)
    | MoveBundle(id: Id, moved: bool)
    | Submit(id: Id, now: int, write: Write)
    | RemoveDir(id: Id, removed: bool)
    | Ask(id: Id, request: Request, now: int, write: Write)
    | BeginTick(ids: seq<Id>)
    | Work(now: int, identity: bool, credential: bool, admitted: bool, later: int, write: Write)
    | Prepared(head: Option<Oid>, identity: bool, allowAll: bool, now: int, write: Write)
    | Recheck(intact: bool, reachable: bool)
    | Push
    | Land(id: Id)
    | Report(success: bool)
    | ReadBack(reachable: bool)
    | Record(now: int, write: Write)
    | Foreign(target: Target, oid: Option<Oid>)
    | Crash
    | Load(now: int, write: Write)

  function At(remote: map<Target, Oid>, target: Target): Option<Oid> {
    if target in remote then Some(remote[target]) else None
  }

  function Down(s: State): State {
    s.(up := false, memory := map[], uploads := map[], doomed := {}, work := [], phase := Idle)
  }

  // ---------------------------------------------------------------- transactions

  /** The history of derived reviews follows the committed stores. */
  function Noted(h: History, m: Store): History {
    h.(reviewed := h.reviewed + map k | k in m && m[k].review.Some? :: m[k].review.value)
  }

  function Saved(s: State, m: Store): State { s.(disk := m, past := Noted(s.past, m)) }

  predicate Commits(next: Option<Store>, w: Write) { next.Some? && w.Succeeds? }

  /** `transaction`; exceeding the metadata limit counts as a failed write. */
  function Commit(s: State, next: Option<Store>, w: Write): State {
    if next.None? || w.Fails? then s
    else if w.Dies? then Down(Saved(s, next.value))
    else Saved(s, next.value).(memory := next.value)
  }

  // ---------------------------------------------------------------- steps of requests

  function NewJob(id: Id, request: Submission, now: int): Job {
    Job(id, request, None, Preparing, now, now + REVIEW_TIME, None)
  }

  /** The bundle is published in its own directory before any record mentions it. */
  function MakeDirStep(s: State, e: Event): State
    requires e.MakeDir?
  {
    if e.id in s.past.submitted || e.input.bundle.bytes == 0 || e.input.bundle.bytes > MAX_BUNDLE then s
    else s.(dirs := s.dirs[e.id := None], uploads := s.uploads[e.id := NewJob(e.id, e.input, e.now)],
            past := s.past.(submitted := s.past.submitted[e.id := e.input]))
  }

  function MoveBundleStep(s: State, e: Event): State
    requires e.MoveBundle?
  {
    if e.id !in s.uploads then s
    else if e.moved then s.(dirs := s.dirs[e.id := Some(s.uploads[e.id].request.bundle)])
    else s.(uploads := s.uploads - {e.id}, doomed := s.doomed + {e.id})
  }

  ghost function SubmitStep(s: State, e: Event): State
    requires e.Submit?
  {
    if e.id !in s.uploads || e.id !in s.dirs || s.dirs[e.id].None? then s
    else
      var next := SubmitEdit(s.memory, s.uploads[e.id], e.now);
      var gone := if Commits(next, e.write) then s.memory.Keys - next.value.Keys else {e.id};
      Commit(s.(uploads := s.uploads - {e.id}, doomed := s.doomed + gone), next, e.write)
  }

  /** Removing a directory may fail; that is only logged. */
  function RemoveDirStep(s: State, e: Event): State
    requires e.RemoveDir?
  {
    if e.id !in s.doomed then s
    else s.(doomed := s.doomed - {e.id}, dirs := if e.removed then s.dirs - {e.id} else s.dirs)
  }

  function AskStep(s: State, e: Event): State
    requires e.Ask?
  {
    var next := RequestEdit(s.memory, e.id, e.request, e.now);
    if e.request.Delete? && Commits(next, e.write) then Commit(s.(doomed := s.doomed + {e.id}), next, e.write)
    else if e.request.Decide? && e.request.approve && next.Some? then
      Commit(Allow(s, e.id, Decided(e.request.fingerprint)), next, e.write)
    else Commit(s, next, e.write)
  }

  function Allow(s: State, id: Id, reason: Reason): State {
    s.(past := s.past.(grants := s.past.grants + {Grant(s.run, id, reason)}))
  }

  // ---------------------------------------------------------------- steps of the worker

  ghost predicate IsQueue(m: Store, ids: seq<Id>) {
    && (forall i :: 0 <= i < |ids| ==> ids[i] in m && Queued(m[ids[i]].status))
    && (forall k :: k in m && Queued(m[k].status) ==> k in ids)
  }

  function Copies(m: Store, ids: seq<Id>): seq<Job>
    requires forall i :: 0 <= i < |ids| ==> ids[i] in m
  {
    seq(|ids|, i requires 0 <= i < |ids| => m[ids[i]])
  }

  ghost function BeginStep(s: State, ids: seq<Id>): State {
    if s.phase.Idle? && s.work == [] && IsQueue(s.memory, ids) then s.(work := Copies(s.memory, ids)) else s
  }

  /** A failed transaction ends the tick. */
  function WorkCommit(s: State, next: Option<Store>, w: Write): State {
    Commit(s.(phase := Idle, work := if Commits(next, w) then s.work else []), next, w)
  }

  predicate Lapsed(job: Job, e: Event)
    requires e.Work?
  {
    job.expires <= e.now || !e.identity
  }

  predicate Sendable(job: Job, e: Event)
    requires e.Work?
  {
    !Lapsed(job, e) && job.status.Approved? && e.credential && e.admitted
  }

  /** The transaction for the job at the head of the list, if there is one. */
  function WorkNext(m: Store, job: Job, e: Event): Option<Store>
    requires e.Work?
  {
    if Lapsed(job, e) then Some(LapseEdit(m, job.id, e.later))
    else if !e.credential && (job.status.Preparing? || job.status.Approved?)
      then Some(BlockEdit(m, job.id, job.status, e.later))
    else if Sendable(job, e) then Some(AdmitEdit(m, job.id, e.later))
    else None
  }

  function WorkStep(s: State, e: Event): State
    requires e.Work? && s.work != []
  {
    var job, t := s.work[0], s.(work := s.work[1..]);
    var next := WorkNext(s.memory, job, e);
    if next.None? then if job.status.Preparing? then t.(phase := Fetching(job)) else t
    else
      var after := WorkCommit(t, next, e.write);
      if Sendable(job, e) && Admits(s.memory, job.id, e.later)
        && Commits(next, e.write) then after.(phase := Admitted(job)) else after
  }

  /** The review derived from the bundle in the publication's directory. */
  function Derived(s: State, job: Job, head: Option<Oid>): Option<Review> {
    if head.Some? && job.id in s.dirs && s.dirs[job.id].Some?
    then Some(Review(job.request.target, job.request.expected, head.value,
                     Bundle(s.dirs[job.id].value.digest, job.request.bundle.bytes)))
    else None
  }

  function PreparedStep(s: State, e: Event): State
    requires e.Prepared?
  {
    if !s.phase.Fetching? then s
    else
      var job := s.phase.job;
      if !e.identity then WorkCommit(s, Some(CancelPreparing(s.memory, job.id, e.now)), e.write)
      else
        var next := PrepareEdit(s.memory, job.id, Derived(s, job, e.head), e.allowAll, e.now);
        WorkCommit(if e.allowAll && next.Some? && Approves(s.memory, next.value, job.id)
                   then Allow(s, job.id, AllowAll) else s,
                   next, e.write)
  }

  predicate Approves(m: Store, next: Store, id: Id) {
    id in m && id in next && !m[id].status.Approved? && next[id].status.Approved?
  }

  function RecheckStep(s: State, e: Event): State
    requires e.Recheck?
  {
    if !s.phase.Admitted? then s
    else
      var job := s.phase.job;
      var same := job.review.Some? && e.intact && e.reachable
        && At(s.remote, job.request.target) == job.request.expected;
      s.(phase := if same then Rechecked(job) else Done(job, false))
  }

  /** `git push` starts; the server decides when, if ever, it takes effect. */
  function PushStep(s: State): State {
    if !s.phase.Rechecked? || s.phase.job.review.None? then s
    else
      var job := s.phase.job;
      s.(phase := Pushing(job), inflight := s.inflight[job.id := job.review.value],
         past := s.past.(started := s.past.started + {job.id}))
  }

  /** `--force-with-lease` is a compare-and-swap on the server. */
  function LandStep(s: State, id: Id): State {
    if id !in s.inflight then s
    else
      var r, t := s.inflight[id], s.(inflight := s.inflight - {id});
      if At(s.remote, r.target) != r.expected then t
      else t.(remote := s.remote[r.target := r.head],
              past := s.past.(changes := s.past.changes + [Change(id, r.target, r.expected, r.head)]))
  }

  /** Success is reported only for a push that the server has dealt with. */
  function ReportStep(s: State, e: Event): State
    requires e.Report?
  {
    if !s.phase.Pushing? then s
    else
      var job := s.phase.job;
      s.(phase := if e.success && job.id !in s.inflight then Pushed(job) else Done(job, false))
  }

  function Sighting(h: History, job: Job): History
    requires job.review.Some?
  {
    h.(seen := h.seen + {Sight(job.id, job.request.target, job.review.value.head)})
  }

  function ReadBackStep(s: State, e: Event): State
    requires e.ReadBack?
  {
    if !s.phase.Pushed? then s
    else
      var job := s.phase.job;
      var seen := job.review.Some? && e.reachable && At(s.remote, job.request.target) == Some(job.review.value.head);
      s.(phase := Done(job, seen), past := if seen then Sighting(s.past, job) else s.past)
  }

  function RecordStep(s: State, e: Event): State
    requires e.Record?
  {
    if !s.phase.Done? then s else WorkCommit(s, RecordEdit(s.memory, s.phase.job.id, s.phase.verified, e.now), e.write)
  }

  // ---------------------------------------------------------------- restart

  /** The integrity checks of `load`. */
  ghost predicate Loadable(m: Store, dirs: Dirs) {
    && |m| <= MAX_JOBS && Stored(m) <= MAX_STORAGE
    && forall k :: k in m ==>
         && m[k].id == k && 0 < m[k].request.bundle.bytes <= MAX_BUNDLE
         && k in dirs && dirs[k] == Some(m[k].request.bundle)
         && if m[k].review.Some? then ReviewMatches(m[k].review.value, m[k].request)
            else m[k].status.Preparing? || m[k].status.Blocked? || m[k].status.Cancelled?
  }

  predicate ReviewMatches(r: Review, request: Submission) {
    r.target == request.target && r.expected == request.expected && r.bundle == request.bundle
  }

  ghost function LoadStep(s: State, e: Event): State
    requires e.Load?
  {
    var next := LoadEdit(s.disk, e.now);
    if !Loadable(s.disk, s.dirs) || e.write.Fails? then s
    else if e.write.Dies? then Saved(s, next)
    else Saved(s, next).(up := true, run := s.run + 1, memory := next, uploads := map[],
                         doomed := s.dirs.Keys - next.Keys,
                         work := [], phase := Idle)
  }

  ghost function WorkerStep(s: State, e: Event): State {
    match e
    case BeginTick(ids) => BeginStep(s, ids)
    case Work(_, _, _, _, _, _) => if s.phase.Idle? && s.work != [] then WorkStep(s, e) else s
    case Prepared(_, _, _, _, _) => PreparedStep(s, e)
    case Recheck(_, _) => RecheckStep(s, e)
    case Push => PushStep(s)
    case Report(_) => ReportStep(s, e)
    case ReadBack(_) => ReadBackStep(s, e)
    case Record(_, _) => RecordStep(s, e)
    case _ => s
  }

  ghost function BrokerStep(s: State, e: Event): State {
    match e
    case MakeDir(_, _, _) => MakeDirStep(s, e)
    case MoveBundle(_, _) => MoveBundleStep(s, e)
    case Submit(_, _, _) => SubmitStep(s, e)
    case RemoveDir(_, _) => RemoveDirStep(s, e)
    case Ask(_, _, _, _) => AskStep(s, e)
    case _ => WorkerStep(s, e)
  }

  /** The server and other writers act at any time, the broker only while it runs. */
  ghost function Step(s: State, e: Event): State {
    if e.Land? then LandStep(s, e.id)
    else if e.Foreign? then s.(remote := if e.oid.Some? then s.remote[e.target := e.oid.value]
                               else s.remote - {e.target})
    else if e.Load? then if s.up then s else LoadStep(s, e)
    else if e.Crash? then Down(s)
    else if s.up then BrokerStep(s, e)
    else s
  }

  function Start(remote: map<Target, Oid>): State {
    State(false, 0, map[], map[], {}, [], Idle, map[], map[], remote, map[], History(map[], map[], {}, {}, [], {}))
  }

  /** A run from any initial state of the remote. */
  ghost function Run(remote: map<Target, Oid>, es: seq<Event>): State {
    if es == [] then Start(remote) else Step(Run(remote, es[..|es| - 1]), es[|es| - 1])
  }

  /** A run is continued. */
  lemma {:induction false} RunAfter(remote: map<Target, Oid>, es: seq<Event>, more: seq<Event>)
    ensures Run(remote, es + more) == After(Step, Run(remote, es), more)
    decreases |more|
  {
    hide Step;
    if more == [] {
      assert es + more == es;
    } else {
      var front, e := more[..|more| - 1], more[|more| - 1];
      RunAfter(remote, es, front);
      assert (es + more)[..|es + more| - 1] == es + front && more == front + [e];
      AfterLast(Step, Run(remote, es), front, e);
    }
  }
}
