/** GraphQL jobs over whole broker runs: requests, the worker, failed writes, crashes and restarts. */
module JobRuns {
  import opened Outcome
  import opened ResultText
  import opened Statuses
  import opened Pruning
  import opened JobStore
  import opened Runs
  import G = Requests
  import Inspection
  import C = Compaction

  const MAX_PAYLOAD: nat := 10 * 1024 * 1024

  // ---------------------------------------------------------------- edits of the store

  datatype Caller = Caller(container: string, instance: nat, session: string)

  predicate Owns(c: Caller, j: Job) {
    j.owner.container == c.container && j.owner.instance == c.instance && j.owner.session == c.session
  }

  /** What a guest or the host asks of one job. */
  datatype Request =
    | Decide(fingerprint: string, approve: bool)
    | Cancel(caller: Caller)
    | Acknowledge(caller: Caller)
    | Delete(caller: Caller)

  predicate Queued(s: Status) { s.Pending? || s.Approved? }

  predicate Finished(s: Status) { !Active(s) }

  /** `Job::set`; the new outcome text changes the size of the record. */
  function Set(j: Job, status: Status, now: int, meta: nat): Job { j.(status := status, updated := now, meta := meta) }

  function RequestEdit(m: Store, id: Id, request: Request, now: int, meta: nat): Option<Store> {
    if id !in m then None
    else
      var j := m[id];
      match request
      case Decide(fingerprint, approve) =>
        if !j.status.Pending? || j.fingerprint != fingerprint || j.expires <= now then None
        else Some(m[id := Set(j, if approve then Approved else Denied, now, meta)])
      case Cancel(caller) =>
        if !Owns(caller, j) || !Queued(j.status) then None else Some(m[id := Set(j, Cancelled, now, meta)])
      case Acknowledge(caller) =>
        if !Owns(caller, j) || !Finished(j.status) || j.status.Unknown? then None
        else if j.acknowledged.Some? then Some(m)
        else Some(m[id := j.(acknowledged := Some(now), meta := meta)])
      case Delete(caller) =>
        if !Owns(caller, j) || !Finished(j.status) then None else Some(m - {id})
  }

  ghost function ActiveOf(m: Store, container: string): set<Id> {
    set k | k in m && Active(m[k].status) && m[k].owner.container == container
  }

  ghost function SubmitEdit(m: Store, job: Job, now: int): Option<Store> {
    if |ActiveIds(m)| >= 32 || |ActiveOf(m, job.owner.container)| >= 8 then None else PrunedJobs(m[job.id := job], now)
  }

  /** The worker gives up a job that expired or whose guest changed. */
  function LapseEdit(m: Store, id: Id, now: int, meta: nat): Store {
    if id in m && Queued(m[id].status)
    then m[id := Set(m[id], if m[id].expires <= now then Expired else Cancelled, now, meta)] else m
  }

  function BlockEdit(m: Store, id: Id, now: int, meta: nat): Store {
    if id in m && m[id].status.Approved? then m[id := Set(m[id], Blocked, now, meta)] else m
  }

  predicate Admits(m: Store, id: Id, now: int) { id in m && m[id].status.Approved? && m[id].expires > now }

  function AdmitEdit(m: Store, id: Id, now: int, meta: nat): Store {
    if Admits(m, id, now) then m[id := Set(m[id], Sending, now, meta)] else m
  }

  /** What comes back from upstream. */
  datatype Reply = NoReply | Incomplete | Complete(bytes: seq<byte>, http: nat, errors: bool)

  function ReplyStatus(r: Reply): Status {
    match r
    case Complete(_, http, errors) =>
      if http >= 400 then UpstreamError else if errors then GraphqlError else ResponseReceived
    case _ => Unknown
  }

  function ReplyResult(r: Reply): Option<string> { if r.Complete? then Some(Lossy(r.bytes)) else None }

  function Answered(j: Job, r: Reply, now: int, meta: nat): Job {
    Set(j, ReplyStatus(r), now, meta).(result := ReplyResult(r))
  }

  function RecordEdit(m: Store, id: Id, r: Reply, now: int, meta: nat): Option<Store> {
    if id in m then Some(m[id := Answered(m[id], r, now, meta)]) else None
  }

  function Restarted(j: Job, now: int, meta: nat): Job {
    if j.status.Sending? then Set(j, Unknown, now, meta)
    else if Queued(j.status) then Set(j, Cancelled, now, meta)
    else j
  }

  function LoadEdit(m: Store, now: int, metas: Id -> nat): Store { map k | k in m :: Restarted(m[k], now, metas(k)) }

  // ---------------------------------------------------------------- the machine

  /** The durable file, the broker's memory, its worker, and a history of what happened. */
  datatype State = State(up: bool, run: nat, memory: Store, disk: Store, work: seq<Job>, phase: Phase,
                         submitted: map<Id, Submission>, grants: set<Grant>, sends: seq<Send>)

  datatype Phase = Idle | Admitted(job: Job) | Awaiting(job: Job)

  datatype Submission = Submission(owner: Owner, body: string, fingerprint: string)
  datatype Grant = Grant(run: nat, id: Id, reason: Reason)
  datatype Reason = ReadOnly | AllowAll | Decided(fingerprint: string)
  datatype Send = Send(run: nat, id: Id, body: string)

  /** Replacing the file fails and changes nothing, succeeds, or is the broker's last act. */
  datatype Write = Fails | Succeeds | Dies

  /** A submission: its owner and label, what is asked, its fingerprint, and the answers of the host: whether the
      fragments could be visited, the allow-all policy, the guest's identity and the one credential. */
  datatype Submittal = Submittal(owner: Owner, key: string, envelope: G.Envelope, fingerprint: string, visited: bool,
                                 allowAll: bool, identity: bool, credential: bool)

  function Body(w: Submittal): string { G.BodyText(w.envelope) }

  /** The characters of Unicode's category Cc. */
  predicate Control(c: char) { c as int < 0x20 || 0x7F <= c as int < 0xA0 }

  /** Text that can be reviewed has no control characters but line ends and tabs. */
  predicate Legible(s: string) {
    forall i :: 0 <= i < |s| ==> Control(s[i]) ==> s[i] == '\n' || s[i] == '\r' || s[i] == '\t'
  }

  /** The checks of `submit` before the store is touched. */
  predicate Accepted(w: Submittal) {
    && w.key != "" && C.Bytes(w.key) <= 128 && w.owner.session != "" && C.Bytes(w.owner.session) <= 256
    && w.envelope.query != "" && C.Bytes(Body(w)) <= MAX_PAYLOAD && w.identity && w.credential && Legible(Body(w))
  }

  /** Classified as a read: the fragments were visited, and the query is one. */
  ghost predicate ReadOnlyQuery(w: Submittal) { w.visited && Inspection.IsRead(G.Decoded(w.envelope)) }

  datatype Event =
    | Submit(id: Id, what: Submittal, now: int, meta: nat, write: Write)
    | Ask(id: Id, request: Request, now: int, meta: nat, write: Write)
    | BeginTick(ids: seq<Id>)
    | Work(now: int, identity: bool, credential: bool, admitted: bool, later: int, meta: nat, write: Write)
    | Transmit
    | Record(reply: Reply, now: int, meta: nat, write: Write)
    | Crash
    | Load(now: int, metas: Id -> nat, write: Write)

  function Down(s: State): State { s.(up := false, memory := map[], work := [], phase := Idle) }

  ghost predicate Commits(next: Option<Store>, w: Write) { next.Some? && Fits(next.value) && w.Succeeds? }

  /** `transaction`: memory changes only after the file has. */
  ghost function Commit(s: State, next: Option<Store>, w: Write): State {
    if next.None? || !Fits(next.value) || w.Fails? then s
    else if w.Dies? then Down(s.(disk := next.value))
    else s.(memory := next.value, disk := next.value)
  }

  function JobOf(id: Id, w: Submittal, approved: bool, now: int, meta: nat): Job {
    Job(id, w.owner, Body(w), w.fingerprint, if approved then Approved else Pending, now, now + REVIEW_TIME, None, None,
        meta)
  }

  ghost function NewJob(e: Event): Job
    requires e.Submit?
  {
    JobOf(e.id, e.what, ReadOnlyQuery(e.what) || e.what.allowAll, e.now, e.meta)
  }

  ghost function SubmitGrants(s: State, e: Event): set<Grant>
    requires e.Submit?
  {
    if ReadOnlyQuery(e.what) then {Grant(s.run, e.id, ReadOnly)}
    else if e.what.allowAll then {Grant(s.run, e.id, AllowAll)} else {}
  }

  function Submitted(w: Submittal): Submission { Submission(w.owner, Body(w), w.fingerprint) }

  ghost function Registered(s: State, e: Event): State
    requires e.Submit?
  {
    s.(submitted := s.submitted[e.id := Submitted(e.what)], grants := s.grants + SubmitGrants(s, e))
  }

  /** Ids are never reissued. */
  ghost function SubmitStep(s: State, e: Event): State
    requires e.Submit?
  {
    if e.id in s.submitted || !Accepted(e.what) then s
    else Commit(Registered(s, e), SubmitEdit(s.memory, NewJob(e), e.now), e.write)
  }

  ghost function AskStep(s: State, e: Event): State
    requires e.Ask?
  {
    var next := RequestEdit(s.memory, e.id, e.request, e.now, e.meta);
    var logged := if e.request.Decide? && e.request.approve && next.Some?
                  then s.(grants := s.grants + {Grant(s.run, e.id, Decided(e.request.fingerprint))}) else s;
    Commit(logged, next, e.write)
  }

  ghost predicate IsQueue(m: Store, ids: seq<Id>) {
    && (forall i :: 0 <= i < |ids| ==> ids[i] in m && Queued(m[ids[i]].status))
    && (forall k :: k in m && Queued(m[k].status) ==> k in ids)
  }

  /** The worker looks at copies of the queued jobs, one after the other. */
  ghost function BeginStep(s: State, ids: seq<Id>): State {
    if s.phase.Idle? && s.work == [] && IsQueue(s.memory, ids)
    then s.(work := Copies(s.memory, ids)) else s
  }

  function Copies(m: Store, ids: seq<Id>): seq<Job>
    requires forall i :: 0 <= i < |ids| ==> ids[i] in m
  {
    seq(|ids|, i requires 0 <= i < |ids| => m[ids[i]])
  }

  /** A failed transaction ends the tick. */
  ghost function WorkCommit(s: State, next: Store, w: Write): State
    requires s.work != []
  {
    Commit(s.(work := if Commits(Some(next), w) then s.work[1..] else []), Some(next), w)
  }

  ghost function WorkStep(s: State, e: Event): State
    requires e.Work? && s.work != []
  {
    var job := s.work[0];
    if job.expires <= e.now || !e.identity then WorkCommit(s, LapseEdit(s.memory, job.id, e.later, e.meta), e.write)
    else if !job.status.Approved? then s.(work := s.work[1..])
    else if !e.credential then WorkCommit(s, BlockEdit(s.memory, job.id, e.later, e.meta), e.write)
    else if !e.admitted then s.(work := s.work[1..])
    else
      var next := AdmitEdit(s.memory, job.id, e.later, e.meta);
      var after := WorkCommit(s, next, e.write);
      if Admits(s.memory, job.id, e.later) && Commits(Some(next), e.write) then after.(phase := Admitted(job))
        else after
  }

  ghost function TransmitStep(s: State): State {
    if s.phase.Admitted?
    then s.(phase := Awaiting(s.phase.job), sends := s.sends + [Send(s.run, s.phase.job.id, s.phase.job.body)]) else s
  }

  ghost function RecordStep(s: State, e: Event): State
    requires e.Record?
  {
    if !s.phase.Awaiting? then s
    else
      var next := RecordEdit(s.memory, s.phase.job.id, e.reply, e.now, e.meta);
      Commit(s.(phase := Idle, work := if Commits(next, e.write) then s.work else []), next, e.write)
  }

  ghost predicate Loadable(m: Store) { Size(m) <= MAX_STORAGE && |m| <= MAX_JOBS }

  ghost function LoadStep(s: State, e: Event): State
    requires e.Load?
  {
    var next := LoadEdit(s.disk, e.now, e.metas);
    if !Loadable(s.disk) || !Fits(next) || e.write.Fails? then s
    else if e.write.Dies? then s.(disk := next)
    else s.(up := true, run := s.run + 1, memory := next, disk := next)
  }

  ghost function Step(s: State, e: Event): State {
    if !s.up then if e.Load? then LoadStep(s, e) else s
    else match e
      case Submit(_, _, _, _, _) => SubmitStep(s, e)
      case Ask(_, _, _, _, _) => AskStep(s, e)
      case BeginTick(ids) => BeginStep(s, ids)
      case Work(_, _, _, _, _, _, _) => if s.phase.Idle? && s.work != [] then WorkStep(s, e) else s
      case Transmit => TransmitStep(s)
      case Record(_, _, _, _) => RecordStep(s, e)
      case Crash => Down(s)
      case Load(_, _, _) => s
  }

  const START: State := State(false, 0, map[], map[], [], Idle, map[], {}, [])

  ghost function Run(es: seq<Event>): State {
    if es == [] then START else Step(Run(es[..|es| - 1]), es[|es| - 1])
  }

  /** A run is continued. */
  lemma {:induction false} RunAfter(es: seq<Event>, more: seq<Event>)
    ensures Run(es + more) == After(Step, Run(es), more)
    decreases |more|
  {
    hide Step;
    if more == [] {
      assert es + more == es;
    } else {
      var front, e := more[..|more| - 1], more[|more| - 1];
      RunAfter(es, front);
      assert (es + more)[..|es + more| - 1] == es + front && more == front + [e];
      AfterLast(Step, Run(es), front, e);
    }
  }

  // ---------------------------------------------------------------- the invariant

  predicate Faithful(j: Job, sub: map<Id, Submission>) {
    j.id in sub && sub[j.id] == Submission(j.owner, j.body, j.fingerprint)
  }

  ghost predicate Unsent(sends: seq<Send>, id: Id) { forall i :: 0 <= i < |sends| ==> sends[i].id != id }

  predicate Justifies(g: Grant, run: nat, id: Id, fingerprint: string) {
    g.run == run && g.id == id && (g.reason.Decided? ==> g.reason.fingerprint == fingerprint)
  }

  ghost predicate Granted(grants: set<Grant>, run: nat, id: Id, fingerprint: string) {
    exists g :: g in grants && Justifies(g, run, id, fingerprint)
  }

  /** What every committed store satisfies. */
  ghost predicate StoreOk(m: Store, sub: map<Id, Submission>, sends: seq<Send>) {
    && Within(m)
    && (forall k :: k in m ==> m[k].id == k && Faithful(m[k], sub))
    && (forall k :: k in m && Queued(m[k].status) ==> Unsent(sends, k))
  }

  ghost predicate ApprovedOk(m: Store, run: nat, grants: set<Grant>) {
    forall k :: k in m && m[k].status.Approved? ==> Granted(grants, run, k, m[k].fingerprint)
  }

  ghost predicate PhaseOk(p: Phase, m: Store, s: State) {
    match p
    case Idle => true
    case Admitted(job) =>
      job.id in m && m[job.id].status.Sending? && Faithful(job, s.submitted) && Unsent(s.sends, job.id)
      && Granted(s.grants, s.run, job.id, job.fingerprint)
    case Awaiting(job) => job.id in m && m[job.id].status.Sending?
  }

  ghost predicate SendsOk(s: State) {
    && (forall i, j :: 0 <= i < j < |s.sends| ==> s.sends[i].id != s.sends[j].id)
    && (forall i :: 0 <= i < |s.sends| ==> SendOk(s.sends[i], s))
  }

  ghost predicate SendOk(send: Send, s: State) {
    && send.id in s.submitted && s.submitted[send.id].body == send.body
    && Granted(s.grants, send.run, send.id, s.submitted[send.id].fingerprint)
  }

  ghost predicate Inv(s: State) {
    && StoreOk(s.disk, s.submitted, s.sends) && SendsOk(s)
    && (!s.up ==> s.work == [] && s.phase.Idle?)
    && (s.up ==> s.memory == s.disk && ApprovedOk(s.memory, s.run, s.grants) && PhaseOk(s.phase, s.memory, s))
    && (forall i :: 0 <= i < |s.work| ==> Faithful(s.work[i], s.submitted))
  }

  // ---------------------------------------------------------------- every step keeps it

  /** A store that may replace the current one. */
  ghost predicate Legal(s: State, m: Store) {
    && |m| <= MAX_JOBS
    && (forall k :: k in m ==> m[k].id == k && Faithful(m[k], s.submitted))
    && (forall k :: k in m && Queued(m[k].status) ==> Unsent(s.sends, k))
    && ApprovedOk(m, s.run, s.grants) && PhaseOk(s.phase, m, s)
  }

  lemma {:induction false} CommitKeeps(s: State, next: Option<Store>, w: Write)
    requires Inv(s) && s.up && (next.Some? ==> Legal(s, next.value))
    ensures Inv(Commit(s, next, w))
  {
  }

  /** Replacing one job by a later version of itself is legal. */
  lemma {:induction false} ReplaceIsLegal(s: State, id: Id, j: Job)
    requires Inv(s) && s.up && id in s.memory && Faithful(j, s.submitted) && j.id == id
    requires Queued(j.status) ==> Queued(s.memory[id].status)
    requires j.status.Approved? ==> Granted(s.grants, s.run, id, j.fingerprint)
    requires !s.phase.Idle? && s.phase.job.id == id ==> j.status.Sending?
    ensures Legal(s, s.memory[id := j])
  {
    assert s.memory[id := j].Keys == s.memory.Keys;
    assert |s.memory[id := j]| == |s.memory[id := j].Keys| && |s.memory| == |s.memory.Keys|;
  }

  lemma {:induction false} FewerIsLegal(s: State, m: Store)
    requires Inv(s) && s.up && m.Keys <= s.memory.Keys && forall k :: k in m ==> m[k] == s.memory[k]
    requires forall k :: k in s.memory && k !in m ==> Finished(s.memory[k].status)
    ensures Legal(s, m)
  {
    SubsetSize(m.Keys, s.memory.Keys);
    assert |m| == |m.Keys| && |s.memory| == |s.memory.Keys|;
  }

  lemma {:induction false} GrantsOnlyGrow(s: State, more: set<Grant>)
    requires Inv(s)
    ensures Inv(s.(grants := s.grants + more))
  {
    var t := s.(grants := s.grants + more);
    forall run, id, fp | Granted(s.grants, run, id, fp) ensures Granted(t.grants, run, id, fp) {
      var g :| g in s.grants && Justifies(g, run, id, fp);
      assert g in t.grants;
    }
    forall i | 0 <= i < |s.sends| ensures SendOk(t.sends[i], t) { assert SendOk(s.sends[i], s); }
  }

  lemma {:induction false} SubmissionsOnlyGrow(s: State, id: Id, sub: Submission)
    requires Inv(s) && id !in s.submitted
    ensures Inv(s.(submitted := s.submitted[id := sub]))
  {
    var t := s.(submitted := s.submitted[id := sub]);
    forall i | 0 <= i < |s.sends| ensures SendOk(t.sends[i], t) { assert SendOk(s.sends[i], s); }
  }

  lemma {:induction false} FreshId(s: State, id: Id)
    requires Inv(s) && id !in s.submitted
    ensures id !in s.disk && Unsent(s.sends, id)
  {
    forall i | 0 <= i < |s.sends| ensures s.sends[i].id != id { assert SendOk(s.sends[i], s); }
  }

  /** Adding a new job, and removing finished ones, is legal. */
  lemma {:induction false} AddIsLegal(s: State, j: Job, m: Store)
    requires Inv(s) && s.up && j.id !in s.memory && |m| <= MAX_JOBS
    requires Faithful(j, s.submitted) && Unsent(s.sends, j.id)
    requires j.status.Approved? ==> Granted(s.grants, s.run, j.id, j.fingerprint)
    requires forall k :: k in m ==> (k == j.id && m[k] == j) || (k in s.memory && m[k] == s.memory[k])
    requires forall k :: k in s.memory && Active(s.memory[k].status) ==> k in m
    ensures Legal(s, m)
  {
  }

  lemma {:induction false} SubmitAdds(m: Store, j: Job, now: int)
    requires SubmitEdit(m, j, now).Some? && j.id !in m
    ensures var r := SubmitEdit(m, j, now).value;
      && |r| <= MAX_JOBS && (forall k :: k in r ==> (k == j.id && r[k] == j) || (k in m && r[k] == m[k]))
      && (forall k :: k in m && k !in r ==> Removable(m[k], now))
  {
    PrunedJobsKeep(m[j.id := j], now);
    AddedExcept(m, j, SubmitEdit(m, j, now).value, now);
  }

  lemma {:induction false} AddedExcept(m: Store, j: Job, r: Store, now: int)
    requires j.id !in m && forall k :: k in r ==> k in m[j.id := j] && r[k] == m[j.id := j][k]
    requires forall k :: k in m[j.id := j] && k !in r ==> Removable(m[j.id := j][k], now)
    ensures forall k :: k in r ==> (k == j.id && r[k] == j) || (k in m && r[k] == m[k])
    ensures forall k :: k in m && k !in r ==> Removable(m[k], now)
  {
    forall k | k in m && k !in r ensures Removable(m[k], now) { assert m[j.id := j][k] == m[k]; }
  }

  lemma {:induction false} SubmitIsLegal(s: State, j: Job, now: int)
    requires Inv(s) && s.up && SubmitEdit(s.memory, j, now).Some? && j.id !in s.memory
    requires Faithful(j, s.submitted) && Unsent(s.sends, j.id)
    requires j.status.Approved? ==> Granted(s.grants, s.run, j.id, j.fingerprint)
    ensures Legal(s, SubmitEdit(s.memory, j, now).value)
  {
    SubmitAdds(s.memory, j, now);
    AddIsLegal(s, j, SubmitEdit(s.memory, j, now).value);
  }

  lemma {:induction false} SubmitKeeps(s: State, e: Event)
    requires Inv(s) && s.up && e.Submit?
    ensures Inv(SubmitStep(s, e))
  {
    hide StoreOk;
    if e.id !in s.submitted && Accepted(e.what) {
      hide Accepted, Body, ReadOnlyQuery, Inv;
      var j, sub, given := NewJob(e), Submitted(e.what), SubmitGrants(s, e);
      FreshId(s, e.id);
      SubmissionsOnlyGrow(s, e.id, sub);
      var mid := s.(submitted := s.submitted[e.id := sub]);
      GrantsOnlyGrow(mid, given);
      var t := mid.(grants := s.grants + given);
      var next := SubmitEdit(s.memory, j, e.now);
      if next.Some? {
        if j.status.Approved? {
          var g := Grant(s.run, e.id, if ReadOnlyQuery(e.what) then ReadOnly else AllowAll);
          assert g in t.grants && Justifies(g, t.run, j.id, j.fingerprint);
        }
        SubmitIsLegal(t, j, e.now);
      }
      CommitKeeps(t, next, e.write);
    }
  }

  lemma {:induction false} AskKeeps(s: State, e: Event)
    requires Inv(s) && s.up && e.Ask?
    ensures Inv(AskStep(s, e))
  {
    var next := RequestEdit(s.memory, e.id, e.request, e.now, e.meta);
    if next.Some? {
      match e.request
      case Decide(fp, approve) =>
        var g := Grant(s.run, e.id, Decided(fp));
        var t := if approve then s.(grants := s.grants + {g}) else s;
        if approve {
          GrantsOnlyGrow(s, {g});
          assert Justifies(g, s.run, e.id, fp);
        }
        ReplaceIsLegal(t, e.id, Set(s.memory[e.id], if approve then Approved else Denied, e.now, e.meta));
        CommitKeeps(t, next, e.write);
      case Cancel(_) =>
        ReplaceIsLegal(s, e.id, Set(s.memory[e.id], Cancelled, e.now, e.meta));
        CommitKeeps(s, next, e.write);
      case Acknowledge(_) =>
        if s.memory[e.id].acknowledged.None? {
          ReplaceIsLegal(s, e.id, s.memory[e.id].(acknowledged := Some(e.now), meta := e.meta));
        }
        CommitKeeps(s, next, e.write);
      case Delete(_) =>
        FewerIsLegal(s, next.value);
        CommitKeeps(s, next, e.write);
    }
  }

  lemma {:induction false} WorkCommitKeeps(s: State, next: Store, w: Write)
    requires Inv(s) && s.up && s.work != [] && Legal(s, next)
    ensures Inv(WorkCommit(s, next, w))
  {
    var t := s.(work := if Commits(Some(next), w) then s.work[1..] else []);
    CommitKeeps(t, Some(next), w);
  }

  lemma {:induction false} WorkKeeps(s: State, e: Event)
    requires Inv(s) && s.up && e.Work? && s.phase.Idle? && s.work != []
    ensures Inv(WorkStep(s, e))
  {
    var job, m := s.work[0], s.memory;
    FewerIsLegal(s, m);
    if job.expires <= e.now || !e.identity {
      if job.id in m && Queued(m[job.id].status) {
        ReplaceIsLegal(s, job.id, Set(m[job.id], if m[job.id].expires <= e.later then Expired else Cancelled, e.later,
                                      e.meta));
      }
      WorkCommitKeeps(s, LapseEdit(m, job.id, e.later, e.meta), e.write);
    } else if job.status.Approved? && !e.credential {
      if job.id in m && m[job.id].status.Approved? {
        ReplaceIsLegal(s, job.id, Set(m[job.id], Blocked, e.later, e.meta));
      }
      WorkCommitKeeps(s, BlockEdit(m, job.id, e.later, e.meta), e.write);
    } else if job.status.Approved? && e.admitted {
      AdmitKeeps(s, e);
    }
  }

  lemma {:induction false} AdmitKeeps(s: State, e: Event)
    requires Inv(s) && s.up && e.Work? && s.phase.Idle? && s.work != []
    ensures var next := AdmitEdit(s.memory, s.work[0].id, e.later, e.meta);
      var after := WorkCommit(s, next, e.write);
      Inv(after) && (Admits(s.memory, s.work[0].id, e.later) && Commits(Some(next), e.write)
                     ==> Inv(after.(phase := Admitted(s.work[0]))))
  {
    hide Payload, ActiveIds, Usage, Within;
    var job, m := s.work[0], s.memory;
    if Admits(m, job.id, e.later) {
      ReplaceIsLegal(s, job.id, Set(m[job.id], Sending, e.later, e.meta));
      assert Granted(s.grants, s.run, job.id, m[job.id].fingerprint);
    } else {
      FewerIsLegal(s, m);
    }
    WorkCommitKeeps(s, AdmitEdit(m, job.id, e.later, e.meta), e.write);
  }

  lemma {:induction false} TransmitKeeps(s: State)
    requires Inv(s) && s.up
    ensures Inv(TransmitStep(s))
  {
    if s.phase.Admitted? {
      var job, t := s.phase.job, TransmitStep(s);
      forall i | 0 <= i < |t.sends| ensures SendOk(t.sends[i], t) {
        assert i < |s.sends| ==> SendOk(s.sends[i], s);
      }
      assert forall k :: k in s.disk && Queued(s.disk[k].status) ==> k != job.id;
    }
  }

  lemma {:induction false} RecordKeeps(s: State, e: Event)
    requires Inv(s) && s.up && e.Record?
    ensures Inv(RecordStep(s, e))
  {
    if s.phase.Awaiting? {
      var id := s.phase.job.id;
      var next := RecordEdit(s.memory, id, e.reply, e.now, e.meta);
      var t := s.(phase := Idle, work := if Commits(next, e.write) then s.work else []);
      ReplaceIsLegal(t, id, Answered(s.memory[id], e.reply, e.now, e.meta));
      CommitKeeps(t, next, e.write);
    }
  }

  lemma {:induction false} LoadedIsOk(m: Store, now: int, metas: Id -> nat, sub: map<Id, Submission>, sends: seq<Send>)
    requires StoreOk(m, sub, sends) && Fits(LoadEdit(m, now, metas))
    ensures StoreOk(LoadEdit(m, now, metas), sub, sends)
    ensures forall k :: k in LoadEdit(m, now, metas) ==> Finished(LoadEdit(m, now, metas)[k].status)
  {
    hide ActiveIds, Size;
    var next := LoadEdit(m, now, metas);
    assert next.Keys == m.Keys;
    assert |next| == |next.Keys| && |m| == |m.Keys|;
  }

  lemma {:induction false} LoadKeeps(s: State, e: Event)
    requires Inv(s) && !s.up && e.Load?
    ensures Inv(LoadStep(s, e))
  {
    hide JobSize, Payload, ActiveIds, Size;
    if Fits(LoadEdit(s.disk, e.now, e.metas)) { LoadedIsOk(s.disk, e.now, e.metas, s.submitted, s.sends); }
    var t := LoadStep(s, e);
    forall i | 0 <= i < |s.sends| ensures SendOk(t.sends[i], t) { assert SendOk(s.sends[i], s); }
  }

  lemma {:induction false} BeginKeeps(s: State, ids: seq<Id>)
    requires Inv(s) && s.up
    ensures Inv(BeginStep(s, ids))
  {
  }

  lemma {:induction false} StepKeeps(s: State, e: Event)
    requires Inv(s)
    ensures Inv(Step(s, e))
  {
    hide ReadOnlyQuery, Restarted;
    if !s.up {
      if e.Load? { LoadKeeps(s, e); }
    } else {
      match e
      case Submit(_, _, _, _, _) => SubmitKeeps(s, e);
      case Ask(_, _, _, _, _) => AskKeeps(s, e);
      case BeginTick(ids) => BeginKeeps(s, ids);
      case Work(_, _, _, _, _, _, _) => if s.phase.Idle? && s.work != [] { WorkKeeps(s, e); }
      case Transmit => TransmitKeeps(s);
      case Record(_, _, _, _) => RecordKeeps(s, e);
      case Crash =>
      case Load(_, _, _) =>
    }
  }

  lemma {:induction false} RunKeeps(es: seq<Event>)
    ensures Inv(Run(es))
  {
    hide ReadOnlyQuery;
    if es != [] {
      RunKeeps(es[..|es| - 1]);
      StepKeeps(Run(es[..|es| - 1]), es[|es| - 1]);
    } else {
      assert ActiveIds(map[]) == {};
    }
  }
}
