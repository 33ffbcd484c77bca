/** What holds of GraphQL jobs in every run of the broker. */
module JobSafety {
  import opened Outcome
  import opened ResultText
  import opened Statuses
  import opened Pruning
  import opened JobStore
  import opened JobRuns
  import G = Requests
  import Inspection

  // ---------------------------------------------------------------- sending

  /** No job is sent twice, across any number of crashes and restarts. */
  lemma {:induction false} SentAtMostOnce(es: seq<Event>, i: nat, j: nat)
    requires i < j < |Run(es).sends|
    ensures Run(es).sends[i].id != Run(es).sends[j].id
  {
    hide ReadOnlyQuery;
    RunKeeps(es);
  }

  /** Whatever is sent is one submitted job, unchanged, whose durable record already says Sending. */
  lemma {:induction false} SendIsDurable(es: seq<Event>, e: Event)
    requires Step(Run(es), e).sends != Run(es).sends
    ensures var s, t := Run(es), Step(Run(es), e);
      && |t.sends| == |s.sends| + 1 && t.sends[..|s.sends|] == s.sends
      && var x := t.sends[|s.sends|];
      && x.run == s.run && Unsent(s.sends, x.id)
      && x.id in s.disk && s.disk[x.id].status.Sending? && s.disk[x.id].body == x.body && t.disk == s.disk
      && x.id in s.submitted && s.submitted[x.id].body == x.body
  {
    hide ReadOnlyQuery;
    RunKeeps(es);
    var s := Run(es);
    OnlyTransmitSends(s, e);
    assert Faithful(s.disk[s.phase.job.id], s.submitted);
  }

  lemma {:induction false} CommitHistory(s: State, next: Option<Store>, w: Write)
    ensures var t := Commit(s, next, w); t.submitted == s.submitted && t.grants == s.grants && t.sends == s.sends
  {
  }

  lemma {:induction false} WorkHistory(s: State, e: Event)
    requires e.Work? && s.work != []
    ensures var t := WorkStep(s, e); t.submitted == s.submitted && t.grants == s.grants && t.sends == s.sends
  {
    var job := s.work[0];
    WorkCommitHistory(s, LapseEdit(s.memory, job.id, e.later, e.meta), e.write);
    WorkCommitHistory(s, BlockEdit(s.memory, job.id, e.later, e.meta), e.write);
    WorkCommitHistory(s, AdmitEdit(s.memory, job.id, e.later, e.meta), e.write);
  }

  lemma {:induction false} WorkCommitHistory(s: State, next: Store, w: Write)
    requires s.work != []
    ensures var t := WorkCommit(s, next, w); t.submitted == s.submitted && t.grants == s.grants && t.sends == s.sends
  {
  }

  lemma {:induction false} RequestsSendNothing(s: State, e: Event)
    ensures e.Submit? ==> SubmitStep(s, e).sends == s.sends
    ensures e.Ask? ==> AskStep(s, e).sends == s.sends
    ensures e.Record? ==> RecordStep(s, e).sends == s.sends
  {
    hide Commit, SubmitEdit, RequestEdit, RecordEdit, Accepted;
    forall t, next, w ensures Commit(t, next, w).sends == t.sends { CommitHistory(t, next, w); }
  }

  lemma {:induction false} OnlyTransmitSends(s: State, e: Event)
    ensures Step(s, e).sends == s.sends || (s.up && e.Transmit? && s.phase.Admitted?)
  {
    hide SubmitStep, AskStep, RecordStep, LoadEdit, Loadable, WorkStep, IsQueue, Copies;
    RequestsSendNothing(s, e);
    if s.up && e.Work? && s.work != [] { WorkHistory(s, e); }
  }

  /** A new submission that passes the checks. */
  ghost predicate Admissible(s: State, e: Event) { e.Submit? && e.id !in s.submitted && Accepted(e.what) }

  /** The event that allowed a job, and the run in which it did. */
  ghost predicate Issued(s: State, e: Event, g: Grant) {
    && s.up && s.run == g.run
    && match g.reason
       case ReadOnly => Admissible(s, e) && e.id == g.id && ReadOnlyQuery(e.what)
       case AllowAll => Admissible(s, e) && e.id == g.id && e.what.allowAll
       case Decided(fp) =>
         && e.Ask? && e.id == g.id && e.request == Decide(fp, true)
         && e.id in s.memory && s.memory[e.id].status.Pending? && s.memory[e.id].fingerprint == fp
         && s.memory[e.id].expires > e.now
  }

  lemma {:induction false} NewGrantIsIssued(s: State, e: Event, g: Grant)
    requires g in Step(s, e).grants && g !in s.grants
    ensures Issued(s, e, g)
  {
    assert s.up || Step(s, e).grants == s.grants;
    if e.Ask? {
      NewDecisionIsIssued(s, e, g);
    } else if e.Submit? {
      NewSubmissionIsIssued(s, e, g);
    } else if e.Work? {
      if s.phase.Idle? && s.work != [] { WorkHistory(s, e); }
    }
  }

  lemma {:induction false} NewSubmissionIsIssued(s: State, e: Event, g: Grant)
    requires s.up && e.Submit? && g in SubmitStep(s, e).grants && g !in s.grants
    ensures Issued(s, e, g)
  {
    hide ReadOnlyQuery;
    var next := SubmitEdit(s.memory, NewJob(e), e.now);
    CommitHistory(Registered(s, e), next, e.write);
    assert g in Registered(s, e).grants;
  }

  lemma {:induction false} NewDecisionIsIssued(s: State, e: Event, g: Grant)
    requires s.up && e.Ask? && g in AskStep(s, e).grants && g !in s.grants
    ensures Issued(s, e, g)
  {
    hide Usage, ReadOnlyQuery;
    var next := RequestEdit(s.memory, e.id, e.request, e.now, e.meta);
    CommitHistory(s, next, e.write);
    CommitHistory(s.(grants := AskStep(s, e).grants), next, e.write);
  }

  lemma {:induction false} GrantHasEvent(es: seq<Event>, g: Grant) returns (n: nat)
    requires g in Run(es).grants
    ensures n < |es| && Issued(Run(es[..n]), es[n], g)
  {
    var last := |es| - 1;
    if g in Run(es[..last]).grants {
      n := GrantHasEvent(es[..last], g);
      assert es[..last][..n] == es[..n];
    } else {
      NewGrantIsIssued(Run(es[..last]), es[last], g);
      n := last;
    }
  }

  // ---------------------------------------------------------------- the life of a job

  predicate Follows(a: Status, b: Status) {
    || a == b
    || (a.Pending? && (b.Approved? || b.Denied? || b.Expired? || b.Cancelled?))
    || (a.Approved? && (b.Sending? || b.Expired? || b.Cancelled? || b.Blocked?))
    || (a.Sending? && (b.Unknown? || b.UpstreamError? || b.GraphqlError? || b.ResponseReceived?))
  }

  predicate SameWork(a: Job, b: Job) {
    a.id == b.id && a.owner == b.owner && a.body == b.body && a.fingerprint == b.fingerprint && a.expires == b.expires
  }

  /** One job across one step: it keeps its work and moves along the life cycle, or is removed when finished. */
  ghost predicate LivesOn(s: State, e: Event, m: Store, id: Id)
    requires id in s.disk
  {
    if id in m then
      && SameWork(s.disk[id], m[id]) && Follows(s.disk[id].status, m[id].status)
      && (s.disk[id].status.Sending? && !m[id].status.Sending? ==> OutcomeKnown(s, e, id, m[id].status))
    else
      (e.Ask? && e.id == id && e.request.Delete? && Finished(s.disk[id].status))
        || (e.Submit? && Removable(s.disk[id], e.now))
  }

  /** Sending ends when the reply to that very send is recorded, or at a restart. */
  ghost predicate OutcomeKnown(s: State, e: Event, id: Id, status: Status) {
    || (e.Record? && s.up && s.phase.Awaiting? && s.phase.job.id == id && status == ReplyStatus(e.reply))
    || (e.Load? && !s.up && status.Unknown?)
  }

  /** The stores that a step can commit. */
  ghost predicate NewDisk(s: State, e: Event, m: Store) {
    match e
    case Submit(_, _, _, _, _) => s.up && Admissible(s, e) && SubmitEdit(s.memory, NewJob(e), e.now) == Some(m)
    case Ask(_, _, _, _, _) => s.up && RequestEdit(s.memory, e.id, e.request, e.now, e.meta) == Some(m)
    case Work(_, _, _, _, _, _, _) => s.up && s.work != [] && WorkEdit(s.memory, s.work[0].id, e.later, e.meta, m)
    case Record(_, _, _, _) =>
      s.up && s.phase.Awaiting? && RecordEdit(s.memory, s.phase.job.id, e.reply, e.now, e.meta) == Some(m)
    case Load(_, _, _) => !s.up && m == LoadEdit(s.disk, e.now, e.metas)
    case _ => false
  }

  predicate WorkEdit(m: Store, id: Id, now: int, meta: nat, next: Store) {
    next == LapseEdit(m, id, now, meta) || next == BlockEdit(m, id, now, meta) || next == AdmitEdit(m, id, now, meta)
  }

  lemma {:induction false} CommitDisk(s: State, next: Option<Store>, w: Write)
    ensures Commit(s, next, w).disk == s.disk || next == Some(Commit(s, next, w).disk)
  {
  }

  lemma {:induction false} WorkDisk(s: State, e: Event)
    requires s.up && e.Work? && s.work != []
    ensures WorkStep(s, e).disk == s.disk || WorkEdit(s.memory, s.work[0].id, e.later, e.meta, WorkStep(s, e).disk)
  {
    var job := s.work[0];
    WorkCommitDisk(s, LapseEdit(s.memory, job.id, e.later, e.meta), e.write);
    WorkCommitDisk(s, BlockEdit(s.memory, job.id, e.later, e.meta), e.write);
    WorkCommitDisk(s, AdmitEdit(s.memory, job.id, e.later, e.meta), e.write);
  }

  lemma {:induction false} WorkCommitDisk(s: State, next: Store, w: Write)
    requires s.work != []
    ensures WorkCommit(s, next, w).disk == s.disk || WorkCommit(s, next, w).disk == next
  {
  }

  lemma {:induction false} SubmitDisk(s: State, e: Event)
    requires s.up && e.Submit?
    ensures SubmitStep(s, e).disk == s.disk || NewDisk(s, e, SubmitStep(s, e).disk)
  {
    hide Body, ReadOnlyQuery;
    if Admissible(s, e) {
      CommitDisk(Registered(s, e), SubmitEdit(s.memory, NewJob(e), e.now), e.write);
    }
  }

  lemma {:induction false} StepDisk(s: State, e: Event)
    ensures Step(s, e).disk == s.disk || NewDisk(s, e, Step(s, e).disk)
  {
    hide SubmitStep, WorkStep, SubmitEdit, RequestEdit, RecordEdit, LoadEdit, Loadable, Fits, Set;
    if s.up {
      match e
      case Submit(_, _, _, _, _) => SubmitDisk(s, e);
      case Work(_, _, _, _, _, _, _) => if s.phase.Idle? && s.work != [] { WorkDisk(s, e); }
      case _ =>
    }
  }

  lemma {:induction false} SubmitLivesOn(s: State, e: Event, m: Store, id: Id)
    requires Inv(s) && s.up && e.Submit? && NewDisk(s, e, m)
    ensures id in s.disk ==> LivesOn(s, e, m, id)
    ensures id in s.submitted && id !in s.disk ==> id !in m
  {
    hide Body, ReadOnlyQuery;
    FreshId(s, e.id);
    SubmitAdds(s.memory, NewJob(e), e.now);
  }

  lemma {:induction false} AskLivesOn(s: State, e: Event, m: Store, id: Id)
    requires Inv(s) && s.up && e.Ask? && NewDisk(s, e, m)
    ensures id in s.disk ==> LivesOn(s, e, m, id)
    ensures id !in s.disk ==> id !in m
  {
    hide Among, ReadOnlyQuery, Within;
  }

  lemma {:induction false} WorkLivesOn(s: State, e: Event, m: Store, id: Id)
    requires Inv(s) && s.up && e.Work? && NewDisk(s, e, m)
    ensures id in s.disk ==> LivesOn(s, e, m, id)
    ensures id !in s.disk ==> id !in m
  {
    hide Among, Usage, ReadOnlyQuery, Within;
  }

  lemma {:induction false} RecordLivesOn(s: State, e: Event, m: Store, id: Id)
    requires Inv(s) && s.up && e.Record? && NewDisk(s, e, m)
    ensures id in s.disk ==> LivesOn(s, e, m, id)
    ensures id !in s.disk ==> id !in m
  {
    hide Usage, ReadOnlyQuery;
  }

  lemma {:induction false} LoadLivesOn(s: State, e: Event, m: Store, id: Id)
    requires Inv(s) && e.Load? && NewDisk(s, e, m)
    ensures id in s.disk ==> LivesOn(s, e, m, id)
    ensures id !in s.disk ==> id !in m
  {
    hide Among, ReadOnlyQuery;
  }

  /** Every step of every run keeps each job's work and its place in the life cycle; ids never come back. */
  lemma {:induction false} StepLivesOn(s: State, e: Event, id: Id)
    requires Inv(s)
    ensures id in s.disk ==> LivesOn(s, e, Step(s, e).disk, id)
    ensures id in s.submitted && id !in s.disk ==> id !in Step(s, e).disk
  {
    hide Step, SubmitEdit, RequestEdit, RecordEdit, LoadEdit, OutcomeKnown, Inv;
    StepDisk(s, e);
    var m := Step(s, e).disk;
    if m != s.disk {
      match e
      case Submit(_, _, _, _, _) => SubmitLivesOn(s, e, m, id);
      case Ask(_, _, _, _, _) => AskLivesOn(s, e, m, id);
      case Work(_, _, _, _, _, _, _) => WorkLivesOn(s, e, m, id);
      case Record(_, _, _, _) => RecordLivesOn(s, e, m, id);
      case Load(_, _, _) => LoadLivesOn(s, e, m, id);
    }
  }

  lemma {:induction false} SubmissionAdded(s: State, e: Event)
    requires e.Submit?
    ensures SubmitStep(s, e).submitted == if Admissible(s, e) then Registered(s, e).submitted else s.submitted
  {
    CommitHistory(Registered(s, e), SubmitEdit(s.memory, NewJob(e), e.now), e.write);
  }

  lemma {:induction false} SubmissionsLast(s: State, e: Event, id: Id)
    requires id in s.submitted
    ensures id in Step(s, e).submitted && Step(s, e).submitted[id] == s.submitted[id]
  {
    hide ReadOnlyQuery, Set;
    if s.up && e.Work? && s.work != [] { WorkHistory(s, e); }
    if s.up && e.Submit? { SubmissionAdded(s, e); }
  }

  ghost predicate Over(s: State, id: Id) { id in s.submitted && (id in s.disk ==> Finished(s.disk[id].status)) }

  lemma {:induction false} OverForGood(s: State, e: Event, id: Id)
    requires Inv(s) && Over(s, id)
    ensures Over(Step(s, e), id)
  {
    hide ReadOnlyQuery;
    SubmissionsLast(s, e, id);
    StepLivesOn(s, e, id);
  }

  /** Over any continuation of a run, a job that has finished or is gone is never active again. */
  lemma {:induction false} FinishedForever(es: seq<Event>, more: seq<Event>, id: Id)
    requires Over(Run(es), id)
    ensures Over(Run(es + more), id)
    decreases |more|
  {
    hide Step, Over, Inv;
    if more == [] {
      assert es + more == es;
    } else {
      var before := es + more[..|more| - 1];
      FinishedForever(es, more[..|more| - 1], id);
      RunKeeps(before);
      assert (es + more)[..|es + more| - 1] == before;
      OverForGood(Run(before), more[|more| - 1], id);
    }
  }

  /** What was submitted never changes: not in the history, and not in the store. */
  lemma {:induction false} SubmittedForever(es: seq<Event>, more: seq<Event>, id: Id)
    requires id in Run(es).submitted
    ensures id in Run(es + more).submitted && Run(es + more).submitted[id] == Run(es).submitted[id]
    decreases |more|
  {
    hide Step;
    if more == [] {
      assert es + more == es;
    } else {
      var before := es + more[..|more| - 1];
      SubmittedForever(es, more[..|more| - 1], id);
      assert (es + more)[..|es + more| - 1] == before;
      SubmissionsLast(Run(before), more[|more| - 1], id);
    }
  }

  lemma {:induction false} StoredAsSubmitted(es: seq<Event>, id: Id)
    requires id in Run(es).disk
    ensures var j := Run(es).disk[id];
      j.id == id && id in Run(es).submitted && Run(es).submitted[id] == Submission(j.owner, j.body, j.fingerprint)
  {
    hide ReadOnlyQuery;
    RunKeeps(es);
  }

  // ---------------------------------------------------------------- permission

  /** The submission that the permission came with is the one on record for good. */
  lemma {:induction false} GrantedSubmission(es: seq<Event>, n: nat)
    requires n < |es| && Run(es[..n]).up && Admissible(Run(es[..n]), es[n])
    ensures var id := es[n].id; id in Run(es).submitted && Run(es).submitted[id] == Submitted(es[n].what)
  {
    hide Accepted, Submitted, Commit, SubmitEdit, AskStep, WorkStep, RecordStep, LoadStep, BeginStep, TransmitStep;
    var s, e, first := Run(es[..n]), es[n], es[..n + 1];
    assert first[..|first| - 1] == es[..n] && Run(first) == Step(s, e);
    SubmissionAdded(s, e);
    SubmittedForever(first, es[n + 1..], e.id);
    assert first + es[n + 1..] == es;
  }

  /** Every send was allowed in the same broker run: by the allow-all policy, by a timely decision that named exactly
      the submitted fingerprint, or because the very body that is sent is a read: its query selects an operation of
      kind `query` whose inlined form has only supported directives. */
  lemma {:induction false} SendWasAllowed(es: seq<Event>, i: nat) returns (n: nat, g: Grant)
    requires i < |Run(es).sends|
    ensures n < |es| && Issued(Run(es[..n]), es[n], g)
    ensures var x := Run(es).sends[i];
      && x.id in Run(es).submitted && Justifies(g, x.run, x.id, Run(es).submitted[x.id].fingerprint)
      && (g.reason.ReadOnly? ==>
            x.body == G.BodyText(es[n].what.envelope) && Inspection.IsRead(G.Decoded(es[n].what.envelope)))
  {
    hide Inspection.IsRead, Accepted, G.BodyText, StoreOk, ApprovedOk, PhaseOk;
    RunKeeps(es);
    var s := Run(es);
    assert SendOk(s.sends[i], s);
    var x := s.sends[i];
    g :| g in s.grants && Justifies(g, x.run, x.id, s.submitted[x.id].fingerprint);
    n := GrantHasEvent(es, g);
    if g.reason.ReadOnly? { GrantedSubmission(es, n); }
  }

  // ---------------------------------------------------------------- storage

  /** Every committed store leaves room for the results of its active jobs; so at most ten are active. */
  lemma {:induction false} RoomIsReserved(es: seq<Event>)
    ensures var m := Run(es).disk;
      Size(m) + |ActiveIds(m)| * RESERVE <= MAX_STORAGE && |m| <= MAX_JOBS && |ActiveIds(m)| <= 10
  {
    hide ReadOnlyQuery;
    RunKeeps(es);
    FewActive(Run(es).disk);
  }

  /** An outcome that adds at most 4096 bytes besides the result is always recorded, if the write succeeds. */
  lemma {:induction false} OutcomeFits(m: Store, id: Id, r: Reply, now: int, meta: nat)
    requires Fits(m) && id in m && m[id].status.Sending?
    requires (r.Complete? ==> |r.bytes| <= MAX_RESULT) && meta <= m[id].meta + 4096
    ensures Fits(RecordEdit(m, id, r, now, meta).value)
  {
    if r.Complete? { LossyCost(r.bytes); }
    UsageReplace(m, id, Answered(m[id], r, now, meta));
  }

  /** What one more record may grow by before the store is full. */
  ghost function Room(m: Store): int { MAX_STORAGE - Usage(m) }

  /** The exact condition, for every run, reply and store: an outcome is recorded if and only if its record grows by at
      most the reservation and the room left; otherwise the store keeps saying `Sending`. */
  lemma {:induction false} OutcomeRecordedIff(es: seq<Event>, e: Event)
    requires Run(es).up && Run(es).phase.Awaiting? && e.Record? && e.write.Succeeds?
    ensures var s, t := Run(es), Step(Run(es), e);
      var id := s.phase.job.id;
      && id in s.disk && s.disk[id].status.Sending?
      && var answer := Answered(s.disk[id], e.reply, e.now, e.meta);
      && answer != s.disk[id]
      && t.disk == if JobSize(answer) <= JobSize(s.disk[id]) + RESERVE + Room(s.disk) then s.disk[id := answer]
         else s.disk
  {
    hide StoreOk, ApprovedOk, SendsOk, JobSize, Usage, Pruned, Slots, ReadOnlyQuery;
    RunKeeps(es);
    var s := Run(es);
    UsageReplace(s.disk, s.phase.job.id, Answered(s.disk[s.phase.job.id], e.reply, e.now, e.meta));
  }

  function Zeros(n: nat): seq<byte> { if n == 0 then [] else [0] + Zeros(n - 1) }

  lemma {:induction false} ZerosCost(n: nat)
    ensures |Zeros(n)| == n && Escaped(Lossy(Zeros(n))) == 6 * n
  {
    if n > 0 {
      ZerosCost(n - 1);
      var b := Zeros(n);
      assert b[1..] == Zeros(n - 1) && DecodeOne(b) == Head(1, Some(0 as char));
      assert Lossy(b) == [0 as char] + Lossy(Zeros(n - 1));
      assert Lossy(b)[1..] == Lossy(Zeros(n - 1));
    }
  }

  // ---------------------------------------------------------------- restart

  lemma {:induction false} LoadUsage(m: Store, now: int, metas: Id -> nat)
    requires forall k :: k in m && Active(m[k].status) ==> metas(k) <= m[k].meta + RESERVE
    ensures Payload(LoadEdit(m, now, metas)) <= Payload(m) + |ActiveIds(m)| * RESERVE
    decreases |m|
  {
    if m != map[] {
      var k :| k in m;
      LoadUsage(m - {k}, now, metas);
      LoadOne(m, k, now, metas);
      PayloadRemove(m, k);
      ActiveRemove(m, k);
      OneMore(|ActiveIds(m - {k})|);
    }
  }

  lemma {:induction false} OneMore(n: nat)
    ensures (n + 1) * RESERVE == n * RESERVE + RESERVE
  {
  }

  lemma {:induction false} LoadOne(m: Store, k: Id, now: int, metas: Id -> nat)
    requires k in m && (Active(m[k].status) ==> metas(k) <= m[k].meta + RESERVE)
    ensures Payload(LoadEdit(m, now, metas)) <= 40 + JobSize(m[k]) + Reserved(m[k])
            + Payload(LoadEdit(m - {k}, now, metas))
  {
    var next := LoadEdit(m, now, metas);
    assert next - {k} == LoadEdit(m - {k}, now, metas);
    PayloadRemove(next, k);
  }

  lemma {:induction false} LoadFits(m: Store, now: int, metas: Id -> nat)
    requires Fits(m) && forall k :: k in m && Active(m[k].status) ==> metas(k) <= m[k].meta + RESERVE
    ensures Fits(LoadEdit(m, now, metas))
  {
    hide Payload;
    LoadUsage(m, now, metas);
    var next := LoadEdit(m, now, metas);
    assert ActiveIds(next) == {} && next.Keys == m.Keys;
    assert m == map[] <==> next == map[];
  }

  /** A restart always accepts what an earlier run saved, forgets no job, sends nothing and leaves none active. */
  lemma {:induction false} RestartSucceeds(es: seq<Event>, e: Event)
    requires !Run(es).up && e.Load? && e.write.Succeeds?
    requires forall k :: k in Run(es).disk && Active(Run(es).disk[k].status) ==>
      e.metas(k) <= Run(es).disk[k].meta + RESERVE
    ensures var s, t := Run(es), Step(Run(es), e);
      && t.up && t.run == s.run + 1 && t.sends == s.sends && t.disk.Keys == s.disk.Keys
      && forall k :: k in s.disk ==>
           t.disk[k].status == if s.disk[k].status.Sending? then Unknown
                               else if Queued(s.disk[k].status) then Cancelled else s.disk[k].status
  {
    hide ReadOnlyQuery;
    RunKeeps(es);
    LoadFits(Run(es).disk, e.now, e.metas);
    LoadSucceeds(Run(es), e);
  }

  lemma {:induction false} LoadSucceeds(s: State, e: Event)
    requires !s.up && e.Load? && e.write.Succeeds? && Within(s.disk) && Fits(LoadEdit(s.disk, e.now, e.metas))
    ensures Step(s, e) == s.(up := true, run := s.run + 1, memory := LoadEdit(s.disk, e.now, e.metas),
                             disk := LoadEdit(s.disk, e.now, e.metas))
  {
    hide ReadOnlyQuery;
  }
}
