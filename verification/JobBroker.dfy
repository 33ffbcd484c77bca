/** The job service as the broker runs it: an in-memory copy of the durable file, edited by transactions,
    and the worker's loop. Every method does what the steps of `JobRuns` say. */
module JobBroker {
  import opened Outcome
  import opened Statuses
  import opened Pruning
  import opened JobStore
  import opened JobRuns
  import opened JobFingerprints
  import opened Runs
  import F = Fingerprints
  import G = Requests
  import Inspection

  /** What the worker meets while it handles one job: the requests served before it, while it waits for the first byte
      and while it waits for the reply, and the answers it gets. */
  datatype Choice = Choice(before: seq<Event>, now: int, identity: bool, credential: bool, admitted: bool, later: int,
                           meta: nat, written: bool, sending: seq<Event>, waiting: seq<Event>, reply: Reply,
                           replied: int, replyMeta: nat, recorded: bool)

  function Attempt(written: bool): Write { if written then Succeeds else Fails }

  function WorkEvent(c: Choice): Event {
    Work(c.now, c.identity, c.credential, c.admitted, c.later, c.meta, Attempt(c.written))
  }

  function RecordEvent(c: Choice): Event { Record(c.reply, c.replied, c.replyMeta, Attempt(c.recorded)) }

  /** A query is classified as a read only if it is one. */
  ghost predicate Classified(w: Submittal) { w.visited ==> Inspection.IsRead(G.Decoded(w.envelope)) }

  /** Requests of guests and the host. */
  ghost predicate Requests(es: seq<Event>) {
    forall i :: 0 <= i < |es| ==>
      && ((es[i].Submit? && Classified(es[i].what)) || es[i].Ask?)
      && !es[i].write.Dies?
  }

  ghost predicate Served(c: Choice) { Requests(c.before) && Requests(c.sending) && Requests(c.waiting) }

  /** One job of a tick: work on it and, when it was admitted, send it and record the reply; requests are served in
      between. */
  ghost function Turn(s: State, c: Choice): State {
    var t := Step(After(Step, s, c.before), WorkEvent(c));
    if t.phase.Admitted?
    then Step(After(Step, Step(After(Step, t, c.sending), Transmit), c.waiting), RecordEvent(c)) else t
  }

  ghost function Turns(s: State, cs: seq<Choice>): State
    decreases |cs|
  {
    if cs == [] || s.work == [] then s else Turns(Turn(s, cs[0]), cs[1..])
  }

  lemma {:induction false} Extend(s: State, es: seq<Event>, more: seq<Event>, e: Event) returns (longer: seq<Event>)
    ensures After(Step, s, longer) == Step(After(Step, After(Step, s, es), more), e)
  {
    hide Step;
    longer := es + more + [e];
    AfterLast(Step, s, es + more, e);
    AfterThen(Step, s, es, more);
  }

  lemma {:induction false} TurnRun(s: State, c: Choice) returns (es: seq<Event>)
    ensures After(Step, s, es) == Turn(s, c)
  {
    hide Step;
    es := c.before + [WorkEvent(c)];
    AfterLast(Step, s, c.before, WorkEvent(c));
    if After(Step, s, es).phase.Admitted? {
      es := Extend(s, es, c.sending, Transmit);
      es := Extend(s, es, c.waiting, RecordEvent(c));
    }
  }

  /** A tick is a run of the machine, so whatever holds of every run holds of the object. */
  lemma {:induction false} TickRun(s: State, cs: seq<Choice>) returns (es: seq<Event>)
    ensures After(Step, s, es) == Turns(s, cs)
    decreases |cs|
  {
    hide Step, Turn;
    es := [];
    if cs != [] && s.work != [] {
      var first := TurnRun(s, cs[0]);
      var rest := TickRun(Turn(s, cs[0]), cs[1..]);
      AfterThen(Step, s, first, rest);
      es := first + rest;
    }
  }

  /** The store with a new job, within the limits; None when there is no room. */
  method Admission(m: Store, job: Job, now: int) returns (next: Option<Store>)
    ensures next == SubmitEdit(m, job, now)
  {
    var guest := job.owner.container;
    var active, owned := (j: Job) => Active(j.status), (j: Job) => Active(j.status) && j.owner.container == guest;
    assert ActiveIds(m) == Where(m, active) && ActiveOf(m, guest) == Where(m, owned);
    var all := CountWhere(m, active);
    var own := CountWhere(m, owned);
    if all >= 32 || own >= 8 { return None; }
    next := PruneForAdmission(m[job.id := job], now);
  }

  class Jobs {
    var data: Store
    var file: Store
    var upstream: seq<Send>
    const run: nat
    /** Every id ever issued, with what was submitted under it. */
    var submitted: map<Id, Submission>
    ghost var grants: set<Grant>

    ghost function View(work: seq<Job>, phase: Phase): State
      reads this
    {
      State(true, run, data, file, work, phase, submitted, grants, upstream)
    }

    /** The durable file is replaced first; memory follows only if that worked. */
    method Transaction(next: Store, written: bool) returns (ok: bool)
      modifies this`data, this`file
      ensures ok <==> Commits(Some(next), Attempt(written))
      ensures if ok then data == file == next else data == old(data) && file == old(file)
      ensures forall work, phase :: View(work, phase) == Commit(old(View(work, phase)), Some(next), Attempt(written))
    {
      var usage := StorageUsage(next);
      ok := usage <= MAX_STORAGE && written;
      if ok {
        file := next;
        data := file;
      }
    }

    /** `submit`, once the query is classified: every check of the source, and then one step of the machine. */
    method Submit(id: Id, w: Submittal, now: int, meta: nat, written: bool) returns (ok: bool)
      requires Classified(w)
      modifies this`data, this`file, this`submitted, this`grants
      ensures forall work, phase ::
        View(work, phase) == Step(old(View(work, phase)), Event.Submit(id, w, now, meta, Attempt(written)))
      ensures !ok ==> data == old(data) && file == old(file)
      ensures ok ==> Accepted(w) && id !in old(submitted) && id in data && data[id].body == Body(w)
    {
      hide Inspection.IsRead, SubmitEdit, Accepted, Body, Commits;
      ghost var e := Event.Submit(id, w, now, meta, Attempt(written));
      if id in submitted || !Accepted(w) { return false; }
      grants := grants + SubmitGrants(View([], Idle), e);
      submitted := submitted[id := Submitted(w)];
      var job := JobOf(id, w, w.visited || w.allowAll, now, meta);
      assert job == NewJob(e);
      var next := Admission(data, job, now);
      if next.None? { return false; }
      ok := Transaction(next.value, written);
      if ok { SubmitHolds(old(data), job, now); }
    }

    /** `submit` from the start: the query is inspected, and the fingerprint is computed from the request that would
        send the body. */
    method SubmitRequest(digest: F.Digest, id: Id, w: Submittal, now: int, meta: nat, written: bool)
      returns (ok: bool, known: Submittal)
      modifies this`data, this`file, this`submitted, this`grants
      ensures forall work, phase ::
        View(work, phase) == Step(old(View(work, phase)), Event.Submit(id, known, now, meta, Attempt(written)))
      ensures known.visited ==> Inspection.IsRead(G.Decoded(w.envelope))
      ensures known == Identified(digest, w).(visited := known.visited)
    {
      hide Inspection.IsRead, SubmitStep, Fingerprint, Outgoing;
      var read := Inspection.InspectRequest(G.Decoded(w.envelope));
      var fingerprint := Compute(digest, Outgoing(Body(w)));
      known := w.(visited := read, fingerprint := fingerprint);
      ok := Submit(id, known, now, meta, written);
    }

    method Decide(id: Id, fingerprint: string, approve: bool, now: int, meta: nat, written: bool) returns (ok: bool)
      modifies this`data, this`file, this`grants
      ensures forall work, phase ::
        View(work, phase) == Step(old(View(work, phase)),
                                  Ask(id, Request.Decide(fingerprint, approve), now, meta, Attempt(written)))
      ensures ok <==> Commits(RequestEdit(old(data), id, Request.Decide(fingerprint, approve), now, meta),
                              Attempt(written))
    {
      hide SubmitStep, WorkStep, BeginStep, TransmitStep, RecordStep, LoadStep, Set, Fits;
      ok := id in data && data[id].status.Pending? && data[id].fingerprint == fingerprint && data[id].expires > now;
      if ok {
        if approve { grants := grants + {Grant(run, id, Decided(fingerprint))}; }
        ok := Transaction(data[id := Set(data[id], if approve then Approved else Denied, now, meta)], written);
      }
    }

    method Cancel(id: Id, caller: Caller, now: int, meta: nat, written: bool) returns (ok: bool)
      modifies this`data, this`file
      ensures forall work, phase ::
        View(work, phase) == Step(old(View(work, phase)), Ask(id, Request.Cancel(caller), now, meta, Attempt(written)))
      ensures ok <==> Commits(RequestEdit(old(data), id, Request.Cancel(caller), now, meta), Attempt(written))
    {
      ok := id in data && Owns(caller, data[id]) && Queued(data[id].status);
      if ok { ok := Transaction(data[id := Set(data[id], Cancelled, now, meta)], written); }
    }

    method Acknowledge(id: Id, caller: Caller, now: int, meta: nat, written: bool) returns (ok: bool)
      modifies this`data, this`file
      ensures forall work, phase ::
        View(work, phase) == Step(old(View(work, phase)),
                                  Ask(id, Request.Acknowledge(caller), now, meta, Attempt(written)))
      ensures ok <==> Commits(RequestEdit(old(data), id, Request.Acknowledge(caller), now, meta), Attempt(written))
    {
      ok := id in data && Owns(caller, data[id]) && Finished(data[id].status) && !data[id].status.Unknown?;
      if ok {
        var next := data;
        if data[id].acknowledged.None? { next := data[id := data[id].(acknowledged := Some(now), meta := meta)]; }
        ok := Transaction(next, written);
      }
    }

    method Delete(id: Id, caller: Caller, now: int, meta: nat, written: bool) returns (ok: bool)
      modifies this`data, this`file
      ensures forall work, phase ::
        View(work, phase) == Step(old(View(work, phase)), Ask(id, Request.Delete(caller), now, meta, Attempt(written)))
      ensures ok <==> Commits(RequestEdit(old(data), id, Request.Delete(caller), now, meta), Attempt(written))
    {
      ok := id in data && Owns(caller, data[id]) && Finished(data[id].status);
      if ok { ok := Transaction(data - {id}, written); }
    }

    method ServeOne(e: Event)
      requires Requests([e])
      modifies this`data, this`file, this`submitted, this`grants
      ensures forall work, phase :: View(work, phase) == Step(old(View(work, phase)), e)
    {
      hide Step, Classified;
      assert e == [e][0];
      var written, ok := e.write.Succeeds?, true;
      assert Attempt(written) == e.write;
      match e
      case Submit(id, w, now, meta, _) => ok := Submit(id, w, now, meta, written);
      case Ask(id, request, now, meta, _) =>
        match request
        case Decide(fingerprint, approve) => ok := Decide(id, fingerprint, approve, now, meta, written);
        case Cancel(caller) => ok := Cancel(id, caller, now, meta, written);
        case Acknowledge(caller) => ok := Acknowledge(id, caller, now, meta, written);
        case Delete(caller) => ok := Delete(id, caller, now, meta, written);
    }

    /** Requests that come in while the worker is busy. */
    method Serve(es: seq<Event>)
      requires Requests(es)
      modifies this`data, this`file, this`submitted, this`grants
      ensures forall work, phase :: View(work, phase) == After(Step, old(View(work, phase)), es)
    {
      hide Step;
      assert es[0..] == es;
      for i := 0 to |es|
        invariant forall work, phase ::
          After(Step, View(work, phase), es[i..]) == After(Step, old(View(work, phase)), es)
      {
        assert es[i..][0] == es[i] && es[i..][1..] == es[i + 1..];
        ServeOne(es[i]);
      }
      assert es[|es|..] == [];
    }

    /** The head of the worker's list, up to the admission boundary. */
    method Admit(job: Job, c: Choice, ghost work: seq<Job>) returns (ok: bool, sending: bool)
      requires work != [] && work[0] == job
      modifies this`data, this`file
      ensures View(if ok then work[1..] else [], if sending then Admitted(job) else Idle)
           == Step(old(View(work, Idle)), WorkEvent(c))
      ensures sending ==> ok
    {
      hide SubmitStep, AskStep, BeginStep, TransmitStep, RecordStep, LoadStep, LapseEdit, BlockEdit, AdmitEdit, Fits;
      ok, sending := true, false;
      if job.expires <= c.now || !c.identity {
        ok := Transaction(LapseEdit(data, job.id, c.later, c.meta), c.written);
      } else if job.status.Approved? && !c.credential {
        ok := Transaction(BlockEdit(data, job.id, c.later, c.meta), c.written);
      } else if job.status.Approved? && c.admitted {
        sending := Admits(data, job.id, c.later);
        ok := Transaction(AdmitEdit(data, job.id, c.later, c.meta), c.written);
        sending := sending && ok;
      }
    }

    /** The first upstream byte, and then the reply, with other requests before each. */
    method Exchange(job: Job, c: Choice, ghost work: seq<Job>) returns (ok: bool)
      requires Served(c)
      modifies this`data, this`file, this`upstream, this`submitted, this`grants
      ensures View(if ok then work else [], Idle)
           == Step(After(Step, Step(After(Step, old(View(work, Admitted(job))), c.sending), Transmit), c.waiting),
                   RecordEvent(c))
    {
      hide After, Classified, SubmitStep, AskStep, WorkStep, LoadStep, BeginStep, Answered, Fits;
      Serve(c.sending);
      ghost var admitted := View(work, Admitted(job));
      upstream := upstream + [Send(run, job.id, job.body)];
      assert View(work, Awaiting(job)) == Step(admitted, Transmit);
      Serve(c.waiting);
      ghost var waited := View(work, Awaiting(job));
      assert waited == After(Step, Step(admitted, Transmit), c.waiting);
      ok := job.id in data;
      if ok { ok := Transaction(data[job.id := Answered(data[job.id], c.reply, c.replied, c.replyMeta)], c.recorded); }
    }

    /** `tick`: the queued jobs one after the other, from copies taken at the start, while requests come in. */
    method Tick(ids: seq<Id>, choices: seq<Choice>)
      requires IsQueue(data, ids) && |choices| == |ids| && forall i :: 0 <= i < |choices| ==> Served(choices[i])
      modifies this`data, this`file, this`upstream, this`submitted, this`grants
      ensures View([], Idle) == Turns(Step(old(View([], Idle)), BeginTick(ids)), choices)
    {
      hide After, Served, WorkStep, SubmitStep, AskStep, RecordStep, TransmitStep;
      var work := Copies(data, ids);
      ghost var start := Step(View([], Idle), BeginTick(ids));
      assert start == View(work, Idle);
      var i := 0;
      assert work[0..] == work && choices[0..] == choices;
      while i < |work|
        invariant 0 <= i <= |work| == |choices|
        invariant Turns(View(work[i..], Idle), choices[i..]) == Turns(start, choices)
      {
        ghost var rest, cs := work[i..], choices[i..];
        assert rest[1..] == work[i + 1..] && cs[1..] == choices[i + 1..] && cs[0] == choices[i];
        ServedParts(choices[i]);
        Serve(choices[i].before);
        var ok, sending := Admit(work[i], choices[i], rest);
        if sending { ok := Exchange(work[i], choices[i], rest[1..]); }
        if !ok { return; }
        i := i + 1;
      }
    }
  }

  lemma {:induction false} ServedParts(c: Choice)
    requires Served(c)
    ensures Requests(c.before) && Requests(c.sending) && Requests(c.waiting)
  {
  }

  lemma {:induction false} SubmitHolds(m: Store, j: Job, now: int)
    requires SubmitEdit(m, j, now).Some? && Active(j.status)
    ensures j.id in SubmitEdit(m, j, now).value && SubmitEdit(m, j, now).value[j.id] == j
  {
    PrunedJobsKeep(m[j.id := j], now);
  }
}
