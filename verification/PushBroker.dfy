/** The publication service as the broker runs it: records edited by transactions, artifact directories created before
    the record that needs them and removed after the record that needed them, and the worker's loop. Every method does
    what the steps of `PushRuns` say. */
module PushBroker {
  import opened Outcome
  import opened Statuses
  import opened Pruning
  import opened PushStore
  import opened PushFormat
  import opened PushRuns
  import opened PushFingerprints
  import opened Runs
  import F = Fingerprints

  /** The store with a new publication, within the limits, and the records given up for it. */
  method Admission(m: Store, job: Job, now: int) returns (next: Option<Store>, removed: set<Id>)
    ensures next == SubmitEdit(m, job, now)
    ensures next.Some? ==> removed == m[job.id := job].Keys - next.value.Keys
  {
    var guest := job.request.owner.container;
    var active, owned := (j: Job) => Active(j.status), (j: Job) => Active(j.status)
      && j.request.owner.container == guest;
    assert ActiveIds(m) == Where(m, active) && ActiveOf(m, guest) == Where(m, owned);
    var all := CountWhere(m, active);
    var own := CountWhere(m, owned);
    if all >= 8 || own >= 4 { return None, {}; }
    next, removed := PruneForAdmission(m[job.id := job], now);
  }

  /** The new record is kept, the others are as before or were removable. */
  lemma {:induction false} AdmissionKeeps(m: Store, job: Job, now: int)
    requires SubmitEdit(m, job, now).Some? && Active(job.status)
    ensures var r := SubmitEdit(m, job, now).value;
      job.id in r && r[job.id] == job && forall k :: k in r && k != job.id ==> k in m && r[k] == m[k]
  {
    PrunedPushesKeep(m[job.id := job], now);
    assert m[job.id := job][job.id] == job;
  }

  // ---------------------------------------------------------------- events

  function Attempt(written: bool): Write { if written then Succeeds else Fails }

  /** What other threads, the Git server and other writers do while the worker waits. */
  predicate Meanwhile(e: Event) {
    match e
    case MakeDir(_, _, _) => true
    case MoveBundle(_, _) => true
    case RemoveDir(_, _) => true
    case Land(_) => true
    case Foreign(_, _) => true
    case Submit(_, _, write) => !write.Dies?
    case Ask(_, _, _, write) => !write.Dies?
    case _ => false
  }

  predicate AllMeanwhile(es: seq<Event>) { forall i :: 0 <= i < |es| ==> Meanwhile(es[i]) }

  /** What the worker meets while it handles one publication: what happens before each of its steps, and the answers it
      gets. */
  datatype Choice = Choice(before: seq<Event>, now: int, identity: bool, credential: bool, admitted: bool, later: int,
                           written: bool, fetching: seq<Event>, head: Option<Oid>, same: bool, allowAll: bool,
                             derived: int, kept: bool, checking: seq<Event>, intact: bool, reachable: bool,
                               starting: seq<Event>,
                           pushing: seq<Event>, success: bool, reading: seq<Event>, readable: bool,
                           recording: seq<Event>, recorded: int, saved: bool)

  predicate Served(c: Choice) {
    && AllMeanwhile(c.before) && AllMeanwhile(c.fetching) && AllMeanwhile(c.checking) && AllMeanwhile(c.starting)
    && AllMeanwhile(c.pushing) && AllMeanwhile(c.reading) && AllMeanwhile(c.recording)
  }

  function WorkEvent(c: Choice): Event {
    Work(c.now, c.identity, c.credential, c.admitted, c.later, Attempt(c.written))
  }

  function PreparedEvent(c: Choice): Event { Prepared(c.head, c.same, c.allowAll, c.derived, Attempt(c.kept)) }

  function RecordEvent(c: Choice): Event { Record(c.recorded, Attempt(c.saved)) }

  /** Push and read back, if the push is reported. */
  ghost function Publication(s: State, c: Choice): State {
    var started := Step(After(Step, s, c.starting), Push);
    var reported := Step(After(Step, started, c.pushing), Report(c.success));
    if !reported.phase.Pushed? then reported else Step(After(Step, reported, c.reading), ReadBack(c.readable))
  }

  /** The branch is rechecked first. */
  ghost function Execution(s: State, c: Choice): State {
    var checked := Step(After(Step, s, c.checking), Recheck(c.intact, c.reachable));
    if checked.phase.Rechecked? then Publication(checked, c) else checked
  }

  /** One publication of a tick: prepare its review, or, when it was admitted, execute it and record the outcome. */
  ghost function Turn(s: State, c: Choice): State {
    var t := Step(After(Step, s, c.before), WorkEvent(c));
    if t.phase.Fetching? then Step(After(Step, t, c.fetching), PreparedEvent(c))
    else if t.phase.Admitted? then Step(After(Step, Execution(t, c), c.recording), RecordEvent(c))
    else t
  }

  ghost function Turns(s: State, cs: seq<Choice>): State
    decreases |cs|
  {
    if cs == [] || s.work == [] then s else Turns(Turn(s, cs[0]), cs[1..])
  }

  lemma {:induction false} Extend(s: State, es: seq<Event>, more: seq<Event>, e: Event) returns (longer: seq<Event>)
    ensures After(Step, s, longer) == Step(After(Step, After(Step, s, es), more), e)
  {
    hide Step;
    longer := es + more + [e];
    AfterLast(Step, s, es + more, e);
    AfterThen(Step, s, es, more);
  }

  lemma {:induction false} TurnRun(s: State, c: Choice) returns (es: seq<Event>)
    ensures After(Step, s, es) == Turn(s, c)
  {
    hide Step;
    es := c.before + [WorkEvent(c)];
    AfterLast(Step, s, c.before, WorkEvent(c));
    var t := After(Step, s, es);
    if t.phase.Fetching? {
      es := Extend(s, es, c.fetching, PreparedEvent(c));
    } else if t.phase.Admitted? {
      es := Extend(s, es, c.checking, Recheck(c.intact, c.reachable));
      if After(Step, s, es).phase.Rechecked? {
        es := Extend(s, es, c.starting, Push);
        es := Extend(s, es, c.pushing, Report(c.success));
        if After(Step, s, es).phase.Pushed? { es := Extend(s, es, c.reading, ReadBack(c.readable)); }
      }
      es := Extend(s, es, c.recording, RecordEvent(c));
    }
  }

  /** A tick is a run of the machine, so whatever holds of every run holds of the object. */
  lemma {:induction false} TickRun(s: State, cs: seq<Choice>) returns (es: seq<Event>)
    ensures After(Step, s, es) == Turns(s, cs)
    decreases |cs|
  {
    hide Step, Turn;
    es := [];
    if cs != [] && s.work != [] {
      var first := TurnRun(s, cs[0]);
      var rest := TickRun(Turn(s, cs[0]), cs[1..]);
      AfterThen(Step, s, first, rest);
      es := first + rest;
    }
  }

  // ---------------------------------------------------------------- submissions

  /** What is known of a submission before its bundle is looked at. */
  datatype Upload = Upload(key: string, request: Submission, identity: bool, credential: bool)

  predicate Accepted(u: Upload) {
    WellFormed(u.key, u.request) && 0 < u.request.bundle.bytes <= MAX_BUNDLE && u.identity && u.credential
  }

  /** Each of `ids` once. */
  ghost predicate Lists(order: seq<Id>, ids: set<Id>) {
    (forall k :: k in order <==> k in ids) && forall i, j :: 0 <= i < j < |order| ==> order[i] != order[j]
  }

  function Removals(order: seq<Id>, stuck: set<Id>): seq<Event> {
    seq(|order|, i requires 0 <= i < |order| => RemoveDir(order[i], order[i] !in stuck))
  }

  /** The directory with its bundle, then the record, and then the directories that are not needed any more. */
  function Submitting(id: Id, request: Submission, now: int, moved: bool, written: bool, order: seq<Id>,
                      stuck: set<Id>): seq<Event> {
    [MakeDir(id, request, now), MoveBundle(id, moved)] + (if moved then [Event.Submit(id, now, Attempt(written))]
                                                          else [])
    + Removals(order, stuck)
  }

  class Pushes {
    var data: Store
    var file: Store
    var dirs: Dirs
    /** Uploads without a record, and directories to be removed. */
    var uploads: map<Id, Job>
    var doomed: set<Id>
    /** Every id ever issued, with what was submitted under it. */
    var submitted: map<Id, Submission>
    /** The Git server's branches, and the pushes it has not dealt with. */
    var remote: map<Target, Oid>
    var inflight: map<Id, Review>
    const run: nat
    ghost var past: History

    ghost function View(work: seq<Job>, phase: Phase): State
      reads this
    {
      State(true, run, data, uploads, doomed, work, phase, file, dirs, remote, inflight, past.(submitted := submitted))
    }

    /** Memory mirrors the file, and every record has its bundle. */
    ghost predicate Valid()
      reads this
    {
      data == file && forall k :: k in data ==> k in dirs && dirs[k] == Some(data[k].request.bundle)
    }

    method Transaction(next: Store, written: bool) returns (ok: bool)
      modifies this`data, this`file, this`past
      ensures ok == written
      ensures data == (if ok then next else old(data)) && file == (if ok then next else old(file))
      ensures forall work, phase :: View(work, phase) == Commit(old(View(work, phase)), Some(next), Attempt(written))
      ensures past.grants == old(past.grants) && past.started == old(past.started)
    {
      ok := written;
      if ok {
        file := next;
        data := file;
        past := Noted(past, next);
      }
    }

    // -------------------------------------------------------------- directories and records

    method MakeDir(id: Id, input: Submission, now: int)
      modifies this`dirs, this`uploads, this`submitted
      ensures forall work, phase ::
        View(work, phase) == Step(old(View(work, phase)), Event.MakeDir(id, input, now))
      ensures id !in old(submitted) && 0 < input.bundle.bytes <= MAX_BUNDLE ==>
        dirs == old(dirs)[id := None] && uploads == old(uploads)[id := NewJob(id, input, now)]
    {
      hide WorkerStep, LoadStep, LandStep, SubmitStep, AskStep, NewJob;
      if id in submitted || input.bundle.bytes == 0 || input.bundle.bytes > MAX_BUNDLE { return; }
      dirs := dirs[id := None];
      uploads := uploads[id := NewJob(id, input, now)];
      submitted := submitted[id := input];
    }

    method MoveBundle(id: Id, moved: bool)
      modifies this`dirs, this`uploads, this`doomed
      ensures forall work, phase :: View(work, phase) == Step(old(View(work, phase)), Event.MoveBundle(id, moved))
      ensures id in old(uploads) ==>
        if moved then
          dirs == old(dirs)[id := Some(uploads[id].request.bundle)] && uploads == old(uploads) && doomed == old(doomed)
        else dirs == old(dirs) && doomed == old(doomed) + {id}
    {
      hide WorkerStep, LoadStep, LandStep, SubmitStep, AskStep;
      if id !in uploads { return; }
      if moved {
        dirs := dirs[id := Some(uploads[id].request.bundle)];
      } else {
        uploads, doomed := uploads - {id}, doomed + {id};
      }
    }

    /** The transaction of `submit`, and the ids it gave up. */
    method Register(id: Id, now: int, written: bool) returns (ok: bool, gone: set<Id>)
      modifies this`data, this`file, this`past, this`uploads, this`doomed
      ensures forall work, phase ::
        View(work, phase) == Step(old(View(work, phase)), Event.Submit(id, now, Attempt(written)))
      ensures id in old(uploads) && id in dirs && dirs[id].Some? ==>
        var next := SubmitEdit(old(data), old(uploads)[id], now);
        && (ok <==> written && next.Some?) && data == (if ok then next.value else old(data))
        && gone == (if ok then old(data).Keys - data.Keys else {id}) && doomed == old(doomed) + gone
      ensures old(data) == old(file) ==> data == file
    {
      hide WorkerStep, LoadStep, LandStep, AskStep, SubmitEdit, Noted;
      ok, gone := false, {};
      if id !in uploads || id !in dirs || dirs[id].None? { return; }
      var before, job := data, uploads[id];
      var next, removed := Admission(data, job, now);
      uploads := uploads - {id};
      ok := next.Some? && written;
      gone := if ok then before.Keys - next.value.Keys else {id};
      doomed := doomed + gone;
      if next.Some? { var _ := Transaction(next.value, written); }
    }

    method RemoveDir(id: Id, removed: bool)
      modifies this`dirs, this`doomed
      ensures forall work, phase :: View(work, phase) == Step(old(View(work, phase)), Event.RemoveDir(id, removed))
      ensures id in old(doomed) ==>
        dirs == (if removed then old(dirs) - {id} else old(dirs)) && doomed == old(doomed) - {id}
    {
      hide WorkerStep, LoadStep, LandStep, SubmitStep, AskStep;
      if id !in doomed { return; }
      doomed := doomed - {id};
      if removed { dirs := dirs - {id}; }
    }

    /** Remove the directories of the given ids, one by one; some removals may fail. */
    method RemoveDirs(ids: set<Id>, stuck: set<Id>) returns (ghost order: seq<Id>)
      requires ids <= doomed
      modifies this`dirs, this`doomed
      ensures Lists(order, ids) && dirs == old(dirs) - (ids - stuck)
      ensures forall work, phase :: View(work, phase) == After(Step, old(View(work, phase)), Removals(order, stuck))
    {
      hide Step;
      var rest, before := ids, dirs;
      order := [];
      while rest != {}
        invariant rest <= ids && rest <= doomed && Lists(order, ids - rest) && dirs == before - ((ids - rest) - stuck)
        invariant forall work, phase :: View(work, phase) == After(Step, old(View(work, phase)), Removals(order, stuck))
        decreases |rest|
      {
        var k :| k in rest;
        RemoveDir(k, k !in stuck);
        RemovalsGrow(order, k, stuck);
        forall work, phase
          ensures View(work, phase) == After(Step, old(View(work, phase)), Removals(order + [k], stuck))
        {
          AfterLast(Step, old(View(work, phase)), Removals(order, stuck), Event.RemoveDir(k, k !in stuck));
        }
        order := order + [k];
        rest := rest - {k};
        assert dirs == before - ((ids - rest) - stuck);
      }
    }

    /** `submit`: refused before anything is touched, or the machine's steps: the directory and its bundle, then the
        record, then the directories that are not needed any more. */
    method Submit(id: Id, u: Upload, moved: bool, now: int, written: bool, stuck: set<Id>)
      returns (ok: bool, ghost order: seq<Id>)
      requires Valid() && id !in data && id !in dirs
      modifies this`data, this`file, this`past, this`dirs, this`uploads, this`doomed, this`submitted
      ensures Valid()
      ensures forall work, phase ::
        if Accepted(u) && id !in old(submitted)
        then View(work, phase)
             == After(Step, old(View(work, phase)), Submitting(id, u.request, now, moved, written, order, stuck))
        else View(work, phase) == old(View(work, phase))
      ensures ok <==> Accepted(u) && id !in old(submitted) && moved && written
                      && SubmitEdit(old(data), NewJob(id, u.request, now), now).Some?
      ensures data == if ok then SubmitEdit(old(data), NewJob(id, u.request, now), now).value else old(data)
      ensures ok ==> dirs == old(dirs)[id := Some(u.request.bundle)] - ((old(data).Keys - data.Keys) - stuck)
      ensures !ok && id !in stuck ==> dirs == old(dirs)
    {
      hide Step, SubmitEdit, Removals, Lists, Placed, WellFormed;
      ok, order := false, [];
      if !Accepted(u) || id in submitted { return; }
      var gone;
      ok, gone := Place(id, u.request, moved, now, written);
      if ok { AdmissionKeeps(old(data), NewJob(id, u.request, now), now); }
      order := RemoveDirs(gone, stuck);
      forall work, phase
        ensures View(work, phase)
             == After(Step, old(View(work, phase)), Submitting(id, u.request, now, moved, written, order, stuck))
      {
        SubmittingSteps(old(View(work, phase)), id, u.request, now, moved, written, order, stuck);
      }
    }

    /** `submit` from the start: the fingerprint is computed from the fields of the submission. */
    method SubmitBundle(digest: F.Digest, id: Id, u: Upload, moved: bool, now: int, written: bool, stuck: set<Id>)
      returns (ok: bool, known: Upload, ghost order: seq<Id>)
      requires Valid() && id !in data && id !in dirs
      modifies this`data, this`file, this`past, this`dirs, this`uploads, this`doomed, this`submitted
      ensures Valid() && known == u.(request := Identified(digest, u.request))
      ensures forall work, phase ::
        if Accepted(known) && id !in old(submitted)
        then View(work, phase)
             == After(Step, old(View(work, phase)), Submitting(id, known.request, now, moved, written, order, stuck))
        else View(work, phase) == old(View(work, phase))
    {
      hide Step, Submitting, Accepted, Fields, Fingerprint;
      var fingerprint := Compute(digest, Fields(u.request));
      known := u.(request := u.request.(fingerprint := fingerprint));
      ok, order := Submit(id, known, moved, now, written, stuck);
    }

    /** The directory with its bundle and then the record; the directories of `gone` are not needed any more. */
    method Place(id: Id, request: Submission, moved: bool, now: int, written: bool) returns (ok: bool, gone: set<Id>)
      requires id !in submitted && 0 < request.bundle.bytes <= MAX_BUNDLE && data == file
      modifies this`data, this`file, this`past, this`dirs, this`uploads, this`doomed, this`submitted
      ensures forall work, phase :: View(work, phase) == Placed(old(View(work, phase)), id, request, now, moved,
                                                                written)
      ensures ok <==> moved && written && SubmitEdit(old(data), NewJob(id, request, now), now).Some?
      ensures data == file == if ok then SubmitEdit(old(data), NewJob(id, request, now), now).value else old(data)
      ensures dirs == old(dirs)[id := if moved then Some(request.bundle) else None]
      ensures gone <= doomed && gone == if ok then old(data).Keys - data.Keys else {id}
    {
      hide Step, SubmitEdit;
      MakeDir(id, request, now);
      MoveBundle(id, moved);
      ok, gone := false, {id};
      if moved { ok, gone := Register(id, now, written); }
    }

    /** `remove_orphans`, at the end of a restart: the machine's removals; apart from failed ones, only records have
        directories afterwards. */
    method RemoveOrphans(stuck: set<Id>) returns (ghost order: seq<Id>)
      requires Valid()
      modifies this`dirs, this`doomed
      ensures Valid()
      ensures forall k :: k in dirs <==> k in old(dirs) && (k in data || k in stuck)
      ensures forall work, phase ::
        var loaded := old(View(work, phase)).(doomed := old(doomed) + (old(dirs).Keys - data.Keys));
        View(work, phase) == After(Step, loaded, Removals(order, stuck))
    {
      var orphans := dirs.Keys - data.Keys;
      doomed := doomed + orphans;
      order := RemoveDirs(orphans, stuck);
    }

    // -------------------------------------------------------------- requests

    method Decide(id: Id, fingerprint: string, approve: bool, now: int, written: bool) returns (ok: bool)
      modifies this`data, this`file, this`past
      ensures forall work, phase ::
        View(work, phase) == Step(old(View(work, phase)),
                                  Ask(id, Request.Decide(fingerprint, approve), now, Attempt(written)))
      ensures ok <==> written && RequestEdit(old(data), id, Request.Decide(fingerprint, approve), now).Some?
      ensures old(Valid()) ==> Valid()
    {
      hide WorkerStep, LoadStep, LandStep, SubmitStep, Noted;
      ok := id in data && data[id].status.Pending? && data[id].request.fingerprint == fingerprint
        && data[id].expires > now;
      if ok {
        if approve { past := past.(grants := past.grants + {Grant(run, id, Decided(fingerprint))}); }
        ok := Transaction(data[id := Set(data[id], if approve then Approved else Denied, now)], written);
      }
    }

    method Cancel(id: Id, caller: Caller, now: int, written: bool) returns (ok: bool)
      modifies this`data, this`file, this`past
      ensures forall work, phase ::
        View(work, phase) == Step(old(View(work, phase)), Ask(id, Request.Cancel(caller), now, Attempt(written)))
      ensures ok <==> written && RequestEdit(old(data), id, Request.Cancel(caller), now).Some?
    {
      hide WorkerStep, LoadStep, LandStep, SubmitStep, Set, Noted;
      ok := id in data && Owns(caller, data[id]) && Queued(data[id].status);
      if ok { ok := Transaction(data[id := Set(data[id], Cancelled, now)], written); }
    }

    method Acknowledge(id: Id, caller: Caller, now: int, written: bool) returns (ok: bool)
      modifies this`data, this`file, this`past
      ensures forall work, phase ::
        View(work, phase) == Step(old(View(work, phase)), Ask(id, Request.Acknowledge(caller), now, Attempt(written)))
      ensures ok <==> written && RequestEdit(old(data), id, Request.Acknowledge(caller), now).Some?
    {
      hide WorkerStep, LoadStep, LandStep, SubmitStep, Set, Noted;
      ok := id in data && Owns(caller, data[id]) && !Active(data[id].status) && !data[id].status.Unknown?;
      if ok {
        var next := data;
        if data[id].acknowledged.None? { next := data[id := data[id].(acknowledged := Some(now))]; }
        ok := Transaction(next, written);
      }
    }

    /** The record goes first; its directory is to be removed then. */
    method Erase(id: Id, caller: Caller, now: int, written: bool) returns (ok: bool)
      modifies this`data, this`file, this`past, this`doomed
      ensures forall work, phase ::
        View(work, phase) == Step(old(View(work, phase)), Ask(id, Request.Delete(caller), now, Attempt(written)))
      ensures ok <==> written && RequestEdit(old(data), id, Request.Delete(caller), now).Some?
      ensures data == (if ok then old(data) - {id} else old(data)) && (old(data) == old(file) ==> data == file)
      ensures doomed == if ok then old(doomed) + {id} else old(doomed)
    {
      hide WorkerStep, LoadStep, LandStep, SubmitStep, Set, Noted;
      ok := id in data && Owns(caller, data[id]) && !Active(data[id].status);
      if ok {
        ok := Transaction(data - {id}, written);
        if ok { doomed := doomed + {id}; }
      }
    }

    /** `delete`: the machine's steps; the record first, then its directory. */
    method Delete(id: Id, caller: Caller, now: int, written: bool, stuck: set<Id>) returns (ok: bool)
      requires Valid()
      modifies this`data, this`file, this`past, this`doomed, this`dirs
      ensures Valid()
      ensures forall work, phase ::
        View(work, phase) == After(Step, old(View(work, phase)),
                                   [Ask(id, Request.Delete(caller), now, Attempt(written))]
                                   + if ok then [Event.RemoveDir(id, id !in stuck)] else [])
      ensures ok <==> written && RequestEdit(old(data), id, Request.Delete(caller), now).Some?
      ensures data == if ok then old(data) - {id} else old(data)
      ensures dirs == if ok && id !in stuck then old(dirs) - {id} else old(dirs)
    {
      hide Step;
      ghost var e := Ask(id, Request.Delete(caller), now, Attempt(written));
      ok := Erase(id, caller, now, written);
      if ok { RemoveDir(id, id !in stuck); }
      forall work, phase
        ensures View(work, phase) == After(Step, old(View(work, phase)),
                                           [e] + if ok then [Event.RemoveDir(id, id !in stuck)] else [])
      {
        var s := old(View(work, phase));
        AfterOne(Step, s, e);
        if ok { AfterLast(Step, s, [e], Event.RemoveDir(id, id !in stuck)); } else { assert [e] + [] == [e]; }
      }
    }

    // -------------------------------------------------------------- the server and other writers

    /** `--force-with-lease` on the server: a push takes effect only where the branch is as expected. */
    method Land(id: Id)
      modifies this`remote, this`inflight, this`past
      ensures forall work, phase :: View(work, phase) == Step(old(View(work, phase)), Event.Land(id))
    {
      hide BrokerStep, LoadStep;
      if id !in inflight { return; }
      var r := inflight[id];
      inflight := inflight - {id};
      if (if r.target in remote then Some(remote[r.target]) else None) == r.expected {
        remote := remote[r.target := r.head];
        past := past.(changes := past.changes + [Change(id, r.target, r.expected, r.head)]);
      }
    }

    method Rewrite(target: Target, oid: Option<Oid>)
      modifies this`remote
      ensures forall work, phase :: View(work, phase) == Step(old(View(work, phase)), Foreign(target, oid))
    {
      hide BrokerStep, LoadStep, LandStep;
      remote := if oid.Some? then remote[target := oid.value] else remote - {target};
    }

    method ServeOne(e: Event)
      requires Meanwhile(e)
      modifies this`data, this`file, this`past, this`dirs, this`uploads, this`doomed, this`submitted, this`remote,
               this`inflight
      ensures forall work, phase :: View(work, phase) == Step(old(View(work, phase)), e)
    {
      hide Step;
      match e
      case MakeDir(id, input, now) => MakeDir(id, input, now);
      case MoveBundle(id, moved) => MoveBundle(id, moved);
      case RemoveDir(id, removed) => RemoveDir(id, removed);
      case Land(id) => Land(id);
      case Foreign(target, oid) => Rewrite(target, oid);
      case Submit(id, now, write) =>
        assert Attempt(write.Succeeds?) == write;
        var _, _ := Register(id, now, write.Succeeds?);
      case Ask(id, request, now, write) =>
        assert Attempt(write.Succeeds?) == write;
        var ok;
        match request
        case Decide(fingerprint, approve) => ok := Decide(id, fingerprint, approve, now, write.Succeeds?);
        case Cancel(caller) => ok := Cancel(id, caller, now, write.Succeeds?);
        case Acknowledge(caller) => ok := Acknowledge(id, caller, now, write.Succeeds?);
        case Delete(caller) => ok := Erase(id, caller, now, write.Succeeds?);
    }

    /** What happens while the worker waits. */
    method Serve(es: seq<Event>)
      requires AllMeanwhile(es)
      modifies this`data, this`file, this`past, this`dirs, this`uploads, this`doomed, this`submitted, this`remote,
               this`inflight
      ensures forall work, phase :: View(work, phase) == After(Step, old(View(work, phase)), es)
    {
      hide Step, Meanwhile;
      assert es[0..] == es;
      for i := 0 to |es|
        invariant forall work, phase ::
          After(Step, View(work, phase), es[i..]) == After(Step, old(View(work, phase)), es)
      {
        assert es[i..][0] == es[i] && es[i..][1..] == es[i + 1..];
        ServeOne(es[i]);
      }
      assert es[|es|..] == [];
    }

    // -------------------------------------------------------------- the worker

    /** The head of the worker's list, up to the fetch of its review or the admission boundary. */
    method Handle(job: Job, c: Choice, ghost work: seq<Job>) returns (ok: bool, phase: Phase)
      requires work != [] && work[0] == job
      modifies this`data, this`file, this`past
      ensures View(if ok then work[1..] else [], phase) == Step(old(View(work, Idle)), WorkEvent(c))
      ensures phase == Idle || (ok && (phase == Fetching(job) || phase == Admitted(job)))
    {
      hide Step, LapseEdit, BlockEdit, AdmitEdit, Noted;
      WorkerEvents(View(work, Idle), WorkEvent(c));
      ok, phase := true, Idle;
      if job.expires <= c.now || !c.identity {
        ok := Transaction(LapseEdit(data, job.id, c.later), c.written);
      } else if !c.credential && (job.status.Preparing? || job.status.Approved?) {
        ok := Transaction(BlockEdit(data, job.id, job.status, c.later), c.written);
      } else if job.status.Approved? && c.credential && c.admitted {
        var admitted := Admits(data, job.id, c.later);
        ok := Transaction(AdmitEdit(data, job.id, c.later), c.written);
        if admitted && ok { phase := Admitted(job); }
      } else if job.status.Preparing? {
        phase := Fetching(job);
      }
    }

    /** The review of the bundle in the publication's directory. */
    method Derive(job: Job, head: Option<Oid>, ghost s: State) returns (review: Option<Review>)
      requires s.dirs == dirs
      ensures review == Derived(s, job, head)
    {
      review := None;
      if head.Some? && job.id in dirs && dirs[job.id].Some? {
        review := Some(Review(job.request.target, job.request.expected, head.value,
                              Bundle(dirs[job.id].value.digest, job.request.bundle.bytes)));
      }
    }

    /** The derived review is recorded, or what kept it from being derived. */
    method Prepare(job: Job, c: Choice, ghost work: seq<Job>) returns (ok: bool)
      modifies this`data, this`file, this`past
      ensures View(if ok then work else [], Idle) == Step(old(View(work, Fetching(job))), PreparedEvent(c))
    {
      hide Step, CancelPreparing, PrepareEdit, Noted, Derived;
      WorkerEvents(View(work, Fetching(job)), PreparedEvent(c));
      if !c.same {
        ok := Transaction(CancelPreparing(data, job.id, c.derived), c.kept);
      } else {
        var review := Derive(job, c.head, View(work, Fetching(job)));
        ok := Attach(job, review, c, work);
      }
    }

    method Attach(job: Job, review: Option<Review>, c: Choice, ghost work: seq<Job>) returns (ok: bool)
      requires c.same && review == Derived(View(work, Fetching(job)), job, c.head)
      modifies this`data, this`file, this`past
      ensures View(if ok then work else [], Idle) == PreparedStep(old(View(work, Fetching(job))), PreparedEvent(c))
    {
      hide CancelPreparing, PrepareEdit, Noted, Derived, Approves;
      var next := PrepareEdit(data, job.id, review, c.allowAll, c.derived);
      if next.None? { return false; }
      if c.allowAll && Approves(data, next.value, job.id) {
        past := past.(grants := past.grants + {Grant(run, job.id, AllowAll)});
      }
      ok := Transaction(next.value, c.kept);
    }

    /** Whether the branch is still as it was submitted. */
    method Check(job: Job, c: Choice, ghost work: seq<Job>) returns (phase: Phase)
      ensures View(work, phase) == Step(View(work, Admitted(job)), Recheck(c.intact, c.reachable))
      ensures phase == Done(job, false) || (phase == Rechecked(job) && job.review.Some?)
    {
      hide Step;
      WorkerEvents(View(work, Admitted(job)), Recheck(c.intact, c.reachable));
      var before := if job.request.target in remote then Some(remote[job.request.target]) else None;
      var same := job.review.Some? && c.intact && c.reachable && before == job.request.expected;
      phase := if same then Rechecked(job) else Done(job, false);
    }

    /** The server has the push; when it takes effect is its own affair. */
    method StartPush(job: Job, ghost work: seq<Job>)
      requires job.review.Some?
      modifies this`inflight, this`past
      ensures View(work, Pushing(job)) == Step(old(View(work, Rechecked(job))), Push)
    {
      hide Step;
      WorkerEvents(View(work, Rechecked(job)), Push);
      inflight := inflight[job.id := job.review.value];
      past := past.(started := past.started + {job.id});
    }

    method EndPush(job: Job, c: Choice, ghost work: seq<Job>) returns (phase: Phase)
      ensures View(work, phase) == Step(View(work, Pushing(job)), Report(c.success))
      ensures phase == Done(job, false) || phase == Pushed(job)
    {
      hide Step;
      WorkerEvents(View(work, Pushing(job)), Report(c.success));
      phase := if c.success && job.id !in inflight then Pushed(job) else Done(job, false);
    }

    method Verify(job: Job, c: Choice, ghost work: seq<Job>) returns (verified: bool)
      modifies this`past
      ensures View(work, Done(job, verified)) == Step(old(View(work, Pushed(job))), ReadBack(c.readable))
    {
      hide Step;
      WorkerEvents(View(work, Pushed(job)), ReadBack(c.readable));
      var observed := if job.request.target in remote then Some(remote[job.request.target]) else None;
      verified := job.review.Some? && c.readable && observed == Some(job.review.value.head);
      if verified { past := Sighting(past, job); }
    }

    /** `git push`, and then the branch is read back. */
    method Publish(job: Job, c: Choice, ghost work: seq<Job>) returns (verified: bool)
      requires Served(c) && job.review.Some?
      modifies this`data, this`file, this`past, this`dirs, this`uploads, this`doomed, this`submitted, this`remote,
               this`inflight
      ensures View(work, Done(job, verified)) == Publication(old(View(work, Rechecked(job))), c)
    {
      hide Step, After, AllMeanwhile;
      Serve(c.starting);
      StartPush(job, work);
      Serve(c.pushing);
      var phase := EndPush(job, c, work);
      if phase.Done? { return false; }
      Serve(c.reading);
      verified := Verify(job, c, work);
    }

    /** `execute_remote`: nothing is pushed if the branch has changed. */
    method Execute(job: Job, c: Choice, ghost work: seq<Job>) returns (verified: bool)
      requires Served(c)
      modifies this`data, this`file, this`past, this`dirs, this`uploads, this`doomed, this`submitted, this`remote,
               this`inflight
      ensures View(work, Done(job, verified)) == Execution(old(View(work, Admitted(job))), c)
    {
      hide Step, After, AllMeanwhile, Publication;
      Serve(c.checking);
      var phase := Check(job, c, work);
      if phase.Done? { return false; }
      verified := Publish(job, c, work);
    }

    method RecordOutcome(job: Job, verified: bool, c: Choice, ghost work: seq<Job>) returns (ok: bool)
      modifies this`data, this`file, this`past
      ensures View(if ok then work else [], Idle) == Step(old(View(work, Done(job, verified))), RecordEvent(c))
    {
      hide Step, Noted;
      WorkerEvents(View(work, Done(job, verified)), RecordEvent(c));
      var next := RecordEdit(data, job.id, verified, c.recorded);
      if next.None? { return false; }
      ok := Transaction(next.value, c.saved);
    }

    /** One publication of the tick. */
    method TakeTurn(job: Job, c: Choice, ghost work: seq<Job>) returns (ok: bool)
      requires work != [] && work[0] == job && Served(c)
      modifies this`data, this`file, this`past, this`dirs, this`uploads, this`doomed, this`submitted, this`remote,
               this`inflight
      ensures View(if ok then work[1..] else [], Idle) == Turn(old(View(work, Idle)), c)
    {
      hide Step, After, Execution, AllMeanwhile;
      Serve(c.before);
      var phase;
      ok, phase := Handle(job, c, work);
      if phase.Fetching? {
        Serve(c.fetching);
        ok := Prepare(job, c, work[1..]);
      } else if phase.Admitted? {
        var verified := Execute(job, c, work[1..]);
        Serve(c.recording);
        ok := RecordOutcome(job, verified, c, work[1..]);
      }
    }

    /** `tick_remote`: the queued publications one after the other, from copies taken at the start, while requests come
        in, the server deals with pushes and others write to its branches. */
    method Tick(ids: seq<Id>, choices: seq<Choice>)
      requires IsQueue(data, ids) && |choices| == |ids| && forall i :: 0 <= i < |choices| ==> Served(choices[i])
      modifies this`data, this`file, this`past, this`dirs, this`uploads, this`doomed, this`submitted, this`remote,
               this`inflight
      ensures View([], Idle) == Turns(Step(old(View([], Idle)), BeginTick(ids)), choices)
    {
      hide Served, Turn, Step;
      WorkerEvents(View([], Idle), BeginTick(ids));
      var work := Copies(data, ids);
      ghost var start := Step(View([], Idle), BeginTick(ids));
      assert start == View(work, Idle);
      var i := 0;
      assert work[0..] == work && choices[0..] == choices;
      while i < |work|
        invariant 0 <= i <= |work| == |choices|
        invariant Turns(View(work[i..], Idle), choices[i..]) == Turns(start, choices)
      {
        ghost var rest, cs := work[i..], choices[i..];
        assert rest[1..] == work[i + 1..] && cs[1..] == choices[i + 1..] && cs[0] == choices[i];
        var ok := TakeTurn(work[i], choices[i], rest);
        if !ok { return; }
        i := i + 1;
      }
    }
  }

  /** Which steps the worker's events are. */
  lemma {:induction false} WorkerEvents(s: State, e: Event)
    requires s.up
    ensures e.Work? && s.phase.Idle? && s.work != [] ==> Step(s, e) == WorkStep(s, e)
    ensures e.Prepared? ==> Step(s, e) == PreparedStep(s, e)
    ensures e.Recheck? ==> Step(s, e) == RecheckStep(s, e)
    ensures e.Push? ==> Step(s, e) == PushStep(s)
    ensures e.Report? ==> Step(s, e) == ReportStep(s, e)
    ensures e.ReadBack? ==> Step(s, e) == ReadBackStep(s, e)
    ensures e.Record? ==> Step(s, e) == RecordStep(s, e)
    ensures e.BeginTick? ==> Step(s, e) == BeginStep(s, e.ids)
  {
    hide WorkStep, PreparedStep, RecheckStep, PushStep, ReportStep, ReadBackStep, RecordStep, BeginStep, LoadStep,
      LandStep,
      SubmitStep, AskStep, MakeDirStep, MoveBundleStep, RemoveDirStep;
  }

  ghost function Placed(s: State, id: Id, request: Submission, now: int, moved: bool, written: bool): State {
    var t := Step(Step(s, MakeDir(id, request, now)), MoveBundle(id, moved));
    if moved then Step(t, Event.Submit(id, now, Attempt(written))) else t
  }

  lemma {:induction false} RemovalsGrow(order: seq<Id>, k: Id, stuck: set<Id>)
    ensures Removals(order + [k], stuck) == Removals(order, stuck) + [RemoveDir(k, k !in stuck)]
  {
  }

  lemma {:induction false} SubmittingSteps(s: State, id: Id, request: Submission, now: int, moved: bool, written: bool,
                                           order: seq<Id>, stuck: set<Id>)
    ensures After(Step, s, Submitting(id, request, now, moved, written, order, stuck))
         == After(Step, Placed(s, id, request, now, moved, written), Removals(order, stuck))
  {
    hide Step, Removals;
    var a, b, removals := MakeDir(id, request, now), MoveBundle(id, moved), Removals(order, stuck);
    var c := if moved then [Event.Submit(id, now, Attempt(written))] else [];
    AfterFirst(Step, s, a, [b] + (c + removals));
    AfterFirst(Step, Step(s, a), b, c + removals);
    if moved { AfterFirst(Step, Step(Step(s, a), b), c[0], removals); } else { assert c + removals == removals; }
    assert Submitting(id, request, now, moved, written, order, stuck) == [a] + ([b] + (c + removals));
  }
}
