/** What a publication's fingerprint commits to: whoever decides on a fingerprint has decided on the very branch,
    objects, bundle and credential that are pushed. */
module PushFingerprints {
  import opened Outcome
  import opened Pruning
  import opened ResultText
  import opened PushStore
  import opened PushFormat
  import opened PushRuns
  import opened PushInvariant
  import opened PushSafety
  import opened PushLife
  import F = Fingerprints

  function Fields(r: Submission): F.PushRequest {
    F.PushRequest(Utf8(r.target.repository), Utf8(r.target.branch), Utf8(r.base),
                  Utf8(if r.expected.Some? then r.expected.value else ZERO_OID), Utf8(r.bundle.digest),
                  F.Binding(Utf8(r.binding.entry), Utf8(r.binding.digest)))
  }

  function Fingerprint(digest: F.Digest, p: F.PushRequest): string { digest(F.Encode(F.PushFields(p))) }

  /** A submission with the fingerprint that the broker computes. */
  function Identified(digest: F.Digest, r: Submission): Submission { r.(fingerprint := Fingerprint(digest, Fields(r))) }

  /** `fingerprint`. */
  method Compute(digest: F.Digest, p: F.PushRequest) returns (fingerprint: string)
    ensures fingerprint == Fingerprint(digest, p)
  {
    var hashed := F.Feed(F.PushFields(p));
    fingerprint := digest(hashed);
  }

  /** Every upload has the fingerprint of its fields, each of which has a length of 64 bits. */
  ghost predicate Hashed(digest: F.Digest, es: seq<Event>) {
    forall i | 0 <= i < |es| && es[i].MakeDir? ::
      F.AllFit(F.PushFields(Fields(es[i].input))) && es[i].input.fingerprint == Fingerprint(digest, Fields(es[i].input))
  }

  // ---------------------------------------------------------------- submissions

  lemma {:induction false} WorkerSubmits(s: State, e: Event)
    ensures WorkerStep(s, e).past.submitted == s.past.submitted
  {
    hide WorkStep, PreparedStep, RecordStep, IsQueue, Copies, At;
    if e.Work? {
      if s.phase.Idle? && s.work != [] { WorkQuiet(s, e); }
    } else if e.Prepared? {
      PreparedQuiet(s, e);
    } else if e.Record? {
      RecordQuiet(s, e);
    }
  }

  /** Submissions enter the history with their directories, and never change. */
  lemma {:induction false} SubmittedThen(s: State, e: Event, id: Id)
    requires id in Step(s, e).past.submitted
    ensures if id in s.past.submitted then Step(s, e).past.submitted[id] == s.past.submitted[id]
            else e.MakeDir? && Step(s, e).past.submitted[id] == e.input
  {
    hide SubmitStep, AskStep, WorkerStep, LoadStep, NewJob, At;
    if e.Load? {
      LoadQuiet(s, e);
    } else if e.Submit? {
      SubmitQuiet(s, e);
    } else if e.Ask? {
      AskQuiet(s, e);
    } else if !e.MakeDir? && !e.MoveBundle? && !e.RemoveDir? {
      WorkerSubmits(s, e);
    }
  }

  /** Every submission on record came with its upload. */
  lemma {:induction false} SubmissionHasEvent(remote: map<Target, Oid>, es: seq<Event>, id: Id) returns (n: nat)
    requires id in Run(remote, es).past.submitted
    ensures n < |es| && es[n].MakeDir? && Run(remote, es).past.submitted[id] == es[n].input
  {
    hide Step;
    var before, last := es[..|es| - 1], |es| - 1;
    SubmittedThen(Run(remote, before), es[last], id);
    if id in Run(remote, before).past.submitted {
      n := SubmissionHasEvent(remote, before, id);
      assert before[n] == es[n];
    } else {
      n := last;
    }
  }

  lemma {:induction false} Utf8Injective(a: string, b: string)
    ensures Utf8(a) == Utf8(b) <==> a == b
  {
    LossyKeepsText(a);
    LossyKeepsText(b);
  }

  /** Well-formed submissions with the same fields ask for the same: branch, objects, bundle and credential. */
  lemma {:induction false} SameFields(j: string, a: Submission, k: string, b: Submission)
    requires WellFormed(j, a) && WellFormed(k, b)
    ensures Fields(a) == Fields(b) <==>
      && a.target == b.target && a.base == b.base && a.expected == b.expected
      && a.bundle.digest == b.bundle.digest && a.binding == b.binding
  {
    hide Utf8, RepositoryOk, BranchOk;
    forall x, y ensures Utf8(x) == Utf8(y) <==> x == y { Utf8Injective(x, y); }
  }

  // ---------------------------------------------------------------- decided and pushed

  /** Every push that starts was allowed in the same broker run; and if by a decision, then every request with the
      fingerprint that was decided on is, field by field, the one whose branch,
        expected object and bundle are pushed. */
  lemma {:induction false} PushedAsDecided(digest: F.Digest, remote: map<Target, Oid>, es: seq<Event>, e: Event)
    returns (n: nat, g: Grant)
    requires Starts(Run(remote, es), e) && F.Injective(digest) && Hashed(digest, es)
    ensures n < |es| && Issued(Run(remote, es[..n]), es[n], g)
    ensures var s := Run(remote, es);
      && !s.phase.Idle? && var id := s.phase.job.id;
      && id in s.disk && id in Step(s, e).inflight && g.run == s.run && g.id == id
      && ReviewMatches(Step(s, e).inflight[id], s.disk[id].request)
      && (g.reason.Decided? ==>
            forall shown | F.AllFit(F.PushFields(shown)) && Fingerprint(digest, shown) == g.reason.fingerprint ::
              shown == Fields(s.disk[id].request))
  {
    hide Step, Starts, Issued, Fields, F.PushFields, F.Injective;
    n, g := PushWasAllowed(remote, es, e);
    PushIsDurable(remote, es, e);
    RunKeeps(remote, es);
    var s := Run(remote, es);
    var id := s.phase.job.id;
    assert JobOk(id, s.disk[id], s.past);
    var k := SubmissionHasEvent(remote, es, id);
    var wanted := Fields(s.disk[id].request);
    if g.reason.Decided? {
      forall shown | F.AllFit(F.PushFields(shown)) && Fingerprint(digest, shown) == g.reason.fingerprint
        ensures shown == wanted
      {
        F.SamePush(digest, shown, wanted);
      }
    }
  }
}
