/** What a job's fingerprint commits to: whoever decides on a fingerprint has decided on the very request that is
    sent. */
module JobFingerprints {
  import opened ResultText
  import opened Pruning
  import opened JobRuns
  import opened JobSafety
  import C = Compaction
  import F = Fingerprints

  const ENDPOINT: string := "https://api.github.com/graphql"

  /** The request that sends a body. */
  function Outgoing(body: string): F.HttpRequest {
    F.HttpRequest(Utf8("POST"), Utf8(ENDPOINT), [F.Header(Utf8("content-type"), Utf8("application/json"))], Utf8(body))
  }

  function Fingerprint(digest: F.Digest, r: F.HttpRequest): string { digest(F.Encode(F.RequestFields(r))) }

  /** A submission with the fingerprint that the broker computes. */
  function Identified(digest: F.Digest, w: Submittal): Submittal {
    w.(fingerprint := Fingerprint(digest, Outgoing(Body(w))))
  }

  /** The loop of `from_request_with_limit`. */
  method Compute(digest: F.Digest, r: F.HttpRequest) returns (fingerprint: string)
    ensures fingerprint == Fingerprint(digest, r)
  {
    var hashed := F.Feed(F.RequestFields(r));
    fingerprint := digest(hashed);
  }

  /** Every submission has the fingerprint of the request that would send its body. */
  ghost predicate Hashed(digest: F.Digest, es: seq<Event>) {
    forall i | 0 <= i < |es| && es[i].Submit? ::
      es[i].what.fingerprint == Fingerprint(digest, Outgoing(Body(es[i].what)))
  }

  // ---------------------------------------------------------------- sizes

  lemma {:induction false} Utf8Bytes(s: string)
    ensures |Utf8(s)| == C.Bytes(s) <= 4 * |s|
  {
    if s != [] { Utf8Bytes(s[1..]); }
  }

  lemma {:induction false} OutgoingFits(body: string)
    requires C.Bytes(body) <= MAX_PAYLOAD
    ensures F.AllFit(F.RequestFields(Outgoing(body)))
  {
    Utf8Bytes("POST");
    Utf8Bytes(ENDPOINT);
    Utf8Bytes("content-type");
    Utf8Bytes("application/json");
    Utf8Bytes(body);
    hide Utf8, C.Bytes;
    var r := Outgoing(body);
    assert F.HeaderFields(r.headers) == [r.headers[0].name, r.headers[0].value] by { assert r.headers[1..] == []; }
    assert F.RequestFields(r) == [r.verb, r.url, r.headers[0].name, r.headers[0].value, r.body];
  }

  // ---------------------------------------------------------------- submissions

  lemma {:induction false} NewSubmission(s: State, e: Event, id: Id)
    requires id !in s.submitted && id in Step(s, e).submitted
    ensures Admissible(s, e) && e.id == id && Step(s, e).submitted[id] == Submitted(e.what)
  {
    hide Accepted, Submitted, SubmitStep, WorkStep, SubmitEdit, RequestEdit, RecordEdit;
    if s.up && e.Submit? {
      SubmissionAdded(s, e);
    } else if s.up && e.Work? && s.work != [] {
      WorkHistory(s, e);
    }
  }

  /** Every submission on record came with an accepted event. */
  lemma {:induction false} SubmissionHasEvent(es: seq<Event>, id: Id) returns (n: nat)
    requires id in Run(es).submitted
    ensures n < |es| && es[n].Submit? && Accepted(es[n].what) && Run(es).submitted[id] == Submitted(es[n].what)
  {
    hide Accepted, Submitted, Step;
    var before, last := es[..|es| - 1], |es| - 1;
    if id in Run(before).submitted {
      n := SubmissionHasEvent(before, id);
      SubmissionsLast(Run(before), es[last], id);
      assert before[n] == es[n];
    } else {
      NewSubmission(Run(before), es[last], id);
      n := last;
    }
  }

  // ---------------------------------------------------------------- decided and sent

  /** Every send was allowed in the same broker run; and if by a decision, then every request with the fingerprint that
      was decided on is, in its method, URL, headers and body, the request that is sent. */
  lemma {:induction false} SentAsDecided(digest: F.Digest, es: seq<Event>, i: nat) returns (n: nat, g: Grant)
    requires i < |Run(es).sends| && F.Injective(digest) && Hashed(digest, es)
    ensures n < |es| && Issued(Run(es[..n]), es[n], g)
    ensures var x := Run(es).sends[i]; g.run == x.run && g.id == x.id
    ensures g.reason.Decided? ==>
      forall shown | F.AllFit(F.RequestFields(shown)) && Fingerprint(digest, shown) == g.reason.fingerprint ::
        shown == Outgoing(Run(es).sends[i].body)
  {
    hide Accepted, Step, Issued, StoreOk, ApprovedOk, PhaseOk, F.RequestFields, F.Injective, Outgoing;
    n, g := SendWasAllowed(es, i);
    RunKeeps(es);
    assert SendOk(Run(es).sends[i], Run(es));
    var x := Run(es).sends[i];
    var k := SubmissionHasEvent(es, x.id);
    BodyFits(es[k].what);
    OutgoingFits(x.body);
    if g.reason.Decided? {
      forall shown | F.AllFit(F.RequestFields(shown)) && Fingerprint(digest, shown) == g.reason.fingerprint
        ensures shown == Outgoing(x.body)
      {
        F.SameRequest(digest, shown, Outgoing(x.body));
      }
    }
  }

  lemma {:induction false} BodyFits(w: Submittal)
    requires Accepted(w)
    ensures C.Bytes(Body(w)) <= MAX_PAYLOAD
  {
  }
}
