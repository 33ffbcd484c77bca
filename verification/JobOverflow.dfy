/** A run in which the outcome of a job is lost because the store is full. */
module JobOverflow {
  import opened Outcome
  import opened ResultText
  import opened Statuses
  import opened Pruning
  import opened JobStore
  import opened JobRuns
  import opened JobSafety
  import G = Requests
  import P = Printer
  import C = Compaction

  // ---------------------------------------------------------------- requests of a known size

  function Letters(n: nat): (r: string)
    ensures |r| == n
  {
    seq(n, _ => 'a')
  }

  function Spelled(n: nat): G.Envelope { G.Envelope(Letters(n), None, None) }

  lemma {:induction false} BytesAdd(a: string, b: string)
    ensures C.Bytes(a + b) == C.Bytes(a) + C.Bytes(b) && Escaped(a + b) == Escaped(a) + Escaped(b)
  {
    if a == [] {
      assert a + b == b;
    } else {
      assert (a + b)[1..] == a[1..] + b;
      BytesAdd(a[1..], b);
    }
  }

  lemma {:induction false} LettersAreThemselves(n: nat, tail: string)
    ensures P.Escaped(Letters(n), tail) == Letters(n) + tail
    ensures C.Bytes(Letters(n)) == n && Escaped(Letters(n)) == n
  {
    if n > 0 {
      assert Letters(n)[1..] == Letters(n - 1);
      LettersAreThemselves(n - 1, tail);
      assert Letters(n) + tail == "a" + (Letters(n - 1) + tail);
    }
  }

  ghost predicate Measures(s: string, bytes: nat, escaped: nat) { C.Bytes(s) == bytes && Escaped(s) == escaped }

  lemma {:induction false} Joins(a: string, b: string, bytes: nat, escaped: nat, more: nat, most: nat)
    requires Measures(a, bytes, escaped) && Measures(b, more, most)
    ensures Measures(a + b, bytes + more, escaped + most)
  {
    BytesAdd(a, b);
  }

  lemma {:induction false} HeadPieces()
    ensures Measures("{\"op", 4, 5) && Measures("erat", 4, 4)
  {
  }

  lemma {:induction false} NamePieces()
    ensures Measures("ionN", 4, 4) && Measures("ame\":", 5, 6)
  {
  }

  lemma {:induction false} Shared()
    ensures Measures("null", 4, 4) && Measures("}", 1, 1) && Measures("\"", 1, 2)
  {
  }

  lemma {:induction false} HeadMeasures()
    ensures Measures("{\"operationName\":" + "null", 21, 23)
  {
    hide Measures;
    HeadPieces();
    NamePieces();
    Shared();
    Joins("{\"op", "erat", 4, 5, 4, 4);
    Joins("ionN", "ame\":", 4, 4, 5, 6);
    Joins("{\"op" + "erat", "ionN" + "ame\":", 8, 9, 9, 10);
    assert "{\"operationName\":" == ("{\"op" + "erat") + ("ionN" + "ame\":");
    Joins("{\"operationName\":", "null", 17, 19, 4, 4);
  }

  lemma {:induction false} MiddlePieces()
    ensures Measures(",\"que", 5, 6) && Measures("ry\":", 4, 5)
  {
  }

  lemma {:induction false} MiddleMeasures()
    ensures Measures(",\"query\":" + "\"", 10, 13)
  {
    hide Measures;
    MiddlePieces();
    Shared();
    Joins(",\"que", "ry\":", 5, 6, 4, 5);
    assert ",\"query\":" == ",\"que" + "ry\":";
    Joins(",\"query\":", "\"", 9, 11, 1, 2);
  }

  lemma {:induction false} VariablePieces()
    ensures Measures(",\"va", 4, 5) && Measures("riab", 4, 4)
  {
  }

  lemma {:induction false} EndPieces()
    ensures Measures("les", 3, 3) && Measures("\":", 2, 3)
  {
  }

  lemma {:induction false} EndMeasures()
    ensures Measures("\"" + (",\"variables\":" + ("null" + "}")), 19, 22)
  {
    hide Measures;
    VariablePieces();
    EndPieces();
    Shared();
    Joins(",\"va", "riab", 4, 5, 4, 4);
    Joins("les", "\":", 3, 3, 2, 3);
    Joins(",\"va" + "riab", "les" + "\":", 8, 9, 5, 6);
    assert ",\"variables\":" == (",\"va" + "riab") + ("les" + "\":");
    Joins("null", "}", 4, 4, 1, 1);
    Joins(",\"variables\":", "null" + "}", 13, 15, 5, 5);
    Joins("\"", ",\"variables\":" + ("null" + "}"), 1, 2, 18, 20);
  }

  lemma {:induction false} SpelledText(n: nat)
    ensures G.BodyText(Spelled(n)) == ("{\"operationName\":" + "null" + (",\"query\":" + "\""))
                                      + (Letters(n) + ("\"" + (",\"variables\":" + ("null" + "}"))))
  {
    var head, middle, end := "{\"operationName\":" + "null", ",\"query\":" + "\"",
      "\"" + (",\"variables\":" + ("null" + "}"));
    LettersAreThemselves(n, end);
    var rest := P.Escaped(Letters(n), end);
    assert G.BodyText(Spelled(n)) == "{\"operationName\":" + ("null" + (",\"query\":" + ("\"" + rest)));
    assert "{\"operationName\":" + ("null" + (",\"query\":" + ("\"" + rest))) == (head + middle) + rest;
  }

  /** The body around `n` letters has 50 more bytes, and 58 more inside a JSON string. */
  lemma {:induction false} SpelledMeasures(n: nat)
    ensures Measures(G.BodyText(Spelled(n)), n + 50, n + 58)
  {
    var head, middle, end := "{\"operationName\":" + "null", ",\"query\":" + "\"",
      "\"" + (",\"variables\":" + ("null" + "}"));
    hide Measures, G.BodyText, P.Escaped, C.Bytes, Escaped;
    HeadMeasures();
    MiddleMeasures();
    EndMeasures();
    LettersMeasure(n);
    Joins(head, middle, 21, 23, 10, 13);
    Joins(Letters(n), end, n, n, 19, 22);
    Joins(head + middle, Letters(n) + end, 31, 36, n + 19, n + 22);
    SpelledText(n);
  }

  lemma {:induction false} LettersMeasure(n: nat)
    ensures Measures(Letters(n), n, n)
  {
    LettersAreThemselves(n, []);
  }

  lemma {:induction false} LegibleJoin(a: string, b: string)
    requires Legible(a) && Legible(b)
    ensures Legible(a + b)
  {
  }

  lemma {:induction false} SpelledIsLegible(n: nat)
    ensures Legible(G.BodyText(Spelled(n)))
  {
    assert Legible("{\"operationName\":") && Legible("null") && Legible(",\"query\":") && Legible("\"");
    assert Legible(",\"variables\":") && Legible("}") && Legible(Letters(n));
    hide Legible, G.BodyText;
    LegibleJoin("{\"operationName\":", "null");
    LegibleJoin(",\"query\":", "\"");
    LegibleJoin("{\"operationName\":" + "null", ",\"query\":" + "\"");
    LegibleJoin("null", "}");
    LegibleJoin(",\"variables\":", "null" + "}");
    LegibleJoin("\"", ",\"variables\":" + ("null" + "}"));
    LegibleJoin(Letters(n), "\"" + (",\"variables\":" + ("null" + "}")));
    LegibleJoin("{\"operationName\":" + "null" + (",\"query\":" + "\""),
                Letters(n) + ("\"" + (",\"variables\":" + ("null" + "}"))));
    SpelledText(n);
  }

  // ---------------------------------------------------------------- filling the store

  const OWNER: Owner := Owner("guest", 0, 0, "session")
  const CALLER: Caller := Caller("guest", 0, "session")

  /** The letters of each request that fills the store; its body is within the 10 MiB of a payload. */
  const LETTERS: nat := 10135465
  const FILLERS: nat := 12

  /** The bytes of `k` such records. */
  function Bulk(k: nat): nat { k * 20272034 }

  /** A submission of `n` letters; the record holds the query a second time. */
  function Asked(n: nat, allowAll: bool): Submittal {
    Submittal(OWNER, "key", Spelled(n), "fingerprint", false, allowAll, true, true)
  }

  function Meta(n: nat): nat { n + 1000 }

  function JobFor(id: Id, n: nat, status: Status): Job {
    Job(id, OWNER, G.BodyText(Spelled(n)), "fingerprint", status, 0, REVIEW_TIME, None, None, Meta(n))
  }

  lemma {:induction false} AskedIsAccepted(n: nat, allowAll: bool)
    requires 0 < n <= LETTERS
    ensures Accepted(Asked(n, allowAll))
  {
    SpelledMeasures(n);
    SpelledIsLegible(n);
    hide Legible, G.BodyText;
    assert C.Bytes("key") == 3 && C.Bytes("session") == 7;
  }

  lemma {:induction false} JobForSize(id: Id, n: nat, status: Status)
    ensures JobSize(JobFor(id, n, status)) == 2 * n + 1064
  {
    SpelledMeasures(n);
  }

  /** One job more. */
  lemma {:induction false} UsageAdd(m: Store, j: Job)
    requires j.id !in m
    ensures |m[j.id := j]| == |m| + 1 && Payload(m[j.id := j]) == Payload(m) + 40 + JobSize(j)
    ensures ActiveIds(m[j.id := j]) == ActiveIds(m) + if Active(j.status) then {j.id} else {}
  {
    hide JobSize, Payload;
    var next := m[j.id := j];
    PayloadUpdate(m, j.id, j);
    assert m - {j.id} == m && next - {j.id} == m;
    assert |next.Keys - {j.id}| == |next.Keys| - 1 && (next - {j.id}).Keys == next.Keys - {j.id};
  }

  function Fillers(k: nat): Store { map i: nat | 1 <= i <= k :: JobFor(i, LETTERS, Cancelled) }

  lemma {:induction false} FillersNext(k: nat)
    ensures Fillers(k + 1) == Fillers(k)[k + 1 := JobFor(k + 1, LETTERS, Cancelled)] && k + 1 !in Fillers(k)
  {
    hide JobFor;
  }

  lemma {:induction false} FillersSize(k: nat)
    ensures Payload(Fillers(k)) == Bulk(k) && ActiveIds(Fillers(k)) == {} && |Fillers(k)| == k
  {
    hide ShortEscape, Letters;
    if k == 0 {
      assert Fillers(0) == map[];
    } else {
      FillersSize(k - 1);
      JobForSize(k, LETTERS, Cancelled);
      hide JobSize, Payload, Fillers, ActiveIds;
      FillersNext(k - 1);
      UsageAdd(Fillers(k - 1), JobFor(k, LETTERS, Cancelled));
    }
  }

  /** The fillers and one more job. */
  lemma {:induction false} UsageWith(k: nat, id: Id, n: nat, status: Status)
    requires id !in Fillers(k)
    ensures var m := Fillers(k)[id := JobFor(id, n, status)];
      && |m| == k + 1 && ActiveIds(m) == (if Active(status) then {id} else {})
      && Usage(m) == 22 + Bulk(k) + 2 * n + 1104 + if Active(status) then RESERVE else 0
  {
    hide JobSize, Payload, Fillers, ActiveIds;
    FillersSize(k);
    JobForSize(id, n, status);
    UsageAdd(Fillers(k), JobFor(id, n, status));
    assert |ActiveIds(Fillers(k)[id := JobFor(id, n, status)])| == if Active(status) then 1 else 0;
  }

  lemma {:induction false} NothingIsPruned(m: Store, now: int)
    requires Within(m)
    ensures PrunedJobs(m, now) == Some(m)
  {
    PruningStarts(m, Slots(m, now), Within);
    PruningEnds(m, Slots(m, now), m, Within);
  }

  lemma {:induction false} NoneOfGuest(m: Store)
    requires ActiveIds(m) == {}
    ensures ActiveOf(m, "guest") == {}
  {
    assert ActiveOf(m, "guest") <= ActiveIds(m);
  }

  function FillEvent(k: Id): Event { Submit(k, Asked(LETTERS, false), 0, Meta(LETTERS), Succeeds) }

  function DropEvent(k: Id): Event { Ask(k, Cancel(CALLER), 0, Meta(LETTERS), Succeeds) }

  /** The broker after `k` requests were submitted and cancelled. */
  ghost predicate Filled(s: State, k: nat) {
    && s.up && s.memory == Fillers(k) && s.disk == Fillers(k) && s.phase == Idle && s.work == []
    && forall i :: i in s.submitted ==> 1 <= i <= k
  }

  /** One more submission is committed as it is. */
  lemma {:induction false} SubmissionFits(s: State, k: nat, id: Id, n: nat, allowAll: bool)
    requires Filled(s, k) && id !in s.submitted && id !in Fillers(k) && 0 < n <= LETTERS && k <= FILLERS
    requires k < FILLERS || n == 1
    ensures var status := if allowAll then Approved else Pending;
      var e := Submit(id, Asked(n, allowAll), 0, Meta(n), Succeeds);
      var next := Fillers(k)[id := JobFor(id, n, status)];
      Step(s, e) == Registered(s, e).(memory := next, disk := next)
  {
    hide G.BodyText, Accepted, PrunedJobs, Usage, Registered, Fillers, ActiveIds;
    var status := if allowAll then Approved else Pending;
    var e := Submit(id, Asked(n, allowAll), 0, Meta(n), Succeeds);
    var j := JobFor(id, n, status);
    var next := Fillers(k)[id := j];
    AskedIsAccepted(n, allowAll);
    FillersSize(k);
    UsageWith(k, id, n, status);
    assert Within(next);
    NothingIsPruned(next, 0);
    assert NewJob(e) == j;
    NoneOfGuest(Fillers(k));
    assert SubmitEdit(s.memory, j, 0) == Some(next);
  }

  lemma {:induction false} DropOne(t: State, k: nat)
    requires t.up && k < FILLERS && t.memory == Fillers(k)[k + 1 := JobFor(k + 1, LETTERS, Pending)]
    ensures Step(t, DropEvent(k + 1)) == t.(memory := Fillers(k + 1), disk := Fillers(k + 1))
  {
    FillersNext(k);
    hide G.BodyText, Usage, JobSize, Fillers;
    UsageWith(k, k + 1, LETTERS, Cancelled);
    assert Set(t.memory[k + 1], Cancelled, 0, Meta(LETTERS)) == JobFor(k + 1, LETTERS, Cancelled);
    assert t.memory[k + 1 := JobFor(k + 1, LETTERS, Cancelled)] == Fillers(k + 1);
    assert RequestEdit(t.memory, k + 1, Cancel(CALLER), 0, Meta(LETTERS)) == Some(Fillers(k + 1));
  }

  lemma {:induction false} FillOne(s: State, k: nat)
    requires Filled(s, k) && k < FILLERS
    ensures Filled(Step(Step(s, FillEvent(k + 1)), DropEvent(k + 1)), k + 1)
  {
    FillersNext(k);
    hide Step, JobFor, Fillers, Submitted, SubmitGrants;
    SubmissionFits(s, k, k + 1, LETTERS, false);
    DropOne(Step(s, FillEvent(k + 1)), k);
  }

  function FillEvents(k: nat): seq<Event> {
    if k == 0 then [Load(0, _ => 0, Succeeds)] else FillEvents(k - 1) + [FillEvent(k), DropEvent(k)]
  }

  lemma {:induction false} RunTwice(es: seq<Event>, a: Event, b: Event)
    ensures Run(es + [a, b]) == Step(Step(Run(es), a), b)
  {
    hide Step;
    assert es + [a, b] == es + [a] + [b];
    assert (es + [a] + [b])[..|es| + 1] == es + [a];
    assert (es + [a])[..|es|] == es;
  }

  lemma {:induction false} FillRuns(k: nat)
    requires k <= FILLERS
    ensures Filled(Run(FillEvents(k)), k)
  {
    hide Filled, Step, FillEvent, DropEvent;
    if k == 0 {
      EmptyLoads();
    } else {
      FillRuns(k - 1);
      RunTwice(FillEvents(k - 1), FillEvent(k), DropEvent(k));
      FillOne(Run(FillEvents(k - 1)), k - 1);
    }
  }

  lemma {:induction false} EmptyLoads()
    ensures Filled(Run(FillEvents(0)), 0)
  {
    hide ReadOnlyQuery;
    var es := FillEvents(0);
    assert es[..0] == [] && Run(es) == Step(START, es[0]);
    assert LoadEdit(map[], 0, es[0].metas) == map[] && ActiveIds(map[]) == {};
    assert Fillers(0) == map[];
  }

  // ---------------------------------------------------------------- the request whose outcome is lost

  const SEND_EVENTS: seq<Event> := [Submit(0, Asked(1, true), 0, Meta(1), Succeeds), BeginTick([0]),
    Work(0, true, true, true, 0, Meta(1), Succeeds), Transmit]

  /** Twelve requests submitted and cancelled, and a thirteenth that is sent. */
  function LostEvents(): seq<Event> { FillEvents(FILLERS) + SEND_EVENTS }

  function Holding(status: Status): Store { Fillers(FILLERS)[0 := JobFor(0, 1, status)] }

  /** The store is full to the last byte. */
  lemma {:induction false} HoldingIsFull(status: Status)
    requires Active(status)
    ensures Usage(Holding(status)) == MAX_STORAGE
  {
    UsageWith(FILLERS, 0, 1, status);
  }

  lemma {:induction false} Queue(s: State)
    requires s.up && s.memory == Holding(Approved) && s.phase == Idle && s.work == []
    ensures Step(s, SEND_EVENTS[1]) == s.(work := [JobFor(0, 1, Approved)])
  {
    hide G.BodyText, ReadOnlyQuery;
    assert IsQueue(s.memory, [0]);
    assert Copies(s.memory, [0]) == [s.memory[0]];
  }

  lemma {:induction false} Dispatch(s: State)
    requires s.up && s.memory == Holding(Approved) && s.phase == Idle && s.work == [JobFor(0, 1, Approved)]
    ensures var t := Step(s, SEND_EVENTS[2]);
      t.up && t.disk == Holding(Sending) && t.phase == Admitted(JobFor(0, 1, Approved))
  {
    hide G.BodyText, Usage, Fillers, ReadOnlyQuery;
    HoldingIsFull(Sending);
    var job := JobFor(0, 1, Approved);
    assert Set(job, Sending, 0, Meta(1)) == JobFor(0, 1, Sending);
    assert Holding(Approved)[0 := JobFor(0, 1, Sending)] == Holding(Sending);
    assert AdmitEdit(s.memory, 0, 0, Meta(1)) == Holding(Sending);
    assert Admits(s.memory, 0, 0);
  }

  lemma {:induction false} Enter(s: State)
    requires Filled(s, FILLERS)
    ensures var t := Step(s, SEND_EVENTS[0]); t.up && t.memory == Holding(Approved) && t.phase == Idle && t.work == []
  {
    assert 0 !in Fillers(FILLERS);
    hide Fillers, JobFor, Step, Submitted, SubmitGrants;
    SubmissionFits(s, FILLERS, 0, 1, true);
  }

  lemma {:induction false} Sent(s: State)
    requires Filled(s, FILLERS)
    ensures var t := Step(Step(Step(Step(s, SEND_EVENTS[0]), SEND_EVENTS[1]), SEND_EVENTS[2]), Transmit);
      t.up && t.disk == Holding(Sending) && t.phase == Awaiting(JobFor(0, 1, Approved))
  {
    hide Filled, JobFor, Holding, SubmitStep, BeginStep, WorkStep;
    Enter(s);
    var a := Step(s, SEND_EVENTS[0]);
    Queue(a);
    Dispatch(Step(a, SEND_EVENTS[1]));
  }

  lemma {:induction false} LostRuns()
    ensures var s := Run(LostEvents());
      s.up && s.disk == Holding(Sending) && s.phase == Awaiting(JobFor(0, 1, Approved))
  {
    hide Run, Step, Filled, Holding, JobFor;
    FillRuns(FILLERS);
    Sent(Run(FillEvents(FILLERS)));
    RunTwice(FillEvents(FILLERS), SEND_EVENTS[0], SEND_EVENTS[1]);
    RunTwice(FillEvents(FILLERS) + SEND_EVENTS[..2], SEND_EVENTS[2], SEND_EVENTS[3]);
    assert SEND_EVENTS[..2] == [SEND_EVENTS[0], SEND_EVENTS[1]] && SEND_EVENTS[2..] == [SEND_EVENTS[2], SEND_EVENTS[3]];
    assert LostEvents() == FillEvents(FILLERS) + SEND_EVENTS[..2] + SEND_EVENTS[2..];
  }

  /** The longest reply, with `growth` bytes of other things to keep. */
  function LongReply(now: int, growth: nat): Event {
    Record(Complete(Zeros(MAX_RESULT), 200, false), now, Meta(1) + growth, Succeeds)
  }

  /** Although every body was within its limit and the write succeeds, the outcome of a request that was sent is not
      recorded once the reply and what is kept about it are too long. */
  lemma {:induction false} OutcomeIsLost(now: int, growth: nat)
    ensures var s := Run(LostEvents());
      var t := Step(s, LongReply(now, growth));
      && s.up && s.phase.Awaiting? && 0 in s.disk && s.disk[0].status.Sending?
      && 0 in t.disk && t.disk[0].status == (if growth <= 4098 then ResponseReceived else Sending)
  {
    hide G.BodyText, Usage, Step, JobSize, LostEvents;
    LostRuns();
    OutcomeRecordedIff(LostEvents(), LongReply(now, growth));
    HoldingIsFull(Sending);
    JobForSize(0, 1, Sending);
    AnswerSize(now, growth);
  }

  lemma {:induction false} AnswerSize(now: int, growth: nat)
    ensures var e := LongReply(now, growth);
      JobSize(Answered(JobFor(0, 1, Sending), e.reply, now, e.meta)) == 2 + 1064 + growth + 6 * MAX_RESULT - 2
  {
    hide Zeros, Lossy;
    SpelledMeasures(1);
    ZerosCost(MAX_RESULT);
  }
}
