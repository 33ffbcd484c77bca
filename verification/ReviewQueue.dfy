/** The one-shot review queue: waiting requests, the bounded history, and the channel on which each waiter gets
    its decision. */
module ReviewQueue {
  import opened Statuses
  import Pruning

  const MAX_PENDING: nat := 32
  const MAX_PER_GUEST: nat := 8
  /** Seconds. */
  const WAIT_LIMIT: int := 120
  const HISTORY_LIMIT: nat := 100

  type Id = nat

  /** A waiter's channel: each enqueued request gets a new one. */
  type Channel = nat

  datatype Decision = Approve | Deny

  datatype Entry = Entry(container: string, fingerprint: string, channel: Channel, deadline: int)

  datatype Item = Item(id: Id, channel: Channel, status: Status)

  /** `sent` holds what the waiters were told, `closed` the channels whose waiter is gone. */
  datatype Data = Data(pending: map<Id, Entry>, recent: seq<Item>, sent: map<Channel, Decision>, closed: set<Channel>,
                       next: Channel)

  predicate Active(s: Status) { s.Preparing? || s.Pending? || s.Approved? || s.Sending? }

  predicate Received(s: Status) { s.ResponseReceived? }

  /** Outcomes that a late callback must not change. */
  predicate Final(s: Status) { s.Denied? || s.Expired? || s.Cancelled? }

  // ---------------------------------------------------------------- operations

  /** How many of the oldest items are too many. */
  function Excess(recent: seq<Item>): (n: nat)
    ensures n <= |recent| && |recent| - n <= HISTORY_LIMIT
  {
    if |recent| > HISTORY_LIMIT then |recent| - HISTORY_LIMIT else 0
  }

  function Trimmed(recent: seq<Item>): seq<Item> { recent[Excess(recent)..] }

  /** Move a waiting request to the history. */
  function Archive(q: Data, id: Id, status: Status): Data {
    if id !in q.pending then q
    else q.(pending := q.pending - {id}, recent := Trimmed(q.recent + [Item(id, q.pending[id].channel, status)]))
  }

  predicate Known(q: Data, id: Id) { id in q.pending || exists i :: 0 <= i < |q.recent| && q.recent[i].id == id }

  ghost function Guests(q: Data, container: string): set<Id> {
    set k | k in q.pending && q.pending[k].container == container
  }

  ghost predicate Admissible(q: Data, id: Id, container: string) {
    !Known(q, id) && |q.pending| < MAX_PENDING && |Guests(q, container)| < MAX_PER_GUEST
  }

  ghost function Enqueue(q: Data, id: Id, container: string, fingerprint: string, now: int): Data {
    if !Admissible(q, id, container) then q
    else q.(pending := q.pending[id := Entry(container, fingerprint, q.next, now + WAIT_LIMIT)], next := q.next + 1)
  }

  /** `late` is a waiter that leaves between the check and the send. */
  function Decide(q: Data, id: Id, fingerprint: string, decision: Decision, now: int, late: bool): Data {
    if id !in q.pending || q.pending[id].fingerprint != fingerprint then q
    else
      var entry := q.pending[id];
      if entry.deadline <= now then Archive(q, id, Expired)
      else if entry.channel in q.closed then Archive(q, id, Cancelled)
      else
        var t := Archive(q, id, if decision.Approve? then Approved else Denied);
        if late then t.(closed := q.closed + {entry.channel}) else t.(sent := q.sent[entry.channel := decision])
  }

  /** The item of an id in the history gets a new status, if its current one allows it. */
  function Refine(recent: seq<Item>, id: Id, from: Status -> bool, status: Status): seq<Item> {
    seq(|recent|, i requires 0 <= i < |recent| =>
      if recent[i].id == id && from(recent[i].status) then recent[i].(status := status) else recent[i])
  }

  function Observe(q: Data, id: Id, status: Status): Data { q.(recent := Refine(q.recent, id, Active, status)) }

  function ResponseDetail(q: Data, id: Id, status: Status): Data {
    q.(recent := Refine(q.recent, id, Received, status))
  }

  /** Archive several requests, in the given order. */
  function ArchiveAll(q: Data, ids: seq<Id>, status: Status): Data
    decreases |ids|
  {
    if ids == [] then q else Archive(ArchiveAll(q, ids[..|ids| - 1], status), ids[|ids| - 1], status)
  }

  /** The requests of a container, each once. */
  ghost predicate ListsGuests(q: Data, ids: seq<Id>, container: string) {
    (forall k :: k in Guests(q, container) <==> k in ids) && forall i, j :: 0 <= i < j < |ids| ==> ids[i] != ids[j]
  }

  lemma {:induction false} ArchivedAll(q: Data, ids: seq<Id>, status: Status)
    ensures ArchiveAll(q, ids, status).pending == q.pending - (set k | k in ids)
    decreases |ids|
  {
    if ids != [] {
      ArchivedAll(q, ids[..|ids| - 1], status);
      assert ids == ids[..|ids| - 1] + [ids[|ids| - 1]];
    }
  }

  /** Afterwards none of the container's requests waits, and all others wait as before. */
  lemma {:induction false} ContainerCancelled(q: Data, ids: seq<Id>, container: string)
    requires ListsGuests(q, ids, container)
    ensures var t := ArchiveAll(q, ids, Cancelled);
      && Guests(t, container) == {}
      && forall k :: k in q.pending && q.pending[k].container != container ==>
         k in t.pending && t.pending[k] == q.pending[k]
  {
    ArchivedAll(q, ids, Cancelled);
  }

  function RemoveItem(recent: seq<Item>, id: Id): seq<Item> {
    if recent == [] then []
    else RemoveItem(recent[..|recent| - 1], id) + (if recent[|recent| - 1].id == id then [] else [recent[|recent| - 1]])
  }

  /** A guest removes a finished upload from the history. */
  function RemoveUpload(q: Data, id: Id): Data {
    if id in q.pending || exists i :: 0 <= i < |q.recent| && q.recent[i].id == id && Active(q.recent[i].status) then q
    else q.(recent := RemoveItem(q.recent, id))
  }

  // ---------------------------------------------------------------- runs

  /** `GiveUp` stands for every way in which a request stops waiting without a decision: time-out, a dropped
      ticket, a cancelled upload. */
  datatype Event =
    | EnqueueEvent(id: Id, container: string, fingerprint: string, now: int)
    | DecideEvent(id: Id, fingerprint: string, decision: Decision, now: int, late: bool)
    | ObserveEvent(id: Id, status: Status)
    | ResponseEvent(id: Id, status: Status)
    | GiveUp(id: Id, expired: bool)
    | CancelContainer(ids: seq<Id>, container: string)
    | RemoveEvent(id: Id)
    | Close(channel: Channel)

  ghost function Step(q: Data, e: Event): Data {
    match e
    case EnqueueEvent(id, container, fingerprint, now) => Enqueue(q, id, container, fingerprint, now)
    case DecideEvent(id, fingerprint, decision, now, late) => Decide(q, id, fingerprint, decision, now, late)
    case ObserveEvent(id, status) => Observe(q, id, status)
    case ResponseEvent(id, status) => ResponseDetail(q, id, status)
    case GiveUp(id, expired) => Archive(q, id, if expired then Expired else Cancelled)
    case CancelContainer(ids, container) =>
      if ListsGuests(q, ids, container) then ArchiveAll(q, ids, Cancelled) else q
    case RemoveEvent(id) => RemoveUpload(q, id)
    case Close(channel) => q.(closed := q.closed + {channel})
  }

  const START: Data := Data(map[], [], map[], {}, 0)

  ghost function Run(es: seq<Event>): Data {
    if es == [] then START else Step(Run(es[..|es| - 1]), es[|es| - 1])
  }

  // ---------------------------------------------------------------- the invariant

  ghost predicate Bounded(q: Data) {
    |q.pending| <= MAX_PENDING && (forall c :: |Guests(q, c)| <= MAX_PER_GUEST) && |q.recent| <= HISTORY_LIMIT
  }

  /** Ids and channels are used by at most one request, waiting or retained. */
  ghost predicate Separate(q: Data) {
    && (forall i, j :: 0 <= i < j < |q.recent| ==>
        q.recent[i].id != q.recent[j].id && q.recent[i].channel != q.recent[j].channel)
    && (forall i :: 0 <= i < |q.recent| ==> q.recent[i].id !in q.pending)
    && (forall i, k :: 0 <= i < |q.recent| && k in q.pending ==> q.recent[i].channel != q.pending[k].channel)
    && (forall j, k :: j in q.pending && k in q.pending && j != k ==> q.pending[j].channel != q.pending[k].channel)
  }

  ghost predicate Channels(q: Data) {
    && (forall i :: 0 <= i < |q.recent| ==> q.recent[i].channel < q.next)
    && (forall k :: k in q.pending ==> q.pending[k].channel < q.next && q.pending[k].channel !in q.sent)
    && (forall c :: c in q.sent ==> c < q.next)
  }

  ghost predicate Inv(q: Data) { Bounded(q) && Separate(q) && Channels(q) }

  lemma {:induction false} ArchiveBounded(q: Data, id: Id, status: Status)
    requires Bounded(q) && id in q.pending
    ensures Bounded(Archive(q, id, status))
  {
    var t := Archive(q, id, status);
    assert t.pending.Keys == q.pending.Keys - {id} && |t.pending| == |t.pending.Keys|
      && |q.pending| == |q.pending.Keys|;
    forall c ensures |Guests(t, c)| <= MAX_PER_GUEST { Pruning.SubsetSize(Guests(t, c), Guests(q, c)); }
  }

  lemma {:induction false} ArchiveSeparate(q: Data, id: Id, all: seq<Item>, status: Status, t: Data)
    requires Separate(q) && Channels(q) && id in q.pending && t == q.(pending := q.pending - {id}, recent := t.recent)
    requires all == q.recent + [Item(id, q.pending[id].channel, status)]
    requires t.recent == all[Excess(all)..]
    ensures Separate(t) && Channels(t)
  {
    hide Excess;
  }

  lemma {:induction false} ArchiveKeeps(q: Data, id: Id, status: Status)
    requires Inv(q)
    ensures Inv(Archive(q, id, status))
  {
    if id in q.pending {
      var t := Archive(q, id, status);
      ArchiveBounded(q, id, status);
      var all := q.recent + [Item(id, q.pending[id].channel, status)];
      ArchiveSeparate(q, id, all, status, t);
    }
  }

  lemma {:induction false} GuestsWith(q: Data, id: Id, e: Entry, t: Data, c: string)
    requires id !in q.pending && t.pending == q.pending[id := e]
    ensures Guests(t, c) == (if c == e.container then Guests(q, c) + {id} else Guests(q, c)) && id !in Guests(q, c)
  {
  }

  lemma {:induction false} GuestsAfter(q: Data, id: Id, e: Entry, t: Data, c: string)
    requires id !in q.pending && t.pending == q.pending[id := e]
    ensures |Guests(t, c)| == |Guests(q, c)| + if c == e.container then 1 else 0
  {
    hide Guests;
    GuestsWith(q, id, e, t, c);
  }

  lemma {:induction false} EnqueueBounded(q: Data, id: Id, e: Entry)
    requires Bounded(q) && id !in q.pending && |q.pending| < MAX_PENDING && |Guests(q, e.container)| < MAX_PER_GUEST
    ensures Bounded(q.(pending := q.pending[id := e], next := q.next + 1))
  {
    var t := q.(pending := q.pending[id := e], next := q.next + 1);
    forall c ensures |Guests(t, c)| <= MAX_PER_GUEST { GuestsAfter(q, id, e, t, c); }
  }

  lemma {:induction false} EnqueueSeparate(q: Data, id: Id, e: Entry)
    requires Separate(q) && Channels(q) && !Known(q, id) && e.channel == q.next
    ensures var t := q.(pending := q.pending[id := e], next := q.next + 1); Separate(t) && Channels(t)
  {
  }

  lemma {:induction false} EnqueueKeeps(q: Data, id: Id, container: string, fingerprint: string, now: int)
    requires Inv(q)
    ensures Inv(Enqueue(q, id, container, fingerprint, now))
  {
    if Admissible(q, id, container) {
      var e := Entry(container, fingerprint, q.next, now + WAIT_LIMIT);
      EnqueueBounded(q, id, e);
      EnqueueSeparate(q, id, e);
    }
  }

  lemma {:induction false} RefineKeeps(q: Data, id: Id, from: Status -> bool, status: Status)
    requires Inv(q)
    ensures Inv(q.(recent := Refine(q.recent, id, from, status)))
  {
    RefinedItems(q.recent, id, from, status);
    RecentKeeps(q, Refine(q.recent, id, from, status));
  }

  lemma {:induction false} RefinedItems(recent: seq<Item>, id: Id, from: Status -> bool, status: Status)
    ensures var r := Refine(recent, id, from, status);
      |r| == |recent| && forall i :: 0 <= i < |r| ==> r[i].id == recent[i].id && r[i].channel == recent[i].channel
  {
  }

  /** Statuses do not matter to the invariant. */
  lemma {:induction false} RecentKeeps(q: Data, r: seq<Item>)
    requires Inv(q) && |r| == |q.recent| && forall i :: 0 <= i < |r| ==>
      r[i].id == q.recent[i].id && r[i].channel == q.recent[i].channel
    ensures Inv(q.(recent := r))
  {
    var t := q.(recent := r);
    assert forall c :: Guests(t, c) == Guests(q, c);
  }

  lemma {:induction false} ArchiveAllKeeps(q: Data, ids: seq<Id>, status: Status)
    requires Inv(q)
    ensures Inv(ArchiveAll(q, ids, status))
    decreases |ids|
  {
    if ids != [] {
      ArchiveAllKeeps(q, ids[..|ids| - 1], status);
      ArchiveKeeps(ArchiveAll(q, ids[..|ids| - 1], status), ids[|ids| - 1], status);
    }
  }

  /** What is left is a subsequence: it keeps its order and its items. */
  lemma {:induction false} RemoveItemLeaves(recent: seq<Item>, id: Id)
    ensures var r := RemoveItem(recent, id);
      && |r| <= |recent| && (forall x :: x in r <==> x in recent && x.id != id)
      && ((forall i, j :: 0 <= i < j < |recent| ==>
           recent[i].id != recent[j].id && recent[i].channel != recent[j].channel)
          ==> (forall i, j :: 0 <= i < j < |r| ==> r[i].id != r[j].id && r[i].channel != r[j].channel))
    decreases |recent|
  {
    if recent != [] {
      var front, last := recent[..|recent| - 1], recent[|recent| - 1];
      RemoveItemLeaves(front, id);
      assert recent == front + [last];
    }
  }

  lemma {:induction false} RemoveUploadKeeps(q: Data, id: Id)
    requires Inv(q)
    ensures Inv(RemoveUpload(q, id))
  {
    hide RemoveItem;
    var t := RemoveUpload(q, id);
    RemoveItemLeaves(q.recent, id);
    forall i | 0 <= i < |t.recent| ensures t.recent[i] in q.recent { assert t.recent[i] in t.recent; }
    assert forall c :: Guests(t, c) == Guests(q, c);
  }

  /** Telling a waiter, or losing one, changes no entry. */
  lemma {:induction false} TellKeeps(q: Data, sent: map<Channel, Decision>, closed: set<Channel>)
    requires Inv(q) && forall c :: c in sent ==>
      c in q.sent || (c < q.next && forall k :: k in q.pending ==> q.pending[k].channel != c)
    ensures Inv(q.(sent := sent, closed := closed))
  {
    assert forall c :: Guests(q.(sent := sent, closed := closed), c) == Guests(q, c);
  }

  lemma {:induction false} DecideKeeps(q: Data, id: Id, fingerprint: string, decision: Decision, now: int, late: bool)
    requires Inv(q)
    ensures Inv(Decide(q, id, fingerprint, decision, now, late))
  {
    if id in q.pending && q.pending[id].fingerprint == fingerprint {
      var c := q.pending[id].channel;
      if q.pending[id].deadline <= now {
        ArchiveKeeps(q, id, Expired);
      } else if c in q.closed {
        ArchiveKeeps(q, id, Cancelled);
      } else {
        var t := Archive(q, id, if decision.Approve? then Approved else Denied);
        ArchiveKeeps(q, id, if decision.Approve? then Approved else Denied);
        if late { TellKeeps(t, t.sent, q.closed + {c}); } else { TellKeeps(t, q.sent[c := decision], t.closed); }
      }
    }
  }

  lemma {:induction false} StepKeeps(q: Data, e: Event)
    requires Inv(q)
    ensures Inv(Step(q, e))
  {
    hide Enqueue, Decide, Refine, ArchiveAll, RemoveUpload, Archive;
    match e
    case EnqueueEvent(id, container, fingerprint, now) => EnqueueKeeps(q, id, container, fingerprint, now);
    case DecideEvent(id, fingerprint, decision, now, late) => DecideKeeps(q, id, fingerprint, decision, now, late);
    case ObserveEvent(id, status) => RefineKeeps(q, id, Active, status);
    case ResponseEvent(id, status) => RefineKeeps(q, id, Received, status);
    case GiveUp(id, expired) => ArchiveKeeps(q, id, if expired then Expired else Cancelled);
    case CancelContainer(ids, container) => ArchiveAllKeeps(q, ids, Cancelled);
    case RemoveEvent(id) => RemoveUploadKeeps(q, id);
    case Close(channel) => assert forall c :: Guests(q.(closed := q.closed + {channel}), c) == Guests(q, c);
  }

  /** Over every run: bounded, and no id is both waiting and retained, or retained twice. */
  lemma {:induction false} RunKeeps(es: seq<Event>)
    ensures Inv(Run(es))
  {
    if es != [] {
      RunKeeps(es[..|es| - 1]);
      StepKeeps(Run(es[..|es| - 1]), es[|es| - 1]);
    } else {
      assert forall c :: Guests(START, c) == {};
    }
  }

  // ---------------------------------------------------------------- decisions

  /** The decision that a waiter was told: in time, for the exact fingerprint, while it was still waiting. */
  ghost predicate Decided(q: Data, e: Event, c: Channel, d: Decision) {
    && e.DecideEvent? && e.decision == d && e.id in q.pending && q.pending[e.id].channel == c
    && q.pending[e.id].fingerprint == e.fingerprint && e.now < q.pending[e.id].deadline && c !in q.closed
  }

  lemma {:induction false} ArchiveAllSent(q: Data, ids: seq<Id>, status: Status)
    ensures var t := ArchiveAll(q, ids, status); t.sent == q.sent && t.next == q.next && t.closed == q.closed
    ensures forall k :: k in ArchiveAll(q, ids, status).pending ==>
      k in q.pending && ArchiveAll(q, ids, status).pending[k] == q.pending[k]
    decreases |ids|
  {
    if ids != [] { ArchiveAllSent(q, ids[..|ids| - 1], status); }
  }

  lemma {:induction false} SentStep(q: Data, e: Event, c: Channel)
    requires Inv(q)
    ensures c in q.sent ==> c in Step(q, e).sent && Step(q, e).sent[c] == q.sent[c]
    ensures c in Step(q, e).sent && c !in q.sent ==> Decided(q, e, c, Step(q, e).sent[c])
  {
    if e.CancelContainer? { ArchiveAllSent(q, e.ids, Cancelled); }
  }

  /** Every decision that a waiter gets, in particular every approval, was made by one such call. */
  lemma {:induction false} DecisionHasEvent(es: seq<Event>, c: Channel) returns (n: nat)
    requires c in Run(es).sent
    ensures n < |es| && Decided(Run(es[..n]), es[n], c, Run(es).sent[c])
  {
    var last := |es| - 1;
    var q := Run(es[..last]);
    RunKeeps(es[..last]);
    SentStep(q, es[last], c);
    if c in q.sent {
      n := DecisionHasEvent(es[..last], c);
      assert es[..last][..n] == es[..n];
    } else {
      n := last;
    }
  }

  lemma {:induction false} RunStep(es: seq<Event>, e: Event)
    ensures Run(es + [e]) == Step(Run(es), e)
  {
    assert (es + [e])[..|es + [e]| - 1] == es;
  }

  /** A waiter gets at most one decision: once told, it is never told anything else. */
  lemma {:induction false} ToldOnce(es: seq<Event>, more: seq<Event>, c: Channel)
    requires c in Run(es).sent
    ensures c in Run(es + more).sent && Run(es + more).sent[c] == Run(es).sent[c]
    decreases |more|
  {
    if more == [] {
      assert es + more == es;
    } else {
      var before, e := es + more[..|more| - 1], more[|more| - 1];
      ToldOnce(es, more[..|more| - 1], c);
      RunKeeps(before);
      assert es + more == before + [e];
      RunStep(before, e);
      SentStep(Run(before), e, c);
    }
  }

  // ---------------------------------------------------------------- final outcomes

  /** The request of a channel is over with this outcome, whether or not it is still retained. */
  ghost predicate Settled(q: Data, c: Channel, status: Status) {
    && c < q.next && (forall k :: k in q.pending ==> q.pending[k].channel != c)
    && (forall i :: 0 <= i < |q.recent| && q.recent[i].channel == c ==> q.recent[i].status == status)
  }

  lemma {:induction false} ArchiveSettled(q: Data, id: Id, s: Status, c: Channel, status: Status)
    requires Settled(q, c, status)
    ensures Settled(Archive(q, id, s), c, status)
  {
    if id in q.pending {
      var all, t := q.recent + [Item(id, q.pending[id].channel, s)], Archive(q, id, s);
      forall i | 0 <= i < |t.recent| && t.recent[i].channel == c ensures t.recent[i].status == status {
        assert t.recent[i] == all[Excess(all) + i];
      }
    }
  }

  lemma {:induction false} ArchiveAllSettled(q: Data, ids: seq<Id>, s: Status, c: Channel, status: Status)
    requires Settled(q, c, status)
    ensures Settled(ArchiveAll(q, ids, s), c, status)
    decreases |ids|
  {
    if ids != [] {
      ArchiveAllSettled(q, ids[..|ids| - 1], s, c, status);
      ArchiveSettled(ArchiveAll(q, ids[..|ids| - 1], s), ids[|ids| - 1], s, c, status);
    }
  }

  lemma {:induction false} RefineSettled(q: Data, id: Id, from: Status -> bool, s: Status, c: Channel, status: Status)
    requires Settled(q, c, status) && !from(status)
    ensures Settled(q.(recent := Refine(q.recent, id, from, s)), c, status)
  {
  }

  lemma {:induction false} SettledStep(q: Data, e: Event, c: Channel, status: Status)
    requires Settled(q, c, status) && Final(status)
    ensures Settled(Step(q, e), c, status)
  {
    match e
    case DecideEvent(id, _, _, _, _) =>
      ArchiveSettled(q, id, Expired, c, status);
      ArchiveSettled(q, id, Cancelled, c, status);
      ArchiveSettled(q, id, if e.decision.Approve? then Approved else Denied, c, status);
    case GiveUp(id, expired) => ArchiveSettled(q, id, if expired then Expired else Cancelled, c, status);
    case CancelContainer(ids, _) => ArchiveAllSettled(q, ids, Cancelled, c, status);
    case ObserveEvent(id, s) => RefineSettled(q, id, Active, s, c, status);
    case ResponseEvent(id, s) => RefineSettled(q, id, Received, s, c, status);
    case RemoveEvent(id) =>
      RemoveItemLeaves(q.recent, id);
      var t := RemoveUpload(q, id);
      forall i | 0 <= i < |t.recent| ensures t.recent[i] in q.recent { assert t.recent[i] in t.recent; }
    case _ =>
  }

  lemma {:induction false} SettledForever(es: seq<Event>, more: seq<Event>, c: Channel, status: Status)
    requires Settled(Run(es), c, status) && Final(status)
    ensures Settled(Run(es + more), c, status) && (c in Run(es + more).sent ==> c in Run(es).sent)
    decreases |more|
  {
    hide Excess;
    if more == [] {
      assert es + more == es;
    } else {
      var before, e := es + more[..|more| - 1], more[|more| - 1];
      SettledForever(es, more[..|more| - 1], c, status);
      RunKeeps(before);
      assert es + more == before + [e];
      RunStep(before, e);
      SettledStep(Run(before), e, c, status);
      SentStep(Run(before), e, c);
    }
  }

  /** Denied, expired and cancelled requests stay so in every continuation: no late observation, response or
      cleanup changes them, and their waiter is never told anything afterwards. */
  lemma {:induction false} FinalForever(es: seq<Event>, more: seq<Event>, i: nat)
    requires i < |Run(es).recent| && Final(Run(es).recent[i].status)
    ensures var x := Run(es).recent[i];
      Settled(Run(es + more), x.channel, x.status) && (x.channel in Run(es + more).sent ==> x.channel in Run(es).sent)
  {
    RunKeeps(es);
    var x := Run(es).recent[i];
    SettledForever(es, more, x.channel, x.status);
  }
}
