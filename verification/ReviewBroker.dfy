/** The review queue as the broker runs it: a map of waiting requests and a bounded history, edited in place. */
module ReviewBroker {
  import opened Outcome
  import opened Statuses
  import Pruning
  import opened ReviewQueue

  class Queue {
    var pending: map<Id, Entry>
    var recent: seq<Item>
    var sent: map<Channel, Decision>
    var closed: set<Channel>
    var next: Channel

    ghost function View(): Data
      reads this
    {
      Data(pending, recent, sent, closed, next)
    }

    /** `archive`: the oldest items leave when the history is full. */
    method Archive(id: Id, status: Status) returns (channel: Option<Channel>)
      modifies this`pending, this`recent
      ensures View() == ReviewQueue.Archive(old(View()), id, status)
      ensures channel == if id in old(pending) then Some(old(pending)[id].channel) else None
    {
      if id !in pending { return None; }
      channel := Some(pending[id].channel);
      recent := recent + [Item(id, pending[id].channel, status)];
      pending := pending - {id};
      ghost var all := recent;
      while |recent| > HISTORY_LIMIT
        invariant |recent| <= |all| && recent == all[|all| - |recent|..]
        invariant |recent| < |all| ==> |recent| >= HISTORY_LIMIT
        invariant pending == old(pending) - {id}
      {
        recent := recent[1..];
      }
      assert recent == Trimmed(all);
    }

    method CountGuest(container: string) returns (n: nat)
      ensures n == |Guests(View(), container)|
    {
      var own := (e: Entry) => e.container == container;
      assert Guests(View(), container) == Pruning.Where(pending, own);
      n := Pruning.CountWhere(pending, own);
    }

    /** `enqueue`: the waiter's new channel, or None when the request is known or there is no room. */
    method Enqueue(id: Id, container: string, fingerprint: string, now: int) returns (channel: Option<Channel>)
      modifies this`pending, this`next
      ensures View() == ReviewQueue.Enqueue(old(View()), id, container, fingerprint, now)
      ensures channel == if Admissible(old(View()), id, container) then Some(old(next)) else None
    {
      if id in pending || exists i :: 0 <= i < |recent| && recent[i].id == id { return None; }
      var own := CountGuest(container);
      if |pending| >= MAX_PENDING || own >= MAX_PER_GUEST { return None; }
      channel := Some(next);
      pending := pending[id := Entry(container, fingerprint, next, now + WAIT_LIMIT)];
      next := next + 1;
    }

    method Decide(id: Id, fingerprint: string, decision: Decision, now: int, late: bool) returns (told: bool)
      modifies this`pending, this`recent, this`sent, this`closed
      ensures View() == ReviewQueue.Decide(old(View()), id, fingerprint, decision, now, late)
      ensures told ==> id in old(pending) && now < old(pending)[id].deadline && old(pending)[id].channel in sent
    {
      if id !in pending || pending[id].fingerprint != fingerprint { return false; }
      var entry := pending[id];
      if entry.deadline <= now || entry.channel in closed {
        var _ := Archive(id, if entry.deadline <= now then Expired else Cancelled);
        return false;
      }
      var _ := Archive(id, if decision.Approve? then Approved else Denied);
      told := !late;
      if told { sent := sent[entry.channel := decision]; } else { closed := closed + {entry.channel}; }
    }

    /** `observe` and `response_detail`: the first retained item of the id, if its status allows a change. */
    method Update(id: Id, from: Status -> bool, status: Status)
      requires Separate(View())
      modifies this`recent
      ensures View() == old(View()).(recent := Refine(old(recent), id, from, status))
    {
      ghost var before := recent;
      var i := 0;
      while i < |recent| && recent[i].id != id
        invariant 0 <= i <= |recent| && recent == before
        invariant forall j :: 0 <= j < i ==> recent[j].id != id
      {
        i := i + 1;
      }
      if i < |recent| && from(recent[i].status) { recent := recent[i := recent[i].(status := status)]; }
      assert recent == Refine(before, id, from, status);
    }

    /** The guest's waiting requests. */
    method GuestIds(container: string) returns (ids: seq<Id>)
      ensures ListsGuests(View(), ids, container)
    {
      ids := [];
      var rest := pending.Keys;
      while rest != {}
        invariant rest <= pending.Keys
        invariant forall k :: k in ids <==> k in pending && k !in rest && pending[k].container == container
        invariant forall i, j :: 0 <= i < j < |ids| ==> ids[i] != ids[j]
        decreases rest
      {
        var k :| k in rest;
        if pending[k].container == container { ids := ids + [k]; }
        rest := rest - {k};
      }
    }

    /** `cancel_container`: the machine's step. The guest's waiting requests, as found, are archived one after the
        other. */
    method CancelContainer(container: string) returns (ids: seq<Id>)
      modifies this`pending, this`recent
      ensures ListsGuests(old(View()), ids, container)
      ensures View() == Step(old(View()), Event.CancelContainer(ids, container))
      ensures Guests(View(), container) == {}
      ensures forall k | k in old(pending) && old(pending)[k].container != container ::
        k in pending && pending[k] == old(pending)[k]
    {
      ids := GuestIds(container);
      ghost var before := View();
      ContainerCancelled(before, ids, container);
      hide ListsGuests, Guests;
      var i := 0;
      while i < |ids|
        invariant 0 <= i <= |ids| && View() == ArchiveAll(before, ids[..i], Cancelled)
      {
        assert ids[..i + 1][..i] == ids[..i];
        var _ := Archive(ids[i], Cancelled);
        i := i + 1;
      }
      assert ids[..i] == ids;
    }
  }
}
