/** What every step of a publication run keeps. */
module PushInvariant {
  import opened Outcome
  import opened Statuses
  import opened Pruning
  import opened PushStore
  import opened PushRuns

  // ---------------------------------------------------------------- the invariant

  predicate Justifies(g: Grant, run: nat, id: Id, fingerprint: string) {
    g.run == run && g.id == id && (g.reason.Decided? ==> g.reason.fingerprint == fingerprint)
  }

  ghost predicate Granted(grants: set<Grant>, run: nat, id: Id, fingerprint: string) {
    exists g :: g in grants && Justifies(g, run, id, fingerprint)
  }

  predicate Requested(j: Job, h: History) { j.id in h.submitted && h.submitted[j.id] == j.request }

  predicate Sized(r: Submission) { 0 < r.bundle.bytes <= MAX_BUNDLE }

  /** The review of a publication is the one review ever derived for it. */
  predicate Reviewed(j: Job, h: History) {
    j.review.Some? ==>
      j.id in h.reviewed && h.reviewed[j.id] == j.review.value && ReviewMatches(j.review.value, j.request)
  }

  predicate Sighted(j: Job, h: History) {
    j.review.Some? && Sight(j.id, j.request.target, j.review.value.head) in h.seen
  }

  /** States in which a publication has no review. */
  predicate Unreviewed(s: Status) { s.Preparing? || s.Blocked? || s.Cancelled? || s.Expired? }

  predicate StatusOk(j: Job, h: History) {
    && (if j.review.None? then Unreviewed(j.status) else !j.status.Preparing?)
    && (Queued(j.status) ==> j.id !in h.started)
    && (j.status.ResponseReceived? ==> Sighted(j, h))
  }

  predicate JobOk(k: Id, j: Job, h: History) {
    && j.id == k && Requested(j, h) && Sized(j.request) && Reviewed(j, h) && StatusOk(j, h)
    && (j.review.None? ==> k !in h.reviewed)
  }

  ghost predicate JobsOk(m: Store, h: History) { forall k :: k in m ==> JobOk(k, m[k], h) }

  ghost predicate DirsOk(m: Store, dirs: Dirs) {
    forall k :: k in m ==> k in dirs && dirs[k] == Some(m[k].request.bundle)
  }

  ghost predicate ApprovedOk(m: Store, run: nat, grants: set<Grant>) {
    forall k :: k in m && m[k].status.Approved? ==> Granted(grants, run, k, m[k].request.fingerprint)
  }

  /** A copy the worker holds. */
  predicate CopyOk(j: Job, h: History) { Requested(j, h) && Reviewed(j, h) && (j.status.Approved? ==> j.review.Some?) }

  predicate InProgress(j: Job, m: Store) {
    j.id in m && m[j.id].status.Sending? && m[j.id].review == j.review && j.review.Some?
  }

  ghost predicate PhaseOk(p: Phase, m: Store, s: State) {
    p.Idle? ||
    (CopyOk(p.job, s.past) &&
     (p.Fetching? ||
      (InProgress(p.job, m)
       && (p.Admitted? || p.Rechecked? ==>
             p.job.id !in s.past.started && Granted(s.past.grants, s.run, p.job.id, p.job.request.fingerprint))
       && (p.Done? && p.verified ==> Sighted(p.job, s.past)))))
  }

  predicate UploadOk(k: Id, j: Job, m: Store, s: State) {
    && j.id == k && Requested(j, s.past) && Sized(j.request) && j.review.None? && j.status.Preparing?
    && k !in m && k !in s.doomed && k !in s.past.reviewed && k !in s.past.started
    && k in s.dirs && (s.dirs[k].Some? ==> s.dirs[k].value == j.request.bundle)
  }

  ghost predicate UploadsOk(m: Store, s: State) {
    && (forall k :: k in s.uploads ==> UploadOk(k, s.uploads[k], m, s))
    && (forall k :: k in s.doomed ==> k in s.past.submitted && k !in m)
  }

  /** Everything in the history belongs to a submission. */
  ghost predicate HistoryOk(h: History) {
    && (forall k :: k in h.reviewed ==> k in h.submitted && ReviewMatches(h.reviewed[k], h.submitted[k]))
    && (forall k :: k in h.started ==> k in h.submitted && k in h.reviewed)
    && (forall i :: 0 <= i < |h.changes| ==> ChangeOk(h.changes[i], h))
    && (forall i, j :: 0 <= i < j < |h.changes| ==> h.changes[i].id != h.changes[j].id)
  }

  predicate ChangeOk(c: Change, h: History) {
    c.id in h.started && c.id in h.reviewed && h.reviewed[c.id].target == c.target
    && h.reviewed[c.id].expected == c.from && h.reviewed[c.id].head == c.to
  }

  ghost predicate Unchanged(h: History, id: Id) { forall i :: 0 <= i < |h.changes| ==> h.changes[i].id != id }

  ghost predicate InflightOk(s: State) {
    forall k :: k in s.inflight ==>
      k in s.past.started && k in s.past.reviewed && s.past.reviewed[k] == s.inflight[k] && Unchanged(s.past, k)
  }

  /** What a crash leaves behind. */
  ghost predicate Durable(s: State) {
    && Within(s.disk) && JobsOk(s.disk, s.past) && DirsOk(s.disk, s.dirs) && HistoryOk(s.past) && InflightOk(s)
    && (forall k :: k in s.dirs ==> k in s.past.submitted)
  }

  ghost predicate Running(s: State) {
    && s.memory == s.disk && ApprovedOk(s.memory, s.run, s.past.grants) && PhaseOk(s.phase, s.memory, s)
       && UploadsOk(s.memory, s)
    && (forall i :: 0 <= i < |s.work| ==> CopyOk(s.work[i], s.past))
  }

  ghost predicate Inv(s: State) { Durable(s) && (s.up ==> Running(s)) }

  // ---------------------------------------------------------------- transactions

  /** A record that may be committed: like `JobOk`, but its review may be new. */
  predicate NextOk(k: Id, j: Job, h: History) {
    && j.id == k && Requested(j, h) && Sized(j.request) && StatusOk(j, h)
    && (if j.review.None? then k !in h.reviewed
        else ReviewMatches(j.review.value, j.request) && (k in h.reviewed ==> h.reviewed[k] == j.review.value))
  }

  ghost predicate Savable(s: State, m: Store) {
    Within(m) && (forall k :: k in m ==> NextOk(k, m[k], s.past)) && DirsOk(m, s.dirs)
  }

  /** A store that may replace the current one while the broker runs on. */
  ghost predicate Legal(s: State, m: Store) {
    Savable(s, m) && ApprovedOk(m, s.run, s.past.grants) && PhaseOk(s.phase, m, s) && UploadsOk(m, s)
  }

  lemma {:induction false} NotedKeeps(h: History, m: Store)
    requires HistoryOk(h) && forall k :: k in m ==> NextOk(k, m[k], h)
    ensures HistoryOk(Noted(h, m)) && JobsOk(m, Noted(h, m))
    ensures forall k :: k in h.reviewed ==> k in Noted(h, m).reviewed && Noted(h, m).reviewed[k] == h.reviewed[k]
    ensures forall k :: k in Noted(h, m).reviewed ==> k in h.reviewed || k in m
  {
    hide ReviewMatches;
    var n := Noted(h, m);
    forall i | 0 <= i < |n.changes| ensures ChangeOk(n.changes[i], n) { assert ChangeOk(h.changes[i], h); }
  }

  lemma {:induction false} SavedIsDurable(s: State, m: Store)
    requires Durable(s) && Savable(s, m)
    ensures Durable(Saved(s, m))
  {
    NotedKeeps(s.past, m);
  }

  /** What survives a crash does not depend on the broker's own state. */
  lemma {:induction false} DurableSame(s: State, t: State)
    requires Durable(s) && t.disk == s.disk && t.dirs == s.dirs && t.inflight == s.inflight && t.past == s.past
    ensures Durable(t)
  {
  }

  ghost predicate CopiesOk(s: State) { forall i :: 0 <= i < |s.work| ==> CopyOk(s.work[i], s.past) }

  lemma {:induction false} EditKeeps(s: State, next: Option<Store>, w: Write)
    requires s.up && Inv(s) && (next.Some? ==> Legal(s, next.value))
    ensures Inv(Commit(s, next, w))
  {
    if next.Some? {
      SavedIsDurable(s, next.value);
      RunningAfter(s, next.value);
    }
  }

  /** More reviews and the same submissions, grants, starts and sights. */
  predicate Extends(h: History, n: History) {
    && n.submitted == h.submitted && n.grants == h.grants && n.started == h.started && n.seen == h.seen
    && (forall k :: k in h.reviewed ==> k in n.reviewed && n.reviewed[k] == h.reviewed[k])
  }

  lemma {:induction false} PhaseExtends(p: Phase, m: Store, s: State, n: History)
    requires PhaseOk(p, m, s) && Extends(s.past, n)
    ensures PhaseOk(p, m, s.(past := n))
  {
  }

  lemma {:induction false} RunningAfter(s: State, m: Store)
    requires HistoryOk(s.past) && CopiesOk(s) && Legal(s, m)
    ensures Running(Saved(s, m).(memory := m))
  {
    NotedKeeps(s.past, m);
    var t := Saved(s, m).(memory := m);
    forall k | k in t.uploads ensures UploadOk(k, t.uploads[k], m, t) { assert UploadOk(k, s.uploads[k], m, s); }
    forall i | 0 <= i < |t.work| ensures CopyOk(t.work[i], t.past) { assert CopyOk(s.work[i], s.past); }
    PhaseExtends(s.phase, m, s, t.past);
    assert PhaseOk(t.phase, m, t);
  }

  // ---------------------------------------------------------------- legal edits

  lemma {:induction false} ReplaceWithin(m: Store, id: Id, j: Job)
    requires Within(m) && id in m && j.request == m[id].request
    ensures Within(m[id := j])
  {
    var n := m[id := j];
    assert n.Keys == m.Keys && |n| == |n.Keys| && |m| == |m.Keys|;
    StoredSame(n, m);
  }

  lemma {:induction false} PhaseSurvives(s: State, m: Store)
    requires s.up && PhaseOk(s.phase, s.memory, s)
    requires !s.phase.Idle? && InProgress(s.phase.job, s.memory) ==> InProgress(s.phase.job, m)
    ensures PhaseOk(s.phase, m, s)
  {
  }

  /** Replacing one publication by a later version of itself is legal. */
  lemma {:induction false} ReplaceIsLegal(s: State, id: Id, j: Job)
    requires Inv(s) && s.up && id in s.memory && NextOk(id, j, s.past) && j.request == s.memory[id].request
    requires j.status.Approved? ==> Granted(s.past.grants, s.run, id, j.request.fingerprint)
    requires !s.memory[id].status.Sending? || s.phase.Idle?
    ensures Legal(s, s.memory[id := j])
  {
    hide Stored, CopyOk, StatusOk;
    var m := s.memory[id := j];
    ReplaceWithin(s.memory, id, j);
    forall k | k in m ensures NextOk(k, m[k], s.past) { assert k != id ==> JobOk(k, s.memory[k], s.past); }
    forall k | k in s.uploads ensures UploadOk(k, s.uploads[k], m, s) { assert UploadOk(k, s.uploads[k], s.memory, s); }
    PhaseSurvives(s, m);
  }

  lemma {:induction false} SameIsLegal(s: State)
    requires Inv(s) && s.up
    ensures Legal(s, s.memory)
  {
    forall k | k in s.memory ensures NextOk(k, s.memory[k], s.past) { assert JobOk(k, s.memory[k], s.past); }
  }

  /** A store without some finished publications, and with at most one new one. */
  ghost predicate Smaller(s: State, m: Store) {
    && Within(m) && (forall k :: k in m ==> k in s.memory && m[k] == s.memory[k])
    && (forall k :: k in s.memory && Active(s.memory[k].status) ==> k in m)
  }

  lemma {:induction false} SmallerUploads(s: State, m: Store)
    requires Inv(s) && s.up && Smaller(s, m)
    ensures UploadsOk(m, s.(doomed := s.doomed + (s.memory.Keys - m.Keys)))
  {
    hide Granted, Savable, Within, HistoryOk, PhaseOk;
    var t := s.(doomed := s.doomed + (s.memory.Keys - m.Keys));
    forall k | k in s.uploads ensures UploadOk(k, s.uploads[k], m, t) { assert UploadOk(k, s.uploads[k], s.memory, s); }
    forall k | k in t.doomed ensures k in s.past.submitted && k !in m {
      assert k in s.memory ==> JobOk(k, s.memory[k], s.past);
    }
  }

  lemma {:induction false} SmallerSavable(s: State, m: Store)
    requires Inv(s) && s.up && Smaller(s, m)
    ensures Savable(s, m) && ApprovedOk(m, s.run, s.past.grants)
  {
    hide Within, HistoryOk, PhaseOk, UploadsOk, Granted;
    forall k | k in m ensures NextOk(k, m[k], s.past) { assert JobOk(k, s.memory[k], s.past); }
  }

  lemma {:induction false} SmallerIsLegal(s: State, m: Store)
    requires Inv(s) && s.up && Smaller(s, m)
    ensures Legal(s.(doomed := s.doomed + (s.memory.Keys - m.Keys)), m)
  {
    hide NextOk, UploadsOk, Within, JobsOk, HistoryOk, ApprovedOk, DirsOk, CopyOk, Granted, Sighted;
    SmallerUploads(s, m);
    SmallerSavable(s, m);
    PhaseSurvives(s, m);
  }

  lemma {:induction false} DeleteIsSmaller(s: State, id: Id)
    requires Inv(s) && s.up && id in s.memory && !Active(s.memory[id].status)
    ensures Smaller(s, s.memory - {id}) && s.memory.Keys - (s.memory - {id}).Keys == {id}
  {
    hide JobOk, Reviewed, DirsOk;
    DeleteWithin(s.memory, id);
  }

  lemma {:induction false} DeleteWithin(m: Store, id: Id)
    requires Within(m) && id in m
    ensures Within(m - {id})
  {
    var n := m - {id};
    SubsetSize(n.Keys, m.Keys);
    assert |n| == |n.Keys| && |m| == |m.Keys|;
    StoredRemove(m, id);
  }

  // ---------------------------------------------------------------- uploads and requests

  lemma {:induction false} GrantsOnlyGrow(s: State, id: Id, reason: Reason)
    requires Inv(s)
    ensures Inv(Allow(s, id, reason)) && Grant(s.run, id, reason) in Allow(s, id, reason).past.grants
  {
    var t := Allow(s, id, reason);
    HistoryGrows(s, t.past);
    if s.up { RunningGrows(s, t); }
  }

  /** More submissions and grants change nothing else. */
  predicate Longer(h: History, n: History) {
    && (forall k :: k in h.submitted ==> k in n.submitted && n.submitted[k] == h.submitted[k])
    && n.reviewed == h.reviewed && n.started == h.started && n.seen == h.seen && n.changes == h.changes
       && h.grants <= n.grants
  }

  lemma {:induction false} HistoryGrows(s: State, n: History)
    requires Durable(s) && Longer(s.past, n)
    ensures Durable(s.(past := n))
  {
    forall i | 0 <= i < |n.changes| ensures ChangeOk(n.changes[i], n) { assert ChangeOk(s.past.changes[i], s.past); }
    forall k | k in s.disk ensures JobOk(k, s.disk[k], n) { assert JobOk(k, s.disk[k], s.past); }
  }

  lemma {:induction false} RunningGrows(s: State, t: State)
    requires Running(s) && Longer(s.past, t.past) && t == s.(past := t.past)
    ensures Running(t)
  {
    forall run, id, fp | Granted(s.past.grants, run, id, fp) ensures Granted(t.past.grants, run, id, fp) {
      var g :| g in s.past.grants && Justifies(g, run, id, fp);
      assert g in t.past.grants;
    }
    forall k | k in t.uploads
      ensures UploadOk(k, t.uploads[k], t.memory, t)
    {
      assert UploadOk(k, s.uploads[k], s.memory, s);
    }
    forall i | 0 <= i < |t.work| ensures CopyOk(t.work[i], t.past) { assert CopyOk(s.work[i], s.past); }
  }

  lemma {:induction false} MakeDirKeeps(s: State, e: Event)
    requires Inv(s) && s.up && e.MakeDir?
    ensures Inv(MakeDirStep(s, e))
  {
    hide HistoryOk, Justifies, Within;
    var t := MakeDirStep(s, e);
    if t != s {
      var mid := s.(past := t.past);
      HistoryGrows(s, t.past);
      RunningGrows(s, mid);
      forall k | k in t.disk
        ensures k in t.dirs && t.dirs[k] == Some(t.disk[k].request.bundle)
      {
        assert JobOk(k, s.disk[k], s.past);
      }
      MakeDirUploads(s, mid, e);
      assert PhaseOk(t.phase, t.memory, t) by { assert PhaseOk(mid.phase, mid.memory, mid); }
    }
  }

  lemma {:induction false} MakeDirUploads(s: State, mid: State, e: Event)
    requires Inv(s) && s.up && e.MakeDir? && MakeDirStep(s, e) != s && mid == s.(past := MakeDirStep(s, e).past)
             && Running(mid)
    ensures UploadsOk(s.memory, MakeDirStep(s, e))
  {
    var t := MakeDirStep(s, e);
    FreshId(s, e.id);
    forall k | k in t.uploads ensures UploadOk(k, t.uploads[k], t.memory, t) {
      if k != e.id { assert UploadOk(k, mid.uploads[k], mid.memory, mid); }
    }
  }

  lemma {:induction false} FreshId(s: State, id: Id)
    requires Inv(s) && s.up && id !in s.past.submitted
    ensures id !in s.memory && id !in s.doomed && id !in s.past.reviewed && id !in s.past.started && id !in s.uploads
  {
    forall k | k in s.memory ensures k != id { assert JobOk(k, s.memory[k], s.past); }
    forall k | k in s.uploads ensures k != id { assert UploadOk(k, s.uploads[k], s.memory, s); }
  }

  /** Directories and uploads that still serve what they served keep the invariant. */
  lemma {:induction false} DirsKeep(s: State, t: State)
    requires Inv(s) && s.up && t == s.(dirs := t.dirs, uploads := t.uploads, doomed := t.doomed)
    requires UploadsOk(t.memory, t) && DirsOk(t.disk, t.dirs) && t.dirs.Keys <= s.dirs.Keys
    ensures Inv(t)
  {
    assert PhaseOk(t.phase, t.memory, t) by { assert PhaseOk(s.phase, s.memory, s); }
  }

  lemma {:induction false} MoveBundleKeeps(s: State, e: Event)
    requires Inv(s) && s.up && e.MoveBundle?
    ensures Inv(MoveBundleStep(s, e))
  {
    if e.id in s.uploads {
      if e.moved { MovedKeeps(s, e.id); } else { UploadFails(s, e.id); }
    }
  }

  lemma {:induction false} MovedKeeps(s: State, id: Id)
    requires Inv(s) && s.up && id in s.uploads
    ensures Inv(s.(dirs := s.dirs[id := Some(s.uploads[id].request.bundle)]))
  {
    var t := s.(dirs := s.dirs[id := Some(s.uploads[id].request.bundle)]);
    assert UploadOk(id, s.uploads[id], s.memory, s);
    forall k | k in t.uploads
      ensures UploadOk(k, t.uploads[k], t.memory, t)
    {
      assert UploadOk(k, s.uploads[k], s.memory, s);
    }
    DirsKeep(s, t);
  }

  lemma {:induction false} RemoveDirKeeps(s: State, e: Event)
    requires Inv(s) && s.up && e.RemoveDir?
    ensures Inv(RemoveDirStep(s, e))
  {
    hide ChangeOk, JobOk, HistoryOk;
    var t := RemoveDirStep(s, e);
    if e.id in s.doomed {
      forall k | k in t.uploads
        ensures UploadOk(k, t.uploads[k], t.memory, t)
      {
        assert UploadOk(k, s.uploads[k], s.memory, s);
      }
      DirsKeep(s, t);
    }
  }

  lemma {:induction false} SubmitAdds(m: Store, j: Job, now: int)
    requires SubmitEdit(m, j, now).Some? && j.id !in m && Active(j.status)
    ensures var r := SubmitEdit(m, j, now).value;
      && Within(r) && j.id in r && (forall k :: k in r ==> (k == j.id && r[k] == j) || (k in m && r[k] == m[k]))
      && (forall k :: k in m && k !in r ==> Removable(m[k], now))
  {
    PrunedPushesKeep(m[j.id := j], now);
    var r, all := SubmitEdit(m, j, now).value, m[j.id := j];
    forall k | k in m && k !in r ensures Removable(m[k], now) { assert all[k] == m[k]; }
    assert all[j.id] == j;
  }

  lemma {:induction false} AddIsSavable(s: State, id: Id, m: Store)
    requires Inv(s) && s.up && id in s.uploads && id in s.dirs && s.dirs[id].Some? && Within(m)
    requires forall k :: k in m ==> (k == id && m[k] == s.uploads[id]) || (k in s.memory && m[k] == s.memory[k])
    ensures Savable(s, m) && s.uploads[id].status.Preparing?
  {
    assert UploadOk(id, s.uploads[id], s.memory, s);
    forall k | k in m ensures NextOk(k, m[k], s.past) { assert k in s.memory ==> JobOk(k, s.memory[k], s.past); }
  }

  lemma {:induction false} AddUploads(s: State, id: Id, m: Store)
    requires Inv(s) && s.up && id in s.uploads && forall k :: k in m ==> k == id || k in s.memory
    ensures UploadsOk(m, s.(uploads := s.uploads - {id}, doomed := s.doomed + (s.memory.Keys - m.Keys)))
  {
    var t := s.(uploads := s.uploads - {id}, doomed := s.doomed + (s.memory.Keys - m.Keys));
    assert UploadOk(id, s.uploads[id], s.memory, s);
    forall k | k in t.uploads ensures UploadOk(k, t.uploads[k], m, t) { assert UploadOk(k, s.uploads[k], s.memory, s); }
    forall k | k in t.doomed
      ensures k in t.past.submitted && k !in m
    {
      assert k in s.memory ==> JobOk(k, s.memory[k], s.past);
    }
  }

  /** The new store after an upload was admitted. */
  lemma {:induction false} AddIsLegal(s: State, id: Id, m: Store)
    requires Inv(s) && s.up && id in s.uploads && id in s.dirs && s.dirs[id].Some? && Within(m) && id in m
    requires forall k :: k in m ==> (k == id && m[k] == s.uploads[id]) || (k in s.memory && m[k] == s.memory[k])
    requires forall k :: k in s.memory && Active(s.memory[k].status) ==> k in m
    ensures Legal(s.(uploads := s.uploads - {id}, doomed := s.doomed + (s.memory.Keys - m.Keys)), m)
  {
    hide HistoryOk, NextOk, Within;
    var t := s.(uploads := s.uploads - {id}, doomed := s.doomed + (s.memory.Keys - m.Keys));
    AddIsSavable(s, id, m);
    assert ApprovedOk(m, t.run, t.past.grants) by { assert ApprovedOk(s.memory, s.run, s.past.grants); }
    AddUploads(s, id, m);
    AddPhase(s, id, m);
    PhaseAlone(s, t, m);
  }

  lemma {:induction false} AddPhase(s: State, id: Id, m: Store)
    requires s.up && PhaseOk(s.phase, s.memory, s) && id !in s.memory
    requires forall k :: k in m ==> k == id || (k in s.memory && m[k] == s.memory[k])
    requires forall k :: k in s.memory && Active(s.memory[k].status) ==> k in m
    ensures PhaseOk(s.phase, m, s)
  {
    PhaseSurvives(s, m);
  }

  /** A phase does not look at uploads. */
  lemma {:induction false} PhaseAlone(s: State, t: State, m: Store)
    requires PhaseOk(s.phase, m, s) && t == s.(uploads := t.uploads, doomed := t.doomed)
    ensures PhaseOk(t.phase, m, t)
  {
  }

  lemma {:induction false} UploadFails(s: State, id: Id)
    requires Inv(s) && s.up && id in s.uploads
    ensures Inv(s.(uploads := s.uploads - {id}, doomed := s.doomed + {id}))
  {
    hide Justifies, StatusOk;
    var t := s.(uploads := s.uploads - {id}, doomed := s.doomed + {id});
    assert UploadOk(id, s.uploads[id], s.memory, s);
    forall k | k in t.uploads
      ensures UploadOk(k, t.uploads[k], t.memory, t)
    {
      assert UploadOk(k, s.uploads[k], s.memory, s);
    }
    DirsKeep(s, t);
  }

  lemma {:induction false} CommittedKeeps(s: State, m: Store)
    requires Durable(s) && CopiesOk(s) && s.up && Legal(s, m)
    ensures Inv(Commit(s, Some(m), Succeeds))
  {
    SavedIsDurable(s, m);
    RunningAfter(s, m);
  }

  lemma {:induction false} DyingKeeps(s: State, m: Store)
    requires Durable(s) && Savable(s, m)
    ensures Inv(Commit(s, Some(m), Dies))
  {
    hide Saved;
    SavedIsDurable(s, m);
  }

  lemma {:induction false} SubmitNext(s: State, e: Event)
    requires Inv(s) && s.up && e.Submit? && e.id in s.uploads && e.id in s.dirs && s.dirs[e.id].Some?
    requires SubmitEdit(s.memory, s.uploads[e.id], e.now).Some?
    ensures var m := SubmitEdit(s.memory, s.uploads[e.id], e.now).value;
      Savable(s, m) && Legal(s.(uploads := s.uploads - {e.id}, doomed := s.doomed + (s.memory.Keys - m.Keys)), m)
  {
    assert UploadOk(e.id, s.uploads[e.id], s.memory, s);
    SubmitAdds(s.memory, s.uploads[e.id], e.now);
    AddIsLegal(s, e.id, SubmitEdit(s.memory, s.uploads[e.id], e.now).value);
  }

  lemma {:induction false} SubmitKeeps(s: State, e: Event)
    requires Inv(s) && s.up && e.Submit?
    ensures Inv(SubmitStep(s, e))
  {
    hide StatusOk, Within, Durable, PrunedPushes;
    if e.id in s.uploads && e.id in s.dirs && s.dirs[e.id].Some? {
      var next := SubmitEdit(s.memory, s.uploads[e.id], e.now);
      var gone := if Commits(next, e.write) then s.memory.Keys - next.value.Keys else {e.id};
      var t := s.(uploads := s.uploads - {e.id}, doomed := s.doomed + gone);
      DurableSame(s, t);
      if next.Some? { SubmitNext(s, e); }
      if next.None? || e.write.Fails? {
        UploadFails(s, e.id);
      } else if e.write.Succeeds? {
        CommittedKeeps(t, next.value);
      } else {
        DyingKeeps(t, next.value);
      }
    }
  }

  /** An active publication may be set to a state that its review and history allow. */
  lemma {:induction false} SetIsLegal(s: State, id: Id, status: Status, now: int)
    requires Inv(s) && s.up && id in s.memory
    requires Queued(s.memory[id].status) || (s.memory[id].status.Sending? && s.phase.Idle?)
    requires StatusOk(Set(s.memory[id], status, now), s.past)
    requires status.Approved? ==> Granted(s.past.grants, s.run, id, s.memory[id].request.fingerprint)
    ensures Legal(s, s.memory[id := Set(s.memory[id], status, now)])
  {
    assert JobOk(id, s.memory[id], s.past);
    ReplaceIsLegal(s, id, Set(s.memory[id], status, now));
  }

  lemma {:induction false} ApproveKeeps(s: State, e: Event)
    requires Inv(s) && s.up && e.Ask? && e.request.Decide? && e.request.approve
    ensures Inv(AskStep(s, e))
  {
    hide InProgress, Noted, DirsOk, Within, Commits;
    var next, fp := RequestEdit(s.memory, e.id, e.request, e.now), e.request.fingerprint;
    if next.Some? {
      var t := Allow(s, e.id, Decided(fp));
      GrantsOnlyGrow(s, e.id, Decided(fp));
      assert Justifies(Grant(s.run, e.id, Decided(fp)), s.run, e.id, fp);
      assert JobOk(e.id, t.memory[e.id], t.past);
      SetIsLegal(t, e.id, Approved, e.now);
      EditKeeps(t, next, e.write);
    }
  }

  lemma {:induction false} DeleteIsLegal(s: State, id: Id)
    requires Inv(s) && s.up && id in s.memory && !Active(s.memory[id].status)
    ensures Savable(s, s.memory - {id}) && Legal(s.(doomed := s.doomed + {id}), s.memory - {id})
  {
    DeleteIsSmaller(s, id);
    SmallerIsLegal(s, s.memory - {id});
  }

  lemma {:induction false} DeleteKeeps(s: State, e: Event)
    requires Inv(s) && s.up && e.Ask? && e.request.Delete?
    ensures Inv(AskStep(s, e))
  {
    hide Justifies, Sized, DirsOk, JobsOk, UploadsOk, Within;
    var next := RequestEdit(s.memory, e.id, e.request, e.now);
    if next.Some? && !e.write.Fails? {
      DeleteIsLegal(s, e.id);
      var t := s.(doomed := s.doomed + {e.id});
      DurableSame(s, t);
      if e.write.Succeeds? { CommittedKeeps(t, next.value); } else { DyingKeeps(s, next.value); }
    }
  }

  lemma {:induction false} AskKeeps(s: State, e: Event)
    requires Inv(s) && s.up && e.Ask?
    ensures Inv(AskStep(s, e))
  {
    var next := RequestEdit(s.memory, e.id, e.request, e.now);
    if e.request.Delete? {
      DeleteKeeps(s, e);
    } else if e.request.Decide? && e.request.approve {
      ApproveKeeps(s, e);
    } else {
      if next.Some? { QuietIsLegal(s, e); }
      EditKeeps(s, next, e.write);
    }
  }

  lemma {:induction false} QuietIsLegal(s: State, e: Event)
    requires Inv(s) && s.up && e.Ask? && !e.request.Delete? && !(e.request.Decide? && e.request.approve)
    requires RequestEdit(s.memory, e.id, e.request, e.now).Some?
    ensures Legal(s, RequestEdit(s.memory, e.id, e.request, e.now).value)
  {
    hide Legal, HistoryOk, UploadsOk;
    assert JobOk(e.id, s.memory[e.id], s.past);
    if e.request.Decide? {
      SetIsLegal(s, e.id, Denied, e.now);
    } else if e.request.Cancel? {
      SetIsLegal(s, e.id, Cancelled, e.now);
    } else if s.memory[e.id].acknowledged.None? {
      ReplaceIsLegal(s, e.id, s.memory[e.id].(acknowledged := Some(e.now)));
    } else {
      SameIsLegal(s);
    }
  }

  // ---------------------------------------------------------------- the worker

  lemma {:induction false} BeginKeeps(s: State, ids: seq<Id>)
    requires Inv(s) && s.up
    ensures Inv(BeginStep(s, ids))
  {
    var t := BeginStep(s, ids);
    forall i | 0 <= i < |t.work| ensures CopyOk(t.work[i], t.past) {
      if t != s { assert JobOk(ids[i], s.memory[ids[i]], s.past); }
    }
  }

  /** The worker drops its job, and perhaps the rest of its list. */
  lemma {:induction false} Resting(s: State, work: seq<Job>)
    requires Inv(s) && s.up && forall i :: 0 <= i < |work| ==> CopyOk(work[i], s.past)
    ensures Inv(s.(phase := Idle, work := work))
  {
    var t := s.(phase := Idle, work := work);
    forall k | k in t.uploads
      ensures UploadOk(k, t.uploads[k], t.memory, t)
    {
      assert UploadOk(k, s.uploads[k], s.memory, s);
    }
  }

  lemma {:induction false} WorkCommitKeeps(s: State, next: Option<Store>, w: Write)
    requires Inv(s) && s.up && (next.Some? ==> Legal(s.(phase := Idle), next.value))
    ensures Inv(WorkCommit(s, next, w))
  {
    var t := s.(phase := Idle, work := if Commits(next, w) then s.work else []);
    Resting(s, t.work);
    if next.Some? { LegalSame(s.(phase := Idle), t, next.value); }
    EditKeeps(t, next, w);
  }

  lemma {:induction false} LegalSame(s: State, t: State, m: Store)
    requires Legal(s, m) && t == s.(work := t.work)
    ensures Legal(t, m)
  {
    forall k | k in t.uploads ensures UploadOk(k, t.uploads[k], m, t) { assert UploadOk(k, s.uploads[k], m, s); }
  }

  lemma {:induction false} LapseIsLegal(s: State, id: Id, now: int)
    requires Inv(s) && s.up
    ensures Legal(s, LapseEdit(s.memory, id, now))
  {
    SameIsLegal(s);
    if id in s.memory && Queued(s.memory[id].status) {
      assert JobOk(id, s.memory[id], s.past);
      SetIsLegal(s, id, if s.memory[id].expires <= now then Expired else Cancelled, now);
    }
  }

  lemma {:induction false} BlockIsLegal(s: State, id: Id, seen: Status, now: int)
    requires Inv(s) && s.up && Queued(seen)
    ensures Legal(s, BlockEdit(s.memory, id, seen, now))
  {
    SameIsLegal(s);
    if id in s.memory && s.memory[id].status == seen {
      assert JobOk(id, s.memory[id], s.past);
      SetIsLegal(s, id, Blocked, now);
    }
  }

  lemma {:induction false} AdmitIsLegal(s: State, id: Id, now: int)
    requires Inv(s) && s.up
    ensures Legal(s, AdmitEdit(s.memory, id, now))
  {
    SameIsLegal(s);
    if Admits(s.memory, id, now) {
      assert JobOk(id, s.memory[id], s.past);
      SetIsLegal(s, id, Sending, now);
    }
  }

  /** After a committed admission the job is in progress, granted and not yet started. */
  lemma {:induction false} AdmittedPhase(s: State, job: Job, now: int)
    requires Inv(s) && s.up && CopyOk(job, s.past) && job.status.Approved? && Admits(s.memory, job.id, now)
    ensures PhaseOk(Admitted(job), AdmitEdit(s.memory, job.id, now), s)
  {
    assert JobOk(job.id, s.memory[job.id], s.past);
    assert Granted(s.past.grants, s.run, job.id, s.memory[job.id].request.fingerprint);
  }

  lemma {:induction false} EnterPhase(s: State, p: Phase)
    requires Inv(s) && s.up && PhaseOk(p, s.memory, s)
    ensures Inv(s.(phase := p))
  {
    var t := s.(phase := p);
    forall k | k in t.uploads
      ensures UploadOk(k, t.uploads[k], t.memory, t)
    {
      assert UploadOk(k, s.uploads[k], s.memory, s);
    }
  }

  lemma {:induction false} AdmitEnters(s: State, job: Job, now: int)
    requires Inv(s) && s.up && s.phase.Idle? && CopyOk(job, s.past) && job.status.Approved?
             && Admits(s.memory, job.id, now)
    requires Inv(WorkCommit(s, Some(AdmitEdit(s.memory, job.id, now)), Succeeds))
    ensures Inv(WorkCommit(s, Some(AdmitEdit(s.memory, job.id, now)), Succeeds).(phase := Admitted(job)))
  {
    var m := AdmitEdit(s.memory, job.id, now);
    AdmitIsLegal(s, job.id, now);
    AdmittedPhase(s, job, now);
    PhaseCommits(s, Admitted(job), m);
    var after := WorkCommit(s, Some(m), Succeeds);
    assert after.up && after.memory == m;
    EnterPhase(after, Admitted(job));
  }

  lemma {:induction false} AdmitKeeps(s: State, job: Job, e: Event)
    requires Inv(s) && s.up && s.phase.Idle? && e.Work? && CopyOk(job, s.past) && job.status.Approved?
    ensures var next := Some(AdmitEdit(s.memory, job.id, e.later));
      var after := WorkCommit(s, next, e.write);
      && Inv(after)
      && (Admits(s.memory, job.id, e.later) && Commits(next, e.write) ==> Inv(after.(phase := Admitted(job))))
  {
    AdmitIsLegal(s, job.id, e.later);
    WorkCommitKeeps(s, Some(AdmitEdit(s.memory, job.id, e.later)), e.write);
    if Admits(s.memory, job.id, e.later) && e.write.Succeeds? { AdmitEnters(s, job, e.later); }
  }

  lemma {:induction false} PhaseCommits(s: State, p: Phase, m: Store)
    requires HistoryOk(s.past) && Savable(s, m) && PhaseOk(p, m, s)
    ensures PhaseOk(p, m, WorkCommit(s, Some(m), Succeeds))
  {
    hide Queued, Stored;
    NotedKeeps(s.past, m);
    PhaseExtends(p, m, s, Noted(s.past, m));
  }

  lemma {:induction false} WorkKeeps(s: State, e: Event)
    requires Inv(s) && s.up && e.Work? && s.phase.Idle? && s.work != []
    ensures Inv(WorkStep(s, e))
  {
    hide JobsOk, Durable, WorkCommit;
    var job, t := s.work[0], s.(work := s.work[1..]);
    Resting(s, s.work[1..]);
    if Lapsed(job, e) {
      LapseIsLegal(t, job.id, e.later);
      WorkCommitKeeps(t, Some(LapseEdit(s.memory, job.id, e.later)), e.write);
    } else if (job.status.Preparing? || job.status.Approved?) && !e.credential {
      BlockIsLegal(t, job.id, job.status, e.later);
      WorkCommitKeeps(t, Some(BlockEdit(s.memory, job.id, job.status, e.later)), e.write);
    } else if Sendable(job, e) {
      AdmitKeeps(t, job, e);
    } else if job.status.Preparing? {
      EnterPhase(t, Fetching(job));
    }
  }

  lemma {:induction false} DerivedMatches(s: State, job: Job, head: Option<Oid>)
    requires Inv(s) && s.up && job.id in s.memory && CopyOk(job, s.past)
    ensures var r := Derived(s, job, head); r.Some? ==> ReviewMatches(r.value, s.memory[job.id].request)
  {
    assert JobOk(job.id, s.memory[job.id], s.past);
  }

  lemma {:induction false} PrepareIsLegal(s: State, id: Id, r: Option<Review>, allowAll: bool, now: int)
    requires Inv(s) && s.up && id in s.memory && (r.Some? ==> ReviewMatches(r.value, s.memory[id].request))
    requires allowAll && Approves(s.memory, PrepareEdit(s.memory, id, r, allowAll, now).value, id)
      ==> Granted(s.past.grants, s.run, id, s.memory[id].request.fingerprint)
    ensures Legal(s, PrepareEdit(s.memory, id, r, allowAll, now).value)
  {
    hide Stored, Unchanged, DirsOk, Within;
    SameIsLegal(s);
    if s.memory[id].status.Preparing? {
      assert JobOk(id, s.memory[id], s.past);
      ReplaceIsLegal(s, id, PrepareEdit(s.memory, id, r, allowAll, now).value[id]);
    }
  }

  lemma {:induction false} PreparedKeeps(s: State, e: Event)
    requires Inv(s) && s.up && e.Prepared? && s.phase.Fetching?
    ensures Inv(PreparedStep(s, e))
  {
    hide Noted, Sized, Durable;
    var job, t := s.phase.job, s.(phase := Idle);
    Resting(s, s.work);
    if !e.identity {
      CancelIsLegal(t, job.id, e.now);
      WorkCommitKeeps(s, Some(CancelPreparing(s.memory, job.id, e.now)), e.write);
    } else {
      var next := PrepareEdit(s.memory, job.id, Derived(s, job, e.head), e.allowAll, e.now);
      if next.Some? { DerivedMatches(s, job, e.head); }
      if e.allowAll && next.Some? && Approves(s.memory, next.value, job.id) {
        GrantsOnlyGrow(s, job.id, AllowAll);
        GrantsOnlyGrow(t, job.id, AllowAll);
        assert Justifies(Grant(s.run, job.id, AllowAll), s.run, job.id, s.memory[job.id].request.fingerprint);
        PrepareIsLegal(Allow(t, job.id, AllowAll), job.id, Derived(s, job, e.head), e.allowAll, e.now);
        WorkCommitKeeps(Allow(s, job.id, AllowAll), next, e.write);
      } else {
        if next.Some? { PrepareIsLegal(t, job.id, Derived(s, job, e.head), e.allowAll, e.now); }
        WorkCommitKeeps(s, next, e.write);
      }
    }
  }

  lemma {:induction false} CancelIsLegal(s: State, id: Id, now: int)
    requires Inv(s) && s.up
    ensures Legal(s, CancelPreparing(s.memory, id, now))
  {
    SameIsLegal(s);
    if id in s.memory && s.memory[id].status.Preparing? {
      assert JobOk(id, s.memory[id], s.past);
      SetIsLegal(s, id, Cancelled, now);
    }
  }

  lemma {:induction false} RecheckKeeps(s: State, e: Event)
    requires Inv(s) && s.up && e.Recheck? && s.phase.Admitted?
    ensures Inv(RecheckStep(s, e))
  {
    EnterPhase(s, RecheckStep(s, e).phase);
  }

  lemma {:induction false} PushKeeps(s: State)
    requires Inv(s) && s.up && s.phase.Rechecked? && s.phase.job.review.Some?
    ensures Inv(PushStep(s))
  {
    StartIsDurable(s);
    StartedRuns(s);
  }

  lemma {:induction false} StartIsDurable(s: State)
    requires Inv(s) && s.up && s.phase.Rechecked? && s.phase.job.review.Some?
    ensures Durable(PushStep(s))
  {
    hide Within, HistoryOk, DirsOk, Granted, UploadsOk;
    var job, t := s.phase.job, PushStep(s);
    StartKeepsJobs(s.disk, s.past, job.id);
    StartKeepsHistory(s.past, job.id);
  }

  lemma {:induction false} StartKeepsJobs(m: Store, h: History, id: Id)
    requires JobsOk(m, h) && (id in m ==> !Queued(m[id].status))
    ensures JobsOk(m, h.(started := h.started + {id}))
  {
    forall k | k in m ensures JobOk(k, m[k], h.(started := h.started + {id})) { assert JobOk(k, m[k], h); }
  }

  lemma {:induction false} StartKeepsHistory(h: History, id: Id)
    requires HistoryOk(h) && id in h.reviewed && id !in h.started
    ensures HistoryOk(h.(started := h.started + {id})) && Unchanged(h, id)
  {
    var n := h.(started := h.started + {id});
    forall i | 0 <= i < |h.changes|
      ensures ChangeOk(n.changes[i], n) && h.changes[i].id != id
    {
      assert ChangeOk(h.changes[i], h);
    }
  }

  lemma {:induction false} StartedRuns(s: State)
    requires Inv(s) && s.up && s.phase.Rechecked? && s.phase.job.review.Some?
    ensures Running(PushStep(s))
  {
    StartedPhase(s);
    StartedUploads(s);
  }

  lemma {:induction false} StartedPhase(s: State)
    requires Inv(s) && s.up && s.phase.Rechecked? && s.phase.job.review.Some?
    ensures PhaseOk(PushStep(s).phase, s.memory, PushStep(s)) && CopiesOk(PushStep(s))
  {
    hide Within, Durable, InProgress;
    var t := PushStep(s);
    forall i | 0 <= i < |t.work| ensures CopyOk(t.work[i], t.past) { assert CopyOk(s.work[i], s.past); }
  }

  lemma {:induction false} StartedUploads(s: State)
    requires Inv(s) && s.up && s.phase.Rechecked? && s.phase.job.review.Some?
    ensures UploadsOk(s.memory, PushStep(s))
  {
    hide Durable, Sized;
    var t := PushStep(s);
    forall k | k in t.uploads
      ensures UploadOk(k, t.uploads[k], t.memory, t)
    {
      assert UploadOk(k, s.uploads[k], s.memory, s);
    }
  }

  lemma {:induction false} LandKeepsHistory(h: History, c: Change)
    requires HistoryOk(h) && ChangeOk(c, h) && Unchanged(h, c.id)
    ensures HistoryOk(h.(changes := h.changes + [c]))
    ensures forall k :: Unchanged(h, k) && k != c.id ==> Unchanged(h.(changes := h.changes + [c]), k)
  {
    var n := h.(changes := h.changes + [c]);
    forall i | 0 <= i < |n.changes|
      ensures ChangeOk(n.changes[i], n)
    {
      assert i < |h.changes| ==> ChangeOk(h.changes[i], h);
    }
  }

  lemma {:induction false} LandIsDurable(s: State, id: Id, remote: map<Target, Oid>, h: History)
    requires Durable(s) && id in s.inflight
    requires h == s.past || h == s.past.(changes := s.past.changes
                                         + [Change(id, s.inflight[id].target, s.inflight[id].expected,
                                                   s.inflight[id].head)])
    ensures Durable(s.(inflight := s.inflight - {id}, remote := remote, past := h))
  {
    var t, r := s.(inflight := s.inflight - {id}, remote := remote, past := h), s.inflight[id];
    LandKeepsHistory(s.past, Change(id, r.target, r.expected, r.head));
    forall k | k in t.disk ensures JobOk(k, t.disk[k], t.past) { assert JobOk(k, s.disk[k], s.past); }
  }

  lemma {:induction false} LandKeeps(s: State, id: Id)
    requires Inv(s) && id in s.inflight
    ensures Inv(LandStep(s, id))
  {
    hide Justifies, ReviewMatches, DirsOk, HistoryOk, JobsOk, PhaseOk;
    var t := LandStep(s, id);
    LandIsDurable(s, id, t.remote, t.past);
    if s.up { SameRuns(s, t); }
  }

  /** The broker's own state does not look at the server, and of the history at what it recorded itself. */
  lemma {:induction false} SameRuns(s: State, t: State)
    requires Running(s) && t == s.(remote := t.remote, inflight := t.inflight, past := t.past)
    requires t.past == s.past.(changes := t.past.changes)
    ensures Running(t)
  {
    forall k | k in t.uploads
      ensures UploadOk(k, t.uploads[k], t.memory, t)
    {
      assert UploadOk(k, s.uploads[k], s.memory, s);
    }
    forall i | 0 <= i < |t.work| ensures CopyOk(t.work[i], t.past) { assert CopyOk(s.work[i], s.past); }
  }

  lemma {:induction false} ForeignKeeps(s: State, remote: map<Target, Oid>)
    requires Inv(s)
    ensures Inv(s.(remote := remote))
  {
    DurableSame(s, s.(remote := remote));
    if s.up { SameRuns(s, s.(remote := remote)); }
  }

  lemma {:induction false} ReportKeeps(s: State, e: Event)
    requires Inv(s) && s.up && e.Report? && s.phase.Pushing?
    ensures Inv(ReportStep(s, e))
  {
    hide Justifies, JobOk, UploadOk;
    EnterPhase(s, ReportStep(s, e).phase);
  }

  /** More sights change nothing else. */
  lemma {:induction false} SightKeeps(s: State, x: Sight)
    requires Inv(s) && s.up
    ensures Inv(s.(past := s.past.(seen := s.past.seen + {x})))
  {
    hide Granted, Within;
    var t := s.(past := s.past.(seen := s.past.seen + {x}));
    forall k | k in t.disk ensures JobOk(k, t.disk[k], t.past) { assert JobOk(k, s.disk[k], s.past); }
    forall i | 0 <= i < |t.past.changes|
      ensures ChangeOk(t.past.changes[i], t.past)
    {
      assert ChangeOk(s.past.changes[i], s.past);
    }
    forall k | k in t.uploads
      ensures UploadOk(k, t.uploads[k], t.memory, t)
    {
      assert UploadOk(k, s.uploads[k], s.memory, s);
    }
    forall i | 0 <= i < |t.work| ensures CopyOk(t.work[i], t.past) { assert CopyOk(s.work[i], s.past); }
  }

  lemma {:induction false} ReadBackKeeps(s: State, e: Event)
    requires Inv(s) && s.up && e.ReadBack? && s.phase.Pushed?
    ensures Inv(ReadBackStep(s, e))
  {
    hide Sized, Granted, InProgress;
    var t, job := ReadBackStep(s, e), s.phase.job;
    if t.phase.verified {
      SightKeeps(s, Sight(job.id, job.request.target, job.review.value.head));
      VerifiedKeeps(s.(past := t.past));
    } else {
      EnterPhase(s, Done(job, false));
    }
  }

  lemma {:induction false} VerifiedKeeps(s: State)
    requires Inv(s) && s.up && s.phase.Pushed? && Sighted(s.phase.job, s.past)
    ensures Inv(s.(phase := Done(s.phase.job, true)))
  {
    EnterPhase(s, Done(s.phase.job, true));
  }

  lemma {:induction false} RecordKeeps(s: State, e: Event)
    requires Inv(s) && s.up && e.Record? && s.phase.Done?
    ensures Inv(RecordStep(s, e))
  {
    hide Justifies, Commits, DirsOk, HistoryOk;
    var job, t := s.phase.job, s.(phase := Idle);
    var status := if s.phase.verified then ResponseReceived else Unknown;
    Resting(s, s.work);
    assert JobOk(job.id, s.memory[job.id], s.past);
    SetIsLegal(t, job.id, status, e.now);
    WorkCommitKeeps(s, RecordEdit(s.memory, job.id, s.phase.verified, e.now), e.write);
  }

  // ---------------------------------------------------------------- restart, and every run

  lemma {:induction false} LoadWithin(m: Store, now: int)
    requires Within(m)
    ensures Within(LoadEdit(m, now))
  {
    var next := LoadEdit(m, now);
    assert next.Keys == m.Keys && |next| == |next.Keys| && |m| == |m.Keys|;
    StoredSame(next, m);
  }

  lemma {:induction false} LoadIsSavable(s: State, now: int)
    requires Durable(s)
    ensures Savable(s, LoadEdit(s.disk, now))
  {
    hide Within;
    var next := LoadEdit(s.disk, now);
    LoadWithin(s.disk, now);
    forall k | k in next ensures NextOk(k, next[k], s.past) { RestartedOk(k, s.disk[k], s.past, now); }
  }

  lemma {:induction false} RestartedOk(k: Id, j: Job, h: History, now: int)
    requires JobOk(k, j, h)
    ensures NextOk(k, Restarted(j, now), h)
  {
  }

  lemma {:induction false} LoadedRuns(s: State, t: State, now: int)
    requires Durable(s) && t.memory == t.disk == LoadEdit(s.disk, now) && t.uploads == map[] && t.work == []
             && t.phase.Idle?
    requires t.doomed == s.dirs.Keys - t.memory.Keys && t.past.submitted == s.past.submitted
    ensures Running(t)
  {
    forall k | k in t.memory ensures !t.memory[k].status.Approved? { assert t.memory[k] == Restarted(s.disk[k], now); }
  }

  lemma {:induction false} LoadKeeps(s: State, e: Event)
    requires Inv(s) && !s.up && e.Load?
    ensures Inv(LoadStep(s, e))
  {
    LoadIsSavable(s, e.now);
    SavedIsDurable(s, LoadEdit(s.disk, e.now));
    if LoadStep(s, e).up { LoadedKeeps(s, e); }
  }

  lemma {:induction false} LoadedKeeps(s: State, e: Event)
    requires Durable(s) && !s.up && e.Load? && LoadStep(s, e).up && Durable(Saved(s, LoadEdit(s.disk, e.now)))
    ensures Inv(LoadStep(s, e))
  {
    hide Justifies;
    DurableSame(Saved(s, LoadEdit(s.disk, e.now)), LoadStep(s, e));
    LoadedRuns(s, LoadStep(s, e), e.now);
  }

  lemma {:induction false} WorkerKeeps(s: State, e: Event)
    requires Inv(s) && s.up
    ensures Inv(WorkerStep(s, e))
  {
    hide Down, JobOk;
    match e
    case BeginTick(ids) => BeginKeeps(s, ids);
    case Work(_, _, _, _, _, _) => if s.phase.Idle? && s.work != [] { WorkKeeps(s, e); }
    case Prepared(_, _, _, _, _) => if s.phase.Fetching? { PreparedKeeps(s, e); }
    case Recheck(_, _) => if s.phase.Admitted? { RecheckKeeps(s, e); }
    case Push => if s.phase.Rechecked? && s.phase.job.review.Some? { PushKeeps(s); }
    case Report(_) => if s.phase.Pushing? { ReportKeeps(s, e); }
    case ReadBack(_) => if s.phase.Pushed? { ReadBackKeeps(s, e); }
    case Record(_, _) => if s.phase.Done? { RecordKeeps(s, e); }
    case _ =>
  }

  lemma {:induction false} BrokerKeeps(s: State, e: Event)
    requires Inv(s) && s.up
    ensures Inv(BrokerStep(s, e))
  {
    hide AdmitEdit, LapseEdit;
    match e
    case MakeDir(_, _, _) => MakeDirKeeps(s, e);
    case MoveBundle(_, _) => MoveBundleKeeps(s, e);
    case Submit(_, _, _) => SubmitKeeps(s, e);
    case RemoveDir(_, _) => RemoveDirKeeps(s, e);
    case Ask(_, _, _, _) => AskKeeps(s, e);
    case _ => WorkerKeeps(s, e);
  }

  lemma {:induction false} StepKeeps(s: State, e: Event)
    requires Inv(s)
    ensures Inv(Step(s, e))
  {
    if e.Land? {
      if e.id in s.inflight { LandKeeps(s, e.id); }
    } else if e.Foreign? {
      ForeignKeeps(s, Step(s, e).remote);
    } else if e.Load? {
      if !s.up { LoadKeeps(s, e); }
    } else if e.Crash? {
      DurableSame(s, Down(s));
    } else if s.up {
      BrokerKeeps(s, e);
    }
  }

  lemma {:induction false} RunKeeps(remote: map<Target, Oid>, es: seq<Event>)
    ensures Inv(Run(remote, es))
  {
    if es != [] {
      RunKeeps(remote, es[..|es| - 1]);
      StepKeeps(Run(remote, es[..|es| - 1]), es[|es| - 1]);
    } else {
      assert Stored(map[]) == 0;
    }
  }
}
