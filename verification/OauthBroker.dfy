/** The session object and the registry that owns the sessions, as the broker runs them. What they hold is what the
    machine of `OauthSessions` holds, step by step. */
module OauthBroker {
  import opened Outcome
  import opened OauthSessions
  import opened Runs

  /** The settings' secrets; a write either commits or fails and changes nothing. */
  class SecretStore {
    var secrets: map<Name, Record>

    method Set(name: Name, record: Record, written: bool) returns (ok: bool)
      modifies this
      ensures ok == written && secrets == if ok then old(secrets)[name := record] else old(secrets)
    {
      ok := written;
      if ok { secrets := secrets[name := record]; }
    }

    method Remove(name: Name, written: bool) returns (ok: bool)
      modifies this
      ensures ok == written && secrets == if ok then old(secrets) - {name} else old(secrets)
    {
      ok := written;
      if ok { secrets := secrets - {name}; }
    }
  }

  predicate Exchanges(s: State, login: nat, sid: Sid) {
    login in s.logins && s.logins[login] == LoginState(sid, Exchange)
  }

  /** `now` is what makes a new generation new. */
  class LiveSession {
    const sid: Sid
    const store: SecretStore
    var lifecycle: Session

    constructor (sid: Sid, store: SecretStore)
      ensures IsNew(sid, store)
    {
      this.sid, this.store, lifecycle := sid, store, Session(Initial(sid), false);
    }

    predicate IsNew(sid: Sid, store: SecretStore)
      reads this
    {
      this.sid == sid && this.store == store && lifecycle == Session(Initial(sid), false)
    }

    /** The object and the secrets are what the machine says of this session and of the secrets. */
    predicate Matches(s: State)
      reads this, store
    {
      sid in s.sessions && s.sessions[sid] == lifecycle && s.secrets == store.secrets
    }

    predicate Accepts(g: Generation)
      reads this
    {
      !lifecycle.retired && lifecycle.generation == g
    }

    /** `begin`, once the refresh lock is held: the machine's step, which adds a login if and only if this succeeds. */
    method Begin(now: nat) returns (ok: bool)
      modifies this
      ensures forall s :: old(Matches(s)) && s.now == now && Free(s, sid) ==>
        var t := Act(s, Event.Begin(sid));
        Matches(t) && t.logins == if ok then s.logins[now := LoginState(sid, Starting)] else s.logins
      ensures ok ==> forall g :: Accepts(g) <==> g == Issued(now)
    {
      ok := !lifecycle.retired;
      if ok { lifecycle := Session(Issued(now), false); }
    }

    /** `store` at the end of a login: the machine's step, which counts the login as stored if and only if this
        succeeds. */
    method SaveLogin(now: nat, login: nat, written: bool) returns (ok: bool)
      modifies store
      ensures forall s | old(Matches(s)) && s.now == now && Exchanges(s, login, sid) ::
        var t := Act(s, FinishStore(login, true, written));
        Matches(t) && t.logins[login].stage == Reporting(ok) && t.stored == if ok then s.stored + {login} else s.stored
    {
      ok := Save(Issued(login), Record(Login(login), now), written);
    }

    /** `store` at the end of a refresh: the machine's step. */
    method SaveRefresh(now: nat, g: Generation, read: Record, written: bool) returns (ok: bool)
      modifies store
      ensures forall s | old(Matches(s)) && s.now == now && sid in s.flights && s.flights[sid] == Refreshing(g, read) ::
        var t := Act(s, RefreshStore(sid, true, written));
        Matches(t) && (ok ==> sid.name in t.secrets && t.secrets[sid.name] == Record(read.origin, now))
          && (!ok ==> t.secrets == s.secrets)
    {
      ok := Save(g, Record(read.origin, now), written);
    }

    /** `store`: only for the generation that asked. */
    method Save(g: Generation, record: Record, written: bool) returns (ok: bool)
      modifies store
      ensures ok <==> Accepts(g) && written
      ensures store.secrets == if ok then old(store.secrets)[sid.name := record] else old(store.secrets)
    {
      ok := !lifecycle.retired && lifecycle.generation == g;
      if ok { ok := store.Set(sid.name, record, written); }
    }

    /** `disconnect`: the machine's step. The generation moves first, so what is in flight is refused afterwards even
        if the removal fails. */
    method Disconnect(now: nat, written: bool) returns (ok: bool)
      modifies this, store
      ensures forall s :: old(Matches(s)) && s.now == now ==>
        var t := Act(s, Event.Disconnect(sid, written));
        Matches(t) && t.removed == if ok then s.removed[sid.name := now] else s.removed
      ensures forall g :: old(Accepts(g)) && Age(g) < now ==> !Accepts(g)
    {
      ok := !lifecycle.retired;
      if ok {
        lifecycle := Session(Issued(now), false);
        ok := store.Remove(sid.name, written);
      }
    }

    /** `retire`: the credential goes first, and only then is the session retired. */
    method Retire(now: nat, written: bool) returns (ok: bool)
      modifies this, store
      ensures forall s ::
        old(Matches(s)) && s.now == now && s.publishing.Some? && sid.name in s.publishing.value.todo
        && sid.name in s.registry && s.registry[sid.name] == sid ==>
          var t := Act(s, Event.Retire(sid.name, written));
          Matches(t) && (t.publishing.Some? <==> ok) && t.removed == if ok then s.removed[sid.name := now]
            else s.removed
      ensures ok == written && lifecycle == if ok then Session(Issued(now), true) else old(lifecycle)
      ensures store.secrets == if ok then old(store.secrets) - {sid.name} else old(store.secrets)
    {
      ok := store.Remove(sid.name, written);
      if ok { lifecycle := Session(Issued(now), true); }
    }
  }

  // ---------------------------------------------------------------- publication as a run of the machine

  function Retired(names: seq<Name>): seq<Event> {
    seq(|names|, i requires 0 <= i < |names| => Event.Retire(names[i], true))
  }

  ghost predicate Distinct(names: seq<Name>) { forall i, j :: 0 <= i < j < |names| ==> names[i] != names[j] }

  function Named(names: seq<Name>): set<Name> { set n | n in names }

  /** The machine's own names of things agree. */
  ghost predicate Keyed(s: State) {
    forall n :: n in s.registry ==> s.registry[n] in s.sessions && s.registry[n].name == n
  }

  /** The sessions after those that are registered under `names` were retired, one after the other. */
  ghost predicate RetiredIn(before: map<Sid, Session>, registry: map<Name, Sid>, now: nat, names: seq<Name>,
                            after: map<Sid, Session>) {
    && after.Keys == before.Keys
    && (forall i :: 0 <= i < |names| ==>
          names[i] in registry && registry[names[i]] in after
            && after[registry[names[i]]] == Session(Issued(now + i), true))
    && (forall sid :: sid in before && (sid.name !in names || sid.name !in registry || registry[sid.name] != sid) ==>
          after[sid] == before[sid])
  }

  lemma {:induction false} RetiredInOneWay(before: map<Sid, Session>, registry: map<Name, Sid>, now: nat,
                                           names: seq<Name>, one: map<Sid, Session>, two: map<Sid, Session>)
    requires RetiredIn(before, registry, now, names, one) && RetiredIn(before, registry, now, names, two)
    ensures one == two
  {
    forall sid | sid in before ensures one[sid] == two[sid] {
      if sid.name in names && sid.name in registry && registry[sid.name] == sid {
        var i :| 0 <= i < |names| && names[i] == sid.name;
      }
    }
  }

  ghost predicate AfterRetiring(s: State, names: seq<Name>, t: State) {
    && t.now == s.now + |names| && t.registry == s.registry && t.secrets == s.secrets - Named(names)
    && s.publishing.Some? && t.publishing == Some(s.publishing.value.(todo := s.publishing.value.todo - Named(names)))
    && RetiredIn(s.sessions, s.registry, s.now, names, t.sessions)
  }

  lemma {:induction false} RetiredInOneMore(before: map<Sid, Session>, registry: map<Name, Sid>, now: nat,
                                            names: seq<Name>, after: map<Sid, Session>, n: Name)
    requires RetiredIn(before, registry, now, names, after) && n !in names && n in registry && registry[n] in before
    requires forall k :: k in registry ==> registry[k].name == k
    ensures RetiredIn(before, registry, now, names + [n], after[registry[n] := Session(Issued(now + |names|), true)])
  {
    var last := after[registry[n] := Session(Issued(now + |names|), true)];
    forall i | 0 <= i < |names| ensures last[registry[names[i]]] == Session(Issued(now + i), true) {
      assert names[i] != n;
    }
  }

  lemma {:induction false} RetireFields(t: State, n: Name)
    requires n in t.registry && t.publishing.Some? && n in t.publishing.value.todo
    ensures var u, p := Step(t, Event.Retire(n, true)), t.publishing.value;
      && u.now == t.now + 1 && u.registry == t.registry && u.secrets == t.secrets - {n}
      && u.publishing == Some(p.(todo := p.todo - {n}))
      && u.sessions == t.sessions[t.registry[n] := Session(Issued(t.now), true)]
  {
  }

  lemma {:induction false} RetiringOne(s: State, names: seq<Name>, t: State, n: Name)
    requires Keyed(s) && AfterRetiring(s, names, t) && n !in names && n in s.registry && n in s.publishing.value.todo
    ensures AfterRetiring(s, names + [n], Step(t, Event.Retire(n, true)))
  {
    assert Named(names + [n]) == Named(names) + {n};
    var todo := s.publishing.value.todo;
    assert todo - Named(names) - {n} == todo - Named(names + [n]);
    assert s.secrets - Named(names) - {n} == s.secrets - Named(names + [n]);
    RetiredInOneMore(s.sessions, s.registry, s.now, names, t.sessions, n);
    assert n !in Named(names);
    hide Step, RetiredIn, Named, Keyed;
    RetireFields(t, n);
  }

  lemma {:induction false} NamedSplit(names: seq<Name>)
    requires names != [] && Distinct(names)
    ensures var before, n := names[..|names| - 1], names[|names| - 1];
      Distinct(before) && n !in before && Named(before) <= Named(names) && n in Named(names)
  {
  }

  lemma {:induction false} NoneNamed(todo: set<Name>)
    ensures todo - Named([]) == todo
  {
  }

  lemma {:induction false} RetiringAll(s: State, names: seq<Name>)
    requires Keyed(s) && Distinct(names) && Named(names) <= s.registry.Keys
    requires s.publishing.Some? && Named(names) <= s.publishing.value.todo
    ensures AfterRetiring(s, names, After(Step, s, Retired(names)))
  {
    hide Step, Keyed, Named, Distinct, RetiredIn;
    if names == [] {
      NothingRetired(s.sessions, s.registry, s.now, s.secrets);
      NoneNamed(s.publishing.value.todo);
      assert Retired(names) == [];
    } else {
      var before, n := names[..|names| - 1], names[|names| - 1];
      NamedSplit(names);
      RetiringAll(s, before);
      assert Retired(names) == Retired(before) + [Event.Retire(n, true)] && names == before + [n];
      AfterLast(Step, s, Retired(before), Event.Retire(n, true));
      RetiringOne(s, before, After(Step, s, Retired(before)), n);
    }
  }

  /** Which of `names` are done, in order. */
  ghost predicate Handled(names: set<Name>, todo: set<Name>, done: seq<Name>) {
    todo <= names && Distinct(done) && Named(done) == names - todo
  }

  lemma {:induction false} HandleOne(names: set<Name>, todo: set<Name>, done: seq<Name>, n: Name,
                                     secrets: map<Name, Record>)
    requires Handled(names, todo, done) && n in todo
    ensures Handled(names, todo - {n}, done + [n]) && n !in done && Named(done + [n]) == Named(done) + {n}
    ensures secrets - Named(done) - {n} == secrets - Named(done + [n])
  {
    assert n !in Named(done);
    assert Named(done + [n]) == Named(done) + {n};
    assert names - (todo - {n}) == names - todo + {n};
  }

  lemma {:induction false} HandledNone(names: set<Name>)
    ensures Handled(names, names, []) && Named([]) == {}
  {
  }

  lemma {:induction false} NothingRetired(before: map<Sid, Session>, registry: map<Name, Sid>, now: nat,
                                          secrets: map<Name, Record>)
    ensures RetiredIn(before, registry, now, [], before) && secrets - Named([]) == secrets
  {
  }

  /** The events of one publication that retired `done` and then either ended or failed at `failed`. */
  function Published(keep: set<Name>, add: set<Name>, done: seq<Name>, failed: Option<Name>): seq<Event> {
    [PublishBegin(keep, add)] + Retired(done) + [Last(failed)]
  }

  lemma {:induction false} BeginsPublishing(s: State, keep: set<Name>, add: set<Name>)
    requires Keyed(s) && s.publishing.None? && keep <= s.registry.Keys && keep !! add
    ensures var u := Step(s, PublishBegin(keep, add));
      && Keyed(u) && u.now == s.now + 1 && u.sessions == s.sessions && u.registry == s.registry
         && u.secrets == s.secrets
      && u.publishing == Some(Publication(keep, add, s.registry.Keys - keep))
  {
  }

  function Last(failed: Option<Name>): Event { if failed.None? then PublishEnd else Event.Retire(failed.value, false) }

  /** What the machine makes of them. */
  lemma {:induction false} PublishedSteps(s: State, keep: set<Name>, add: set<Name>, done: seq<Name>,
                                          failed: Option<Name>)
    requires Keyed(s) && s.publishing.None? && keep <= s.registry.Keys && keep !! add
    requires Distinct(done) && Named(done) <= s.registry.Keys - keep
    ensures var u := Step(s, PublishBegin(keep, add));
      var t := After(Step, u, Retired(done));
      AfterRetiring(u, done, t) && After(Step, s, Published(keep, add, done, failed)) == Step(t, Last(failed))
  {
    var e, last := PublishBegin(keep, add), Last(failed);
    var u := Step(s, e);
    BeginsPublishing(s, keep, add);
    hide Step, AfterRetiring, Keyed, Last;
    RetiringAll(u, done);
    AfterLast(Step, u, Retired(done), last);
    AfterFirst(Step, s, e, Retired(done) + [last]);
    assert Published(keep, add, done, failed) == [e] + (Retired(done) + [last]);
  }

  lemma {:induction false} DistinctSize(names: seq<Name>)
    requires Distinct(names)
    ensures |Named(names)| == |names|
  {
    if names != [] {
      var before := names[..|names| - 1];
      assert names == before + [names[|names| - 1]];
      DistinctSize(before);
      assert Named(names) == Named(before) + {names[|names| - 1]};
    }
  }

  lemma {:induction false} FailStep(t: State, failed: Name)
    ensures var u := Step(t, Event.Retire(failed, false));
      u.registry == t.registry && u.secrets == t.secrets && u.sessions == t.sessions
  {
  }

  /** A publication that fails changes what it retired, and nothing else. */
  lemma {:induction false} FailedRun(s: State, keep: set<Name>, add: set<Name>, done: seq<Name>, failed: Name,
                                     lives: map<Sid, Session>)
    requires Keyed(s) && s.publishing.None? && keep <= s.registry.Keys && keep !! add
    requires Distinct(done) && Named(done) <= s.registry.Keys - keep
             && RetiredIn(s.sessions, s.registry, s.now + 1, done, lives)
    ensures var t := After(Step, s, Published(keep, add, done, Some(failed)));
      t.registry == s.registry && t.secrets == s.secrets - Named(done) && t.sessions == lives
  {
    hide RetiredIn, After, Step, Keyed, Distinct, Named, Published;
    var u := Step(s, PublishBegin(keep, add));
    var t := After(Step, u, Retired(done));
    BeginsPublishing(s, keep, add);
    PublishedSteps(s, keep, add, done, Some(failed));
    RetiredInOneWay(u.sessions, u.registry, u.now, done, t.sessions, lives);
    FailStep(t, failed);
  }

  function Owning(registry: map<Name, Sid>, keep: set<Name>, add: set<Name>, born: nat): map<Name, Sid> {
    map n | n in add + keep * registry.Keys :: if n in add then Sid(born, n) else registry[n]
  }

  lemma {:induction false} EndStep(t: State, keep: set<Name>, add: set<Name>)
    requires t.publishing == Some(Publication(keep, add, {}))
    ensures var u := Step(t, PublishEnd);
      && u.registry == Owning(t.registry, keep, add, t.now) && u.secrets == t.secrets
      && u.sessions == t.sessions + NewSessions(t.now, add)
  {
    hide NewSessions;
  }

  /** A publication that succeeds leaves the kept owners and new sessions for the rest. */
  lemma {:induction false} EndedRun(s: State, keep: set<Name>, add: set<Name>, done: seq<Name>,
                                    lives: map<Sid, Session>)
    requires Keyed(s) && s.publishing.None? && keep <= s.registry.Keys && keep !! add
    requires Distinct(done) && Named(done) == s.registry.Keys - keep
             && RetiredIn(s.sessions, s.registry, s.now + 1, done, lives)
    ensures var t, born := After(Step, s, Published(keep, add, done, None)), s.now + 1 + |done|;
      && t.registry == Owning(s.registry, keep, add, born) && t.secrets == s.secrets - Named(done)
      && t.sessions == lives + NewSessions(born, add)
  {
    hide RetiredIn, After, Step, NewSessions, Keyed, Distinct, Named, Owning, Published;
    var u := Step(s, PublishBegin(keep, add));
    var t := After(Step, u, Retired(done));
    BeginsPublishing(s, keep, add);
    PublishedSteps(s, keep, add, done, None);
    RetiredInOneWay(u.sessions, u.registry, u.now, done, t.sessions, lives);
    assert u.publishing.value.todo - Named(done) == {};
    EndStep(t, keep, add);
  }

  function Entered(built: map<Name, LiveSession>, born: nat): map<Sid, LiveSession> {
    map n | n in built :: Sid(born, n) := built[n]
  }

  lemma {:induction false} EnteredAre(built: map<Name, LiveSession>, born: nat, sid: Sid)
    ensures sid in Entered(built, born) <==> sid.born == born && sid.name in built
    ensures sid in Entered(built, born) ==> Entered(built, born)[sid] == built[sid.name]
  {
    if sid.born == born && sid.name in built { assert sid == Sid(born, sid.name); }
  }

  /** How the retirement of `names` ended. */
  ghost predicate Settled(names: set<Name>, failing: set<Name>, failed: Option<Name>, done: seq<Name>,
                          left: set<Name>) {
    && Handled(names, left, done) && Named(done) !! failing
    && if failed.Some? then failed.value in names * failing else left == {}
  }

  lemma {:induction false} SettledSets(names: set<Name>, failing: set<Name>, failed: Option<Name>, done: seq<Name>,
                                       left: set<Name>)
    requires Settled(names, failing, failed, done, left)
    ensures Distinct(done) && Named(done) <= names - failing && (failed.None? <==> names !! failing)
    ensures if failed.None? then Named(done) == names else failed.value in names * failing
  {
  }

  lemma {:induction false} RetiredExactly(before: map<Sid, Session>, owners: map<Name, Sid>, now: nat, done: seq<Name>,
                                          after: map<Sid, Session>)
    requires RetiredIn(before, owners, now, done, after) && forall n :: n in owners ==>
      owners[n] in before && owners[n].name == n
    ensures forall n :: n in owners ==> (after[owners[n]].retired <==> n in done || before[owners[n]].retired)
  {
    forall n | n in owners ensures after[owners[n]].retired <==> n in done || before[owners[n]].retired {
      if n in done { var i :| 0 <= i < |done| && done[i] == n; }
    }
  }

  /** The step that ends a publication. */
  function Born(now: nat, replaced: set<Name>): (r: nat)
    ensures r > now
  {
    now + 1 + |replaced|
  }

  /** What a publication does to the machine. */
  lemma {:induction false} PublishedRun(s: State, keep: set<Name>, add: set<Name>, failing: set<Name>,
                                        failed: Option<Name>, done: seq<Name>, left: set<Name>, mid: map<Sid, Session>)
    requires Keyed(s) && s.publishing.None? && keep <= s.registry.Keys && keep !! add
    requires Settled(s.registry.Keys - keep, failing, failed, done, left)
    requires RetiredIn(s.sessions, s.registry, s.now + 1, done, mid)
    ensures var t, born := After(Step, s, Published(keep, add, done, failed)), Born(s.now, s.registry.Keys - keep);
      && t.secrets == s.secrets - Named(done)
      && t.registry == (if failed.None? then Owning(s.registry, keep, add, born) else s.registry)
      && t.sessions == if failed.None? then mid + NewSessions(born, add) else mid
  {
    hide RetiredIn, After, Named, Distinct, Published, Owning, NewSessions, Keyed, Settled;
    SettledSets(s.registry.Keys - keep, failing, failed, done, left);
    if failed.None? {
      DistinctSize(done);
      EndedRun(s, keep, add, done, mid);
    } else {
      FailedRun(s, keep, add, done, failed.value, mid);
    }
  }

  // ---------------------------------------------------------------- the registry

  function OwnersOf(forwards: map<Name, LiveSession>): map<Name, Sid> { map n | n in forwards :: forwards[n].sid }

  ghost function LivesOf(made: map<Sid, LiveSession>): map<Sid, Session>
    reads made.Values
  {
    map sid | sid in made :: made[sid].lifecycle
  }

  /** Each session is known under its own name and identity. */
  ghost predicate Coherent(forwards: map<Name, LiveSession>, made: map<Sid, LiveSession>, store: SecretStore) {
    && (forall sid :: sid in made ==> made[sid].sid == sid && made[sid].store == store)
    && (forall n :: n in forwards ==>
          forwards[n].sid.name == n && forwards[n].sid in made && made[forwards[n].sid] == forwards[n])
  }

  lemma {:induction false} OwnersInstalled(was: map<Name, LiveSession>, keep: set<Name>, built: map<Name, LiveSession>,
                                           born: nat)
    requires keep <= was.Keys && keep !! built.Keys && forall n :: n in built ==> built[n].sid == Sid(born, n)
    ensures OwnersOf((map n | n in keep :: was[n]) + built) == Owning(OwnersOf(was), keep, built.Keys, born)
  {
  }

  lemma {:induction false} LivesInstalled(all: map<Sid, LiveSession>, built: map<Name, LiveSession>, born: nat,
                                          store: SecretStore)
    requires forall n :: n in built ==> built[n].IsNew(Sid(born, n), store)
    ensures LivesOf(all + Entered(built, born)) == LivesOf(all) + NewSessions(born, built.Keys)
  {
    hide Entered, NewSessions;
    var grown := all + Entered(built, born);
    forall sid: Sid
      ensures sid in grown <==> sid in all || sid in NewSessions(born, built.Keys)
      ensures sid in NewSessions(born, built.Keys) ==> grown[sid].lifecycle == NewSessions(born, built.Keys)[sid]
      ensures sid in all && sid !in NewSessions(born, built.Keys) ==> grown[sid] == all[sid]
    {
      EnteredAre(built, born, sid);
      NewSessionsAre(born, built.Keys, sid);
    }
  }

  lemma {:induction false} CoherentInstalled(was: map<Name, LiveSession>, all: map<Sid, LiveSession>, keep: set<Name>,
                                             built: map<Name, LiveSession>, born: nat, store: SecretStore)
    requires keep <= was.Keys && Coherent(was, all, store) && forall sid :: sid in all ==> sid.born < born
    requires forall n :: n in built ==> built[n].sid == Sid(born, n) && built[n].store == store
    ensures Coherent((map n | n in keep :: was[n]) + built, all + Entered(built, born), store)
  {
    hide Entered;
    var forwards, made := (map n | n in keep :: was[n]) + built, all + Entered(built, born);
    forall sid | sid in made ensures made[sid].sid == sid && made[sid].store == store { EnteredAre(built, born, sid); }
    forall n | n in forwards
      ensures forwards[n].sid.name == n && forwards[n].sid in made && made[forwards[n].sid] == forwards[n]
    {
      EnteredAre(built, born, forwards[n].sid);
    }
  }

  class Registry {
    const store: SecretStore
    var forwards: map<Name, LiveSession>
    /** Every session of this process; requests in flight hold on to replaced ones. */
    ghost var made: map<Sid, LiveSession>

    constructor (store: SecretStore)
      ensures Valid() && this.store == store && forwards == map[] && made == map[]
    {
      this.store, forwards, made := store, map[], map[];
    }

    ghost predicate Valid()
      reads this
    {
      Coherent(forwards, made, store)
    }

    ghost function Owners(): map<Name, Sid>
      reads this
    {
      OwnersOf(forwards)
    }

    ghost function Lifecycles(): map<Sid, Session>
      reads this, made.Values
    {
      LivesOf(made)
    }

    /** The secrets, the registered sessions and all sessions are the machine's. */
    ghost predicate Matches(s: State)
      reads this, store, made.Values
    {
      s.secrets == store.secrets && s.registry == Owners() && s.sessions == Lifecycles()
    }

    /** The sessions of forwards that are new, or that have another upstream than before. */
    method Build(add: set<Name>, born: nat) returns (built: map<Name, LiveSession>)
      ensures built.Keys == add
      ensures forall n :: n in add ==> fresh(built[n]) && built[n].IsNew(Sid(born, n), store)
    {
      var rest := add;
      built := map[];
      while rest != {}
        invariant rest <= add && built.Keys == add - rest
        invariant forall n :: n in built ==> fresh(built[n]) && built[n].IsNew(Sid(born, n), store)
        decreases rest
      {
        var n :| n in rest;
        var session := new LiveSession(Sid(born, n), store);
        built := built[n := session];
        rest := rest - {n};
      }
    }

    method RetireOne(n: Name, now: nat, written: bool) returns (ok: bool)
      requires Valid() && n in forwards
      modifies store, forwards[n]
      ensures ok == written && store.secrets == if ok then old(store.secrets) - {n} else old(store.secrets)
      ensures Lifecycles() == if ok then old(Lifecycles())[Owners()[n] := Session(Issued(now), true)]
              else old(Lifecycles())
    {
      ok := forwards[n].Retire(now, written);
      assert forall sid :: sid in made && made[sid] != forwards[n] ==> made[sid].lifecycle == old(made[sid].lifecycle);
    }

    /** Retires the sessions of `names` in any order, until a removal fails. */
    method RetireAll(names: set<Name>, now: nat, failing: set<Name>)
      returns (failed: Option<Name>, ghost done: seq<Name>, ghost left: set<Name>)
      requires Valid() && names <= forwards.Keys
      modifies store, forwards.Values
      ensures Settled(names, failing, failed, done, left) && store.secrets == old(store.secrets) - Named(done)
      ensures RetiredIn(old(Lifecycles()), Owners(), now, done, Lifecycles())
    {
      hide RetiredIn, Handled, Distinct, Named;
      var todo, i := names, now;
      done := [];
      NothingRetired(Lifecycles(), Owners(), now, store.secrets);
      HandledNone(names);
      while todo != {}
        invariant todo <= names && i == now + |done| && Handled(names, todo, done) && Named(done) !! failing
        invariant store.secrets == old(store.secrets) - Named(done)
        invariant RetiredIn(old(Lifecycles()), Owners(), now, done, Lifecycles())
        decreases todo
      {
        var n :| n in todo;
        HandleOne(names, todo, done, n, old(store.secrets));
        RetiredInOneMore(old(Lifecycles()), Owners(), now, done, Lifecycles(), n);
        var retired := RetireOne(n, i, n !in failing);
        if !retired { return Some(n), done, todo; }
        done := done + [n];
        todo, i := todo - {n}, i + 1;
      }
      failed, left := None, {};
    }

    /** The new set becomes visible. */
    method Install(keep: set<Name>, built: map<Name, LiveSession>, born: nat)
      requires Valid() && keep <= forwards.Keys && keep !! built.Keys && forall sid :: sid in made ==> sid.born < born
      requires forall n :: n in built ==> built[n].IsNew(Sid(born, n), store)
      modifies this
      ensures Valid() && forwards == (map n | n in keep :: old(forwards)[n]) + built
      ensures Owners() == Owning(old(Owners()), keep, built.Keys, born)
      ensures Lifecycles() == old(Lifecycles()) + NewSessions(born, built.Keys)
    {
      hide Entered, NewSessions, Owning, OwnersOf, LivesOf, Coherent;
      var next := (map n | n in keep :: forwards[n]) + built;
      ghost var grown := made + Entered(built, born);
      OwnersInstalled(forwards, keep, built, born);
      LivesInstalled(made, built, born, store);
      CoherentInstalled(forwards, made, keep, built, born, store);
      forwards := next;
      made := grown;
    }

    /** Retires `names`, and then shows the new set; returns the name whose removal failed, what was retired in which
        order, what is left, and the sessions at that moment. */
    method Replace(keep: set<Name>, add: set<Name>, names: set<Name>, now: nat, born: nat, failing: set<Name>)
      returns (failed: Option<Name>, ghost done: seq<Name>, ghost left: set<Name>, ghost mid: map<Sid, Session>)
      requires Valid() && keep <= forwards.Keys && keep !! add && names <= forwards.Keys
               && forall sid :: sid in made ==> sid.born < born
      modifies this, store, forwards.Values
      ensures Valid() && Settled(names, failing, failed, done, left)
      ensures store.secrets == old(store.secrets) - Named(done)
      ensures RetiredIn(old(Lifecycles()), old(Owners()), now, done, mid)
      ensures forall n :: n in old(forwards) ==>
        old(forwards)[n].sid in mid && mid[old(forwards)[n].sid] == old(forwards)[n].lifecycle
      ensures failed.Some? ==> forwards == old(forwards) && Lifecycles() == mid
      ensures failed.None? ==> forwards.Keys == keep + add && forall n :: n in keep ==> forwards[n] == old(forwards)[n]
      ensures failed.None? ==>
        Owners() == Owning(old(Owners()), keep, add, born) && Lifecycles() == mid + NewSessions(born, add)
    {
      hide RetiredIn, Named, Settled, Owners, Lifecycles, Owning, NewSessions, Valid, LiveSession.IsNew;
      var built := Build(add, born);
      failed, done, left := RetireAll(names, now, failing);
      mid := Lifecycles();
      OwnLives();
      if failed.None? { Install(keep, built, born); }
    }

    lemma {:induction false} OwnLives()
      requires Valid()
      ensures forall n :: n in forwards ==>
        forwards[n].sid in Lifecycles() && Lifecycles()[forwards[n].sid] == forwards[n].lifecycle
    {
    }

    /** `publish`: every replaced session is retired before the new set is visible; `keep` are the forwards whose
        upstream stays. It is a run of the machine. A removal that fails leaves the old set in place, and then exactly
        the sessions of `done` are retired and without credentials. */
    method Publish(keep: set<Name>, add: set<Name>, now: nat, failing: set<Name>)
      returns (failed: Option<Name>, ghost done: seq<Name>)
      requires Valid() && keep <= forwards.Keys && keep !! add && forall sid :: sid in made ==> sid.born <= now
      modifies this, store, forwards.Values
      ensures Valid()
      ensures forall s :: old(Matches(s)) && s.now == now && s.publishing.None? ==>
        Matches(After(Step, s, Published(keep, add, done, failed)))
      ensures var replaced := old(forwards).Keys - keep;
        && Named(done) <= replaced - failing && store.secrets == old(store.secrets) - Named(done)
        && (failed.None? <==> replaced !! failing)
        && if failed.None? then Named(done) == replaced else failed.value in replaced * failing
      ensures forall n :: n in old(forwards) ==>
        (old(forwards)[n].lifecycle.retired <==> n in done || old(forwards[n].lifecycle.retired))
      ensures if failed.None? then forwards.Keys == keep + add else forwards == old(forwards)
      ensures forall n :: n in keep ==> forwards[n] == old(forwards)[n]
    {
      hide RetiredIn, After, Named, Distinct, Published, OwnersOf, LivesOf, Owning, NewSessions, Settled, Born;
      ghost var left, mid;
      var replaced := forwards.Keys - keep;
      ghost var owners, lives := Owners(), Lifecycles();
      OwnersKeyed();
      OwnLives();
      failed, done, left, mid := Replace(keep, add, replaced, now + 1, Born(now, replaced), failing);
      SettledSets(owners.Keys - keep, failing, failed, done, left);
      RetiredExactly(lives, owners, now + 1, done, mid);
      forall s | old(Matches(s)) && s.now == now && s.publishing.None?
        ensures Matches(After(Step, s, Published(keep, add, done, failed)))
      {
        PublishedRun(s, keep, add, failing, failed, done, left, mid);
      }
    }

    lemma {:induction false} OwnersKeyed()
      requires Valid()
      ensures Owners().Keys == forwards.Keys && Lifecycles().Keys == made.Keys
      ensures forall n :: n in forwards ==>
        Owners()[n] == forwards[n].sid && Owners()[n] in Lifecycles() && Owners()[n].name == n
    {
    }
  }
}
