/** What holds of stored OAuth credentials in every interleaving. */
module OauthSafety {
  import opened OauthSessions

  // ---------------------------------------------------------------- what one step does to credentials

  /** A successful disconnect, or the retirement of a replaced session. */
  predicate RemovesAt(s: State, e: Event, t: State) {
    || (e.Disconnect? && e.written && e.sid in s.sessions && !s.sessions[e.sid].retired
        && t.secrets == s.secrets - {e.sid.name} && t.removed == s.removed[e.sid.name := s.now])
    || (e.Retire? && e.written && e.name in s.registry
        && t.secrets == s.secrets - {e.name} && t.removed == s.removed[e.name := s.now])
  }

  predicate LogsInAt(s: State, e: Event, t: State) {
    && e.FinishStore? && e.login in s.logins && s.logins[e.login].stage.Exchange? && t.removed == s.removed
    && var sid := s.logins[e.login].sid;
    && Current(s, sid, Issued(e.login)) && t.secrets == s.secrets[sid.name := Record(Login(e.login), s.now)]
  }

  predicate RefreshesAt(s: State, e: Event, t: State) {
    && e.RefreshStore? && e.sid in s.flights && s.flights[e.sid].Refreshing? && t.removed == s.removed
    && var f := s.flights[e.sid];
    && Current(s, e.sid, f.generation) && t.secrets == s.secrets[e.sid.name := Record(f.record.origin, s.now)]
  }

  predicate KeepsSecrets(s: State, t: State) { t.secrets == s.secrets && t.removed == s.removed }

  lemma {:induction false} DisconnectSecretsStep(s: State, e: Event)
    requires e.Disconnect?
    ensures var t := DisconnectStep(s, e); KeepsSecrets(s, t) || RemovesAt(s, e, t)
  {
  }

  lemma {:induction false} RetireSecretsStep(s: State, e: Event)
    requires e.Retire?
    ensures var t := RetireStep(s, e); KeepsSecrets(s, t) || RemovesAt(s, e, t)
  {
  }

  lemma {:induction false} StoreSecretsStep(s: State, e: Event)
    ensures e.FinishStore? ==> var t := FinishStoreStep(s, e); KeepsSecrets(s, t) || LogsInAt(s, e, t)
    ensures e.RefreshStore? ==> var t := RefreshStoreStep(s, e); KeepsSecrets(s, t) || RefreshesAt(s, e, t)
  {
  }

  /** Logins keep their sessions, and none starts to wait. */
  predicate LoginsFrame(s: State, t: State) {
    forall l :: l in t.logins ==>
      l in s.logins && t.logins[l].sid == s.logins[l].sid && (t.logins[l].stage.Pending? ==> s.logins[l].stage.Pending?)
  }

  predicate Frame(s: State, t: State) { KeepsSecrets(s, t) && LoginsFrame(s, t) }

  lemma {:induction false} SetStageFrame(s: State, l: nat, stage: Stage)
    requires l in s.logins && !stage.Pending?
    ensures Frame(s, SetStage(s, l, stage))
  {
  }

  lemma {:induction false} FinishCheckFrame(s: State, e: Event)
    requires e.FinishCheck?
    ensures Frame(s, FinishCheckStep(s, e))
  {
    if e.login in s.logins {
      SetStageFrame(s, e.login, Exchange);
      SetStageFrame(s, e.login, Reporting(false));
    }
  }

  lemma {:induction false} FinishStoreFrame(s: State, e: Event)
    requires e.FinishStore?
    ensures LoginsFrame(s, FinishStoreStep(s, e))
  {
    if e.login in s.logins {
      SetStageFrame(s, e.login, Reporting(true));
      SetStageFrame(s, e.login, Reporting(false));
    }
  }

  lemma {:induction false} ReportFrame(s: State, login: nat)
    ensures Frame(s, ReportStep(s, login)) && Frame(s, CallbackStep(s, login))
  {
    if login in s.logins {
      SetStageFrame(s, login, Over);
      SetStageFrame(s, login, Returned);
    }
  }

  lemma {:induction false} LockFrame(s: State, sid: Sid)
    ensures Frame(s, AcquireStep(s, sid)) && Frame(s, CheckStep(s, sid))
  {
  }

  lemma {:induction false} LoadFrame(s: State, e: Event)
    requires e.Load?
    ensures Frame(s, LoadStep(s, e))
  {
  }

  lemma {:induction false} PublishFrame(s: State)
    ensures Frame(s, PublishEndStep(s)) && Frame(s, RestartStep(s))
  {
  }

  lemma {:induction false} PublishBeginFrame(s: State, e: Event)
    requires e.PublishBegin?
    ensures Frame(s, PublishBeginStep(s, e))
  {
  }

  lemma {:induction false} RemovalFrame(s: State, e: Event)
    ensures e.Disconnect? ==> LoginsFrame(s, DisconnectStep(s, e))
    ensures e.Retire? ==> LoginsFrame(s, RetireStep(s, e))
    ensures e.RefreshStore? ==> LoginsFrame(s, RefreshStoreStep(s, e))
  {
  }

  lemma {:induction false} DropFrame(s: State, gone: set<nat>)
    ensures Frame(s, s.(logins := Drop(s.logins, gone)))
  {
  }

  lemma {:induction false} SetStageSids(s: State, login: nat)
    requires login in s.logins
    ensures forall stage :: KeepsSecrets(s, SetStage(s, login, stage))
    ensures forall stage :: SetStage(s, login, stage).logins.Keys == s.logins.Keys
    ensures forall stage, l :: l in s.logins ==> SetStage(s, login, stage).logins[l].sid == s.logins[l].sid
  {
  }

  lemma {:induction false} RegisterFrame(s: State, e: Event)
    requires e.Register?
    ensures var t := RegisterStep(s, e);
      KeepsSecrets(s, t) && forall l :: l in t.logins ==> l in s.logins && t.logins[l].sid == s.logins[l].sid
  {
    if e.login in s.logins && s.logins[e.login].stage.Starting? {
      var sid := s.logins[e.login].sid;
      if !e.ready || !Current(s, sid, Issued(e.login)) {
        SetStageFrame(s, e.login, Reporting(false));
      } else {
        var gone := Dropped(s, sid.name, e.expired);
        DropFrame(s, gone);
        SetStageSids(s.(logins := Drop(s.logins, gone)), e.login);
      }
    }
  }

  lemma {:induction false} LoginSecrets(s: State, e: Event)
    requires OfLogin(e)
    ensures var t := Act(s, e); KeepsSecrets(s, t) || LogsInAt(s, e, t)
    ensures !e.Begin? && !e.Register? ==> LoginsFrame(s, Act(s, e))
  {
    hide RegisterStep, CallbackStep, FinishCheckStep, FinishStoreStep, ReportStep, LoginsFrame;
    match e
    case Begin(_) =>
    case Register(_, _, _) => RegisterFrame(s, e);
    case Callback(login) => ReportFrame(s, login);
    case FinishCheck(_, _) => FinishCheckFrame(s, e);
    case FinishStore(_, _, _) =>
      FinishStoreFrame(s, e);
      StoreSecretsStep(s, e);
    case Report(login) => ReportFrame(s, login);
  }

  lemma {:induction false} OtherSecrets(s: State, e: Event)
    requires !OfLogin(e)
    ensures var t := Act(s, e); KeepsSecrets(s, t) || RemovesAt(s, e, t) || RefreshesAt(s, e, t)
    ensures LoginsFrame(s, Act(s, e))
  {
    hide AcquireStep, CheckStep, LoadStep, RefreshStoreStep, DisconnectStep, PublishBeginStep, RetireStep,
      PublishEndStep,
      RestartStep, LoginsFrame;
    match e
    case Acquire(sid) => LockFrame(s, sid);
    case Check(sid) => LockFrame(s, sid);
    case Load(_, _) => LoadFrame(s, e);
    case RefreshStore(_, _, _) =>
      RemovalFrame(s, e);
      StoreSecretsStep(s, e);
    case Disconnect(_, _) =>
      RemovalFrame(s, e);
      DisconnectSecretsStep(s, e);
    case Retire(_, _) =>
      RemovalFrame(s, e);
      RetireSecretsStep(s, e);
    case PublishBegin(_, _) => PublishBeginFrame(s, e);
    case PublishEnd => PublishFrame(s);
    case Restart => PublishFrame(s);
  }

  /** Stored credentials change in three ways only, removal, login and refresh; logins appear only by `begin`. */
  lemma {:induction false} SecretsStep(s: State, e: Event)
    ensures var t := Step(s, e); KeepsSecrets(s, t) || RemovesAt(s, e, t) || LogsInAt(s, e, t) || RefreshesAt(s, e, t)
    ensures !e.Begin? && !e.Register? ==> LoginsFrame(s, Step(s, e))
  {
    hide Act, Current;
    if OfLogin(e) { LoginSecrets(s, e); } else { OtherSecrets(s, e); }
  }

  /** How the credential of one name may change. */
  predicate RefreshedFrom(s: State, e: Event, t: State, n: Name)
    requires n in t.secrets
  {
    && e.RefreshStore? && e.sid.name == n && n in s.secrets && t.secrets[n].origin == s.secrets[n].origin
    && e.sid in s.flights && s.flights[e.sid].Refreshing? && s.flights[e.sid].record == s.secrets[n]
  }

  predicate LoggedIn(s: State, e: Event, t: State, n: Name)
    requires n in t.secrets
  {
    && e.FinishStore? && t.secrets[n].origin == Login(e.login)
    && (n in s.secrets && s.secrets[n].origin.Login? ==> s.secrets[n].origin.at < e.login)
  }

  lemma {:induction false} CredentialMoves(s: State, e: Event, t: State, n: Name)
    requires Inv(s) && n in t.secrets && (n in s.secrets ==> t.secrets[n] != s.secrets[n])
    requires KeepsSecrets(s, t) || RemovesAt(s, e, t) || LogsInAt(s, e, t) || RefreshesAt(s, e, t)
    ensures RefreshedFrom(s, e, t, n) || LoggedIn(s, e, t, n)
  {
    if e.RefreshStore? && e.sid in s.flights { assert FlightOk(e.sid, s.flights[e.sid], s); }
    if e.FinishStore? && e.login in s.logins { assert LoginOk(e.login, s.logins[e.login], s); }
  }

  /** No late refresh or callback overwrites a newer login: a refresh replaces exactly the record that it read, and a
      login replaces only what came from an earlier login. A refresh never creates a credential. */
  lemma {:induction false} NoOverwrite(secrets: set<Name>, es: seq<Event>, e: Event, n: Name)
    requires var s, t := Run(secrets, es), Step(Run(secrets, es), e);
      n in t.secrets && (n in s.secrets ==> t.secrets[n] != s.secrets[n])
    ensures var s, t := Run(secrets, es), Step(Run(secrets, es), e);
      RefreshedFrom(s, e, t, n) || LoggedIn(s, e, t, n)
  {
    RunKeeps(secrets, es);
    SecretsStep(Run(secrets, es), e);
    CredentialMoves(Run(secrets, es), e, Step(Run(secrets, es), e), n);
  }

  // ---------------------------------------------------------------- removal is final

  /** The session that a login began on, still live at that step. */
  predicate BegunFor(secrets: set<Name>, es: seq<Event>, at: nat, n: Name) {
    && at < |es| && es[at].Begin? && es[at].sid.name == n
    && es[at].sid in Run(secrets, es[..at]).sessions && !Run(secrets, es[..at]).sessions[es[at].sid].retired
  }

  predicate RemovedAt(secrets: set<Name>, es: seq<Event>, at: nat, n: Name) {
    && at < |es| && RemovesAt(Run(secrets, es[..at]), es[at], Run(secrets, es[..at + 1]))
    && n !in Run(secrets, es[..at + 1]).secrets
    && (es[at].Disconnect? ==> es[at].sid.name == n) && (es[at].Retire? ==> es[at].name == n)
  }

  lemma {:induction false} StepLogins(s: State, e: Event, l: nat)
    requires l in Step(s, e).logins
    ensures var v := Step(s, e).logins[l];
      || (l in s.logins && v.sid == s.logins[l].sid)
      || (l == s.now && e == Begin(v.sid) && v.sid in s.sessions && !s.sessions[v.sid].retired)
  {
    if e.Register? { RegisterFrame(s, e); } else if !e.Begin? { SecretsStep(s, e); }
  }

  lemma {:induction false} LoginsBegun(secrets: set<Name>, es: seq<Event>, l: nat)
    requires l in Run(secrets, es).logins
    ensures BegunFor(secrets, es, l, Run(secrets, es).logins[l].sid.name)
  {
    var before, e := es[..|es| - 1], es[|es| - 1];
    StepLogins(Run(secrets, before), e, l);
    RunKeeps(secrets, before);
    if l in Run(secrets, before).logins && Run(secrets, before).logins[l].sid == Run(secrets, es).logins[l].sid {
      LoginsBegun(secrets, before, l);
      assert before[..l] == es[..l];
    }
  }

  lemma {:induction false} OriginMoves(s: State, e: Event, t: State, n: Name, at: nat)
    requires Inv(s) && (KeepsSecrets(s, t) || RemovesAt(s, e, t) || LogsInAt(s, e, t) || RefreshesAt(s, e, t))
    requires n in t.secrets && t.secrets[n].origin == Login(at)
    ensures (n in s.secrets && s.secrets[n].origin == Login(at)) || (at in s.logins && s.logins[at].sid.name == n)
  {
    if e.RefreshStore? && e.sid in s.flights { assert FlightOk(e.sid, s.flights[e.sid], s); }
  }

  /** Every stored credential of this run comes from a login on a session of its name that was live when it began. */
  lemma {:induction false} OriginBegun(secrets: set<Name>, es: seq<Event>, n: Name)
    requires n in Run(secrets, es).secrets && Run(secrets, es).secrets[n].origin.Login?
    ensures BegunFor(secrets, es, Run(secrets, es).secrets[n].origin.at, n)
  {
    hide Current, Removed, Step;
    if es != [] {
      var before, e := es[..|es| - 1], es[|es| - 1];
      var s, t := Run(secrets, before), Run(secrets, es);
      var at := t.secrets[n].origin.at;
      RunKeeps(secrets, before);
      SecretsStep(s, e);
      OriginMoves(s, e, t, n, at);
      if n in s.secrets && s.secrets[n].origin == Login(at) {
        OriginBegun(secrets, before, n);
      } else {
        LoginsBegun(secrets, before, at);
      }
      assert before[..at] == es[..at];
    }
  }

  lemma {:induction false} RemovalMoves(s: State, e: Event, t: State, n: Name)
    requires KeepsSecrets(s, t) || RemovesAt(s, e, t) || LogsInAt(s, e, t) || RefreshesAt(s, e, t)
    requires n in t.removed
    ensures (n in s.removed && t.removed[n] == s.removed[n])
      || (t.removed[n] == s.now && RemovesAt(s, e, t) && n !in t.secrets && (e.Disconnect? ==> e.sid.name == n)
          && (e.Retire? ==> e.name == n))
  {
  }

  lemma {:induction false} RemovalHappened(secrets: set<Name>, es: seq<Event>, n: Name)
    requires n in Run(secrets, es).removed
    ensures RemovedAt(secrets, es, Run(secrets, es).removed[n], n)
  {
    var before, e := es[..|es| - 1], es[|es| - 1];
    var s, t := Run(secrets, before), Run(secrets, es);
    RunKeeps(secrets, before);
    SecretsStep(s, e);
    RemovalMoves(s, e, t, n);
    if n in s.removed && s.removed[n] == t.removed[n] {
      RemovalHappened(secrets, before, n);
      RemovedEarlier(secrets, es, t.removed[n], n);
    } else {
      RemovedNow(secrets, es, n);
    }
  }

  lemma {:induction false} RemovedEarlier(secrets: set<Name>, es: seq<Event>, at: nat, n: Name)
    requires es != [] && RemovedAt(secrets, es[..|es| - 1], at, n)
    ensures RemovedAt(secrets, es, at, n)
  {
    var before := es[..|es| - 1];
    assert before[..at] == es[..at] && before[..at + 1] == es[..at + 1];
  }

  lemma {:induction false} RemovedNow(secrets: set<Name>, es: seq<Event>, n: Name)
    requires es != [] && RemovesAt(Run(secrets, es[..|es| - 1]), es[|es| - 1], Run(secrets, es))
             && n !in Run(secrets, es).secrets
    requires var e := es[|es| - 1]; (e.Disconnect? ==> e.sid.name == n) && (e.Retire? ==> e.name == n)
    ensures RemovedAt(secrets, es, |es| - 1, n)
  {
    assert es[..|es| - 1 + 1] == es;
  }

  /** Whatever is stored for a name after a successful disconnect or retirement comes from a login begun afterwards, on
      a session that was live then. */
  lemma {:induction false} NoResurrection(secrets: set<Name>, es: seq<Event>, n: Name)
    requires n in Run(secrets, es).secrets && n in Run(secrets, es).removed
    ensures var s := Run(secrets, es);
      && RemovedAt(secrets, es, s.removed[n], n)
      && s.secrets[n].origin.Login? && s.removed[n] < s.secrets[n].origin.at
      && BegunFor(secrets, es, s.secrets[n].origin.at, n)
  {
    RunKeeps(secrets, es);
    assert RecordOk(n, Run(secrets, es).secrets[n], Run(secrets, es));
    RemovalHappened(secrets, es, n);
    OriginBegun(secrets, es, n);
  }

  /** At most one live session owns a name, and it is the registered one. */
  lemma {:induction false} OneLiveOwner(secrets: set<Name>, es: seq<Event>, a: Sid, b: Sid)
    requires var s := Run(secrets, es);
      a in s.sessions && b in s.sessions && !s.sessions[a].retired && !s.sessions[b].retired && a.name == b.name
    ensures a == b && a.name in Run(secrets, es).registry && Run(secrets, es).registry[a.name] == a
  {
    RunKeeps(secrets, es);
    var s := Run(secrets, es);
    OneOwner(s, a, b);
    assert SessionOk(a, s.sessions[a], s);
  }

  /** A login is shown as connected only if its credential was stored. */
  lemma {:induction false} ConnectedWasStored(secrets: set<Name>, es: seq<Event>, n: Name)
    requires n in Run(secrets, es).statuses && Run(secrets, es).statuses[n].1.Connected?
    ensures Run(secrets, es).statuses[n].0 in Run(secrets, es).stored
  {
    RunKeeps(secrets, es);
  }

  // ---------------------------------------------------------------- pending logins

  ghost predicate PendingOk(s: State) {
    && |PendingLogins(s)| <= 128
    && (forall a, b :: a in PendingLogins(s) && b in PendingLogins(s) && a != b ==>
        s.logins[a].sid.name != s.logins[b].sid.name)
  }

  lemma {:induction false} FewerPending(s: State, t: State)
    requires PendingOk(s) && forall l :: l in PendingLogins(t) ==>
      l in PendingLogins(s) && t.logins[l].sid == s.logins[l].sid
    ensures PendingOk(t)
  {
    assert PendingLogins(s) == PendingLogins(t) + (PendingLogins(s) - PendingLogins(t));
  }

  lemma {:induction false} DropPending(s: State, login: nat, name: Name, expired: set<nat>)
    requires PendingOk(s) && login in s.logins && s.logins[login].stage.Starting? && s.logins[login].sid.name == name
    ensures var d := s.(logins := Drop(s.logins, Dropped(s, name, expired)));
      && PendingOk(d) && (|PendingLogins(d)| < 128 ==> PendingOk(SetStage(d, login, Pending)))
      && PendingLogins(SetStage(d, login, Reporting(false))) <= PendingLogins(d)
  {
    var d := s.(logins := Drop(s.logins, Dropped(s, name, expired)));
    FewerPending(s, d);
    var t := SetStage(d, login, Pending);
    assert PendingLogins(t) == PendingLogins(d) + {login};
    forall l | l in PendingLogins(d) ensures s.logins[l].sid.name != name { assert l !in Dropped(s, name, expired); }
  }

  lemma {:induction false} RegisterPending(s: State, e: Event)
    requires PendingOk(s) && e.Register?
    ensures PendingOk(RegisterStep(s, e))
  {
    hide Dropped, PendingOk;
    if e.login in s.logins && s.logins[e.login].stage.Starting? {
      var sid := s.logins[e.login].sid;
      if !e.ready || !Current(s, sid, Issued(e.login)) {
        FewerPending(s, RegisterStep(s, e));
      } else {
        DropPending(s, e.login, sid.name, e.expired);
        var d := s.(logins := Drop(s.logins, Dropped(s, sid.name, e.expired)));
        FewerPending(if |PendingLogins(d)| >= 128 then d else SetStage(d, e.login, Pending), RegisterStep(s, e));
      }
    }
  }

  lemma {:induction false} OthersPending(s: State, e: Event)
    requires !e.Register?
    ensures forall l :: l in PendingLogins(Step(s, e)) ==>
      l in PendingLogins(s) && Step(s, e).logins[l].sid == s.logins[l].sid
  {
    if !e.Begin? { SecretsStep(s, e); }
  }

  /** A name waits for at most one callback, and at most 128 names wait. */
  lemma {:induction false} OnePendingPerName(secrets: set<Name>, es: seq<Event>)
    ensures PendingOk(Run(secrets, es))
  {
    if es != [] {
      var s, e := Run(secrets, es[..|es| - 1]), es[|es| - 1];
      OnePendingPerName(secrets, es[..|es| - 1]);
      if e.Register? {
        RegisterPending(s, e);
        FewerPending(RegisterStep(s, e), Step(s, e));
      } else {
        OthersPending(s, e);
        FewerPending(s, Step(s, e));
      }
    } else {
      assert PendingLogins(Start(secrets)) == {};
    }
  }
}
