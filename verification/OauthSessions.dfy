/** OAuth sessions of MCP forwards: every interleaving of logins, refreshes, disconnects and registry
    publications. One step is what happens between two waits. */
module OauthSessions {
  import opened Outcome
  import opened Runs

  type Name = string

  /** Identities are unique: sessions by the step that made them and their name, generations by their session or
      by the step that issued them. */
  datatype Sid = Sid(born: nat, name: Name)
  datatype Generation = Initial(sid: Sid) | Issued(at: nat)

  function Age(g: Generation): nat { if g.Initial? then g.sid.born else g.at }

  datatype Session = Session(generation: Generation, retired: bool)

  /** Where a stored credential comes from: an earlier broker run, or the login begun at a step of this one. */
  datatype Origin = Boot | Login(at: nat)

  datatype Record = Record(origin: Origin, saved: nat)

  /** What holds a session's refresh lock. */
  datatype Flight =
    | Reading(generation: Generation)
    | Checked(generation: Generation)
    | Refreshing(generation: Generation, record: Record)
    | Exchanging(login: nat)

  /** A login is known by the step that began it. */
  datatype Stage = Starting | Pending | Returned | Exchange | Reporting(connected: bool) | Over
  datatype LoginState = LoginState(sid: Sid, stage: Stage)

  datatype Publication = Publication(keep: set<Name>, add: set<Name>, todo: set<Name>)

  datatype Status = Waiting | Connected | Failed

  datatype State = State(now: nat, secrets: map<Name, Record>, sessions: map<Sid, Session>, registry: map<Name, Sid>,
                         flights: map<Sid, Flight>, logins: map<nat, LoginState>, publishing: Option<Publication>,
                         statuses: map<Name, (nat, Status)>, removed: map<Name, nat>, stored: set<nat>)

  datatype Event =
    | Begin(sid: Sid)
    | Register(login: nat, expired: set<nat>, ready: bool)
    | Callback(login: nat)
    | FinishCheck(login: nat, valid: bool)
    | FinishStore(login: nat, answered: bool, written: bool)
    | Report(login: nat)
    | Acquire(sid: Sid)
    | Check(sid: Sid)
    | Load(sid: Sid, usable: bool)
    | RefreshStore(sid: Sid, answered: bool, written: bool)
    | Disconnect(sid: Sid, written: bool)
    | PublishBegin(keep: set<Name>, add: set<Name>)
    | Retire(name: Name, written: bool)
    | PublishEnd
    | Restart

  predicate Current(s: State, sid: Sid, g: Generation) {
    sid in s.sessions && !s.sessions[sid].retired && s.sessions[sid].generation == g
  }

  predicate Free(s: State, sid: Sid) { sid !in s.flights }

  function SetSession(s: State, sid: Sid, session: Session): State { s.(sessions := s.sessions[sid := session]) }

  function SetStage(s: State, login: nat, stage: Stage): State
    requires login in s.logins
  {
    s.(logins := s.logins[login := s.logins[login].(stage := stage)])
  }

  // ---------------------------------------------------------------- logins

  /** `begin`: a login gets a generation of its own, while nothing holds the refresh lock. */
  function BeginStep(s: State, sid: Sid): State {
    if sid !in s.sessions || s.sessions[sid].retired || !Free(s, sid) then s
    else SetSession(s, sid, Session(Issued(s.now), false)).(logins := s.logins[s.now := LoginState(sid, Starting)])
  }

  function PendingLogins(s: State): set<nat> { set l | l in s.logins && s.logins[l].stage.Pending? }

  /** Logins that a new one for the same name, or the clock, ends. */
  function Dropped(s: State, name: Name, expired: set<nat>): set<nat> {
    set l | l in PendingLogins(s) && (l in expired || s.logins[l].sid.name == name)
  }

  function Drop(logins: map<nat, LoginState>, gone: set<nat>): map<nat, LoginState> {
    map l | l in logins :: if l in gone then logins[l].(stage := Over) else logins[l]
  }

  /** The end of `start`: the login waits for its callback. */
  function RegisterStep(s: State, e: Event): State
    requires e.Register?
  {
    if e.login !in s.logins || !s.logins[e.login].stage.Starting? then s
    else
      var sid := s.logins[e.login].sid;
      if !e.ready || !Current(s, sid, Issued(e.login)) then SetStage(s, e.login, Reporting(false))
      else
        var t := s.(logins := Drop(s.logins, Dropped(s, sid.name, e.expired)));
        if |PendingLogins(t)| >= 128 then SetStage(t, e.login, Reporting(false))
        else SetStage(t, e.login, Pending).(statuses := s.statuses[sid.name := (e.login, Waiting)])
  }

  /** `finish` takes the pending login: a state is good for one callback. */
  function CallbackStep(s: State, login: nat): State {
    if login in s.logins && s.logins[login].stage.Pending? then SetStage(s, login, Returned) else s
  }

  function FinishCheckStep(s: State, e: Event): State
    requires e.FinishCheck?
  {
    if e.login !in s.logins || !s.logins[e.login].stage.Returned? || !Free(s, s.logins[e.login].sid) then s
    else
      var sid := s.logins[e.login].sid;
      if e.valid && Current(s, sid, Issued(e.login))
      then SetStage(s, e.login, Exchange).(flights := s.flights[sid := Exchanging(e.login)])
      else SetStage(s, e.login, Reporting(false))
  }

  function FinishStoreStep(s: State, e: Event): State
    requires e.FinishStore?
  {
    if e.login !in s.logins || !s.logins[e.login].stage.Exchange? then s
    else
      var sid := s.logins[e.login].sid;
      var ok := e.answered && e.written && Current(s, sid, Issued(e.login));
      var t := SetStage(s, e.login, Reporting(ok)).(flights := s.flights - {sid});
      if ok then t.(secrets := s.secrets[sid.name := Record(Login(e.login), s.now)], stored := s.stored + {e.login})
        else t
  }

  /** `set_status`: only the current generation of a live session is heard. */
  function ReportStep(s: State, login: nat): State {
    if login !in s.logins || !s.logins[login].stage.Reporting? then s
    else
      var sid, t := s.logins[login].sid, SetStage(s, login, Over);
      if !Current(s, sid, Issued(login)) then t
      else t.(statuses := s.statuses[sid.name := (login,
                                                  if s.logins[login].stage.connected then Connected else Failed)])
  }

  // ---------------------------------------------------------------- refresh

  function AcquireStep(s: State, sid: Sid): State {
    if sid in s.sessions && Free(s, sid) then s.(flights := s.flights[sid := Reading(s.sessions[sid].generation)])
      else s
  }

  function CheckStep(s: State, sid: Sid): State {
    if sid !in s.flights || !s.flights[sid].Reading? then s
    else s.(flights := if Current(s, sid, s.flights[sid].generation)
                       then s.flights[sid := Checked(s.flights[sid].generation)]
                       else s.flights - {sid})
  }

  function LoadStep(s: State, e: Event): State
    requires e.Load?
  {
    if e.sid !in s.flights || !s.flights[e.sid].Checked? then s
    else s.(flights := if e.usable && e.sid.name in s.secrets
                       then s.flights[e.sid := Refreshing(s.flights[e.sid].generation, s.secrets[e.sid.name])]
                       else s.flights - {e.sid})
  }

  function RefreshStoreStep(s: State, e: Event): State
    requires e.RefreshStore?
  {
    if e.sid !in s.flights || !s.flights[e.sid].Refreshing? then s
    else
      var f := s.flights[e.sid];
      s.(flights := s.flights - {e.sid},
         secrets := if e.answered && e.written && Current(s, e.sid, f.generation)
                    then s.secrets[e.sid.name := Record(f.record.origin, s.now)] else s.secrets)
  }

  // ---------------------------------------------------------------- disconnect, retire, publish

  /** The generation moves first: whatever is in flight is superseded even if the removal fails. */
  function DisconnectStep(s: State, e: Event): State
    requires e.Disconnect?
  {
    if e.sid !in s.sessions || s.sessions[e.sid].retired then s
    else
      var t := SetSession(s, e.sid, Session(Issued(s.now), false));
      if e.written then Removed(t, e.sid.name) else t
  }

  function Removed(s: State, name: Name): State {
    s.(secrets := s.secrets - {name}, removed := s.removed[name := s.now])
  }

  function PublishBeginStep(s: State, e: Event): State
    requires e.PublishBegin?
  {
    if s.publishing.Some? || !(e.keep <= s.registry.Keys) || e.keep * e.add != {} then s
    else s.(publishing := Some(Publication(e.keep, e.add, s.registry.Keys - e.keep)))
  }

  /** Each replaced session is retired; a failed removal abandons the publication half-way. */
  function RetireStep(s: State, e: Event): State
    requires e.Retire?
  {
    if s.publishing.None? || e.name !in s.publishing.value.todo || e.name !in s.registry then s
    else if !e.written then s.(publishing := None)
    else
      var sid, p := s.registry[e.name], s.publishing.value;
      Removed(SetSession(s, sid, Session(Issued(s.now), true)),
              e.name).(publishing := Some(p.(todo := p.todo - {e.name})))
  }

  function NewSessions(now: nat, names: set<Name>): map<Sid, Session> {
    map n | n in names :: Sid(now, n) := Session(Initial(Sid(now, n)), false)
  }

  lemma {:induction false} NewSessionsAre(born: nat, names: set<Name>, sid: Sid)
    ensures sid in NewSessions(born, names) <==> sid.born == born && sid.name in names
    ensures sid in NewSessions(born, names) ==> NewSessions(born, names)[sid] == Session(Initial(sid), false)
  {
    if sid.born == born && sid.name in names { assert sid == Sid(born, sid.name); }
  }

  function Rebuilt(s: State, p: Publication): map<Name, Sid> {
    map n | n in p.add + (p.keep * s.registry.Keys) :: if n in p.add then Sid(s.now, n) else s.registry[n]
  }

  function PublishEndStep(s: State): State {
    if s.publishing.None? || s.publishing.value.todo != {} then s
    else
      var p := s.publishing.value;
      s.(publishing := None, sessions := s.sessions + NewSessions(s.now, p.add), registry := Rebuilt(s, p))
  }

  /** A new broker process keeps the secrets; its registry is published afresh. */
  function RestartStep(s: State): State {
    s.(sessions := map[], registry := map[], flights := map[], logins := map[], publishing := None, statuses := map[])
  }

  function Act(s: State, e: Event): State {
    match e
    case Begin(sid) => BeginStep(s, sid)
    case Register(_, _, _) => RegisterStep(s, e)
    case Callback(login) => CallbackStep(s, login)
    case FinishCheck(_, _) => FinishCheckStep(s, e)
    case FinishStore(_, _, _) => FinishStoreStep(s, e)
    case Report(login) => ReportStep(s, login)
    case Acquire(sid) => AcquireStep(s, sid)
    case Check(sid) => CheckStep(s, sid)
    case Load(_, _) => LoadStep(s, e)
    case RefreshStore(_, _, _) => RefreshStoreStep(s, e)
    case Disconnect(_, _) => DisconnectStep(s, e)
    case PublishBegin(_, _) => PublishBeginStep(s, e)
    case Retire(_, _) => RetireStep(s, e)
    case PublishEnd => PublishEndStep(s)
    case Restart => RestartStep(s)
  }

  function Then(t: State, now: nat): State { t.(now := now + 1) }

  function Step(s: State, e: Event): State { Then(Act(s, e), s.now) }

  /** A broker that finds the given credentials on disk. */
  function Start(secrets: set<Name>): State {
    State(0, map n | n in secrets :: Record(Boot, 0), map[], map[], map[], map[], None, map[], map[], {})
  }

  function Run(secrets: set<Name>, es: seq<Event>): State {
    if es == [] then Start(secrets) else Step(Run(secrets, es[..|es| - 1]), es[|es| - 1])
  }

  /** A run is continued. */
  lemma {:induction false} RunAfter(secrets: set<Name>, es: seq<Event>, more: seq<Event>)
    ensures Run(secrets, es + more) == After(Step, Run(secrets, es), more)
    decreases |more|
  {
    hide Step;
    if more == [] {
      assert es + more == es;
    } else {
      var front, e := more[..|more| - 1], more[|more| - 1];
      RunAfter(secrets, es, front);
      assert (es + more)[..|es + more| - 1] == es + front && more == front + [e];
      AfterLast(Step, Run(secrets, es), front, e);
    }
  }

  // ---------------------------------------------------------------- the invariant

  /** A live session is the registered one of its name, and younger than the last removal. */
  predicate SessionOk(sid: Sid, v: Session, s: State) {
    && sid.born < s.now && Age(v.generation) < s.now
    && (!v.retired ==> sid.name in s.registry && s.registry[sid.name] == sid)
    && (v.generation.Initial? ==> v.generation.sid == sid)
  }

  predicate Before(name: Name, at: nat, removed: map<Name, nat>) { name in removed ==> removed[name] < at }

  predicate RecordOk(name: Name, r: Record, s: State) {
    match r.origin
    case Boot => name !in s.removed
    case Login(at) => at < s.now && Before(name, at, s.removed)
  }

  predicate Older(name: Name, at: nat, s: State) {
    name in s.secrets && s.secrets[name].origin.Login? ==> s.secrets[name].origin.at < at
  }

  /** A login that is still current was begun after the last removal, and nothing newer is stored. */
  predicate LoginOk(l: nat, v: LoginState, s: State) {
    && l < s.now && v.sid in s.sessions
    && (Current(s, v.sid, Issued(l)) && Live(v.stage) ==> Before(v.sid.name, l, s.removed) && Older(v.sid.name, l, s))
    && (v.stage.Exchange? <==> v.sid in s.flights && s.flights[v.sid] == Exchanging(l))
    && (v.stage.Reporting? && v.stage.connected ==> l in s.stored)
  }

  /** Stages in which a login may still store its credential. */
  predicate Live(stage: Stage) { !stage.Reporting? && !stage.Over? }

  /** A refresh that is still current has read exactly what is stored. */
  predicate FlightOk(sid: Sid, f: Flight, s: State) {
    && sid in s.sessions
    && (match f
        case Exchanging(l) => l in s.logins && s.logins[l].sid == sid && s.logins[l].stage.Exchange?
        case _ => Age(f.generation) < s.now)
    && (f.Refreshing? && Current(s, sid, f.generation) ==> sid.name in s.secrets && s.secrets[sid.name] == f.record)
  }

  predicate PublishingOk(s: State) {
    s.publishing.Some? ==>
      var p := s.publishing.value;
      && p.keep <= s.registry.Keys && p.keep * p.add == {} && p.todo <= s.registry.Keys
      && forall n :: n in s.registry && n !in p.keep && n !in p.todo ==>
         s.registry[n] in s.sessions && s.sessions[s.registry[n]].retired
  }

  ghost predicate SessionsOk(s: State) {
    && (forall sid :: sid in s.sessions ==> SessionOk(sid, s.sessions[sid], s))
    && (forall n :: n in s.registry ==> s.registry[n] in s.sessions && s.registry[n].name == n)
  }

  ghost predicate SecretsOk(s: State) {
    && (forall n :: n in s.secrets ==> RecordOk(n, s.secrets[n], s))
    && (forall n :: n in s.removed ==> s.removed[n] < s.now)
  }

  ghost predicate LoginsOk(s: State) { forall l :: l in s.logins ==> LoginOk(l, s.logins[l], s) }

  ghost predicate FlightsOk(s: State) { forall sid :: sid in s.flights ==> FlightOk(sid, s.flights[sid], s) }

  ghost predicate StatusesOk(s: State) {
    forall n :: n in s.statuses && s.statuses[n].1.Connected? ==> s.statuses[n].0 in s.stored
  }

  ghost predicate Inv(s: State) {
    SessionsOk(s) && SecretsOk(s) && LoginsOk(s) && FlightsOk(s) && StatusesOk(s) && PublishingOk(s)
  }

  // ---------------------------------------------------------------- what a step may leave alone

  /** Two live sessions of one name are the same session. */
  lemma {:induction false} OneOwner(s: State, a: Sid, b: Sid)
    requires SessionsOk(s) && a in s.sessions && b in s.sessions && a.name == b.name
    requires !s.sessions[a].retired && !s.sessions[b].retired
    ensures a == b
  {
    assert SessionOk(a, s.sessions[a], s) && SessionOk(b, s.sessions[b], s);
  }

  lemma {:induction false} SessionsKeep(s: State, t: State)
    requires SessionsOk(s) && t.sessions == s.sessions && t.registry == s.registry && s.now <= t.now
    ensures SessionsOk(t)
  {
    forall sid | sid in t.sessions
      ensures SessionOk(sid, t.sessions[sid], t)
    {
      assert SessionOk(sid, s.sessions[sid], s);
    }
  }

  lemma {:induction false} SecretsKeep(s: State, t: State)
    requires SecretsOk(s) && t.secrets == s.secrets && t.removed == s.removed && s.now <= t.now
    ensures SecretsOk(t)
  {
    forall n | n in t.secrets ensures RecordOk(n, t.secrets[n], t) { assert RecordOk(n, s.secrets[n], s); }
  }

  /** Sessions may be superseded, retired or added, and removals and grants of other names do not matter. */
  ghost predicate NoNewCurrent(s: State, t: State) {
    && (forall sid :: sid in s.sessions ==> sid in t.sessions)
    && (forall sid, g :: sid in s.sessions && Current(t, sid, g) && Age(g) < s.now ==> Current(s, sid, g))
  }

  /** What one name's login needs of the stored credentials. */
  predicate NameStays(name: Name, s: State, t: State) {
    && (name in t.removed <==> name in s.removed) && (name in s.removed ==> t.removed[name] == s.removed[name])
    && (name in t.secrets <==> name in s.secrets) && (name in s.secrets ==> t.secrets[name] == s.secrets[name])
  }

  lemma {:induction false} LoginKeeps(l: nat, v: LoginState, s: State, t: State)
    requires LoginOk(l, v, s) && NoNewCurrent(s, t) && s.now <= t.now && s.stored <= t.stored
    requires Current(t, v.sid, Issued(l)) ==> NameStays(v.sid.name, s, t)
    requires v.stage.Exchange? <==> v.sid in t.flights && t.flights[v.sid] == Exchanging(l)
    ensures LoginOk(l, v, t)
  {
  }

  lemma {:induction false} FlightKeeps(sid: Sid, f: Flight, s: State, t: State)
    requires FlightOk(sid, f, s) && NoNewCurrent(s, t) && s.now <= t.now
    requires f.Exchanging? ==> f.login in t.logins && t.logins[f.login] == s.logins[f.login]
    requires f.Refreshing? && Current(t, sid, f.generation) ==> NameStays(sid.name, s, t)
    ensures FlightOk(sid, f, t)
  {
  }

  // ---------------------------------------------------------------- every step keeps it

  /** Steps that touch only the stages of logins, the locks and the statuses. */
  predicate OnlyFlows(s: State, t: State) {
    t.secrets == s.secrets && t.sessions == s.sessions && t.registry == s.registry && t.publishing == s.publishing
    && t.removed == s.removed && t.stored == s.stored && t.now == s.now + 1
  }

  /** A login keeps its session, does not come back to life, and holds the lock exactly while it exchanges. */
  predicate Moves(l: nat, s: State, t: State)
    requires l in t.logins
  {
    var v := t.logins[l];
    && l in s.logins && v.sid == s.logins[l].sid && (Live(v.stage) ==> Live(s.logins[l].stage))
    && (v.stage.Exchange? <==> v.sid in t.flights && t.flights[v.sid] == Exchanging(l))
    && (v.stage.Reporting? && v.stage.connected ==> v.stage == s.logins[l].stage)
  }

  lemma {:induction false} FlowsKeep(s: State, t: State)
    requires Inv(s) && OnlyFlows(s, t) && StatusesOk(t)
    requires forall l :: l in t.logins ==> Moves(l, s, t)
    requires forall sid :: sid in t.flights ==> FlightOk(sid, t.flights[sid], t)
    ensures Inv(t)
  {
    SessionsKeep(s, t);
    SecretsKeep(s, t);
    forall l | l in t.logins ensures LoginOk(l, t.logins[l], t) {
      assert Moves(l, s, t);
      assert LoginOk(l, s.logins[l], s);
    }
  }

  predicate StageMoves(l: nat, s: State, t: State)
    requires l in s.logins && l in t.logins
  {
    || t.logins[l] == s.logins[l]
    || (!s.logins[l].stage.Exchange? && t.logins[l].sid == s.logins[l].sid && !t.logins[l].stage.Exchange?
        && t.logins[l].stage != Reporting(true) && (Live(t.logins[l].stage) ==> Live(s.logins[l].stage)))
  }

  /** Stages change, locks do not. */
  ghost predicate OnlyStages(s: State, t: State) {
    && OnlyFlows(s, t) && t.flights == s.flights && t.logins.Keys == s.logins.Keys
    && forall l :: l in t.logins ==> StageMoves(l, s, t)
  }

  lemma {:induction false} StagesKeep(s: State, t: State)
    requires Inv(s) && OnlyStages(s, t) && StatusesOk(t)
    ensures Inv(t)
  {
    forall l | l in t.logins ensures Moves(l, s, t) {
      assert StageMoves(l, s, t);
      assert LoginOk(l, s.logins[l], s);
    }
    forall sid | sid in t.flights ensures FlightOk(sid, t.flights[sid], t) {
      assert FlightOk(sid, s.flights[sid], s);
      if t.flights[sid].Exchanging? { assert StageMoves(t.flights[sid].login, s, t); }
    }
    FlowsKeep(s, t);
  }

  lemma {:induction false} IdleKeeps(s: State)
    requires Inv(s)
    ensures Inv(Then(s, s.now))
  {
    StagesKeep(s, Then(s, s.now));
  }

  lemma {:induction false} SetStageMoves(s: State, login: nat, stage: Stage)
    requires login in s.logins && !s.logins[login].stage.Exchange? && !stage.Exchange? && stage != Reporting(true)
    requires Live(stage) ==> Live(s.logins[login].stage)
    ensures OnlyStages(s, Then(SetStage(s, login, stage), s.now))
  {
  }

  lemma {:induction false} DropMoves(s: State, login: nat, gone: set<nat>, stage: Stage)
    requires login in s.logins && s.logins[login].stage.Starting? && (stage.Pending? || stage == Reporting(false))
    requires forall l :: l in gone ==> l in s.logins && s.logins[l].stage.Pending?
    ensures OnlyStages(s, Then(SetStage(s.(logins := Drop(s.logins, gone)), login, stage), s.now))
  {
  }

  lemma {:induction false} RegisterMoves(s: State, e: Event)
    requires e.Register?
    ensures OnlyStages(s, Then(RegisterStep(s, e), s.now))
  {
    hide Live, SetStage, Current;
    if e.login in s.logins && s.logins[e.login].stage.Starting? {
      var sid := s.logins[e.login].sid;
      if !e.ready || !Current(s, sid, Issued(e.login)) {
        SetStageMoves(s, e.login, Reporting(false));
      } else {
        var gone := Dropped(s, sid.name, e.expired);
        var full := |PendingLogins(s.(logins := Drop(s.logins, gone)))| >= 128;
        DropMoves(s, e.login, gone, if full then Reporting(false) else Pending);
      }
    }
  }

  lemma {:induction false} RegisterKeeps(s: State, e: Event)
    requires Inv(s) && e.Register?
    ensures Inv(Then(RegisterStep(s, e), s.now))
  {
    hide Age;
    RegisterMoves(s, e);
    var t := Then(RegisterStep(s, e), s.now);
    assert StatusesOk(t) by { assert StatusesOk(s); }
    StagesKeep(s, t);
  }

  lemma {:induction false} CallbackKeeps(s: State, login: nat)
    requires Inv(s)
    ensures Inv(Then(CallbackStep(s, login), s.now))
  {
    if login in s.logins && s.logins[login].stage.Pending? { SetStageMoves(s, login, Returned); }
    StagesKeep(s, Then(CallbackStep(s, login), s.now));
  }

  lemma {:induction false} ReportMoves(s: State, login: nat)
    ensures OnlyStages(s, Then(ReportStep(s, login), s.now))
  {
    hide SetStage;
    if login in s.logins && s.logins[login].stage.Reporting? { SetStageMoves(s, login, Over); }
  }

  lemma {:induction false} ReportKeeps(s: State, login: nat)
    requires Inv(s)
    ensures Inv(Then(ReportStep(s, login), s.now))
  {
    ReportMoves(s, login);
    var t := Then(ReportStep(s, login), s.now);
    assert StatusesOk(t) by {
      assert StatusesOk(s);
      if login in s.logins { assert LoginOk(login, s.logins[login], s); }
    }
    StagesKeep(s, t);
  }

  /** The lock of one session changes hands. */
  predicate OnlyLock(s: State, t: State, sid: Sid) {
    OnlyFlows(s, t) && t.logins == s.logins && t.statuses == s.statuses && t.flights - {sid} == s.flights - {sid}
  }

  lemma {:induction false} LockMoves(s: State, sid: Sid, f: Flight)
    ensures OnlyLock(s, Then(s.(flights := s.flights[sid := f]), s.now), sid)
            && OnlyLock(s, Then(s.(flights := s.flights - {sid}), s.now), sid)
    ensures OnlyLock(s, Then(s, s.now), sid)
  {
    assert s.flights[sid := f] - {sid} == s.flights - {sid} == s.flights - {sid} - {sid};
  }

  lemma {:induction false} LockKeeps(s: State, t: State, sid: Sid)
    requires Inv(s) && OnlyLock(s, t, sid)
    requires sid in s.flights ==> !s.flights[sid].Exchanging?
    requires sid in t.flights ==> !t.flights[sid].Exchanging? && FlightOk(sid, t.flights[sid], t)
    ensures Inv(t)
  {
    forall l | l in t.logins ensures Moves(l, s, t) {
      assert LoginOk(l, s.logins[l], s);
      if s.logins[l].sid != sid { Apart(s.flights, t.flights, sid, s.logins[l].sid); }
    }
    forall k | k in t.flights ensures FlightOk(k, t.flights[k], t) {
      if k != sid {
        Apart(s.flights, t.flights, sid, k);
        assert FlightOk(k, s.flights[k], s);
      }
    }
    FlowsKeep(s, t);
  }

  lemma {:induction false} Apart<V>(a: map<Sid, V>, b: map<Sid, V>, sid: Sid, k: Sid)
    requires a - {sid} == b - {sid} && k != sid
    ensures k in a <==> k in b
    ensures k in a ==> a[k] == b[k]
  {
    assert k in a - {sid} <==> k in a;
    assert k in b - {sid} <==> k in b;
    if k in a { assert (a - {sid})[k] == a[k] && (b - {sid})[k] == b[k]; }
  }

  lemma {:induction false} AcquireKeeps(s: State, sid: Sid)
    requires Inv(s)
    ensures Inv(Then(AcquireStep(s, sid), s.now))
  {
    if sid in s.sessions && Free(s, sid) {
      assert SessionOk(sid, s.sessions[sid], s);
      LockMoves(s, sid, Reading(s.sessions[sid].generation));
      LockKeeps(s, Then(AcquireStep(s, sid), s.now), sid);
    } else {
      IdleKeeps(s);
    }
  }

  /** The holder of a lock moves on, or lets go. */
  lemma {:induction false} HolderKeeps(s: State, sid: Sid, f: Flight)
    requires Inv(s) && sid in s.flights && !s.flights[sid].Exchanging? && !f.Exchanging?
    requires f.generation == s.flights[sid].generation
    requires f.Refreshing? ==> sid.name in s.secrets && s.secrets[sid.name] == f.record
    ensures Inv(Then(s.(flights := s.flights[sid := f]), s.now)) && Inv(Then(s.(flights := s.flights - {sid}), s.now))
  {
    assert FlightOk(sid, s.flights[sid], s);
    LockMoves(s, sid, f);
    var t := Then(s.(flights := s.flights[sid := f]), s.now);
    assert FlightOk(sid, f, t);
    LockKeeps(s, t, sid);
    LockKeeps(s, Then(s.(flights := s.flights - {sid}), s.now), sid);
  }

  lemma {:induction false} CheckKeeps(s: State, sid: Sid)
    requires Inv(s)
    ensures Inv(Then(CheckStep(s, sid), s.now))
  {
    if sid in s.flights && s.flights[sid].Reading? {
      HolderKeeps(s, sid, Checked(s.flights[sid].generation));
    } else {
      IdleKeeps(s);
    }
  }

  lemma {:induction false} LoadKeeps(s: State, e: Event)
    requires Inv(s) && e.Load?
    ensures Inv(Then(LoadStep(s, e), s.now))
  {
    if e.sid in s.flights && s.flights[e.sid].Checked? {
      HolderKeeps(s, e.sid, s.flights[e.sid]);
      if e.sid.name in s.secrets {
        HolderKeeps(s, e.sid, Refreshing(s.flights[e.sid].generation, s.secrets[e.sid.name]));
      }
    } else {
      IdleKeeps(s);
    }
  }

  /** The registered session of a name gets a new generation; other names keep their credentials. */
  ghost predicate Supersedes(s: State, t: State, sid: Sid, v: Session) {
    && sid in s.sessions && sid.name in s.registry && s.registry[sid.name] == sid && v.generation == Issued(s.now)
    && (s.sessions[sid].retired ==> v.retired)
    && t.sessions == s.sessions[sid := v] && t.registry == s.registry && t.now == s.now + 1
    && t.flights == s.flights && t.stored == s.stored && forall n :: n != sid.name ==> NameStays(n, s, t)
  }

  lemma {:induction false} SupersedeSessions(s: State, t: State, sid: Sid, v: Session)
    requires SessionsOk(s) && Supersedes(s, t, sid, v)
    ensures SessionsOk(t) && NoNewCurrent(s, t)
    ensures forall k, g :: Current(t, k, g) && Age(g) < s.now ==> NameStays(k.name, s, t)
  {
    forall k | k in t.sessions ensures SessionOk(k, t.sessions[k], t) { assert SessionOk(k, s.sessions[k], s); }
    forall k, g | Current(t, k, g) && Age(g) < s.now ensures NameStays(k.name, s, t) {
      assert SessionOk(k, s.sessions[k], s);
    }
  }

  lemma {:induction false} SupersedeFlows(s: State, t: State, sid: Sid, v: Session)
    requires Inv(s) && Supersedes(s, t, sid, v)
    requires forall l :: l in s.logins ==> l in t.logins && t.logins[l] == s.logins[l]
    ensures FlightsOk(t) && forall l :: l in s.logins ==> LoginOk(l, s.logins[l], t)
  {
    SupersedeSessions(s, t, sid, v);
    forall l | l in s.logins ensures LoginOk(l, s.logins[l], t) {
      assert LoginOk(l, s.logins[l], s);
      LoginKeeps(l, s.logins[l], s, t);
    }
    forall k | k in t.flights ensures FlightOk(k, t.flights[k], t) {
      assert FlightOk(k, s.flights[k], s);
      FlightKeeps(k, s.flights[k], s, t);
    }
  }

  /** While a publication runs, what it already retired stays retired. */
  lemma {:induction false} SupersedePublishing(s: State, t: State, sid: Sid, v: Session)
    requires PublishingOk(s) && Supersedes(s, t, sid, v) && t.publishing == s.publishing
    ensures PublishingOk(t)
  {
  }

  lemma {:induction false} BeginKeeps(s: State, sid: Sid)
    requires Inv(s)
    ensures Inv(Then(BeginStep(s, sid), s.now))
  {
    if sid in s.sessions && !s.sessions[sid].retired && Free(s, sid) {
      var t, v := Then(BeginStep(s, sid), s.now), Session(Issued(s.now), false);
      assert SessionOk(sid, s.sessions[sid], s);
      assert Supersedes(s, t, sid, v);
      SupersedeSessions(s, t, sid, v);
      SupersedePublishing(s, t, sid, v);
      SecretsKeep(s, t);
      BegunFlows(s, sid);
    } else {
      IdleKeeps(s);
    }
  }

  lemma {:induction false} BegunFlows(s: State, sid: Sid)
    requires Inv(s) && sid in s.sessions && !s.sessions[sid].retired && Free(s, sid)
    ensures var t := Then(BeginStep(s, sid), s.now); LoginsOk(t) && FlightsOk(t)
  {
    var t := Then(BeginStep(s, sid), s.now);
    assert SessionOk(sid, s.sessions[sid], s);
    forall l | l in s.logins ensures l != s.now { assert LoginOk(l, s.logins[l], s); }
    SupersedeFlows(s, t, sid, Session(Issued(s.now), false));
    forall l | l in t.logins ensures LoginOk(l, t.logins[l], t) {
      if l == s.now { NewLogin(s, sid); }
    }
  }

  lemma {:induction false} NewLogin(s: State, sid: Sid)
    requires Inv(s) && sid in s.sessions && !s.sessions[sid].retired && Free(s, sid)
    ensures LoginOk(s.now, LoginState(sid, Starting), Then(BeginStep(s, sid), s.now))
  {
    if sid.name in s.secrets { assert RecordOk(sid.name, s.secrets[sid.name], s); }
  }

  lemma {:induction false} DisconnectSupersedes(s: State, e: Event)
    requires Inv(s) && e.Disconnect? && e.sid in s.sessions && !s.sessions[e.sid].retired
    ensures Supersedes(s, Then(DisconnectStep(s, e), s.now), e.sid, Session(Issued(s.now), false))
  {
    hide Before, Current, LoginsOk;
    assert SessionOk(e.sid, s.sessions[e.sid], s);
  }

  lemma {:induction false} DisconnectSecrets(s: State, e: Event)
    requires SecretsOk(s) && e.Disconnect?
    ensures SecretsOk(Then(DisconnectStep(s, e), s.now))
  {
    var t := Then(DisconnectStep(s, e), s.now);
    if e.written && e.sid in s.sessions && !s.sessions[e.sid].retired { RemovedSecrets(s, t, e.sid.name); }
      else { SecretsKeep(s, t); }
  }

  lemma {:induction false} SupersedeKeeps(s: State, t: State, sid: Sid, v: Session)
    requires Inv(s) && Supersedes(s, t, sid, v) && SecretsOk(t)
    requires t.logins == s.logins && t.statuses == s.statuses && t.publishing == s.publishing
    ensures Inv(t)
  {
    SupersedeSessions(s, t, sid, v);
    SupersedeFlows(s, t, sid, v);
    SupersedePublishing(s, t, sid, v);
  }

  lemma {:induction false} DisconnectKeeps(s: State, e: Event)
    requires Inv(s) && e.Disconnect?
    ensures Inv(Then(DisconnectStep(s, e), s.now))
  {
    hide Before, SessionOk, LoginsOk;
    if e.sid in s.sessions && !s.sessions[e.sid].retired {
      var t := Then(DisconnectStep(s, e), s.now);
      DisconnectSupersedes(s, e);
      DisconnectSecrets(s, e);
      SupersedeKeeps(s, t, e.sid, Session(Issued(s.now), false));
    } else {
      IdleKeeps(s);
    }
  }

  lemma {:induction false} RemovedSecrets(s: State, t: State, name: Name)
    requires SecretsOk(s) && t.secrets == s.secrets - {name} && t.removed == s.removed[name := s.now]
             && t.now == s.now + 1
    ensures SecretsOk(t)
  {
    forall n | n in t.secrets ensures RecordOk(n, t.secrets[n], t) { assert RecordOk(n, s.secrets[n], s); }
  }

  lemma {:induction false} RetireKeeps(s: State, e: Event)
    requires Inv(s) && e.Retire?
    ensures Inv(Then(RetireStep(s, e), s.now))
  {
    if s.publishing.None? || e.name !in s.publishing.value.todo || e.name !in s.registry {
      IdleKeeps(s);
    } else if !e.written {
      PublishingChanges(s, None);
      IdleKeeps(s.(publishing := None));
    } else {
      RetiredKeeps(s, e);
    }
  }

  lemma {:induction false} RetiredKeeps(s: State, e: Event)
    requires Inv(s) && e.Retire? && e.written && s.publishing.Some? && e.name in s.publishing.value.todo
             && e.name in s.registry
    ensures Inv(Then(RetireStep(s, e), s.now))
  {
    hide SessionOk;
    var t, v, sid := Then(RetireStep(s, e), s.now), Session(Issued(s.now), true), s.registry[e.name];
    assert Supersedes(s, t, sid, v);
    SupersedeSessions(s, t, sid, v);
    SupersedeFlows(s, t, sid, v);
    RemovedSecrets(s, t, e.name);
    assert PublishingOk(t) by { assert PublishingOk(s); }
  }

  lemma {:induction false} FinishCheckKeeps(s: State, e: Event)
    requires Inv(s) && e.FinishCheck?
    ensures Inv(Then(FinishCheckStep(s, e), s.now))
  {
    hide Live, SessionsOk;
    if e.login in s.logins && s.logins[e.login].stage.Returned? && Free(s, s.logins[e.login].sid) {
      if e.valid && Current(s, s.logins[e.login].sid, Issued(e.login)) {
        ExchangeKeeps(s, e.login);
      } else {
        SetStageMoves(s, e.login, Reporting(false));
        StagesKeep(s, Then(SetStage(s, e.login, Reporting(false)), s.now));
      }
    } else {
      IdleKeeps(s);
    }
  }

  lemma {:induction false} ExchangeKeeps(s: State, l: nat)
    requires Inv(s) && l in s.logins && s.logins[l].stage.Returned? && Free(s, s.logins[l].sid)
    ensures var sid := s.logins[l].sid;
      Inv(Then(SetStage(s, l, Exchange).(flights := s.flights[sid := Exchanging(l)]), s.now))
  {
    hide SessionsOk;
    var sid := s.logins[l].sid;
    var t := Then(SetStage(s, l, Exchange).(flights := s.flights[sid := Exchanging(l)]), s.now);
    forall k | k in t.logins ensures Moves(k, s, t) { assert LoginOk(k, s.logins[k], s); }
    forall k | k in t.flights ensures FlightOk(k, t.flights[k], t) {
      assert LoginOk(l, s.logins[l], s);
      if k != sid { assert FlightOk(k, s.flights[k], s); }
    }
    FlowsKeep(s, t);
  }

  /** The exchange ends and the lock is released. */
  lemma {:induction false} ExchangeEnds(s: State, l: nat)
    requires Inv(s) && l in s.logins && s.logins[l].stage.Exchange?
    ensures Inv(Then(SetStage(s, l, Reporting(false)).(flights := s.flights - {s.logins[l].sid}), s.now))
  {
    var sid := s.logins[l].sid;
    var t := Then(SetStage(s, l, Reporting(false)).(flights := s.flights - {sid}), s.now);
    assert LoginOk(l, s.logins[l], s);
    forall k | k in t.logins ensures Moves(k, s, t) { assert LoginOk(k, s.logins[k], s); }
    forall k | k in t.flights ensures FlightOk(k, t.flights[k], t) {
      assert FlightOk(k, s.flights[k], s);
    }
    FlowsKeep(s, t);
  }

  /** A current session stores a credential for its name; nothing else of that name is current. */
  ghost predicate Stores(s: State, t: State, sid: Sid) {
    && sid in s.sessions && !s.sessions[sid].retired && sid in s.flights
    && t.sessions == s.sessions && t.registry == s.registry && t.removed == s.removed && t.publishing == s.publishing
    && t.now == s.now + 1 && s.stored <= t.stored && t.flights == s.flights - {sid} && t.statuses == s.statuses
    && forall n :: n != sid.name ==> NameStays(n, s, t)
  }

  lemma {:induction false} StoreFlights(s: State, t: State, sid: Sid)
    requires Inv(s) && Stores(s, t, sid)
    requires forall l :: l in s.logins && s.logins[l].sid != sid ==> l in t.logins && t.logins[l] == s.logins[l]
    ensures FlightsOk(t)
  {
    forall k | k in t.flights ensures FlightOk(k, t.flights[k], t) {
      assert FlightOk(k, s.flights[k], s);
      if !s.sessions[k].retired && k.name == sid.name { OneOwner(s, k, sid); }
      FlightKeeps(k, s.flights[k], s, t);
    }
  }

  lemma {:induction false} StoreOtherLogins(s: State, t: State, sid: Sid, l: nat)
    requires Inv(s) && Stores(s, t, sid) && l in s.logins && s.logins[l].sid != sid
    ensures LoginOk(l, s.logins[l], t)
  {
    assert LoginOk(l, s.logins[l], s);
    var k := s.logins[l].sid;
    if !s.sessions[k].retired && k.name == sid.name { OneOwner(s, k, sid); }
    LoginKeeps(l, s.logins[l], s, t);
  }

  lemma {:induction false} FinishedKeeps(s: State, e: Event)
    requires Inv(s) && e.FinishStore? && e.answered && e.written && e.login in s.logins
             && s.logins[e.login].stage.Exchange?
    requires Current(s, s.logins[e.login].sid, Issued(e.login))
    ensures Inv(Then(FinishStoreStep(s, e), s.now))
  {
    hide Age, SessionOk;
    var sid, t := s.logins[e.login].sid, Then(FinishStoreStep(s, e), s.now);
    assert LoginOk(e.login, s.logins[e.login], s);
    assert Stores(s, t, sid);
    StoreFlights(s, t, sid);
    forall l | l in t.logins ensures LoginOk(l, t.logins[l], t) {
      if s.logins[l].sid != sid { StoreOtherLogins(s, t, sid, l); } else { assert LoginOk(l, s.logins[l], s); }
    }
    SessionsKeep(s, t);
    StoredSecret(s, t, sid.name);
    assert PublishingOk(t) by { assert PublishingOk(s); }
  }

  lemma {:induction false} StoredSecret(s: State, t: State, name: Name)
    requires SecretsOk(s) && name in t.secrets && t.secrets == s.secrets[name := t.secrets[name]]
             && t.removed == s.removed && t.now == s.now + 1
    requires RecordOk(name, t.secrets[name], t)
    ensures SecretsOk(t)
  {
    forall n | n in t.secrets
      ensures RecordOk(n, t.secrets[n], t)
    {
      assert n != name ==> RecordOk(n, s.secrets[n], s);
    }
  }

  lemma {:induction false} FinishStoreKeeps(s: State, e: Event)
    requires Inv(s) && e.FinishStore?
    ensures Inv(Then(FinishStoreStep(s, e), s.now))
  {
    if e.login in s.logins && s.logins[e.login].stage.Exchange? {
      if e.answered && e.written && Current(s, s.logins[e.login].sid, Issued(e.login)) {
        FinishedKeeps(s, e);
      } else {
        ExchangeEnds(s, e.login);
      }
    } else {
      IdleKeeps(s);
    }
  }

  lemma {:induction false} RefreshedKeeps(s: State, e: Event)
    requires Inv(s) && e.RefreshStore? && e.answered && e.written && e.sid in s.flights && s.flights[e.sid].Refreshing?
    requires Current(s, e.sid, s.flights[e.sid].generation)
    ensures Inv(Then(RefreshStoreStep(s, e), s.now))
  {
    var t := Then(RefreshStoreStep(s, e), s.now);
    assert FlightOk(e.sid, s.flights[e.sid], s);
    assert Stores(s, t, e.sid);
    StoreFlights(s, t, e.sid);
    forall l | l in t.logins ensures LoginOk(l, t.logins[l], t) {
      if s.logins[l].sid != e.sid { StoreOtherLogins(s, t, e.sid, l); } else { assert LoginOk(l, s.logins[l], s); }
    }
    SessionsKeep(s, t);
    assert RecordOk(e.sid.name, s.secrets[e.sid.name], s);
    StoredSecret(s, t, e.sid.name);
    assert PublishingOk(t) by { assert PublishingOk(s); }
  }

  lemma {:induction false} RefreshStoreKeeps(s: State, e: Event)
    requires Inv(s) && e.RefreshStore?
    ensures Inv(Then(RefreshStoreStep(s, e), s.now))
  {
    if e.sid in s.flights && s.flights[e.sid].Refreshing? {
      if e.answered && e.written && Current(s, e.sid, s.flights[e.sid].generation) {
        RefreshedKeeps(s, e);
      } else {
        HolderKeeps(s, e.sid, Checked(s.flights[e.sid].generation));
      }
    } else {
      IdleKeeps(s);
    }
  }

  lemma {:induction false} PublishingChanges(s: State, p: Option<Publication>)
    requires Inv(s) && PublishingOk(s.(publishing := p))
    ensures Inv(s.(publishing := p))
  {
    var t := s.(publishing := p);
    SessionsKeep(s, t);
    SecretsKeep(s, t);
    forall l | l in t.logins ensures LoginOk(l, t.logins[l], t) { assert LoginOk(l, s.logins[l], s); }
    forall k | k in t.flights ensures FlightOk(k, t.flights[k], t) { assert FlightOk(k, s.flights[k], s); }
  }

  lemma {:induction false} PublishBeginKeeps(s: State, e: Event)
    requires Inv(s) && e.PublishBegin?
    ensures Inv(Then(PublishBeginStep(s, e), s.now))
  {
    hide Current;
    var t := PublishBeginStep(s, e);
    PublishingChanges(s, t.publishing);
    IdleKeeps(t);
  }

  /** A live session was kept, for everything else has been retired. */
  lemma {:induction false} LiveIsKept(s: State, k: Sid)
    requires Inv(s) && s.publishing.Some? && s.publishing.value.todo == {} && k in s.sessions && !s.sessions[k].retired
    ensures var r := Rebuilt(s, s.publishing.value); k.name in r && r[k.name] == k
  {
    var p := s.publishing.value;
    assert SessionOk(k, s.sessions[k], s);
    assert k.name in p.keep && k.name !in p.keep * p.add;
  }

  lemma {:induction false} PublishedRegistry(s: State, n: Name)
    requires Inv(s) && s.publishing.Some? && n in Rebuilt(s, s.publishing.value)
    ensures var sid := Rebuilt(s, s.publishing.value)[n];
      sid.name == n && (sid in s.sessions || sid in NewSessions(s.now, s.publishing.value.add))
  {
    if n in s.publishing.value.add { assert Sid(s.now, n) in NewSessions(s.now, s.publishing.value.add); }
  }

  lemma {:induction false} PublishedSessions(s: State)
    requires Inv(s) && s.publishing.Some? && s.publishing.value.todo == {}
    ensures var t := Then(PublishEndStep(s), s.now); SessionsOk(t) && NoNewCurrent(s, t)
  {
    var t, added := Then(PublishEndStep(s), s.now), NewSessions(s.now, s.publishing.value.add);
    forall k | k in s.sessions
      ensures k in t.sessions && k !in added && t.sessions[k] == s.sessions[k]
    {
      assert SessionOk(k, s.sessions[k], s);
    }
    forall k | k in t.sessions ensures SessionOk(k, t.sessions[k], t) {
      if k in s.sessions {
        assert SessionOk(k, s.sessions[k], s);
        if !s.sessions[k].retired { LiveIsKept(s, k); }
      } else {
        assert t.sessions[k] == Session(Initial(k), false);
      }
    }
    forall n | n in t.registry
      ensures t.registry[n] in t.sessions && t.registry[n].name == n
    {
      PublishedRegistry(s, n);
    }
  }

  lemma {:induction false} PublishEndKeeps(s: State)
    requires Inv(s)
    ensures Inv(Then(PublishEndStep(s), s.now))
  {
    hide RecordOk, NewSessions, Rebuilt;
    if s.publishing.Some? && s.publishing.value.todo == {} {
      var t := Then(PublishEndStep(s), s.now);
      PublishedSessions(s);
      SecretsKeep(s, t);
      forall l | l in t.logins ensures LoginOk(l, t.logins[l], t) {
        assert LoginOk(l, s.logins[l], s);
        LoginKeeps(l, s.logins[l], s, t);
      }
      forall k | k in t.flights ensures FlightOk(k, t.flights[k], t) {
        assert FlightOk(k, s.flights[k], s);
        FlightKeeps(k, s.flights[k], s, t);
      }
    } else {
      IdleKeeps(s);
    }
  }

  lemma {:induction false} RestartKeeps(s: State)
    requires Inv(s)
    ensures Inv(Then(RestartStep(s), s.now))
  {
    SecretsKeep(s, Then(RestartStep(s), s.now));
  }

  predicate OfLogin(e: Event) {
    e.Begin? || e.Register? || e.Callback? || e.FinishCheck? || e.FinishStore? || e.Report?
  }

  lemma {:induction false} LoginStepKeeps(s: State, e: Event)
    requires Inv(s) && OfLogin(e)
    ensures Inv(Then(Act(s, e), s.now))
  {
    hide BeginStep, RegisterStep, CallbackStep, FinishCheckStep, FinishStoreStep, ReportStep, Inv;
    match e
    case Begin(sid) => BeginKeeps(s, sid);
    case Register(_, _, _) => RegisterKeeps(s, e);
    case Callback(login) => CallbackKeeps(s, login);
    case FinishCheck(_, _) => FinishCheckKeeps(s, e);
    case FinishStore(_, _, _) => FinishStoreKeeps(s, e);
    case Report(login) => ReportKeeps(s, login);
  }

  lemma {:induction false} OtherStepKeeps(s: State, e: Event)
    requires Inv(s) && !OfLogin(e)
    ensures Inv(Then(Act(s, e), s.now))
  {
    hide AcquireStep, CheckStep, LoadStep, RefreshStoreStep, DisconnectStep, PublishBeginStep, RetireStep,
      PublishEndStep,
      RestartStep, Inv;
    match e
    case Acquire(sid) => AcquireKeeps(s, sid);
    case Check(sid) => CheckKeeps(s, sid);
    case Load(_, _) => LoadKeeps(s, e);
    case RefreshStore(_, _, _) => RefreshStoreKeeps(s, e);
    case Disconnect(_, _) => DisconnectKeeps(s, e);
    case PublishBegin(_, _) => PublishBeginKeeps(s, e);
    case Retire(_, _) => RetireKeeps(s, e);
    case PublishEnd => PublishEndKeeps(s);
    case Restart => RestartKeeps(s);
  }

  lemma {:induction false} StepKeeps(s: State, e: Event)
    requires Inv(s)
    ensures Inv(Step(s, e))
  {
    hide Act, Then, Inv;
    if OfLogin(e) { LoginStepKeeps(s, e); } else { OtherStepKeeps(s, e); }
  }

  lemma {:induction false} RunKeeps(secrets: set<Name>, es: seq<Event>)
    ensures Inv(Run(secrets, es)) && Run(secrets, es).now == |es|
  {
    if es != [] {
      RunKeeps(secrets, es[..|es| - 1]);
      StepKeeps(Run(secrets, es[..|es| - 1]), es[|es| - 1]);
    }
  }
}
