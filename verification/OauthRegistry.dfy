/** Which registered names own a retired session, and that they stay so until they are replaced. */
module OauthRegistry {
  import opened Outcome
  import opened OauthSessions

  ghost predicate Publishes(s: State, e: Event) { e.PublishEnd? && s.publishing.Some? && s.publishing.value.todo == {} }

  ghost predicate Retires(s: State, e: Event) {
    e.Retire? && e.written && s.publishing.Some? && e.name in s.publishing.value.todo && e.name in s.registry
  }

  /** The names whose session was retired by a publication and not replaced by one since. */
  ghost function Stale(secrets: set<Name>, es: seq<Event>): set<Name> {
    if es == [] then {}
    else
      var before, e := es[..|es| - 1], es[|es| - 1];
      var s, was := Run(secrets, before), Stale(secrets, before);
      if e.Restart? then {}
      else if Publishes(s, e) then was * s.publishing.value.keep
      else if Retires(s, e) then was + {e.name}
      else was
  }

  predicate RetiredOwner(s: State, n: Name) {
    n in s.registry && s.registry[n] in s.sessions && s.sessions[s.registry[n]].retired
  }

  ghost predicate Describes(stale: set<Name>, s: State) { forall n :: n in stale <==> RetiredOwner(s, n) }

  predicate SameSessions(s: State, t: State) {
    t.registry == s.registry && t.sessions == s.sessions && t.publishing == s.publishing
  }

  lemma {:induction false} StageKeepsSessions(s: State, login: nat, stage: Stage)
    requires login in s.logins
    ensures SameSessions(s, SetStage(s, login, stage))
  {
  }

  lemma {:induction false} RegisterKeepsSessions(s: State, e: Event)
    requires e.Register?
    ensures SameSessions(s, RegisterStep(s, e))
  {
    hide Drop, Dropped, PendingLogins, Current;
  }

  lemma {:induction false} FinishKeepsSessions(s: State, e: Event)
    requires e.FinishCheck? || e.FinishStore?
    ensures SameSessions(s, if e.FinishCheck? then FinishCheckStep(s, e) else FinishStoreStep(s, e))
  {
    hide SetStage, Current;
    if e.login in s.logins {
      forall stage ensures SameSessions(s, SetStage(s, e.login, stage)) { StageKeepsSessions(s, e.login, stage); }
    }
  }

  lemma {:induction false} ReportKeepsSessions(s: State, login: nat)
    ensures SameSessions(s, ReportStep(s, login)) && SameSessions(s, CallbackStep(s, login))
  {
    hide SetStage, Current;
    if login in s.logins {
      forall stage ensures SameSessions(s, SetStage(s, login, stage)) { StageKeepsSessions(s, login, stage); }
    }
  }

  lemma {:induction false} LoginsKeepSessions(s: State, e: Event)
    requires e.Register? || e.Callback? || e.FinishCheck? || e.FinishStore? || e.Report?
    ensures SameSessions(s, Act(s, e))
  {
    hide RegisterStep, FinishCheckStep, FinishStoreStep, ReportStep, CallbackStep;
    match e
    case Register(_, _, _) => RegisterKeepsSessions(s, e);
    case Callback(login) => ReportKeepsSessions(s, login);
    case Report(login) => ReportKeepsSessions(s, login);
    case _ => FinishKeepsSessions(s, e);
  }

  lemma {:induction false} LockKeepsSessions(s: State, sid: Sid)
    ensures SameSessions(s, AcquireStep(s, sid)) && SameSessions(s, CheckStep(s, sid))
  {
    hide Current;
  }

  lemma {:induction false} FlightsKeepSessions(s: State, e: Event)
    requires e.Acquire? || e.Check? || e.Load? || e.RefreshStore?
    ensures SameSessions(s, Act(s, e))
  {
    hide AcquireStep, CheckStep, Current;
    if e.Acquire? || e.Check? { LockKeepsSessions(s, e.sid); }
  }

  lemma {:induction false} LiveStaysLive(s: State, sid: Sid, g: Generation, n: Name)
    requires sid in s.sessions && !s.sessions[sid].retired
    ensures RetiredOwner(SetSession(s, sid, Session(g, false)), n) <==> RetiredOwner(s, n)
  {
  }

  /** Registered sessions change their owner and become retired only by the steps of a publication. */
  lemma {:induction false} OthersKeepOwners(s: State, e: Event, n: Name)
    requires !e.Restart? && !Publishes(s, e) && !Retires(s, e)
    ensures RetiredOwner(Act(s, e), n) <==> RetiredOwner(s, n)
  {
    if e.Begin? || e.Disconnect? {
      hide NewSessions, Rebuilt;
      if e.sid in s.sessions && !s.sessions[e.sid].retired { LiveStaysLive(s, e.sid, Issued(s.now), n); }
    } else if !e.Retire? && !e.PublishEnd? && !e.PublishBegin? {
      hide Act;
      if e.Register? || e.Callback? || e.FinishCheck? || e.FinishStore? || e.Report? {
        LoginsKeepSessions(s, e);
      } else {
        FlightsKeepSessions(s, e);
      }
    }
  }

  lemma {:induction false} RetiringAddsOne(s: State, e: Event)
    requires SessionsOk(s) && Retires(s, e)
    ensures var t := Act(s, e); forall n :: RetiredOwner(t, n) <==> n == e.name || RetiredOwner(s, n)
  {
  }

  lemma {:induction false} PublishingKeeps(s: State, e: Event)
    requires Inv(s) && Publishes(s, e)
    ensures var t := Act(s, e); forall n :: RetiredOwner(t, n) <==> n in s.publishing.value.keep && RetiredOwner(s, n)
  {
    var p, t := s.publishing.value, Act(s, e);
    hide NewSessions;
    forall n ensures RetiredOwner(t, n) <==> n in p.keep && RetiredOwner(s, n) {
      if n in p.add {
        NewSessionsAre(s.now, p.add, Sid(s.now, n));
        assert n in p.keep ==> n in p.keep * p.add;
        assert t.registry[n] == Sid(s.now, n);
      } else if n in p.keep {
        NewSessionsAre(s.now, p.add, s.registry[n]);
        assert SessionOk(s.registry[n], s.sessions[s.registry[n]], s);
        assert t.registry[n] == s.registry[n] && t.sessions[s.registry[n]] == s.sessions[s.registry[n]];
      }
    }
  }

  /** The exact condition, in every run: a registered session is retired if and only if a publication retired it and
      none has replaced it since. */
  lemma {:induction false} RegisteredIsRetiredIff(secrets: set<Name>, es: seq<Event>)
    ensures Describes(Stale(secrets, es), Run(secrets, es))
  {
    if es != [] {
      var before, e := es[..|es| - 1], es[|es| - 1];
      var s := Run(secrets, before);
      RegisteredIsRetiredIff(secrets, before);
      RunKeeps(secrets, before);
      hide Act;
      if Publishes(s, e) {
        PublishingKeeps(s, e);
      } else if Retires(s, e) {
        RetiringAddsOne(s, e);
      } else if !e.Restart? {
        forall n ensures RetiredOwner(Act(s, e), n) <==> RetiredOwner(s, n) { OthersKeepOwners(s, e, n); }
      }
    }
  }

  // ---------------------------------------------------------------- what went wrong before

  /** A removal fails, and with it the publication. */
  ghost predicate Fails(s: State, e: Event) {
    e.Retire? && !e.written && s.publishing.Some? && e.name in s.publishing.value.todo && e.name in s.registry
  }

  /** The session of `n` was retired by the publication that is going on. */
  ghost predicate Handled(s: State, n: Name) {
    s.publishing.Some? && n in s.registry && n !in s.publishing.value.keep && n !in s.publishing.value.todo
  }

  /** The step leaves the forward called `n` with the session it has. */
  ghost predicate KeptBy(s: State, e: Event, n: Name) {
    !e.Restart? && (Publishes(s, e) ==> n in s.publishing.value.keep)
  }

  ghost predicate StillKept(secrets: set<Name>, es: seq<Event>, i: nat, n: Name) {
    forall j :: i < j < |es| ==> KeptBy(Run(secrets, es[..j]), es[j], n)
  }

  /** The publication at step `i` failed after it had retired the session of `n`, which has been kept since. */
  ghost predicate HalfWay(secrets: set<Name>, es: seq<Event>, i: nat, n: Name) {
    i < |es| && Fails(Run(secrets, es[..i]), es[i]) && Handled(Run(secrets, es[..i]), n) && StillKept(secrets, es, i, n)
  }

  ghost predicate LeftRetired(secrets: set<Name>, es: seq<Event>, n: Name) { exists i :: HalfWay(secrets, es, i, n) }

  lemma {:induction false} HalfWayThen(secrets: set<Name>, es: seq<Event>, e: Event, i: nat, n: Name)
    ensures i < |es| ==>
      (HalfWay(secrets, es + [e], i, n) <==> HalfWay(secrets, es, i, n) && KeptBy(Run(secrets, es), e, n))
    ensures HalfWay(secrets, es + [e], |es|, n) <==> Fails(Run(secrets, es), e) && Handled(Run(secrets, es), n)
  {
    hide Fails, Handled, KeptBy, Run;
    var all := es + [e];
    assert forall j :: 0 <= j <= |es| ==> all[..j] == es[..j];
    assert es[..|es|] == es && all[|es|] == e;
    if i < |es| && StillKept(secrets, all, i, n) {
      forall j | i < j < |es| ensures KeptBy(Run(secrets, es[..j]), es[j], n) {
        assert KeptBy(Run(secrets, all[..j]), all[j], n);
      }
      assert KeptBy(Run(secrets, all[..|es|]), all[|es|], n);
    }
    if i < |es| && StillKept(secrets, es, i, n) && KeptBy(Run(secrets, es), e, n) {
      forall j | i < j < |all| ensures KeptBy(Run(secrets, all[..j]), all[j], n) {
        assert j < |es| ==> KeptBy(Run(secrets, es[..j]), es[j], n);
      }
    }
  }

  lemma {:induction false} LeftRetiredThen(secrets: set<Name>, es: seq<Event>, e: Event, n: Name)
    ensures var s := Run(secrets, es);
      LeftRetired(secrets, es + [e], n) <==>
        (LeftRetired(secrets, es, n) && KeptBy(s, e, n)) || (Fails(s, e) && Handled(s, n))
  {
    hide HalfWay, Fails, Handled, KeptBy, Run;
    var s := Run(secrets, es);
    HalfWayThen(secrets, es, e, |es|, n);
    if LeftRetired(secrets, es + [e], n) {
      var i: nat :| HalfWay(secrets, es + [e], i, n);
      HalfWayEarlier(secrets, es + [e], i, n);
      HalfWayThen(secrets, es, e, i, n);
    }
    if LeftRetired(secrets, es, n) {
      var i: nat :| HalfWay(secrets, es, i, n);
      HalfWayEarlier(secrets, es, i, n);
      HalfWayThen(secrets, es, e, i, n);
    }
  }

  lemma {:induction false} HalfWayEarlier(secrets: set<Name>, es: seq<Event>, i: nat, n: Name)
    requires HalfWay(secrets, es, i, n)
    ensures i < |es|
  {
  }

  predicate Apart(s: State) { s.publishing.Some? ==> s.publishing.value.todo !! s.publishing.value.keep }

  lemma {:induction false} StaysApart(s: State, e: Event)
    requires Apart(s)
    ensures Apart(Act(s, e))
  {
    hide RegisterStep, CallbackStep, FinishCheckStep, FinishStoreStep, ReportStep, AcquireStep, CheckStep, LoadStep,
      RefreshStoreStep, NewSessions, Rebuilt;
    if e.Register? || e.Callback? || e.FinishCheck? || e.FinishStore? || e.Report? {
      LoginsKeepSessions(s, e);
    } else if e.Acquire? || e.Check? || e.Load? || e.RefreshStore? {
      FlightsKeepSessions(s, e);
    }
  }

  lemma {:induction false} RunApart(secrets: set<Name>, es: seq<Event>)
    ensures Apart(Run(secrets, es))
  {
    hide Act;
    if es != [] {
      RunApart(secrets, es[..|es| - 1]);
      StaysApart(Run(secrets, es[..|es| - 1]), es[|es| - 1]);
    }
  }

  lemma {:induction false} PublicationThen(s: State, e: Event, n: Name)
    requires Apart(s) && (e.PublishBegin? || e.Retire? || e.PublishEnd? || e.Restart?)
    ensures Handled(Act(s, e), n) <==>
      !e.Restart? && !Publishes(s, e) && !Fails(s, e) && (Handled(s, n) || (Retires(s, e) && n == e.name))
  {
    hide NewSessions, Rebuilt;
  }

  lemma {:induction false} HandledThen(s: State, e: Event, n: Name)
    requires Apart(s)
    ensures Handled(Act(s, e), n) <==>
      !e.Restart? && !Publishes(s, e) && !Fails(s, e) && (Handled(s, n) || (Retires(s, e) && n == e.name))
  {
    if e.PublishBegin? || e.Retire? || e.PublishEnd? || e.Restart? {
      PublicationThen(s, e, n);
    } else if e.Begin? || e.Disconnect? {
      SessionThen(s, e);
    } else {
      hide Act;
      if e.Register? || e.Callback? || e.FinishCheck? || e.FinishStore? || e.Report? {
        LoginsKeepSessions(s, e);
      } else {
        FlightsKeepSessions(s, e);
      }
    }
  }

  lemma {:induction false} SessionThen(s: State, e: Event)
    requires e.Begin? || e.Disconnect?
    ensures Act(s, e).registry == s.registry && Act(s, e).publishing == s.publishing
  {
    hide BeginStep, DisconnectStep;
    if e.Begin? { BeginKeepsRegistry(s, e.sid); } else { DisconnectKeepsRegistry(s, e); }
  }

  lemma {:induction false} BeginKeepsRegistry(s: State, sid: Sid)
    ensures BeginStep(s, sid).registry == s.registry && BeginStep(s, sid).publishing == s.publishing
  {
  }

  lemma {:induction false} DisconnectKeepsRegistry(s: State, e: Event)
    requires e.Disconnect?
    ensures DisconnectStep(s, e).registry == s.registry && DisconnectStep(s, e).publishing == s.publishing
  {
  }

  /** In every run a registered session is retired if and only if a publication failed after retiring it and every later
      one kept it, or the publication that is going on has retired it. */
  lemma {:induction false} RetiredByFailure(secrets: set<Name>, es: seq<Event>, n: Name)
    ensures RetiredOwner(Run(secrets, es), n) <==> LeftRetired(secrets, es, n) || Handled(Run(secrets, es), n)
  {
    if es == [] {
      assert !LeftRetired(secrets, es, n);
    } else {
      var before, e := es[..|es| - 1], es[|es| - 1];
      var s := Run(secrets, before);
      assert es == before + [e];
      RetiredByFailure(secrets, before, n);
      RunKeeps(secrets, before);
      RunApart(secrets, before);
      LeftRetiredThen(secrets, before, e, n);
      HandledThen(s, e, n);
      RetiredThen(s, e, n);
    }
  }

  lemma {:induction false} RetiredThen(s: State, e: Event, n: Name)
    requires Inv(s)
    ensures RetiredOwner(Act(s, e), n) <==>
      (RetiredOwner(s, n) && KeptBy(s, e, n)) || (Retires(s, e) && n == e.name)
  {
    hide Act, Inv;
    if Publishes(s, e) {
      PublishingKeeps(s, e);
    } else if Retires(s, e) {
      SessionsAreOk(s);
      RetiringAddsOne(s, e);
    } else if e.Restart? {
      NoneAfterRestart(s, n);
    } else {
      OthersKeepOwners(s, e, n);
    }
  }

  lemma {:induction false} SessionsAreOk(s: State)
    requires Inv(s)
    ensures SessionsOk(s)
  {
  }

  lemma {:induction false} NoneAfterRestart(s: State, n: Name)
    ensures !RetiredOwner(Act(s, Restart), n)
  {
  }

  /** While nothing is being published, every registered session is live if and only if no publication failed after
      retiring one that is still kept. */
  lemma {:induction false} AllLiveIff(secrets: set<Name>, es: seq<Event>)
    requires Run(secrets, es).publishing.None?
    ensures (forall n :: !RetiredOwner(Run(secrets, es), n)) <==> (forall i, n :: !HalfWay(secrets, es, i, n))
  {
    hide HalfWay, Run, RetiredOwner;
    var s := Run(secrets, es);
    forall n | RetiredOwner(s, n) ensures exists i :: HalfWay(secrets, es, i, n) { RetiredByFailure(secrets, es, n); }
    forall i, n | HalfWay(secrets, es, i, n) ensures RetiredOwner(s, n) { RetiredByFailure(secrets, es, n); }
  }

  // ---------------------------------------------------------------- such names stay unusable

  /** Logging in with such a name, or disconnecting it, changes nothing. */
  lemma {:induction false} RetiredOwnerRefuses(s: State, n: Name, written: bool)
    requires RetiredOwner(s, n)
    ensures Act(s, Begin(s.registry[n])) == s && Act(s, Disconnect(s.registry[n], written)) == s
  {
  }

  /** Every publication of this continuation keeps the forward called `n`, as publishing the same configuration does. */
  ghost predicate Keeps(more: seq<Event>, n: Name) {
    forall i :: 0 <= i < |more| ==> !more[i].Restart? && (more[i].PublishBegin? ==> n in more[i].keep)
  }

  ghost predicate KeptNow(s: State, n: Name) { s.publishing.Some? ==> n in s.publishing.value.keep }

  lemma {:induction false} KeptByStep(s: State, e: Event, n: Name)
    requires KeptNow(s, n) && !e.Restart? && (e.PublishBegin? ==> n in e.keep)
    ensures KeptNow(Act(s, e), n)
  {
    hide RegisterStep, CallbackStep, FinishCheckStep, FinishStoreStep, ReportStep, AcquireStep, CheckStep, LoadStep,
      RefreshStoreStep, NewSessions, Rebuilt;
    if e.Register? || e.Callback? || e.FinishCheck? || e.FinishStore? || e.Report? {
      LoginsKeepSessions(s, e);
    } else if e.Acquire? || e.Check? || e.Load? || e.RefreshStore? {
      FlightsKeepSessions(s, e);
    }
  }

  lemma {:induction false} StaleStep(secrets: set<Name>, es: seq<Event>, e: Event, n: Name)
    requires n in Stale(secrets, es) && KeptNow(Run(secrets, es), n) && !e.Restart? && (e.PublishBegin? ==> n in e.keep)
    ensures n in Stale(secrets, es + [e]) && KeptNow(Run(secrets, es + [e]), n)
  {
    assert (es + [e])[..|es|] == es;
    KeptByStep(Run(secrets, es), e, n);
    hide Act;
  }

  /** A retired owner stays as long as publications keep its forward. */
  lemma {:induction false} StaleWhileKept(secrets: set<Name>, es: seq<Event>, more: seq<Event>, n: Name)
    requires n in Stale(secrets, es) && KeptNow(Run(secrets, es), n) && Keeps(more, n)
    ensures n in Stale(secrets, es + more) && RetiredOwner(Run(secrets, es + more), n)
    ensures KeptNow(Run(secrets, es + more), n)
    decreases |more|
  {
    hide Run, Stale, KeptNow, RetiredOwner;
    if more == [] {
      assert es + more == es;
    } else {
      var init, e := more[..|more| - 1], more[|more| - 1];
      StaleWhileKept(secrets, es, init, n);
      StaleStep(secrets, es + init, e, n);
      assert es + more == es + init + [e];
    }
    RegisteredIsRetiredIff(secrets, es + more);
  }

  /** Two forwards; a publication without them that retires one and fails at the other. */
  const HALF: seq<Event> := [PublishBegin({}, {"a", "b"}), PublishEnd, PublishBegin({}, {}), Retire("a", true),
                             Retire("b", false)]

  /** Such names exist: afterwards `a` cannot be logged in or disconnected, however often its configuration is published
      again. */
  lemma {:induction false} HalfPublished(more: seq<Event>, written: bool)
    requires Keeps(more, "a")
    ensures var s := Run({}, HALF + more);
      && RetiredOwner(s, "a")
      && Act(s, Begin(s.registry["a"])) == s && Act(s, Disconnect(s.registry["a"], written)) == s
  {
    HalfIsStale();
    StaleWhileKept({}, HALF, more, "a");
    RetiredOwnerRefuses(Run({}, HALF + more), "a", written);
  }

  lemma {:induction false} HalfRuns(k: nat)
    requires k < |HALF|
    ensures Run({}, HALF[..k + 1]) == Step(Run({}, HALF[..k]), HALF[k])
  {
    hide Step;
    assert HALF[..k + 1][..k] == HALF[..k];
  }

  lemma {:induction false} BothRegistered()
    ensures Run({}, HALF[..2]).registry.Keys == {"a", "b"} && Run({}, HALF[..2]).publishing.None?
  {
    HalfRuns(0);
    HalfRuns(1);
    assert HALF[..0] == [];
    var s := Start({});
    assert s.registry.Keys - {} == {};
    var t := Step(s, HALF[0]);
    assert t.publishing == Some(Publication({}, {"a", "b"}, {}));
    assert {"a", "b"} + ({} * t.registry.Keys) == {"a", "b"};
    assert Rebuilt(t, t.publishing.value).Keys == {"a", "b"};
  }

  lemma {:induction false} SecondBegins(s: State)
    requires s.registry.Keys == {"a", "b"} && s.publishing.None?
    ensures var t := Step(s, HALF[2]);
      && Retires(t, HALF[3]) && t.registry == s.registry
      && var u := Step(t, HALF[3]);
      && u.publishing.Some? && "b" in u.publishing.value.todo && u.registry == s.registry
      && Step(u, HALF[4]).publishing.None? && !Retires(u, HALF[4])
  {
    assert {"a", "b"} - {} == {"a", "b"};
    assert Step(s, HALF[2]).publishing == Some(Publication({}, {}, {"a", "b"}));
  }

  lemma {:induction false} StaleGrows(secrets: set<Name>, es: seq<Event>, e: Event, n: Name)
    requires e.Retire? && (n in Stale(secrets, es) || (Retires(Run(secrets, es), e) && n == e.name))
    ensures n in Stale(secrets, es + [e])
  {
    hide Retires, Step;
    assert (es + [e])[..|es|] == es;
  }

  lemma {:induction false} HalfIsStale()
    ensures "a" in Stale({}, HALF) && Run({}, HALF).publishing.None?
  {
    hide Step, Retires, Run, Stale;
    BothRegistered();
    SecondBegins(Run({}, HALF[..2]));
    HalfRuns(2);
    HalfRuns(3);
    HalfRuns(4);
    StaleGrows({}, HALF[..3], HALF[3], "a");
    assert HALF[..3] + [HALF[3]] == HALF[..4];
    StaleGrows({}, HALF[..4], HALF[4], "a");
    assert HALF[..4] + [HALF[4]] == HALF;
    assert HALF[..5] == HALF;
  }
}
