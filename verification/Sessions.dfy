// Azure onboarding sessions: any number of consent callbacks, the expiry sweep and
// lost replies, interleaved. One transaction step is one event; a session's row is
// locked from SELECT ... FOR UPDATE to the end of the callback's first transaction.
// A re-verification passes no session and so takes no part here.
module Sessions {
  import opened Wrappers

  type Sid = nat
  type Pid = nat
  type Time = nat

  datatype Status = Started | Verifying | Completed | ActionRequired | Failed | Expired

  // path, verifiers and listings are history: the statuses committed so far, the
  // callbacks that went on to verify, and the sizes of the lists they discovered
  datatype Session = Session(status: Status, count: Option<nat>, expiresAt: Time,
                             path: seq<Status>, verifiers: seq<Pid>, listings: seq<nat>)

  datatype Callback =
    | Locked(sid: Sid, draft: Status)
    | Discovering(sid: Sid)
    | Storing(sid: Sid, found: nat)
    | Recovering(sid: Sid, stored: Option<nat>)   // in the catch block; stored if the failed commit had taken effect
    | Finished

  datatype State = State(sessions: map<Sid, Session>, callbacks: map<Pid, Callback>)

  // how a COMMIT ends, as the server and as the caller see it
  datatype Reply = Applied | Refused | Lost

  datatype Event =
    | Start(sid: Sid, expiresAt: Time)
    | Arrive(p: Pid, sid: Sid, consent: bool, now: Time)
    | Commit(p: Pid, reply: Reply)
    | List(p: Pid, found: Option<nat>)
    | Store(p: Pid, storeReply: Reply)
    | Recover(p: Pid, recoverReply: Reply)
    | Crash(p: Pid)
    | Sweep(sid: Sid, now: Time)

  predicate Unlocked(s: State, sid: Sid) {
    forall p :: p in s.callbacks && s.callbacks[p].Locked? ==> s.callbacks[p].sid != sid
  }

  predicate Enabled(s: State, e: Event) {
    match e
    case Start(sid, _) => sid !in s.sessions
    case Arrive(p, sid, _, _) => p !in s.callbacks && Unlocked(s, sid)
    case Commit(p, _) => p in s.callbacks && s.callbacks[p].Locked? && s.callbacks[p].sid in s.sessions
    case List(p, _) => p in s.callbacks && s.callbacks[p].Discovering? && s.callbacks[p].sid in s.sessions
    case Store(p, _) => p in s.callbacks && s.callbacks[p].Storing? && s.callbacks[p].sid in s.sessions
    case Recover(p, _) => p in s.callbacks && s.callbacks[p].Recovering? && s.callbacks[p].sid in s.sessions
    case Crash(p) => p in s.callbacks
    case Sweep(sid, now) =>
      sid in s.sessions && s.sessions[sid].status == Started && s.sessions[sid].expiresAt < now && Unlocked(s, sid)
  }

  function Moved(x: Session, to: Status): Session {
    if x.status == to then x else x.(status := to, path := x.path + [to])
  }

  /** What the callback's first transaction finds: an unexpired session still STARTED, or a reason to refuse. */
  predicate Admits(s: State, sid: Sid, now: Time) {
    sid in s.sessions && s.sessions[sid].status == Started && now <= s.sessions[sid].expiresAt
  }

  /** A non-empty discovery completes the session. */
  function Stored(x: Session, found: nat): Session {
    Moved(x.(count := Some(found)), if found > 0 then Completed else ActionRequired)
  }

  function Next(s: State, e: Event): State
    requires Enabled(s, e)
  {
    match e
    case Start(sid, expiresAt) =>
      s.(sessions := s.sessions[sid := Session(Started, None, expiresAt, [Started], [], [])])
    case Arrive(p, sid, consent, now) =>
      s.(callbacks := s.callbacks[p :=
        if Admits(s, sid, now) then Locked(sid, if consent then Verifying else Failed) else Finished])
    case Commit(p, reply) =>
      var sid, draft := s.callbacks[p].sid, s.callbacks[p].draft;
      var goesOn := reply.Applied? && draft.Verifying?;
      var x := if reply.Refused? then s.sessions[sid] else Moved(s.sessions[sid], draft);
      State(s.sessions[sid := if goesOn then x.(verifiers := x.verifiers + [p]) else x],
            s.callbacks[p := if goesOn then Discovering(sid) else Finished])
    case List(p, found) =>
      var sid := s.callbacks[p].sid;
      if found.None? then s.(callbacks := s.callbacks[p := Recovering(sid, None)])
      else State(s.sessions[sid := s.sessions[sid].(listings := s.sessions[sid].listings + [found.value])],
                 s.callbacks[p := Storing(sid, found.value)])
    case Store(p, reply) =>
      var sid, found := s.callbacks[p].sid, s.callbacks[p].found;
      State(if reply.Refused? then s.sessions else s.sessions[sid := Stored(s.sessions[sid], found)],
            s.callbacks[p := match reply case Applied => Finished case Refused => Recovering(sid, None)
                                         case Lost => Recovering(sid, Some(found))])
    case Recover(p, reply) =>
      var sid := s.callbacks[p].sid;
      State(if reply.Refused? then s.sessions else s.sessions[sid := Moved(s.sessions[sid], ActionRequired)],
            s.callbacks[p := Finished])
    case Crash(p) => s.(callbacks := s.callbacks[p := Finished])
    case Sweep(sid, _) => s.(sessions := s.sessions[sid := Moved(s.sessions[sid], Expired)])
  }

  predicate IsRun(s: State, events: seq<Event>)
    decreases |events|
  {
    events == [] || (Enabled(s, events[0]) && IsRun(Next(s, events[0]), events[1..]))
  }

  function After(s: State, events: seq<Event>): State
    requires IsRun(s, events)
    decreases |events|
  {
    if events == [] then s else After(Next(s, events[0]), events[1..])
  }

  predicate Reaches(s: State, events: seq<Event>, s': State) {
    IsRun(s, events) && After(s, events) == s'
  }

  lemma StepThen(s: State, a: Event, rest: seq<Event>, s': State)
    requires Enabled(s, a) && Reaches(Next(s, a), rest, s')
    ensures Reaches(s, [a] + rest, s')
  {
    assert ([a] + rest)[1..] == rest;
  }

  lemma {:induction false} Chain(s: State, a: seq<Event>, mid: State, b: seq<Event>, s': State)
    requires Reaches(s, a, mid) && Reaches(mid, b, s')
    ensures Reaches(s, a + b, s')
    decreases |a|
  {
    if a == [] {
      assert a + b == b;
    } else {
      Chain(Next(s, a[0]), a[1..], mid, b, s');
      StepThen(s, a[0], a[1..] + b, s');
      assert [a[0]] + (a[1..] + b) == a + b;
    }
  }

  lemma OneStep(s: State, e: Event)
    requires Enabled(s, e)
    ensures Reaches(s, [e], Next(s, e))
  {
    assert [e][1..] == [];
    assert After(Next(s, e), []) == Next(s, e);
  }

  predicate Fresh(s: State) { s.sessions == map[] && s.callbacks == map[] }

  // ---------------------------------------------------------------- the invariant

  /** STARTED, then FAILED or EXPIRED, or VERIFYING and then COMPLETED or ACTION_REQUIRED. */
  predicate Documented(path: seq<Status>) {
    path in {[Started], [Started, Failed], [Started, Expired], [Started, Verifying],
             [Started, Verifying, Completed], [Started, Verifying, ActionRequired]}
  }

  const DOWNGRADED := [Started, Verifying, Completed, ActionRequired]

  predicate SessionGood(x: Session) {
    && (Documented(x.path) || x.path == DOWNGRADED) && x.path[|x.path| - 1] == x.status
    && (x.status in {Started, Failed, Expired} ==> x.verifiers == [])
    && |x.listings| <= |x.verifiers| <= 1
    && (Completed in x.path ==> x.count.Some? && x.count.value > 0 && x.listings == [x.count.value])
  }

  predicate CallbackGood(s: State, p: Pid)
    requires p in s.callbacks
  {
    var c := s.callbacks[p];
    c.Finished? ||
    (c.sid in s.sessions && var x := s.sessions[c.sid];
      match c
      case Locked(_, draft) => x.status == Started && draft in {Verifying, Failed}
      case Discovering(_) => x.status == Verifying && x.verifiers == [p] && x.listings == []
      case Storing(_, found) => x.status == Verifying && x.verifiers == [p] && x.listings == [found]
      case Recovering(_, None) => x.status == Verifying && x.verifiers == [p]
      case Recovering(_, Some(n)) =>
        x.status == (if n > 0 then Completed else ActionRequired) && x.verifiers == [p] && x.listings == [n])
  }

  predicate OneLock(s: State, p: Pid, q: Pid) {
    (p in s.callbacks && q in s.callbacks && s.callbacks[p].Locked? && s.callbacks[q].Locked?
     && s.callbacks[p].sid == s.callbacks[q].sid) ==> p == q
  }

  ghost predicate Inv(s: State) {
    && (forall sid :: sid in s.sessions ==> SessionGood(s.sessions[sid]))
    && (forall p :: p in s.callbacks ==> CallbackGood(s, p))
    && (forall p, q :: OneLock(s, p, q))
  }

  lemma MovesAlongThePath(x: Session, to: Status)
    requires SessionGood(x)
    ensures x.status == Started ==> x.path == [Started] && (to != Started ==> Moved(x, to).path == [Started, to])
    ensures x.status == Verifying ==> x.path == [Started, Verifying]
    ensures x.status == Verifying && to != Verifying ==> Moved(x, to).path == [Started, Verifying, to]
    ensures x.status == Completed && to != Completed ==> Moved(x, to).path == [Started, Verifying, Completed, to]
    ensures Moved(x, x.status) == x
  {
  }

  lemma SessionsStayGood(s: State, e: Event, sid: Sid)
    requires Enabled(s, e) && sid in Next(s, e).sessions
    requires sid in s.sessions ==> SessionGood(s.sessions[sid])
    requires (e.Commit? || e.List? || e.Store? || e.Recover?) ==> CallbackGood(s, e.p)
    ensures SessionGood(Next(s, e).sessions[sid])
  {
    if sid in s.sessions {
      var x := s.sessions[sid];
      match e
      case Commit(p, _) => MovesAlongThePath(x, s.callbacks[p].draft);
      case Store(p, _) =>
        MovesAlongThePath(x, Completed);
        MovesAlongThePath(x, ActionRequired);
      case Recover(_, _) => MovesAlongThePath(x, ActionRequired);
      case Sweep(_, _) => MovesAlongThePath(x, Expired);
      case _ =>
    }
  }

  /** The session of one callback is untouched by the steps of another. */
  lemma OthersStayGood(s: State, e: Event, p: Pid)
    requires Enabled(s, e) && p in s.callbacks && CallbackGood(s, p) && e != Crash(p)
    requires (e.Commit? || e.List? || e.Store? || e.Recover?) ==> e.p != p && CallbackGood(s, e.p) && OneLock(s, p, e.p)
    ensures CallbackGood(Next(s, e), p)
  {
  }

  lemma ActorStaysGood(s: State, e: Event, p: Pid)
    requires Enabled(s, e) && !e.Start? && !e.Sweep? && e.p == p
    requires e.Arrive?
      || (CallbackGood(s, p) && (s.callbacks[p].Finished? || SessionGood(s.sessions[s.callbacks[p].sid])))
    ensures CallbackGood(Next(s, e), p)
  {
  }

  lemma CallbacksStayGood(s: State, e: Event, p: Pid)
    requires Inv(s) && Enabled(s, e) && p in Next(s, e).callbacks
    ensures CallbackGood(Next(s, e), p)
  {
    if !e.Start? && !e.Sweep? && e.p == p {
      assert p in s.callbacks ==> CallbackGood(s, p);
      ActorStaysGood(s, e, p);
    } else {
      assert CallbackGood(s, p);
      if e.Commit? || e.List? || e.Store? || e.Recover? {
        assert OneLock(s, p, e.p) && CallbackGood(s, e.p);
      }
      OthersStayGood(s, e, p);
    }
  }

  lemma LocksStaySingle(s: State, e: Event, p: Pid, q: Pid)
    requires Enabled(s, e) && OneLock(s, p, q)
    ensures OneLock(Next(s, e), p, q)
  {
  }

  lemma InvKept(s: State, e: Event)
    requires Inv(s) && Enabled(s, e)
    ensures Inv(Next(s, e))
  {
    var s' := Next(s, e);
    forall sid | sid in s'.sessions ensures SessionGood(s'.sessions[sid]) {
      if e.Commit? || e.List? || e.Store? || e.Recover? {
        assert CallbackGood(s, e.p);
      }
      SessionsStayGood(s, e, sid);
    }
    forall p | p in s'.callbacks ensures CallbackGood(s', p) {
      CallbacksStayGood(s, e, p);
    }
    forall p, q ensures OneLock(s', p, q) {
      LocksStaySingle(s, e, p, q);
    }
  }

  lemma {:induction false} Safety(s: State, events: seq<Event>)
    requires Inv(s) && IsRun(s, events)
    ensures Inv(After(s, events))
    decreases |events|
  {
    if events != [] {
      InvKept(s, events[0]);
      Safety(Next(s, events[0]), events[1..]);
    }
  }

  // ---------------------------------------------------------------- main results

  /** Over every interleaving, at most one callback of a session reaches verification. */
  lemma OneVerifier(s: State, events: seq<Event>, sid: Sid)
    requires Fresh(s) && IsRun(s, events) && sid in After(s, events).sessions
    ensures |After(s, events).sessions[sid].verifiers| <= 1
    ensures |After(s, events).sessions[sid].listings| <= 1
  {
    Safety(s, events);
    assert SessionGood(After(s, events).sessions[sid]);
  }

  /** COMPLETED means a non-empty discovery, and the recorded count is its size. */
  lemma CompletedMeansFound(s: State, events: seq<Event>, sid: Sid)
    requires Fresh(s) && IsRun(s, events) && sid in After(s, events).sessions
    ensures var x := After(s, events).sessions[sid];
      x.status == Completed ==> x.count.Some? && x.count.value > 0 && x.listings == [x.count.value]
  {
    Safety(s, events);
    assert SessionGood(After(s, events).sessions[sid]);
  }

  /** A session leaves STARTED once and follows the documented diagram, but for one detour. */
  lemma HistoryIsAPath(s: State, events: seq<Event>, sid: Sid)
    requires Fresh(s) && IsRun(s, events) && sid in After(s, events).sessions
    ensures var x := After(s, events).sessions[sid];
      (Documented(x.path) || x.path == DOWNGRADED) && x.path[|x.path| - 1] == x.status
      && (forall i :: 1 <= i < |x.path| ==> x.path[i] != Started)
  {
    Safety(s, events);
    assert SessionGood(After(s, events).sessions[sid]);
  }

  /** The detour: a completed session changes exactly when its callback, told of a failure that was none, recovers. */
  lemma DowngradeNeedsALostReply(s: State, e: Event, sid: Sid)
    requires Inv(s) && Enabled(s, e) && sid in s.sessions && s.sessions[sid].status == Completed
    ensures Next(s, e).sessions[sid].status != Completed <==>
      e.Recover? && !e.recoverReply.Refused? && s.callbacks[e.p].sid == sid
    ensures e.Recover? && s.callbacks[e.p].sid == sid ==> s.callbacks[e.p].stored == s.sessions[sid].count
  {
    if e.Commit? || e.List? || e.Store? || e.Recover? {
      assert CallbackGood(s, e.p);
    }
  }

  predicate SweptLate(e: Event, sid: Sid, expiresAt: Time) { e.Sweep? && e.sid == sid && expiresAt < e.now }

  lemma ExpiryByStep(s: State, e: Event, sid: Sid)
    requires Inv(s) && Enabled(s, e) && sid in s.sessions
    ensures sid in Next(s, e).sessions
    ensures Next(s, e).sessions[sid].expiresAt == s.sessions[sid].expiresAt
    ensures Next(s, e).sessions[sid].status == Expired ==>
      s.sessions[sid].status == Expired || SweptLate(e, sid, s.sessions[sid].expiresAt)
  {
    if e.Commit? || e.Store? || e.Recover? {
      assert CallbackGood(s, e.p);
    }
  }

  /** Over every run: a session that has become EXPIRED was swept after its time. */
  lemma {:induction false} ExpiredMeansLate(s: State, events: seq<Event>, sid: Sid)
    requires Inv(s) && IsRun(s, events) && sid in s.sessions && s.sessions[sid].status != Expired
    ensures sid in After(s, events).sessions
    ensures After(s, events).sessions[sid].status == Expired ==>
      exists i :: 0 <= i < |events| && SweptLate(events[i], sid, s.sessions[sid].expiresAt)
    decreases |events|
  {
    if events != [] {
      InvKept(s, events[0]);
      ExpiryByStep(s, events[0], sid);
      var next := Next(s, events[0]);
      if next.sessions[sid].status == Expired {
        assert SweptLate(events[0], sid, s.sessions[sid].expiresAt);
        SessionsStay(next, events[1..], sid);
      } else {
        ExpiredMeansLate(next, events[1..], sid);
        if i :| 0 <= i < |events| - 1 && SweptLate(events[1..][i], sid, s.sessions[sid].expiresAt) {
          assert events[i + 1] == events[1..][i];
        }
      }
    }
  }

  lemma {:induction false} SessionsStay(s: State, events: seq<Event>, sid: Sid)
    requires IsRun(s, events) && sid in s.sessions
    ensures sid in After(s, events).sessions
    decreases |events|
  {
    if events != [] {
      SessionsStay(Next(s, events[0]), events[1..], sid);
    }
  }

  /** No commit that stored a discovery was reported as failed. */
  predicate RepliesArrive(events: seq<Event>) {
    forall i :: 0 <= i < |events| ==> !(events[i].Store? && events[i].storeReply.Lost?)
  }

  ghost predicate NothingLost(s: State) {
    && (forall p :: p in s.callbacks && s.callbacks[p].Recovering? ==> s.callbacks[p].stored.None?)
    && (forall sid :: sid in s.sessions ==> s.sessions[sid].path != DOWNGRADED)
  }

  lemma NothingLostKept(s: State, e: Event)
    requires Inv(s) && NothingLost(s) && Enabled(s, e) && !(e.Store? && e.storeReply.Lost?)
    ensures NothingLost(Next(s, e))
  {
    if e.Commit? || e.List? || e.Store? || e.Recover? {
      assert CallbackGood(s, e.p) && SessionGood(s.sessions[s.callbacks[e.p].sid]);
    }
  }

  lemma {:induction false} NothingLostRun(s: State, events: seq<Event>)
    requires Inv(s) && NothingLost(s) && IsRun(s, events) && RepliesArrive(events)
    ensures NothingLost(After(s, events))
    decreases |events|
  {
    if events != [] {
      InvKept(s, events[0]);
      NothingLostKept(s, events[0]);
      NothingLostRun(Next(s, events[0]), events[1..]);
    }
  }

  /** When replies arrive, every history is a path of the documented diagram. */
  lemma FollowsTheDiagram(s: State, events: seq<Event>, sid: Sid)
    requires Fresh(s) && IsRun(s, events) && RepliesArrive(events) && sid in After(s, events).sessions
    ensures Documented(After(s, events).sessions[sid].path)
  {
    Safety(s, events);
    NothingLostRun(s, events);
    assert SessionGood(After(s, events).sessions[sid]);
  }

  /** And when one is lost, a completed session can end in ACTION_REQUIRED. */
  lemma LostReplyDowngrades(s: State) returns (events: seq<Event>, s': State)
    requires Fresh(s)
    ensures Reaches(s, events, s') && 1 in s'.sessions
    ensures s'.sessions[1].path == DOWNGRADED && s'.sessions[1].count == Some(2)
  {
    var x := Session(Verifying, None, 900, [Started, Verifying], [5], []);
    var s3 := State(map[1 := x], map[5 := Discovering(1)]);
    var tail;
    tail, s' := VerifiedThenDowngraded(s3, x);
    var s1 := Next(s, Start(1, 900));
    var s2 := Next(s1, Arrive(5, 1, true, 10));
    var started := Session(Started, None, 900, [Started], [], []);
    assert s1 == State(map[1 := started], map[]) && s2 == State(map[1 := started], map[5 := Locked(1, Verifying)]);
    assert [Started] + [Verifying] == [Started, Verifying] && started.verifiers + [5] == [5];
    assert Next(s2, Commit(5, Applied)) == s3;
    StepThen(s2, Commit(5, Applied), tail, s');
    StepThen(s1, Arrive(5, 1, true, 10), [Commit(5, Applied)] + tail, s');
    StepThen(s, Start(1, 900), [Arrive(5, 1, true, 10)] + ([Commit(5, Applied)] + tail), s');
    events := [Start(1, 900)] + ([Arrive(5, 1, true, 10)] + ([Commit(5, Applied)] + tail));
  }

  lemma VerifiedThenDowngraded(s: State, x: Session) returns (events: seq<Event>, s': State)
    requires x == Session(Verifying, None, 900, [Started, Verifying], [5], [])
    requires s == State(map[1 := x], map[5 := Discovering(1)])
    ensures Reaches(s, events, s') && 1 in s'.sessions
    ensures s'.sessions[1].path == DOWNGRADED && s'.sessions[1].count == Some(2)
  {
    var s1 := Next(s, List(5, Some(2)));
    var s2 := Next(s1, Store(5, Lost));
    s' := Next(s2, Recover(5, Applied));
    OneStep(s2, Recover(5, Applied));
    StepThen(s1, Store(5, Lost), [Recover(5, Applied)], s');
    StepThen(s, List(5, Some(2)), [Store(5, Lost)] + [Recover(5, Applied)], s');
    events := [List(5, Some(2))] + ([Store(5, Lost)] + [Recover(5, Applied)]);
  }
}
