/** Several operations sharing one stored snapshot and one in-memory state. An
    operation stages its snapshot from the in-memory state it is handed, writes
    it, and only then records the step; it may fail or crash anywhere in between,
    be taken up again, or be turned round (app-operations/src/runner.rs). */
module Overlap {
  import opened Wrappers

  datatype Kind = Add | Drop

  /** The snapshot step of an operation: not begun, begun, recorded. */
  datatype Progress = Untouched | Begun | Recorded

  datatype Op = Op(kind: Kind, app: nat, turned: bool, step: Progress, done: bool)

  /** What a running operation holds in memory. */
  datatype Hand = Hand(staged: set<nat>, written: bool)

  /** The stored snapshot, the in-memory state, the journal, the operations some
      caller is running, and every snapshot write so far as the change it was
      meant to make. */
  datatype Sys = Sys(
    snapshot: set<nat>, live: set<nat>, ops: map<nat, Op>, running: map<nat, Hand>, log: seq<(Kind, nat)>)

  datatype Turn =
    | Begin(id: nat, kind: Kind, app: nat) | Resume(id: nat) | TurnBack(id: nat)
    | Open(id: nat) | Write(id: nat) | Record(id: nat) | Commit(id: nat)
    | Fail(id: nat) | Reload | Restart

  function Change(kind: Kind, app: nat, s: set<nat>): set<nat> {
    if kind == Add then s + {app} else s - {app}
  }

  /** An install that is being compensated takes its app out. */
  function Effect(op: Op): Kind { if op.kind == Add && !op.turned then Add else Drop }

  predicate Unfinished(s: Sys, id: nat) { id in s.ops && !s.ops[id].done }

  function Do(s: Sys, m: Turn): Option<Sys> {
    match m
    case Begin(id, kind, app) =>
      if id in s.ops then None
      else Some(s.(ops := s.ops[id := Op(kind, app, false, Untouched, false)],
                   running := s.running[id := Hand(Change(kind, app, s.live), false)]))
    case Resume(id) =>
      if !Unfinished(s, id) then None
      else Some(s.(running := s.running[id := Hand(Change(Effect(s.ops[id]), s.ops[id].app, s.live), false)]))
    case TurnBack(id) =>
      if !Unfinished(s, id) || s.ops[id].kind != Add || s.ops[id].turned then None
      else
        var step := if s.ops[id].step == Untouched then Untouched else Begun;
        Some(s.(ops := s.ops[id := s.ops[id].(turned := true, step := step)], running := s.running - {id}))
    case Open(id) =>
      if !Unfinished(s, id) || id !in s.running || s.ops[id].turned || s.ops[id].step != Untouched then None
      else Some(s.(ops := s.ops[id := s.ops[id].(step := Begun)]))
    case Write(id) =>
      if !Unfinished(s, id) || id !in s.running || s.ops[id].step != Begun then None
      else Some(s.(snapshot := s.running[id].staged,
                   running := s.running[id := s.running[id].(written := true)],
                   log := s.log + [(Effect(s.ops[id]), s.ops[id].app)]))
    case Record(id) =>
      if !Unfinished(s, id) || id !in s.running || !s.running[id].written || s.ops[id].step != Begun then None
      else Some(s.(ops := s.ops[id := s.ops[id].(step := Recorded)]))
    case Commit(id) =>
      if !Unfinished(s, id) || id !in s.running then None
      else if !(s.ops[id].step == Recorded || (s.ops[id].turned && s.ops[id].step == Untouched)) then None
      else
        var ops := s.ops[id := s.ops[id].(done := true)];
        Some(s.(live := s.running[id].staged, ops := ops, running := s.running - {id}))
    case Fail(id) => Some(s.(running := s.running - {id}))
    case Reload => Some(s.(live := s.snapshot))
    case Restart => Some(s.(live := s.snapshot, running := map[]))
  }

  function Then(s: Option<Sys>, m: Turn): Option<Sys> { if s.None? then None else Do(s.value, m) }

  function Exec(s: Sys, run: seq<Turn>): Option<Sys>
    decreases |run|
  {
    if run == [] then Some(s) else match Do(s, run[0]) case None => None case Some(next) => Exec(next, run[1..])
  }

  // ---------------------------------------------------------------- what the snapshot should hold

  /** The changes, one after another. */
  function Meant(start: set<nat>, log: seq<(Kind, nat)>): set<nat> {
    if log == [] then start
    else Change(log[|log| - 1].0, log[|log| - 1].1, Meant(start, log[..|log| - 1]))
  }

  predicate Faithful(start: set<nat>, s: Sys) { s.snapshot == Meant(start, s.log) }

  /** The last change made to an app. */
  function Last(log: seq<(Kind, nat)>, app: nat): Option<Kind> {
    if log == [] then None
    else if log[|log| - 1].1 == app then Some(log[|log| - 1].0)
    else Last(log[..|log| - 1], app)
  }

  /** An app is meant to be there exactly when it was added last, or was there
      and never changed. */
  lemma {:induction false} MeantDecides(start: set<nat>, log: seq<(Kind, nat)>, app: nat)
    ensures app in Meant(start, log) <==> if Last(log, app).None? then app in start else Last(log, app) == Some(Add)
  {
    if log != [] { MeantDecides(start, log[..|log| - 1], app); }
  }

  // ---------------------------------------------------------------- one operation at a time

  /** The state in memory agrees with the stored snapshot but for the app at hand. */
  predicate UpToDate(s: Sys, app: nat) { s.live - {app} == s.snapshot - {app} }

  /** A new operation's snapshot write makes exactly its own change if and only if
      the state it was handed was up to date: what a caller can check before the
      call. */
  lemma BeginDecides(start: set<nat>, s: Sys, id: nat, kind: Kind, app: nat)
    requires Faithful(start, s) && id !in s.ops
    ensures var end := Then(Then(Do(s, Begin(id, kind, app)), Open(id)), Write(id));
      end.Some? && (Faithful(start, end.value) <==> UpToDate(s, app))
  {
    hide Change, Meant;
    WriteDecides(start, s, Then(Then(Do(s, Begin(id, kind, app)), Open(id)), Write(id)).value, kind, app);
  }

  /** The same when an operation is taken up again, forward or turned round, after
      a crash that left its snapshot written or not. */
  lemma ResumeDecides(start: set<nat>, s: Sys, id: nat)
    requires Faithful(start, s) && Unfinished(s, id) && s.ops[id].step == Begun
    ensures var end := Then(Do(s, Resume(id)), Write(id));
      end.Some? && (Faithful(start, end.value) <==> UpToDate(s, s.ops[id].app))
  {
    hide Change, Meant;
    WriteDecides(start, s, Then(Do(s, Resume(id)), Write(id)).value, Effect(s.ops[id]), s.ops[id].app);
  }

  lemma WriteDecides(start: set<nat>, s: Sys, s': Sys, kind: Kind, app: nat)
    requires Faithful(start, s) && s'.log == s.log + [(kind, app)] && s'.snapshot == Change(kind, app, s.live)
    ensures Faithful(start, s') <==> UpToDate(s, app)
  {
    assert s'.log[..|s'.log| - 1] == s.log;
    assert Change(kind, app, s.live) - {app} == s.live - {app};
    assert Change(kind, app, s.snapshot) - {app} == s.snapshot - {app};
    if UpToDate(s, app) {
      assert Change(kind, app, s.live) == Change(kind, app, s.live - {app}) == Change(kind, app, s.snapshot);
    }
  }

  // ---------------------------------------------------------------- every careful run

  /** What a caller sees to: an operation is started or taken up only while no
      other runs and only with an up-to-date state. Failing, crashing, turning
      round and reloading are free. */
  predicate Careful(s: Sys, m: Turn) {
    && (m.Begin? ==> s.running == map[] && UpToDate(s, m.app))
    && (m.Resume? && m.id in s.ops ==> s.running == map[] && UpToDate(s, s.ops[m.id].app))
  }

  predicate CarefulRun(s: Sys, run: seq<Turn>)
    decreases |run|
  {
    run == [] || (Careful(s, run[0]) && (Do(s, run[0]).Some? ==> CarefulRun(Do(s, run[0]).value, run[1..])))
  }

  /** One operation runs at most, and what it staged is still current. */
  predicate Orderly(s: Sys) {
    && (forall x, y :: x in s.running && y in s.running ==> x == y)
    && (forall x :: x in s.running ==>
      x in s.ops && s.running[x].staged == Change(Effect(s.ops[x]), s.ops[x].app, s.snapshot))
    && (forall x :: x in s.ops && s.ops[x].step == Recorded ==> (Effect(s.ops[x]), s.ops[x].app) in s.log)
    && (forall x :: x in s.running && s.running[x].written ==> (Effect(s.ops[x]), s.ops[x].app) in s.log)
    && (forall x :: x in s.ops && s.ops[x].done && !s.ops[x].turned ==> s.ops[x].step == Recorded)
  }

  /** A write settles its own app: it is in the snapshot exactly when an install
      that was not turned round wrote, and every other app is as it was. */
  lemma WriteSettles(s: Sys, id: nat)
    requires Orderly(s) && Do(s, Write(id)).Some?
    ensures var op, t := s.ops[id], Do(s, Write(id)).value;
      && (op.app in t.snapshot <==> op.kind == Add && !op.turned)
      && t.snapshot - {op.app} == s.snapshot - {op.app} && t.live == s.live
  {
    var op := s.ops[id];
    assert s.running[id].staged == Change(Effect(op), op.app, s.snapshot);
  }

  /** A commit brings the app into memory, or takes it out, and leaves nothing
      running. */
  lemma CommitSettles(s: Sys, id: nat)
    requires Orderly(s) && Do(s, Commit(id)).Some?
    ensures var op, t := s.ops[id], Do(s, Commit(id)).value;
      && (op.app in t.live <==> op.kind == Add && !op.turned) && UpToDate(t, op.app)
      && t.snapshot == s.snapshot && t.running == map[] && t.ops[id].done
  {
    var op := s.ops[id];
    assert s.running[id].staged == Change(Effect(op), op.app, s.snapshot);
  }

  /** After a restart any operation may be started or taken up with care. */
  lemma RestartIsEnough(s: Sys, m: Turn)
    ensures var t := Do(s, Restart).value; t.snapshot == s.snapshot && t.ops == s.ops && Careful(t, m)
  {
  }

  lemma ChangeTwice(kind: Kind, app: nat, s: set<nat>)
    ensures Change(kind, app, Change(kind, app, s)) == Change(kind, app, s)
  {
  }

  lemma SameChange(kind: Kind, app: nat, s: set<nat>, t: set<nat>)
    requires s - {app} == t - {app}
    ensures Change(kind, app, s) == Change(kind, app, t)
  {
    assert Change(kind, app, s) == Change(kind, app, s - {app}) && Change(kind, app, t) == Change(kind, app, t - {app});
  }

  lemma StepKeeps(start: set<nat>, s: Sys, m: Turn)
    requires Faithful(start, s) && Orderly(s) && Careful(s, m) && Do(s, m).Some?
    ensures Faithful(start, Do(s, m).value) && Orderly(Do(s, m).value)
  {
    hide Change, Faithful, Orderly;
    match m {
      case Begin(id, kind, app) => StagingKeeps(start, s, m);
      case Resume(id) => StagingKeeps(start, s, m);
      case Write(id) => WriteKeeps(start, s, m);
      case _ => OtherwiseKeeps(start, s, m);
    }
  }

  lemma StagingKeeps(start: set<nat>, s: Sys, m: Turn)
    requires Faithful(start, s) && Orderly(s) && Careful(s, m) && (m.Begin? || m.Resume?) && Do(s, m).Some?
    ensures Faithful(start, Do(s, m).value) && Orderly(Do(s, m).value)
  {
    hide Change, Meant;
    if m.Begin? {
      SameChange(m.kind, m.app, s.live, s.snapshot);
    } else {
      SameChange(Effect(s.ops[m.id]), s.ops[m.id].app, s.live, s.snapshot);
    }
  }

  lemma WriteKeeps(start: set<nat>, s: Sys, m: Turn)
    requires Faithful(start, s) && Orderly(s) && m.Write? && Do(s, m).Some?
    ensures Faithful(start, Do(s, m).value) && Orderly(Do(s, m).value)
  {
    hide Change;
    var log := Do(s, m).value.log;
    assert log[..|log| - 1] == s.log;
    ChangeTwice(Effect(s.ops[m.id]), s.ops[m.id].app, s.snapshot);
  }

  lemma OtherwiseKeeps(start: set<nat>, s: Sys, m: Turn)
    requires Faithful(start, s) && Orderly(s) && !m.Begin? && !m.Resume? && !m.Write? && Do(s, m).Some?
    ensures Faithful(start, Do(s, m).value) && Orderly(Do(s, m).value)
  {
    hide Change, Meant;
  }

  /** In every careful run, however operations fail, crash between write and
      record, write twice, are recovered or turned round: the stored snapshot is
      the changes in order, and an app is in it exactly when it was last added, or
      was there and never changed. */
  lemma {:induction false} NoChangeIsLost(start: set<nat>, s: Sys, run: seq<Turn>)
    requires Faithful(start, s) && Orderly(s) && CarefulRun(s, run) && Exec(s, run).Some?
    ensures var end := Exec(s, run).value;
      && Faithful(start, end) && Orderly(end)
      && forall app ::
        app in end.snapshot <==> if Last(end.log, app).None? then app in start else Last(end.log, app) == Some(Add)
    decreases |run|
  {
    hide Do, Faithful, Orderly, Careful;
    if run == [] {
      Decided(start, s);
    } else {
      StepKeeps(start, s, run[0]);
      NoChangeIsLost(start, Do(s, run[0]).value, run[1..]);
    }
  }

  lemma Decided(start: set<nat>, s: Sys)
    requires Faithful(start, s)
    ensures forall app :: app in s.snapshot <==>
      if Last(s.log, app).None? then app in start else Last(s.log, app) == Some(Add)
  {
    forall app
      ensures app in s.snapshot <==> if Last(s.log, app).None? then app in start else Last(s.log, app) == Some(Add)
    {
      MeantDecides(start, s.log, app);
    }
  }

  /** A committed install is in the stored snapshot unless its app was taken out
      since. */
  lemma CommittedIsThere(start: set<nat>, s: Sys, run: seq<Turn>, id: nat)
    requires Faithful(start, s) && Orderly(s) && CarefulRun(s, run) && Exec(s, run).Some?
    requires var end := Exec(s, run).value;
      && id in end.ops && end.ops[id].kind == Add && !end.ops[id].turned && end.ops[id].done
      && (Drop, end.ops[id].app) !in end.log
    ensures Exec(s, run).value.ops[id].app in Exec(s, run).value.snapshot
  {
    hide Exec, CarefulRun, Faithful;
    NoChangeIsLost(start, s, run);
    var end := Exec(s, run).value;
    AddedLast(end.log, end.ops[id].app);
  }

  lemma {:induction false} AddedLast(log: seq<(Kind, nat)>, app: nat)
    requires (Add, app) in log && (Drop, app) !in log
    ensures Last(log, app) == Some(Add)
  {
    var n := |log| - 1;
    if log[n].1 != app {
      assert log == log[..n] + [log[n]];
      AddedLast(log[..n], app);
    } else {
      assert log[n] in log && log[n] != (Drop, app);
      assert log[n].0 != Drop;
    }
  }

  // ---------------------------------------------------------------- a careless run

  /** An install that stored and recorded its snapshot and then failed is
      overwritten by the next one that uses the same in-memory state, and recovery
      commits it although the snapshot no longer has the app. */
  lemma StaleStateLosesAnApp(first: nat, second: nat) returns (run: seq<Turn>, end: Sys)
    requires first != second
    ensures Exec(Sys({}, {}, map[], map[], []), run) == Some(end)
    ensures 0 in end.ops && end.ops[0].app == first && end.ops[0].kind == Add && !end.ops[0].turned && end.ops[0].done
    ensures end.snapshot == {second}
  {
    hide Exec;
    var start := Sys({}, {}, map[], map[], []);
    run, end := [], start;
    NoTurns(start);
    run, end := Further(start, run, end, Begin(0, Add, first));
    run, end := Further(start, run, end, Open(0));
    run, end := Further(start, run, end, Write(0));
    run, end := Further(start, run, end, Record(0));
    run, end := Further(start, run, end, Fail(0));
    run, end := Further(start, run, end, Begin(1, Add, second));
    run, end := Further(start, run, end, Open(1));
    run, end := Further(start, run, end, Write(1));
    run, end := Further(start, run, end, Record(1));
    run, end := Further(start, run, end, Commit(1));
    run, end := Further(start, run, end, Restart);
    run, end := Further(start, run, end, Resume(0));
    run, end := Further(start, run, end, Commit(0));
  }

  lemma NoTurns(s: Sys)
    ensures Exec(s, []) == Some(s)
  {
  }

  lemma Further(start: Sys, run: seq<Turn>, end: Sys, m: Turn) returns (run': seq<Turn>, end': Sys)
    requires Exec(start, run) == Some(end) && Do(end, m).Some?
    ensures Exec(start, run') == Some(end') && Do(end, m) == Some(end')
  {
    run', end' := run + [m], Do(end, m).value;
    Split(start, run, m);
  }

  lemma {:induction false} Split(s: Sys, run: seq<Turn>, m: Turn)
    ensures Exec(s, run + [m]) == Then(Exec(s, run), m)
    decreases |run|
  {
    hide Do;
    if run == [] {
      assert (run + [m])[1..] == [];
    } else {
      assert (run + [m])[1..] == run[1..] + [m];
      if Do(s, run[0]).Some? { Split(Do(s, run[0]).value, run[1..], m); }
    }
  }
}
