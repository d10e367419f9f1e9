/** The operation journal under optimistic revisions, and any number of runners
    racing on one of its operations
    (persistence-sqlite/src/app_operation_repository.rs). */
module Journal {
  import opened Wrappers
  import opened Operations

  datatype StoreError = AlreadyExists | InitialRevisionMustBeZero | StaleTransition | ValueOutsideSqliteRange

  const I64_MAX: nat := 0x7FFF_FFFF_FFFF_FFFF

  predicate Storable(op: Operation) {
    op.revision <= I64_MAX && op.startedAt <= I64_MAX && op.updatedAt <= I64_MAX
  }

  /** The row condition of the optimistic update: same operation, and exactly
      the revision before. */
  predicate Replaces(stored: Operation, op: Operation) {
    && stored.id == op.id && stored.kind == op.kind && stored.startedAt == op.startedAt
    && stored.revision + 1 == op.revision
  }

  /** The journal rows. An update keeps the columns it does not set. */
  class Repository {
    var rows: map<nat, Operation>

    constructor ()
      ensures rows == map[]
    {
      rows := map[];
    }

    method Create(op: Operation) returns (r: Result<(), StoreError>)
      modifies this
      ensures r.Ok? <==>
        && op.revision == 0 && op.startedAt <= 0x7FFF_FFFF_FFFF_FFFF && op.updatedAt <= 0x7FFF_FFFF_FFFF_FFFF
        && op.id !in old(rows)
      ensures r == Err(InitialRevisionMustBeZero) <==> op.revision != 0
      ensures r == Err(AlreadyExists) <==> op.revision == 0 && Storable(op) && op.id in old(rows)
      ensures rows == if r.Ok? then old(rows)[op.id := op] else old(rows)
    {
      if op.revision != 0 { return Err(InitialRevisionMustBeZero); }
      if !Storable(op) { return Err(ValueOutsideSqliteRange); }
      if op.id in rows { return Err(AlreadyExists); }
      rows := rows[op.id := op];
      return Ok(());
    }

    method StoreTransition(op: Operation) returns (r: Result<(), StoreError>)
      modifies this
      ensures r.Ok? <==> Storable(op) && op.id in old(rows) && Replaces(old(rows)[op.id], op)
      ensures r.Ok? ==> old(rows)[op.id].revision + 1 == op.revision
      ensures r == Err(ValueOutsideSqliteRange) <==>
        && op.revision != 0
        && (op.revision > 0x7FFF_FFFF_FFFF_FFFF || op.startedAt > 0x7FFF_FFFF_FFFF_FFFF
          || op.updatedAt > 0x7FFF_FFFF_FFFF_FFFF)
      ensures rows == if r.Ok? then old(rows)[op.id := op] else old(rows)
    {
      if op.revision == 0 { return Err(StaleTransition); }
      if !Storable(op) { return Err(ValueOutsideSqliteRange); }
      if op.id !in rows || !Replaces(rows[op.id], op) { return Err(StaleTransition); }
      var stored := rows[op.id];
      rows := rows[op.id := stored.(phase := op.phase, revision := op.revision, updatedAt := op.updatedAt,
        steps := op.steps)];
      return Ok(());
    }

    /** By the time of the start, and then by the id. */
    predicate Earlier(a: nat, b: nat)
      reads this
    {
      && a in rows && b in rows
      && (rows[a].startedAt < rows[b].startedAt || (rows[a].startedAt == rows[b].startedAt && a < b))
    }

    /** The operations a restart has to resume, oldest first. */
    method ListIncomplete() returns (ids: seq<nat>)
      ensures forall id :: id in ids <==> id in rows && !Terminal(rows[id])
      ensures forall i, j :: 0 <= i < j < |ids| ==>
        var a, b := rows[ids[i]], rows[ids[j]];
        a.startedAt < b.startedAt || (a.startedAt == b.startedAt && ids[i] < ids[j])
    {
      ids := [];
      var left := set id | id in rows && (rows[id].phase == Phase.Applying || rows[id].phase == Compensating);
      ghost var all := left;
      while left != {}
        invariant forall id :: id in all <==> id in ids || id in left
        invariant left <= all
        invariant forall i, j :: 0 <= i < j < |ids| ==> Earlier(ids[i], ids[j])
        invariant forall i, id :: 0 <= i < |ids| && id in left ==> Earlier(ids[i], id)
        decreases left
      {
        var next := First(left);
        ids := ids + [next];
        left := left - {next};
      }
    }

    method First(left: set<nat>) returns (next: nat)
      requires left != {} && left <= rows.Keys
      ensures next in left
      ensures forall id :: id in left && id != next ==> Earlier(next, id)
    {
      next :| next in left;
      var rest := left - {next};
      while rest != {}
        invariant next in left && next !in rest && rest <= left
        invariant forall id :: id in left && id !in rest && id != next ==> Earlier(next, id)
        decreases rest
      {
        var id :| id in rest;
        if Earlier(id, next) { next := id; }
        rest := rest - {id};
      }
    }
  }

  /** Every legal transition of the stored operation is stored. */
  lemma LegalIsStored(stored: Operation, t: Transition, at: nat)
    requires Apply(stored, t, at).Ok?
    ensures Replaces(stored, Apply(stored, t, at).value)
  {
  }

  // ---------------------------------------------------------------- racing runners

  /** What one runner process holds: nothing, the operation as it is stored, or
      a transition it has made in memory and not stored yet. */
  datatype Runner = Idle | Holding(op: Operation) | Moved(base: Operation, op: Operation)

  /** Every revision ever stored, oldest first; the runners; and the operation
      whose staged state was last assigned to live. */
  datatype Race = Race(history: seq<Operation>, runners: map<nat, Runner>, live: Option<Operation>)

  datatype Act =
    | Load(who: nat)
    | Make(who: nat, t: Transition, now: nat)
    | Store(who: nat)
    | StoreUnacknowledged(who: nat)
    | Publish(who: nat)
    | Crash(who: nat)

  function Stored(s: Race): Operation
    requires s.history != []
  {
    s.history[|s.history| - 1]
  }

  function HeldBy(s: Race, who: nat): Runner {
    if who in s.runners then s.runners[who] else Idle
  }

  function Max(a: nat, b: nat): nat { if a < b then b else a }

  function Do(s: Race, a: Act): (s': Race)
    requires s.history != []
    ensures s'.history != []
  {
    var held := HeldBy(s, a.who);
    match a
    case Load(i) =>
      if Terminal(Stored(s)) then s else s.(runners := s.runners[i := Holding(Stored(s))])
    case Make(i, t, now) =>
      if !held.Holding? then s
      else (match Apply(held.op, t, Max(now, held.op.updatedAt))
        case Ok(next) => s.(runners := s.runners[i := Moved(held.op, next)])
        case Err(_) => s.(runners := s.runners[i := Idle]))
    case Store(i) =>
      if !held.Moved? then s
      else if Replaces(Stored(s), held.op) then s.(history := s.history + [held.op],
        runners := s.runners[i := Holding(held.op)])
      else s.(runners := s.runners[i := Idle])
    case StoreUnacknowledged(i) =>
      if !held.Moved? then s
      else if Replaces(Stored(s), held.op) then s.(history := s.history + [held.op], runners := s.runners[i := Idle])
      else s.(runners := s.runners[i := Idle])
    case Publish(i) =>
      if held.Holding? && Terminal(held.op) then s.(runners := s.runners[i := Idle], live := Some(held.op)) else s
    case Crash(i) => s.(runners := s.runners[i := Idle])
  }

  function Exec(s: Race, acts: seq<Act>): (s': Race)
    requires s.history != []
    ensures s'.history != []
    decreases |acts|
  {
    if acts == [] then s else Exec(Do(s, acts[0]), acts[1..])
  }

  /** b is one legal transition after a, at some time. */
  ghost predicate Legal(a: Operation, b: Operation) {
    exists t, at :: Apply(a, t, at) == Ok(b)
  }

  /** The stored revisions are numbered without gaps and each is one legal
      transition of the one before. */
  ghost predicate Chain(h: seq<Operation>) {
    && h != []
    && (forall k :: 0 <= k < |h| ==> Valid(h[k]) && h[k].revision == k)
    && (forall k :: 0 < k < |h| ==> Legal(h[k - 1], h[k]))
  }

  ghost predicate Inv(s: Race) {
    && Chain(s.history)
    && (forall i :: i in s.runners ==> RunnerInv(s.history, s.runners[i]))
    && (s.live.Some? ==> Terminal(s.live.value) && s.live.value in s.history)
  }

  ghost predicate RunnerInv(h: seq<Operation>, r: Runner) {
    match r
    case Idle => true
    case Holding(op) => op in h
    case Moved(base, op) => base in h && Legal(base, op)
  }

  lemma LegalFacts(a: Operation, b: Operation)
    requires Legal(a, b)
    ensures b.revision == a.revision + 1 && a.updatedAt <= b.updatedAt && !Terminal(a)
    ensures b.id == a.id && |b.steps| == |a.steps|
    ensures Valid(a) ==> Valid(b)
  {
    hide Valid, Terminal, Apply;
    var t, at :| Apply(a, t, at) == Ok(b);
    ApplyAdvances(a, t, at);
    if Valid(a) { ApplyKeepsValid(a, t, at); }
  }

  lemma ChainExtends(h: seq<Operation>, base: Operation, op: Operation)
    requires Chain(h) && base in h && Legal(base, op) && h[|h| - 1].revision + 1 == op.revision
    ensures Chain(h + [op])
  {
    hide Valid, Legal;
    var k :| 0 <= k < |h| && h[k] == base;
    LegalFacts(base, op);
    assert k == |h| - 1;
    var h' := h + [op];
    forall k | 0 < k < |h'| ensures Legal(h'[k - 1], h'[k]) {
      if k == |h| { assert h'[k - 1] == base; }
    }
  }

  lemma StoreKeepsInv(s: Race, a: Act)
    requires Inv(s) && (a.Store? || a.StoreUnacknowledged?)
    ensures Inv(Do(s, a))
  {
    hide Chain, Legal, Terminal;
    var held := HeldBy(s, a.who);
    if held.Moved? && Replaces(Stored(s), held.op) {
      ChainExtends(s.history, held.base, held.op);
      var s' := Do(s, a);
      assert s'.history[|s.history|] == held.op;
      forall i | i in s'.runners ensures RunnerInv(s'.history, s'.runners[i]) {
        if i != a.who { assert RunnerInv(s.history, s.runners[i]); }
      }
    }
  }

  lemma DoKeepsInv(s: Race, a: Act)
    requires Inv(s)
    ensures Inv(Do(s, a))
  {
    hide Chain, Apply, Terminal;
    var held := HeldBy(s, a.who);
    match a {
      case Make(i, t, now) =>
        if held.Holding? && Apply(held.op, t, Max(now, held.op.updatedAt)).Ok? {
          assert Legal(held.op, Do(s, a).runners[i].op);
        }
      case Store(i) => StoreKeepsInv(s, a);
      case StoreUnacknowledged(i) => StoreKeepsInv(s, a);
      case _ =>
    }
  }

  lemma {:induction false} ExecKeepsInv(s: Race, acts: seq<Act>)
    requires Inv(s)
    ensures Inv(Exec(s, acts))
    decreases |acts|
  {
    hide RunnerInv, Legal, Valid, Do;
    if acts != [] {
      DoKeepsInv(s, acts[0]);
      ExecKeepsInv(Do(s, acts[0]), acts[1..]);
    }
  }

  ghost predicate Fresh(op: Operation) {
    Valid(op) && op.revision == 0
  }

  lemma TerminalIsLast(h: seq<Operation>, k: nat)
    requires Chain(h) && k < |h| && Terminal(h[k])
    ensures k == |h| - 1
  {
    hide Valid, Legal, Terminal;
    if k < |h| - 1 {
      assert Legal(h[k + 1 - 1], h[k + 1]);
      LegalFacts(h[k], h[k + 1]);
      assert false;
    }
  }

  lemma {:induction false} TimesRise(h: seq<Operation>, i: nat, j: nat)
    requires Chain(h) && i <= j < |h|
    ensures h[i].updatedAt <= h[j].updatedAt && h[i].id == h[j].id && |h[i].steps| == |h[j].steps|
    decreases j
  {
    hide Valid, Legal;
    if i < j {
      TimesRise(h, i, j - 1);
      LegalFacts(h[j - 1], h[j]);
    }
  }

  /** Whatever several runners do, whatever their clocks read and wherever they
      crash: the stored revisions form one chain of single legal transitions,
      their times never fall, live is only ever assigned from the one terminal
      revision, which is the last, and a committed plan of n steps ends at
      revision 2n + 1. */
  lemma RacingRunnersStayLinear(op: Operation, acts: seq<Act>)
    requires Fresh(op)
    ensures var s := Exec(Race([op], map[], None), acts);
      && Chain(s.history) && s.history[0] == op
      && (forall i, j :: 0 <= i <= j < |s.history| ==> s.history[i].updatedAt <= s.history[j].updatedAt)
      && (s.live.Some? ==> s.live.value == Stored(s) && Terminal(Stored(s)))
      && (Stored(s).phase == Committed ==>
        Stored(s).revision == 2 * |op.steps| + 1 && |s.history| == 2 * |op.steps| + 2)
  {
    hide Exec, Legal, Terminal, Valid;
    var start := Race([op], map[], None);
    ExecKeepsInv(start, acts);
    HistoryGrows(start, acts);
    var s := Exec(start, acts);
    forall i, j | 0 <= i <= j < |s.history| ensures s.history[i].updatedAt <= s.history[j].updatedAt {
      TimesRise(s.history, i, j);
    }
    TimesRise(s.history, 0, |s.history| - 1);
    if s.live.Some? {
      var k :| 0 <= k < |s.history| && s.history[k] == s.live.value;
      TerminalIsLast(s.history, k);
    }
    CommittedRevision(Stored(s));
  }

  lemma CommittedRevision(op: Operation)
    requires Valid(op)
    ensures op.phase == Committed ==> op.revision == 2 * |op.steps| + 1
  {
  }

  lemma {:induction false} HistoryGrows(s: Race, acts: seq<Act>)
    requires s.history != []
    ensures s.history <= Exec(s, acts).history
    decreases |acts|
  {
    if acts != [] {
      HistoryGrows(Do(s, acts[0]), acts[1..]);
    }
  }

  // ---------------------------------------------------------------- one runner gets there

  /** The first k steps are applied, the others have not begun. */
  predicate Reached(op: Operation, k: nat) {
    && Valid(op) && op.phase == Phase.Applying && k <= |op.steps| <= 5
    && (forall i :: 0 <= i < k ==> op.steps[i].state == Applied)
    && forall i :: k <= i < |op.steps| ==> op.steps[i].state == Pending
  }

  /** One transition made and stored by the runner that holds the operation. */
  lemma MakeAndStore(s: Race, t: Transition) returns (s': Race)
    requires s.history != [] && HeldBy(s, 0) == Holding(Stored(s)) && Apply(Stored(s), t, Stored(s).updatedAt).Ok?
    ensures s' == Exec(s, [Make(0, t, 0), Store(0)])
    ensures s'.history == s.history + [Apply(Stored(s), t, Stored(s).updatedAt).value]
    ensures HeldBy(s', 0) == Holding(Stored(s'))
  {
    hide Apply;
    var op := Apply(Stored(s), t, Stored(s).updatedAt).value;
    LegalIsStored(Stored(s), t, Stored(s).updatedAt);
    var made := Do(s, Make(0, t, 0));
    assert made == s.(runners := s.runners[0 := Moved(Stored(s), op)]);
    s' := Do(made, Store(0));
    assert [Make(0, t, 0), Store(0)][1..] == [Store(0)] && [Store(0)][1..] == [];
    assert Exec(s', []) == s';
    assert Exec(made, [Store(0)]) == s';
  }

  lemma {:induction false} ExecJoins(s: Race, a: seq<Act>, b: seq<Act>)
    requires s.history != []
    ensures Exec(s, a + b) == Exec(Exec(s, a), b)
    decreases |a|
  {
    hide Do;
    if a == [] {
      assert a + b == b;
    } else {
      assert (a + b)[0] == a[0] && (a + b)[1..] == a[1..] + b;
      ExecJoins(Do(s, a[0]), a[1..], b);
    }
  }

  lemma CompleteAccepted(op: Operation, k: nat)
    requires Valid(op) && op.phase == Phase.Applying && k < |op.steps| <= 5 && op.steps[k].state == Busy
    ensures var done := SetStep(op.(revision := op.revision + 1), k, Applied);
      Apply(op, Complete(op.steps[k].resource), op.updatedAt) == Ok(done) && Valid(done)
  {
    hide Shape, RevisionFits;
    RevisionBound(op);
    assert Position(op.steps, op.steps[k].resource) == Some(k);
    ApplyKeepsValid(op, Complete(op.steps[k].resource), op.updatedAt);
  }

  /** Beginning and completing the next step. */
  lemma NextStepAccepted(op: Operation, k: nat)
    requires Reached(op, k) && k < |op.steps|
    ensures var r, at := op.steps[k].resource, op.updatedAt;
      && Apply(op, Begin(r), at).Ok? && Apply(Apply(op, Begin(r), at).value, Complete(r), at).Ok?
      && Reached(Apply(Apply(op, Begin(r), at).value, Complete(r), at).value, k + 1)
      && Apply(op, Begin(r), at).value.updatedAt == at
      && |Apply(Apply(op, Begin(r), at).value, Complete(r), at).value.steps| == |op.steps|
  {
    hide Shape, RevisionFits;
    var r, at := op.steps[k].resource, op.updatedAt;
    RevisionBound(op);
    assert Position(op.steps, r) == Some(k);
    var begun := SetStep(op.(revision := op.revision + 1, updatedAt := at), k, Busy);
    assert Apply(op, Begin(r), at) == Ok(begun);
    ApplyKeepsValid(op, Begin(r), at);
    CompleteAccepted(begun, k);
  }

  lemma {:induction false} RunsForward(s: Race, k: nat) returns (acts: seq<Act>)
    requires s.history != [] && HeldBy(s, 0) == Holding(Stored(s)) && Reached(Stored(s), k)
    ensures Stored(Exec(s, acts)).phase == Committed && HeldBy(Exec(s, acts), 0) == Holding(Stored(Exec(s, acts)))
    decreases |Stored(s).steps| - k
  {
    hide Apply, Do, Exec, Valid;
    var op := Stored(s);
    if k == |op.steps| {
      CommitAccepted(op);
      acts := [Make(0, Commit, 0), Store(0)];
      var s' := MakeAndStore(s, Commit);
    } else {
      NextStepAccepted(op, k);
      var r := op.steps[k].resource;
      var s1 := MakeAndStore(s, Begin(r));
      var s2 := MakeAndStore(s1, Complete(r));
      var rest := RunsForward(s2, k + 1);
      var first, second := [Make(0, Begin(r), 0), Store(0)], [Make(0, Complete(r), 0), Store(0)];
      ExecJoins(s, first, second);
      ExecJoins(s, first + second, rest);
      acts := first + second + rest;
    }
  }

  lemma CommitAccepted(op: Operation)
    requires Reached(op, |op.steps|)
    ensures Apply(op, Commit, op.updatedAt).Ok? && Apply(op, Commit, op.updatedAt).value.phase == Committed
  {
    hide Shape, RevisionFits;
    RevisionBound(op);
  }

  /** One runner, left alone, commits the operation and publishes it. */
  lemma LoneRunnerCommits(op: Operation) returns (acts: seq<Act>)
    requires Reached(op, 0)
    ensures var s := Exec(Race([op], map[], None), acts); Stored(s).phase == Committed && s.live == Some(Stored(s))
  {
    hide Apply, Valid;
    var start := Race([op], map[], None);
    var loaded := Do(start, Load(0));
    var forward := RunsForward(loaded, 0);
    ExecJoins(start, [Load(0)], forward);
    assert [Load(0)][1..] == [] && Exec(loaded, []) == loaded;
    var done := Exec(start, [Load(0)] + forward);
    ExecJoins(start, [Load(0)] + forward, [Publish(0)]);
    assert [Publish(0)][1..] == [] && Exec(Do(done, Publish(0)), []) == Do(done, Publish(0));
    acts := [Load(0)] + forward + [Publish(0)];
  }
}
