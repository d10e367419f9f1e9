/** The durable app operation: its resource plan, its transitions and the shape
    every stored revision keeps (core/src/app_operations/operation.rs). */
module Operations {
  import opened Wrappers

  datatype Kind = Install | Uninstall

  datatype Phase = Applying | Committed | Compensating | Compensated

  datatype Resource = AppDatabases | RuntimeInstance | OidcClient | RuntimeActivation | PlatformSnapshot

  /** Busy is a step being applied; the last three are a step whose effect waits
      to be compensated, is being compensated, and has been. */
  datatype StepState = Pending | Busy | Applied | UndoPending | Undoing | Undone

  datatype Step = Step(resource: Resource, state: StepState)

  datatype Operation = Operation(
    id: nat,
    kind: Kind,
    phase: Phase,
    steps: seq<Step>,
    revision: nat,
    startedAt: nat,
    updatedAt: nat)

  datatype Error =
    | EmptyPlan | DuplicateResource | SnapshotMissing | SnapshotMustBeLast | InvalidRestoredState
    | TimestampMovedBackwards | RevisionExhausted
    | WrongPhase | ResourceNotFound | ResourceOutOfOrder | WrongResourceState
    | ResourcesNotApplied | CompensationIncomplete

  const U64_MAX: nat := 0xFFFF_FFFF_FFFF_FFFF

  // ---------------------------------------------------------------- transitions

  function Position(steps: seq<Step>, r: Resource): (i: Option<nat>)
    ensures i.Some? ==> i.value < |steps| && steps[i.value].resource == r
    ensures i.Some? ==> forall j :: 0 <= j < i.value ==> steps[j].resource != r
    ensures i.None? ==> forall j :: 0 <= j < |steps| ==> steps[j].resource != r
  {
    if steps == [] then None
    else if steps[0].resource == r then Some(0)
    else
      var rest := Position(steps[1..], r);
      if rest.None? then None else Some(rest.value + 1)
  }

  lemma SamePosition(a: seq<Step>, b: seq<Step>, r: Resource)
    requires |a| == |b| && forall i :: 0 <= i < |a| ==> a[i].resource == b[i].resource
    ensures Position(a, r) == Position(b, r)
  {
    var p, q := Position(a, r), Position(b, r);
    if p.Some? && q.Some? && p.value != q.value {
      assert false;
    }
  }

  function Advance(op: Operation, at: nat): Result<Operation, Error> {
    if at < op.updatedAt then Err(TimestampMovedBackwards)
    else if op.revision >= U64_MAX then Err(RevisionExhausted)
    else Ok(op.(revision := op.revision + 1, updatedAt := at))
  }

  function SetStep(op: Operation, i: nat, s: StepState): Operation
    requires i < |op.steps|
  {
    op.(steps := op.steps[i := op.steps[i].(state := s)])
  }

  /** The seven transitions of the source type. */
  datatype Transition =
    | Begin(r: Resource) | Complete(r: Resource) | Commit
    | BeginUndo | BeginResourceUndo(r: Resource) | CompleteResourceUndo(r: Resource) | FinishUndo

  predicate AllIn(steps: seq<Step>, allowed: set<StepState>) {
    forall i :: 0 <= i < |steps| ==> steps[i].state in allowed
  }

  /** Steps an operation was busy with or done with become work to undo. */
  function MarkUndo(steps: seq<Step>): (marked: seq<Step>)
    ensures |marked| == |steps|
    ensures forall i :: 0 <= i < |steps| ==>
      marked[i] == if steps[i].state in {Busy, Applied} then steps[i].(state := UndoPending) else steps[i]
  {
    if steps == [] then []
    else
      var first := if steps[0].state in {Busy, Applied} then steps[0].(state := UndoPending) else steps[0];
      [first] + MarkUndo(steps[1..])
  }

  function Move(op: Operation, i: nat, from: StepState, to: StepState, at: nat): Result<Operation, Error>
    requires i < |op.steps|
  {
    if op.steps[i].state != from then Err(WrongResourceState)
    else match Advance(op, at)
      case Err(e) => Err(e)
      case Ok(next) => Ok(SetStep(next, i, to))
  }

  function Apply(op: Operation, t: Transition, at: nat): Result<Operation, Error> {
    match t
    case Begin(r) =>
      if op.phase != Phase.Applying then Err(WrongPhase)
      else (match Position(op.steps, r)
        case None => Err(ResourceNotFound)
        case Some(i) =>
          if !AllIn(op.steps[..i], {Applied}) then Err(ResourceOutOfOrder)
          else Move(op, i, Pending, Busy, at))
    case Complete(r) =>
      if op.phase != Phase.Applying then Err(WrongPhase)
      else (match Position(op.steps, r)
        case None => Err(ResourceNotFound)
        case Some(i) => Move(op, i, Busy, Applied, at))
    case Commit =>
      if op.phase != Phase.Applying then Err(WrongPhase)
      else if !AllIn(op.steps, {Applied}) then Err(ResourcesNotApplied)
      else (match Advance(op, at)
        case Err(e) => Err(e)
        case Ok(next) => Ok(next.(phase := Committed)))
    case BeginUndo =>
      if op.phase != Phase.Applying then Err(WrongPhase)
      else (match Advance(op, at)
        case Err(e) => Err(e)
        case Ok(next) => Ok(next.(phase := Compensating, steps := MarkUndo(op.steps))))
    case BeginResourceUndo(r) =>
      if op.phase != Compensating then Err(WrongPhase)
      else (match Position(op.steps, r)
        case None => Err(ResourceNotFound)
        case Some(i) =>
          if exists j :: i < j < |op.steps| && op.steps[j].state in {UndoPending, Undoing} then Err(ResourceOutOfOrder)
          else Move(op, i, UndoPending, Undoing, at))
    case CompleteResourceUndo(r) =>
      if op.phase != Compensating then Err(WrongPhase)
      else (match Position(op.steps, r)
        case None => Err(ResourceNotFound)
        case Some(i) => Move(op, i, Undoing, Undone, at))
    case FinishUndo =>
      if op.phase != Compensating then Err(WrongPhase)
      else if !AllIn(op.steps, {Pending, Undone}) then Err(CompensationIncomplete)
      else (match Advance(op, at)
        case Err(e) => Err(e)
        case Ok(next) => Ok(next.(phase := Compensated)))
  }

  predicate Terminal(op: Operation) {
    op.phase in {Committed, Compensated}
  }

  // ---------------------------------------------------------------- the shape of a stored revision

  /** Position of a state along the travel of its phase, or 9 when the phase
      never stores it. */
  function Rank(phase: Phase, s: StepState): nat {
    match phase
    case Applying => (match s case Applied => 0 case Busy => 1 case Pending => 2 case _ => 9)
    case Committed => (match s case Applied => 0 case _ => 9)
    case Compensating =>
      (match s case UndoPending => 0 case Undoing => 1 case Undone => 2 case Pending => 3 case _ => 9)
    case Compensated => (match s case Undone => 0 case Pending => 1 case _ => 9)
  }

  predicate InFlight(s: StepState) { s == Busy || s == Undoing }

  /** What may stand before what: ranks never fall, and one step at most is in
      flight. */
  predicate Ordered(phase: Phase, before: StepState, after: StepState) {
    && Rank(phase, before) <= Rank(phase, after)
    && !(InFlight(before) && InFlight(after))
  }

  /** Applied* Busy? Pending* going forward, UndoPending* Undoing? Undone*
      Pending* going back. */
  predicate Shape(phase: Phase, steps: seq<Step>) {
    && (forall i :: 0 <= i < |steps| ==> Rank(phase, steps[i].state) < 9)
    && (forall i, j :: 0 <= i < j < |steps| ==> Ordered(phase, steps[i].state, steps[j].state))
  }

  /** The steps from one place to another are all in this state. */
  predicate Stretch(steps: seq<Step>, from: nat, to: nat, s: StepState) {
    from <= to <= |steps| && forall i :: from <= i < to ==> steps[i].state == s
  }

  /** The stretches a stored list of steps is made of. */
  predicate Stretches(phase: Phase, steps: seq<Step>, a: nat, b: nat, c: nat) {
    match phase
    case Applying =>
      && Stretch(steps, 0, a, Applied) && Stretch(steps, a, b, Busy) && b <= a + 1
      && Stretch(steps, b, |steps|, Pending)
    case Committed => Stretch(steps, 0, |steps|, Applied)
    case Compensating =>
      && Stretch(steps, 0, a, UndoPending) && Stretch(steps, a, b, Undoing) && b <= a + 1
      && Stretch(steps, b, c, Undone) && Stretch(steps, c, |steps|, Pending)
    case Compensated => Stretch(steps, 0, a, Undone) && Stretch(steps, a, |steps|, Pending)
  }

  lemma RanksSplit(phase: Phase, steps: seq<Step>, r: nat) returns (k: nat)
    requires Shape(phase, steps)
    ensures k <= |steps| && forall i :: 0 <= i < |steps| ==> (i < k <==> Rank(phase, steps[i].state) < r)
  {
    k := 0;
    while k < |steps| && Rank(phase, steps[k].state) < r
      invariant k <= |steps| && forall i :: 0 <= i < k ==> Rank(phase, steps[i].state) < r
    {
      k := k + 1;
    }
    forall i | k < i < |steps| ensures Rank(phase, steps[i].state) >= r {
      assert Ordered(phase, steps[k].state, steps[i].state);
    }
  }

  lemma ShapeSplits(phase: Phase, steps: seq<Step>) returns (a: nat, b: nat, c: nat)
    requires Shape(phase, steps)
    ensures Stretches(phase, steps, a, b, c)
  {
    a := RanksSplit(phase, steps, 1);
    b := RanksSplit(phase, steps, 2);
    c := RanksSplit(phase, steps, 3);
    if a > 0 { assert Rank(phase, steps[a - 1].state) < 1; }
    if b > 0 { assert Rank(phase, steps[b - 1].state) < 2; }
    if b > 1 { assert Ordered(phase, steps[b - 2].state, steps[b - 1].state); }
  }

  lemma StretchesShape(phase: Phase, steps: seq<Step>, a: nat, b: nat, c: nat)
    requires Stretches(phase, steps, a, b, c)
    ensures Shape(phase, steps)
  {
  }

  /** A list has the shape of its phase exactly when it is those stretches. */
  lemma ShapeMeans(phase: Phase, steps: seq<Step>)
    ensures Shape(phase, steps) <==> exists a, b, c :: Stretches(phase, steps, a, b, c)
  {
    hide Shape, Stretches;
    if Shape(phase, steps) {
      var a, b, c := ShapeSplits(phase, steps);
    }
    if a: nat, b: nat, c: nat :| Stretches(phase, steps, a, b, c) {
      StretchesShape(phase, steps, a, b, c);
    }
  }

  predicate Distinct(steps: seq<Step>) {
    forall i, j :: 0 <= i < j < |steps| ==> steps[i].resource != steps[j].resource
  }

  predicate ValidPlan(steps: seq<Step>) {
    && steps != []
    && Distinct(steps)
    && steps[|steps| - 1].resource == PlatformSnapshot
  }

  /** The decoder's scan of the step list, one pass with the last rank seen. */
  method PhaseMatchesSteps(phase: Phase, steps: seq<Step>) returns (ok: bool)
    ensures ok <==> Shape(phase, steps)
  {
    var lastRank := 0;
    var inFlight := false;
    for k := 0 to |steps|
      invariant forall i :: 0 <= i < k ==> Rank(phase, steps[i].state) <= lastRank < 9
      invariant forall i, j :: 0 <= i < j < k ==> Ordered(phase, steps[i].state, steps[j].state)
      invariant k == 0 ==> lastRank == 0
      invariant k > 0 ==> lastRank == Rank(phase, steps[k - 1].state)
      invariant inFlight <==> exists i :: 0 <= i < k && InFlight(steps[i].state)
    {
      var rank := Rank(phase, steps[k].state);
      var second := inFlight && InFlight(steps[k].state);
      if rank == 9 || rank < lastRank || second {
        if rank < lastRank { assert !Ordered(phase, steps[k - 1].state, steps[k].state); }
        return false;
      }
      inFlight := inFlight || InFlight(steps[k].state);
      lastRank := rank;
    }
    return true;
  }

  /** What decoding a stored revision accepts. */
  function Restore(op: Operation): Result<Operation, Error> {
    if op.steps == [] then Err(EmptyPlan)
    else if !Distinct(op.steps) then Err(DuplicateResource)
    else if Position(op.steps, PlatformSnapshot).None? then Err(SnapshotMissing)
    else if Position(op.steps, PlatformSnapshot).value + 1 != |op.steps| then Err(SnapshotMustBeLast)
    else if op.updatedAt < op.startedAt then Err(TimestampMovedBackwards)
    else if !Shape(op.phase, op.steps) then Err(InvalidRestoredState)
    else Ok(op)
  }

  function Count(steps: seq<Step>, s: StepState): (n: nat)
    ensures n <= |steps|
  {
    if steps == [] then 0 else (if steps[0].state == s then 1 else 0) + Count(steps[1..], s)
  }

  lemma {:induction false} CountUpdate(steps: seq<Step>, i: nat, to: StepState, s: StepState)
    requires i < |steps|
    ensures Count(steps[i := steps[i].(state := to)], s)
      == Count(steps, s) - (if steps[i].state == s then 1 else 0) + (if to == s then 1 else 0)
  {
    var after := steps[i := steps[i].(state := to)];
    if i == 0 {
      assert after[1..] == steps[1..];
    } else {
      assert after[1..] == steps[1..][i - 1 := steps[1..][i - 1].(state := to)];
      CountUpdate(steps[1..], i - 1, to, s);
    }
  }

  lemma {:induction false} CountAll(steps: seq<Step>, s: StepState)
    requires AllIn(steps, {s})
    ensures Count(steps, s) == |steps|
  {
    if steps != [] { CountAll(steps[1..], s); }
  }

  /** Every touched step is marked and none is left in a forward state. */
  lemma {:induction false} CountMarked(steps: seq<Step>)
    requires AllIn(steps, {Pending, Busy, Applied})
    ensures Count(MarkUndo(steps), UndoPending) == Count(steps, Busy) + Count(steps, Applied)
    ensures Count(MarkUndo(steps), Undoing) == Count(MarkUndo(steps), Undone) == 0
  {
    if steps != [] {
      assert MarkUndo(steps)[1..] == MarkUndo(steps[1..]);
      CountMarked(steps[1..]);
    }
  }

  lemma {:induction false} CountInFlight(steps: seq<Step>, phase: Phase, s: StepState)
    requires Shape(phase, steps) && InFlight(s)
    ensures Count(steps, s) <= 1
  {
    if steps != [] {
      CountInFlight(steps[1..], phase, s);
      if steps[0].state == s {
        NoneLeft(steps[1..], s);
      }
    }
  }

  lemma {:induction false} NoneLeft(steps: seq<Step>, s: StepState)
    requires forall i :: 0 <= i < |steps| ==> steps[i].state != s
    ensures Count(steps, s) == 0
  {
    if steps != [] { NoneLeft(steps[1..], s); }
  }

  function Touched(steps: seq<Step>): nat {
    Count(steps, UndoPending) + Count(steps, Undoing) + Count(steps, Undone)
  }

  /** The revision counts the transitions that were stored: two for a step that
      was applied, one for a step in flight. Going back, the step that was in
      flight when compensation began contributed one instead of two. */
  predicate RevisionFits(op: Operation) {
    var n := |op.steps|;
    match op.phase
    case Applying => op.revision == 2 * Count(op.steps, Applied) + Count(op.steps, Busy)
    case Committed => op.revision == 2 * n + 1
    case Compensating =>
      var undone := 1 + Count(op.steps, Undoing) + 2 * Count(op.steps, Undone);
      2 * Touched(op.steps) - 1 <= op.revision - undone <= 2 * Touched(op.steps)
    case Compensated => 4 * Count(op.steps, Undone) + 1 <= op.revision <= 4 * Count(op.steps, Undone) + 2
  }

  predicate Valid(op: Operation) {
    && ValidPlan(op.steps)
    && op.startedAt <= op.updatedAt
    && Shape(op.phase, op.steps)
    && RevisionFits(op)
  }

  // ---------------------------------------------------------------- every transition keeps the shape

  /** The four moves of one step that a transition makes. */
  predicate StepMove(op: Operation, i: nat, from: StepState, to: StepState)
    requires i < |op.steps|
  {
    match to
    case Busy => op.phase == Phase.Applying && from == Pending && AllIn(op.steps[..i], {Applied})
    case Applied => op.phase == Phase.Applying && from == Busy
    case Undoing => op.phase == Compensating && from == UndoPending
      && forall j :: i < j < |op.steps| ==> op.steps[j].state != UndoPending && op.steps[j].state != Undoing
    case Undone => op.phase == Compensating && from == Undoing
    case _ => false
  }

  lemma MoveKeepsShape(op: Operation, i: nat, from: StepState, to: StepState)
    requires Shape(op.phase, op.steps) && i < |op.steps| && op.steps[i].state == from && StepMove(op, i, from, to)
    ensures Shape(op.phase, SetStep(op, i, to).steps)
  {
    var after := SetStep(op, i, to).steps;
    if to == Busy {
      forall j | 0 <= j < i ensures op.steps[j].state == Applied { assert op.steps[j] == op.steps[..i][j]; }
    }
    forall j, k | 0 <= j < k < |after| ensures Ordered(op.phase, after[j].state, after[k].state) {
      assert Ordered(op.phase, op.steps[j].state, op.steps[k].state);
    }
  }

  lemma MoveKeepsValid(op: Operation, i: nat, from: StepState, to: StepState, at: nat)
    requires Valid(op) && i < |op.steps| && Move(op, i, from, to, at).Ok? && StepMove(op, i, from, to)
    ensures Valid(Move(op, i, from, to, at).value)
  {
    MoveKeepsShape(op, i, from, to);
    CountUpdate(op.steps, i, to, Busy);
    CountUpdate(op.steps, i, to, Applied);
    CountUpdate(op.steps, i, to, UndoPending);
    CountUpdate(op.steps, i, to, Undoing);
    CountUpdate(op.steps, i, to, Undone);
  }

  lemma MarkKeepsShape(steps: seq<Step>)
    requires Shape(Phase.Applying, steps)
    ensures Shape(Compensating, MarkUndo(steps))
  {
    var after := MarkUndo(steps);
    forall j, k | 0 <= j < k < |after| ensures Ordered(Compensating, after[j].state, after[k].state) {
      assert Ordered(Phase.Applying, steps[j].state, steps[k].state);
    }
  }

  lemma ForwardStates(steps: seq<Step>)
    requires Shape(Phase.Applying, steps)
    ensures AllIn(steps, {Pending, Busy, Applied})
  {
  }

  lemma BeginUndoKeepsValid(op: Operation, at: nat)
    requires Valid(op) && Apply(op, BeginUndo, at).Ok?
    ensures Valid(Apply(op, BeginUndo, at).value)
  {
    var next := Apply(op, BeginUndo, at).value;
    assert ValidPlan(next.steps);
    assert Shape(Compensating, next.steps) by { MarkKeepsShape(op.steps); }
    assert RevisionFits(next) by {
      ForwardStates(op.steps);
      CountMarked(op.steps);
      CountInFlight(op.steps, op.phase, Busy);
    }
  }

  lemma CommitKeepsValid(op: Operation, at: nat)
    requires Valid(op) && Apply(op, Commit, at).Ok?
    ensures Valid(Apply(op, Commit, at).value)
  {
    hide Distinct;
    CountAll(op.steps, Applied);
    NoneLeft(op.steps, Busy);
  }

  lemma FinishRevision(op: Operation)
    requires op.phase == Compensating && RevisionFits(op) && AllIn(op.steps, {Pending, Undone})
    ensures RevisionFits(op.(phase := Compensated, revision := op.revision + 1))
  {
    NoneLeft(op.steps, UndoPending);
    NoneLeft(op.steps, Undoing);
  }

  lemma SameRevision(a: Operation, b: Operation)
    requires RevisionFits(b) && a.phase == b.phase && a.steps == b.steps && a.revision == b.revision
    ensures RevisionFits(a)
  {
  }

  lemma FinishKeepsValid(op: Operation, at: nat)
    requires Valid(op) && Apply(op, FinishUndo, at).Ok?
    ensures Valid(Apply(op, FinishUndo, at).value)
  {
    hide Distinct, RevisionFits;
    var next := Apply(op, FinishUndo, at).value;
    FinishRevision(op);
    SameRevision(next, op.(phase := Compensated, revision := op.revision + 1));
    forall j, k | 0 <= j < k < |op.steps| ensures Ordered(Compensated, op.steps[j].state, op.steps[k].state) {
      assert Ordered(Compensating, op.steps[j].state, op.steps[k].state);
    }
  }

  /** Legal transitions lead from valid operations to valid operations: every
      revision the journal can hold decodes again, and carries the revision
      number its steps account for. */
  lemma ApplyKeepsValid(op: Operation, t: Transition, at: nat)
    requires Valid(op) && Apply(op, t, at).Ok?
    ensures Valid(Apply(op, t, at).value)
    ensures Restore(Apply(op, t, at).value) == Ok(Apply(op, t, at).value)
  {
    match t {
      case Begin(r) => MoveKeepsValid(op, Position(op.steps, r).value, Pending, Busy, at);
      case Complete(r) => MoveKeepsValid(op, Position(op.steps, r).value, Busy, Applied, at);
      case BeginUndo => BeginUndoKeepsValid(op, at);
      case BeginResourceUndo(r) => MoveKeepsValid(op, Position(op.steps, r).value, UndoPending, Undoing, at);
      case CompleteResourceUndo(r) => MoveKeepsValid(op, Position(op.steps, r).value, Undoing, Undone, at);
      case Commit => CommitKeepsValid(op, at);
      case FinishUndo => FinishKeepsValid(op, at);
    }
    ValidDecodes(Apply(op, t, at).value);
  }

  lemma ValidDecodes(op: Operation)
    requires Valid(op)
    ensures Restore(op) == Ok(op)
  {
    assert Position(op.steps, PlatformSnapshot).Some?;
  }

  /** One stored revision more, never an earlier time, never another operation. */
  lemma ApplyAdvances(op: Operation, t: Transition, at: nat)
    requires Apply(op, t, at).Ok?
    ensures !Terminal(op)
    ensures var next := Apply(op, t, at).value;
      && next.revision == op.revision + 1 <= 0xFFFF_FFFF_FFFF_FFFF
      && op.updatedAt <= next.updatedAt == at
      && next.id == op.id && next.kind == op.kind && next.startedAt == op.startedAt
      && |next.steps| == |op.steps|
      && forall i :: 0 <= i < |op.steps| ==> next.steps[i].resource == op.steps[i].resource
  {
  }

  /** No run of a plan can exhaust the revision counter. */
  lemma RevisionBound(op: Operation)
    requires Valid(op)
    ensures op.revision <= 4 * |op.steps| + 2
  {
    CountSum(op.steps);
  }

  lemma {:induction false} CountSum(steps: seq<Step>)
    ensures Count(steps, Pending) + Count(steps, Busy) + Count(steps, Applied)
      + Count(steps, UndoPending) + Count(steps, Undoing) + Count(steps, Undone) == |steps|
  {
    if steps != [] { CountSum(steps[1..]); }
  }
}
