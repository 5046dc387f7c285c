/** The run record and its store-facing shapes (src/models.rs). */
module Models {
  import opened Wrappers

  /** Progress of the bot's own side effects for one run. `StateNone` is the
      source's `RunState::None`. */
  datatype RunState = StateNone | ThreadCreated | MessageCreated

  /** Position of a state in the lifecycle `None -> ThreadCreated -> MessageCreated`. */
  function Rank(s: RunState): (k: nat)
    ensures k < 3
  {
    match s
    case StateNone => 0
    case ThreadCreated => 1
    case MessageCreated => 2
  }

  /** The three variants are exactly the three lifecycle positions, in order. */
  lemma RankIsLifecycleOrder(a: RunState, b: RunState)
    ensures Rank(a) == Rank(b) <==> a == b
    ensures Rank(StateNone) < Rank(ThreadCreated) < Rank(MessageCreated)
  {
  }

  /** A row of the runs table. `id` is assigned by the store; `runId` is the
      run's id on speedrun.com. */
  datatype Run = Run(
    id: int,
    submitted: Option<string>,
    threadId: Option<string>,
    state: RunState,
    runId: string)

  /** A thread reference is present exactly when the run is past `None`. */
  predicate Consistent(r: Run) {
    r.threadId.Some? <==> r.state != StateNone
  }

  /** The change set written back to the store: the state travels as text. */
  datatype UpdateRun = UpdateRun(
    id: int,
    submitted: Option<string>,
    threadId: Option<string>,
    state: string,
    runId: string)

  /** A textual encoding of the states keeps them apart. */
  ghost predicate InjectiveNames(stateName: RunState -> string) {
    forall a, b :: stateName(a) == stateName(b) ==> a == b
  }

  /** `UpdateRun::from`: the store's text form of each state is not visible in
      the source, so it is a parameter. */
  function UpdateRunFrom(r: Run, stateName: RunState -> string): (u: UpdateRun)
    ensures u.id == r.id && u.submitted == r.submitted
    ensures u.threadId == r.threadId && u.runId == r.runId
  {
    UpdateRun(r.id, r.submitted, r.threadId, stateName(r.state), r.runId)
  }

  /** Reading a state back from its text form; `None` for unrecognised text. */
  function StateFromName(stateName: RunState -> string, text: string): Option<RunState>
  {
    if stateName(StateNone) == text then Some(StateNone)
    else if stateName(ThreadCreated) == text then Some(ThreadCreated)
    else if stateName(MessageCreated) == text then Some(MessageCreated)
    else None
  }

  /** The change set loses nothing: under any injective encoding the record is
      recovered from it. */
  lemma UpdateRunRoundTrip(r: Run, stateName: RunState -> string)
    requires InjectiveNames(stateName)
    ensures var u := UpdateRunFrom(r, stateName);
      StateFromName(stateName, u.state) == Some(r.state) &&
      Run(u.id, u.submitted, u.threadId, r.state, u.runId) == r
  {
    var u := UpdateRunFrom(r, stateName);
    assert stateName(StateNone) == u.state ==> r.state == StateNone;
    assert stateName(ThreadCreated) == u.state ==> r.state == ThreadCreated;
  }

  /** The insertable record: it has no `id`, which the store assigns. */
  datatype NewRun = NewRun(
    submitted: Option<string>,
    threadId: Option<string>,
    state: RunState,
    runId: string)

  /** The row the store returns for an insert, given the id it assigned. */
  function Inserted(n: NewRun, id: int): (r: Run)
    ensures r.id == id && r.runId == n.runId && r.state == n.state
    ensures r.submitted == n.submitted && r.threadId == n.threadId
  {
    Run(id, n.submitted, n.threadId, n.state, n.runId)
  }
}
