/** The in-memory session store (server/src/state.ts): a map from session id
    to interview state with create, lookup and shallow-merge update.  The
    random UUID the source draws is the `id` parameter of `CreateSession`. */
module State {
  import opened Wrappers
  import opened Types

  type Store = map<string, ProjectState>

  /** The state a fresh session starts in. */
  function InitialState(idea: string): ProjectState {
    ProjectState(Some(idea), None, None, None, map[], [], [], [], [], false)
  }

  /** `createSession`: stores the initial state under `id`.  Like `Map.set`,
      an id already present would be overwritten; with a fresh id exactly
      one key is added. */
  function CreateSession(store: Store, id: string, idea: string): (r: Store)
    ensures r.Keys == store.Keys + {id}
    ensures id !in store ==> |r| == |store| + 1
    ensures forall k :: k in store && k != id ==> r[k] == store[k]
    ensures r[id].ideaSummary == Some(idea)
    ensures r[id].targetUser == None && r[id].problemStatement == None && r[id].appType == None
    ensures r[id].resolvedDecisions == map[]
    ensures r[id].unresolvedDecisions == [] && r[id].manualPrerequisites == [] && r[id].assumptions == []
    ensures r[id].history == [] && !r[id].isComplete
  {
    store[id := InitialState(idea)]
  }

  /** `getSession`: a pure lookup. */
  function GetSession(store: Store, id: string): (r: Option<ProjectState>)
    ensures r.Some? <==> id in store
    ensures r.Some? ==> r.value == store[id]
  {
    if id in store then Some(store[id]) else None
  }

  /** `{ ...current, ...updates }`: every key present in `u` replaces the
      stored value wholesale. */
  function Merge(s: ProjectState, u: StateUpdates): ProjectState {
    ProjectState(
      u.ideaSummary.GetOr(s.ideaSummary),
      u.targetUser.GetOr(s.targetUser),
      u.problemStatement.GetOr(s.problemStatement),
      u.appType.GetOr(s.appType),
      u.resolvedDecisions.GetOr(s.resolvedDecisions),
      u.unresolvedDecisions.GetOr(s.unresolvedDecisions),
      u.manualPrerequisites.GetOr(s.manualPrerequisites),
      u.assumptions.GetOr(s.assumptions),
      u.history.GetOr(s.history),
      u.isComplete.GetOr(s.isComplete))
  }

  /** `{ ...first, ...second }` on two partial states. */
  function Combine(first: StateUpdates, second: StateUpdates): StateUpdates {
    StateUpdates(
      if second.ideaSummary.Some? then second.ideaSummary else first.ideaSummary,
      if second.targetUser.Some? then second.targetUser else first.targetUser,
      if second.problemStatement.Some? then second.problemStatement else first.problemStatement,
      if second.appType.Some? then second.appType else first.appType,
      if second.resolvedDecisions.Some? then second.resolvedDecisions else first.resolvedDecisions,
      if second.unresolvedDecisions.Some? then second.unresolvedDecisions else first.unresolvedDecisions,
      if second.manualPrerequisites.Some? then second.manualPrerequisites else first.manualPrerequisites,
      if second.assumptions.Some? then second.assumptions else first.assumptions,
      if second.history.Some? then second.history else first.history,
      if second.isComplete.Some? then second.isComplete else first.isComplete)
  }

  /** The partial state that sets every key to its value in `t`. */
  function Everything(t: ProjectState): StateUpdates {
    StateUpdates(Some(t.ideaSummary), Some(t.targetUser), Some(t.problemStatement), Some(t.appType),
      Some(t.resolvedDecisions), Some(t.unresolvedDecisions), Some(t.manualPrerequisites),
      Some(t.assumptions), Some(t.history), Some(t.isComplete))
  }

  /** The merge is shallow: a present key is taken from the update as is (no
      concatenation of arrays, no union of decision maps), an absent key keeps
      the stored value. */
  lemma MergeIsShallow(s: ProjectState, u: StateUpdates)
    ensures u.history.Some? ==> Merge(s, u).history == u.history.value
    ensures u.history.None? ==> Merge(s, u).history == s.history
    ensures u.resolvedDecisions.Some? ==> Merge(s, u).resolvedDecisions == u.resolvedDecisions.value
    ensures u.resolvedDecisions.None? ==> Merge(s, u).resolvedDecisions == s.resolvedDecisions
    ensures u.unresolvedDecisions.Some? ==> Merge(s, u).unresolvedDecisions == u.unresolvedDecisions.value
    ensures u.unresolvedDecisions.None? ==> Merge(s, u).unresolvedDecisions == s.unresolvedDecisions
    ensures u.ideaSummary.Some? ==> Merge(s, u).ideaSummary == u.ideaSummary.value
    ensures u.ideaSummary.None? ==> Merge(s, u).ideaSummary == s.ideaSummary
    ensures u.isComplete.Some? ==> Merge(s, u).isComplete == u.isComplete.value
    ensures u.isComplete.None? ==> Merge(s, u).isComplete == s.isComplete
  {
  }

  /** Merging `{}` changes nothing. */
  lemma MergeNothing(s: ProjectState)
    ensures Merge(s, NoUpdates) == s
  {
  }

  /** Merging the same update twice is merging it once. */
  lemma MergeIdempotent(s: ProjectState, u: StateUpdates)
    ensures Merge(Merge(s, u), u) == Merge(s, u)
  {
  }

  /** Two successive merges are one merge of the combined update. */
  lemma MergeCombine(s: ProjectState, u1: StateUpdates, u2: StateUpdates)
    ensures Merge(Merge(s, u1), u2) == Merge(s, Combine(u1, u2))
  {
  }

  /** An update that names every key replaces the whole state. */
  lemma MergeEverything(s: ProjectState, t: ProjectState)
    ensures Merge(s, Everything(t)) == t
  {
  }

  /** The outcome of `updateSession`: the store afterwards, and either the
      new state or the message of the error thrown. */
  datatype Updated = Updated(store: Store, result: Result<ProjectState, string>)

  /** `updateSession`: merges `u` into the session `id`, or throws
      'Session not found' without touching the store. */
  function UpdateSession(store: Store, id: string, u: StateUpdates): (r: Updated)
    ensures r.result.Err? <==> id !in store
    ensures r.result.Err? ==> r.store == store && r.result.error == "Session not found"
    ensures r.result.Ok? ==> r.result.value == Merge(store[id], u)
    ensures r.result.Ok? ==> r.store.Keys == store.Keys && r.store[id] == r.result.value
    ensures forall k :: k in store && k != id ==> k in r.store && r.store[k] == store[k]
    ensures r.result.Ok? ==> GetSession(r.store, id) == Some(r.result.value)
  {
    match GetSession(store, id)
    case None => Updated(store, Err("Session not found"))
    case Some(current) =>
      var next := Merge(current, u);
      Updated(store[id := next], Ok(next))
  }

  /** Updating with `{}` leaves the stored state as it was. */
  lemma UpdateNothing(store: Store, id: string)
    requires id in store
    ensures UpdateSession(store, id, NoUpdates).store == store
  {
    MergeNothing(store[id]);
  }
}
