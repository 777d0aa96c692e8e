/** The encounter store: the recorded log, the combatant tracker and the
    queries the replay makes of them. */
module Log {
  import opened Outcomes

  /** One recorded log event; its typed fields are opaque to the replay. */
  datatype LogLine = LogLine(timestamp: int, fields: seq<string>)

  /** A combatant's state snapshot. `job` is `None` when the capture did not
      record one; position, heading and vitals are opaque to the model. */
  datatype PlayerState = PlayerState(id: int, name: string, job: Option<int>, level: int)

  const EmptyState := PlayerState(0, "", None, 0)

  datatype StateEntry = StateEntry(timestamp: int, state: PlayerState)

  /** A tracked combatant: the state reported for timestamp 0 (`nextState(0)`)
      and the time series of recorded snapshots. */
  datatype Combatant = Combatant(initial: PlayerState, history: seq<StateEntry>)

  datatype Tracker = Tracker(combatants: map<string, Combatant>, partyMembers: seq<string>)

  /** An encounter, immutable once captured. */
  datatype Encounter = Encounter(startTimestamp: int, logLines: seq<LogLine>, tracker: Option<Tracker>)

  /** The store presents its lines in non-decreasing timestamp order. */
  ghost predicate Chronological(lines: seq<LogLine>)
  {
    forall i, j :: 0 <= i <= j < |lines| ==> lines[i].timestamp <= lines[j].timestamp
  }

  /** `combatantTracker?.combatants[id]`. */
  function CombatantOf(enc: Encounter, id: string): (c: Option<Combatant>)
    ensures c.Some? <==> enc.tracker.Some? && id in enc.tracker.value.combatants
    ensures c.Some? ==> c.value == enc.tracker.value.combatants[id]
  {
    if enc.tracker.Some? && id in enc.tracker.value.combatants then Some(enc.tracker.value.combatants[id]) else None
  }

  /** The line under the replay cursor; a cursor outside the log is an
      invariant violation. */
  function GetCurLogLine(lines: seq<LogLine>, cursor: int): (r: Result<LogLine>)
    ensures r.Ok? <==> 0 <= cursor < |lines|
    ensures r.Ok? ==> r.value == lines[cursor]
    ensures r.Err? ==> r.fault == UnreachableCode
  {
    if 0 <= cursor < |lines| then Ok(lines[cursor]) else Err(UnreachableCode)
  }

  /** Whether a snapshot was recorded exactly at `t`. */
  predicate HasState(c: Combatant, t: int)
  {
    exists k | 0 <= k < |c.history| :: c.history[k].timestamp == t
  }

  /** The state at or before `t`, searched from the latest snapshot back. */
  function GetState(c: Combatant, t: int): PlayerState
  {
    StateIn(c.history, t)
  }

  function StateIn(h: seq<StateEntry>, t: int): PlayerState
  {
    if h == [] then EmptyState
    else if h[|h| - 1].timestamp <= t then h[|h| - 1].state
    else StateIn(h[..|h| - 1], t)
  }

  /** `GetState` returns the latest recorded snapshot whose timestamp is not
      after `t`, or the empty state when every snapshot is later. */
  lemma {:induction false} StateIsLatest(h: seq<StateEntry>, t: int)
    ensures (forall k :: 0 <= k < |h| ==> h[k].timestamp > t) ==> StateIn(h, t) == EmptyState
    ensures (exists k :: 0 <= k < |h| && h[k].timestamp <= t) ==>
      exists k :: 0 <= k < |h| && h[k].timestamp <= t && StateIn(h, t) == h[k].state &&
        forall j :: k < j < |h| ==> h[j].timestamp > t
  {
    if h != [] && h[|h| - 1].timestamp > t {
      var front := h[..|h| - 1];
      StateIsLatest(front, t);
      assert forall k :: 0 <= k < |front| ==> front[k] == h[k];
      if exists k :: 0 <= k < |h| && h[k].timestamp <= t {
        var k :| 0 <= k < |front| && front[k].timestamp <= t && StateIn(front, t) == front[k].state &&
          forall j :: k < j < |front| ==> front[j].timestamp > t;
        assert StateIn(h, t) == h[k].state;
      }
    }
  }

  /** With a chronological history, a snapshot recorded exactly at `t` is the
      one `GetState` returns for `t`, up to snapshots sharing that timestamp. */
  lemma {:induction false} StateAtRecordedTime(c: Combatant, t: int)
    requires forall i, j :: 0 <= i <= j < |c.history| ==> c.history[i].timestamp <= c.history[j].timestamp
    requires HasState(c, t)
    ensures exists k :: 0 <= k < |c.history| && c.history[k].timestamp == t && GetState(c, t) == c.history[k].state
  {
    var k0 :| 0 <= k0 < |c.history| && c.history[k0].timestamp == t;
    StateIsLatest(c.history, t);
    var k :| 0 <= k < |c.history| && c.history[k].timestamp <= t && GetState(c, t) == c.history[k].state &&
      forall j :: k < j < |c.history| ==> c.history[j].timestamp > t;
    assert k0 <= k;
  }
}
