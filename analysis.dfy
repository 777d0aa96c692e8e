/** The replay orchestrator (`AnalyzedEncounter`): one isolated engine context
    per party member, a single cursor walked over the log, and the
    per-member perspectives assembled from the finalized firings. */
module ReplaySpec {
  import opened Outcomes
  import opened Log
  import opened Resolution

  /** How many party members are replayed together. */
  const BatchSize: nat := 24

  datatype PerspectiveTrigger = PerspectiveTrigger(triggerHelper: TriggerHelper, status: ResolverStatus, logLine: LogLine, resolvedOffset: int)

  /** A member's report. `finalData` holds the live engine data object itself,
      not a copy of it. */
  datatype Perspective = Perspective(initialData: DataValue, triggers: seq<PerspectiveTrigger>, finalData: Option<LiveData>)

  /** The perspective of a member whose initial job is 0. */
  const EmptyPerspective := Perspective(EmptyData, [], None)

  predicate Distinct(s: seq<string>)
  {
    forall i, j :: 0 <= i < j < |s| ==> s[i] != s[j]
  }

  /** `id` has the same entry (or the same absence) in both maps. */
  ghost predicate Same(m: map<string, Perspective>, m': map<string, Perspective>, id: string)
  {
    (id in m <==> id in m') && (id in m ==> m[id] == m'[id])
  }

  function Min(a: int, b: int): int { if a <= b then a else b }

  // ---------------------------------------------------------------- batching

  /** The party split into consecutive slices of at most `n` members. */
  function Batches(s: seq<string>, n: nat): (bs: seq<seq<string>>)
    requires n > 0
    ensures forall k :: 0 <= k < |bs| ==> 0 < |bs[k]| <= n
    decreases |s|
  {
    if |s| == 0 then []
    else if |s| <= n then [s]
    else [s[..n]] + Batches(s[n..], n)
  }

  function Flatten(bs: seq<seq<string>>): seq<string>
  {
    if bs == [] then [] else bs[0] + Flatten(bs[1..])
  }

  /** Concatenating the batches gives back the party list, in order: every
      member lands in exactly one batch. */
  lemma {:induction false} BatchesPartition(s: seq<string>, n: nat)
    requires n > 0
    ensures Flatten(Batches(s, n)) == s
    decreases |s|
  {
    if |s| == 0 {
    } else if |s| <= n {
      assert Batches(s, n) == [s];
      assert Flatten([s]) == s + Flatten([]);
    } else {
      var bs := Batches(s, n);
      BatchesPartition(s[n..], n);
      assert bs[0] == s[..n] && bs[1..] == Batches(s[n..], n);
      assert s[..n] + s[n..] == s;
    }
  }

  /** The index of batch `k` is `n` past that of batch `k - 1`. */
  lemma IndexStep(k: nat, n: nat, i: int)
    requires k > 0 && i == k * n
    ensures i - n == (k - 1) * n && i >= n
  {
    assert k * n == (k - 1) * n + n;
  }

  /** Batch `k` is the slice starting at `analyze`'s index `i = k * n`, cut
      short by the end of the list. */
  lemma {:induction false} BatchAt(s: seq<string>, n: nat, k: nat, i: int)
    requires n > 0 && k < |Batches(s, n)| && i == k * n
    ensures i < |s|
    ensures Batches(s, n)[k] == s[i .. Min(i + n, |s|)]
    decreases k
  {
    if |s| <= n {
      assert Batches(s, n) == [s];
    } else if k > 0 {
      IndexStep(k, n, i);
      BatchAt(s[n..], n, k - 1, i - n);
      assert s[n..][i - n .. Min(i - n + n, |s| - n)] == s[i .. Min(i + n, |s|)];
    }
  }

  /** There is a batch `k` exactly when `analyze`'s index `i = k * n` is
      still inside the list: the loop makes one call per batch and stops
      after the last. */
  lemma {:induction false} BatchCount(s: seq<string>, n: nat, k: nat, i: int)
    requires n > 0 && i == k * n
    ensures k < |Batches(s, n)| <==> i < |s|
    decreases k
  {
    if k > 0 {
      IndexStep(k, n, i);
      if |s| == 0 {
      } else if |s| <= n {
        assert Batches(s, n) == [s];
      } else {
        BatchCount(s[n..], n, k - 1, i - n);
      }
    }
  }

  /** While `analyze`'s index `i = k * n` is inside the list, batch `k`
      exists and is the next slice: the batches handed out so far grow by
      exactly that slice, and the next index is `(k + 1) * n`. */
  lemma BatchesNext(s: seq<string>, n: nat, k: nat, i: nat)
    requires n > 0 && i == k * n && i < |s|
    ensures k < |Batches(s, n)|
    ensures Batches(s, n)[..k + 1] == Batches(s, n)[..k] + [s[i .. Min(i + n, |s|)]]
    ensures i + n == (k + 1) * n
  {
    BatchCount(s, n, k, i);
    BatchAt(s, n, k, i);
    IndexStep(k + 1, n, i + n);
  }

  /** Once the index `i = k * n` is past the list, the first `k` batches are
      all of them. */
  lemma BatchesEnd(s: seq<string>, n: nat, k: nat, i: nat)
    requires n > 0 && k <= |Batches(s, n)| && i == k * n && i >= |s|
    ensures Batches(s, n)[..k] == Batches(s, n)
  {
    BatchCount(s, n, k, i);
  }

  /** `Distinct`, stated element by element: no id occurs before its own
      position. */
  predicate NoRepeats(s: seq<string>)
  {
    forall k :: 0 <= k < |s| ==> s[k] !in s[..k]
  }

  lemma DistinctNoRepeats(s: seq<string>)
    ensures Distinct(s) <==> NoRepeats(s)
  {
    if Distinct(s) {
      forall k | 0 <= k < |s|
        ensures s[k] !in s[..k]
      {
        assert forall a :: 0 <= a < k ==> s[a] != s[k];
      }
    }
    if NoRepeats(s) {
      forall a, b | 0 <= a < b < |s|
        ensures s[a] != s[b]
      {
        assert s[a] == s[..b][a];
      }
    }
  }

  /** A member of a slice is a member of the list. */
  lemma SliceMember(s: seq<string>, i: int, j: int, x: string)
    requires 0 <= i <= j <= |s| && x in s[i..j]
    ensures x in s
  {
    var k :| 0 <= k < j - i && s[i..j][k] == x;
    assert s[i + k] == x;
  }

  /** With distinct ids, no member of a later slice occurs in an earlier prefix. */
  lemma DistinctSlices(s: seq<string>, i: int, j: int)
    requires NoRepeats(s) && 0 <= i <= j <= |s|
    ensures forall id :: id in s[..i] ==> id !in s[i..j]
  {
    forall id | id in s[..i]
      ensures id !in s[i..j]
    {
      forall b | i <= b < j
        ensures s[b] != id
      {
        assert s[..i] <= s[..b];
      }
    }
  }

  // ------------------------------------------------------------ eligibility

  /** `checkPartyMember`'s verdict: tracked, and initial job not 0. An
      initial job that is missing passes, since only `=== 0` is excluded. */
  predicate IsValid(enc: Encounter, id: string)
  {
    CombatantOf(enc, id).Some? && CombatantOf(enc, id).value.initial.job != Some(0)
  }

  /** The members of `batch` that pass `checkPartyMember`, in batch order. */
  function FilterValid(enc: Encounter, batch: seq<string>): (v: seq<string>)
    ensures forall id :: id in v <==> id in batch && IsValid(enc, id)
    ensures |v| <= |batch|
    decreases |batch|
  {
    if batch == [] then []
    else
      var last := batch[|batch| - 1];
      assert batch == batch[..|batch| - 1] + [last];
      FilterValid(enc, batch[..|batch| - 1]) + if IsValid(enc, last) then [last] else []
  }

  /** Filtering keeps distinct ids distinct. */
  lemma {:induction false} FilterValidDistinct(enc: Encounter, batch: seq<string>)
    requires Distinct(batch)
    ensures Distinct(FilterValid(enc, batch))
    decreases |batch|
  {
    if batch != [] {
      var front, last := batch[..|batch| - 1], batch[|batch| - 1];
      assert Distinct(front) by {
        assert forall a :: 0 <= a < |front| ==> front[a] == batch[a];
      }
      FilterValidDistinct(enc, front);
      assert last !in front by {
        assert forall a :: 0 <= a < |front| ==> front[a] == batch[a];
      }
    }
  }

  /** Tracked with initial job 0: gets an empty perspective. */
  predicate Jobless(enc: Encounter, id: string)
  {
    CombatantOf(enc, id).Some? && CombatantOf(enc, id).value.initial.job == Some(0)
  }

  /** `!job`: the job is 0 or absent. */
  predicate JobMissing(st: PlayerState)
  {
    st.job.None? || st.job == Some(0)
  }

  // ------------------------------------------------- the replay, as values

  /** The data after `selectPerspective` on a context holding `d`: the whole
      party must be tracked, and the member's state at the encounter start
      must carry a job, which is pushed into the engine. */
  function SelectData(enc: Encounter, id: string, d: DataValue): (r: Result<DataValue>)
    ensures r.Err? <==> (enc.tracker.Some? && id in enc.tracker.value.combatants &&
      ((exists pm :: pm in enc.tracker.value.partyMembers && pm !in enc.tracker.value.combatants) ||
       JobMissing(GetState(enc.tracker.value.combatants[id], enc.startTimestamp))))
    ensures r.Ok? && CombatantOf(enc, id).Some? ==>
      r.value == d.(player := Some(GetState(CombatantOf(enc, id).value, enc.startTimestamp)))
    ensures CombatantOf(enc, id).None? ==> r == Ok(d)
  {
    if enc.tracker.None? || id !in enc.tracker.value.combatants then Ok(d)
    else if exists pm :: pm in enc.tracker.value.partyMembers && pm !in enc.tracker.value.combatants then
      Err(UnreachableCode)
    else
      var st := GetState(enc.tracker.value.combatants[id], enc.startTimestamp);
      if JobMissing(st) then Err(UnreachableCode) else Ok(d.(player := Some(st)))
  }

  /** The player-state update a line causes: none unless a snapshot was
      recorded at its timestamp, and a fault if that state has no job. */
  function PlayerUpdate(enc: Encounter, id: string, t: int): (r: Result<Option<PlayerState>>)
    ensures r.Err? <==> (CombatantOf(enc, id).Some? && HasState(CombatantOf(enc, id).value, t) &&
      JobMissing(GetState(CombatantOf(enc, id).value, t)))
    ensures r.Ok? && r.value.Some? ==> r.value.value.job.Some? && r.value.value.job.value != 0
  {
    var c := CombatantOf(enc, id);
    if c.Some? && HasState(c.value, t) then
      var st := GetState(c.value, t);
      if JobMissing(st) then Err(UnreachableCode) else Ok(Some(st))
    else Ok(None)
  }

  /** The entry the perspective callback appends for a finalized firing. */
  function Entry(r: Report, start: int): PerspectiveTrigger
  {
    PerspectiveTrigger(r.helper, r.status, r.log, r.log.timestamp - start)
  }

  function Entries(rs: seq<Report>, start: int): (es: seq<PerspectiveTrigger>)
    ensures |es| == |rs| && forall j :: 0 <= j < |rs| ==> es[j] == Entry(rs[j], start)
  {
    seq(|rs|, j requires 0 <= j < |rs| => Entry(rs[j], start))
  }

  /** One member's replay state: its context and its perspective's triggers. */
  datatype Track = Track(ctx: Ctx, triggers: seq<PerspectiveTrigger>)

  /** What one context makes of the line at `idx`: the player-state update,
      the engine feed, then the finalizers due at this line. */
  function Feed(enc: Encounter, engine: Engine, id: string, c: Ctx, idx: nat): (r: Result<(Ctx, seq<Report>)>)
    requires idx < |enc.logLines|
    requires QueueWf(c.resolvers, c.pending)
    ensures r.Ok? ==> QueueWf(r.value.0.resolvers, r.value.0.pending)
    ensures r.Err? <==> PlayerUpdate(enc, id, enc.logLines[idx].timestamp).Err?
  {
    var line := enc.logLines[idx];
    match PlayerUpdate(enc, id, line.timestamp)
    case Err(f) => Err(f)
    case Ok(u) =>
      var c0 := if u.Some? then c.(data := c.data.(player := u)) else c;
      Ok(Drain(FireAll(c0, engine.fire(c0.data, line), line, idx), line, idx))
  }

  /** One member's replay step on the line at `idx`: the context is fed the
      line and every finalized firing becomes one more perspective entry. */
  function LineStep(enc: Encounter, engine: Engine, id: string, t: Track, idx: nat): (r: Result<Track>)
    requires idx < |enc.logLines|
    requires QueueWf(t.ctx.resolvers, t.ctx.pending)
    ensures r.Ok? ==> QueueWf(r.value.ctx.resolvers, r.value.ctx.pending)
    ensures r.Err? <==> PlayerUpdate(enc, id, enc.logLines[idx].timestamp).Err?
  {
    match Feed(enc, engine, id, t.ctx, idx)
    case Err(f) => Err(f)
    case Ok(fed) => Ok(Track(fed.0, t.triggers + Entries(fed.1, enc.startTimestamp)))
  }

  /** The first `n` lines replayed for member `id`, starting from data `d0`. */
  function ReplayTo(enc: Encounter, engine: Engine, id: string, d0: DataValue, n: nat): (r: Result<Track>)
    requires n <= |enc.logLines|
    ensures r.Ok? ==> QueueWf(r.value.ctx.resolvers, r.value.ctx.pending)
    decreases n, 0
  {
    if n == 0 then Ok(Track(Ctx(d0, [], []), []))
    else ReplayThrough(enc, engine, id, d0, n - 1)
  }

  /** The replay once the line at `idx` is done: a fault on an earlier line
      stops it, otherwise the line is one more `LineStep`. */
  function ReplayThrough(enc: Encounter, engine: Engine, id: string, d0: DataValue, idx: nat): (r: Result<Track>)
    requires idx < |enc.logLines|
    ensures r.Ok? ==> QueueWf(r.value.ctx.resolvers, r.value.ctx.pending)
    decreases idx, 1
  {
    match ReplayTo(enc, engine, id, d0, idx)
    case Err(f) => Err(f)
    case Ok(t) => LineStep(enc, engine, id, t, idx)
  }

  /** Replaying one more line is one `LineStep` on the state reached so far. */
  lemma ReplayAdvances(enc: Encounter, engine: Engine, id: string, d0: DataValue, n: nat, t: Track)
    requires n < |enc.logLines|
    requires ReplayTo(enc, engine, id, d0, n) == Ok(t)
    ensures ReplayTo(enc, engine, id, d0, n + 1) == LineStep(enc, engine, id, t, n)
  {
    assert ReplayTo(enc, engine, id, d0, n + 1) == ReplayThrough(enc, engine, id, d0, n);
  }

  /** What the analysis of one valid member yields: the data its perspective
      starts from and its state after the whole log. */
  function MemberAnalysis(enc: Encounter, engine: Engine, id: string): (r: Result<(DataValue, Track)>)
    ensures SelectData(enc, id, engine.initialData).Err? ==> r.Err?
    ensures r.Ok? && CombatantOf(enc, id).Some? ==>
      r.value.0 == engine.initialData.(player := Some(GetState(CombatantOf(enc, id).value, enc.startTimestamp)))
    ensures r.Ok? && CombatantOf(enc, id).None? ==> r.value.0 == engine.initialData
    ensures r.Ok? ==> QueueWf(r.value.1.ctx.resolvers, r.value.1.ctx.pending)
  {
    match SelectData(enc, id, engine.initialData)
    case Err(f) => Err(f)
    case Ok(d0) =>
      match ReplayTo(enc, engine, id, d0, |enc.logLines|)
      case Err(f) => Err(f)
      case Ok(t) => Ok((d0, t))
  }

  /** A perspective shows the result `a` of a member's analysis. */
  ghost predicate Shows(p: Perspective, a: (DataValue, Track))
    reads if p.finalData.Some? then {p.finalData.value} else {}
  {
    p.initialData == a.0 && p.triggers == a.1.triggers &&
    p.finalData.Some? && p.finalData.value.value == a.1.ctx.data
  }

  // ------------------------------------------------ properties of the replay

  /** Member `id`'s replay, started from `d0`, has reached `t` after `n` lines. */
  ghost predicate Reached(enc: Encounter, engine: Engine, id: string, d0: DataValue, n: nat, t: Track)
  {
    n <= |enc.logLines| && ReplayTo(enc, engine, id, d0, n) == Ok(t)
  }

  /** Member `id`'s replay, started from `d0`, has failed by line `n`. */
  ghost predicate Fails(enc: Encounter, engine: Engine, id: string, d0: DataValue, n: nat)
  {
    n <= |enc.logLines| && ReplayTo(enc, engine, id, d0, n).Err?
  }

  /** A replay that reached state `t` past line `n` reached some state `t0`
      on line `n`, and `t` is one more step from it. */
  lemma ReplayOkBefore(enc: Encounter, engine: Engine, id: string, d0: DataValue, n: nat, t: Track)
    returns (t0: Track)
    requires Reached(enc, engine, id, d0, n + 1, t)
    ensures Reached(enc, engine, id, d0, n, t0)
    ensures LineStep(enc, engine, id, t0, n) == Ok(t)
  {
    assert ReplayTo(enc, engine, id, d0, n + 1) == ReplayThrough(enc, engine, id, d0, n);
    t0 := ReplayTo(enc, engine, id, d0, n).value;
  }

  /** A fault on some line aborts the member's replay for good. */
  lemma ReplayErrPersists(enc: Encounter, engine: Engine, id: string, d0: DataValue, n: nat, m: nat)
    requires n <= m <= |enc.logLines|
    requires Fails(enc, engine, id, d0, n)
    ensures Fails(enc, engine, id, d0, m)
  {
    var k := n;
    while k < m
      invariant n <= k <= m
      invariant Fails(enc, engine, id, d0, k)
    {
      ReplayErrStep(enc, engine, id, d0, k);
      k := k + 1;
    }
  }

  lemma ReplayErrStep(enc: Encounter, engine: Engine, id: string, d0: DataValue, n: nat)
    requires n < |enc.logLines|
    requires ReplayTo(enc, engine, id, d0, n).Err?
    ensures ReplayTo(enc, engine, id, d0, n + 1) == ReplayTo(enc, engine, id, d0, n)
  {
    assert ReplayTo(enc, engine, id, d0, n + 1) == ReplayThrough(enc, engine, id, d0, n);
  }

  // ------------------------------------------------- a batch, member by member

  /** Members `ids[lo..hi]`, each started from its own `inits[j]`, have
      reached `tracks[j]` after `n` lines. */
  ghost predicate Replayed(enc: Encounter, engine: Engine, ids: seq<string>, inits: seq<DataValue>,
                           tracks: seq<Track>, lo: int, hi: int, n: nat)
  {
    |ids| == |inits| == |tracks| && 0 <= lo <= hi <= |ids| && n <= |enc.logLines| &&
    forall j :: lo <= j < hi ==> Reached(enc, engine, ids[j], inits[j], n, tracks[j])
  }

  lemma ReplayedAt(enc: Encounter, engine: Engine, ids: seq<string>, inits: seq<DataValue>,
                   tracks: seq<Track>, lo: int, hi: int, n: nat, k: int)
    requires Replayed(enc, engine, ids, inits, tracks, lo, hi, n) && lo <= k < hi
    ensures Reached(enc, engine, ids[k], inits[k], n, tracks[k])
  {
  }

  /** A batch in which some member's replay failed by line `n` still has one
      whose replay fails over the whole log. */
  lemma SomeFailPersists(enc: Encounter, engine: Engine, ids: seq<string>, inits: seq<DataValue>, n: nat)
    requires |inits| == |ids| && n <= |enc.logLines|
    requires exists j :: 0 <= j < |ids| && Fails(enc, engine, ids[j], inits[j], n)
    ensures exists j :: 0 <= j < |ids| && Fails(enc, engine, ids[j], inits[j], |enc.logLines|)
  {
    var j :| 0 <= j < |ids| && Fails(enc, engine, ids[j], inits[j], n);
    ReplayErrPersists(enc, engine, ids[j], inits[j], n, |enc.logLines|);
  }

  /** Member `ids[k]` moves from line `n` to line `n + 1`: the members
      before it are all at `n + 1`, the ones after it still at `n`. */
  lemma ReplayedStep(enc: Encounter, engine: Engine, ids: seq<string>, inits: seq<DataValue>,
                     tracks: seq<Track>, k: int, n: nat, t: Track)
    requires Replayed(enc, engine, ids, inits, tracks, 0, k, n + 1)
    requires Replayed(enc, engine, ids, inits, tracks, k, |ids|, n) && k < |ids|
    requires Reached(enc, engine, ids[k], inits[k], n + 1, t)
    ensures Replayed(enc, engine, ids, inits, tracks[k := t], 0, k + 1, n + 1)
    ensures Replayed(enc, engine, ids, inits, tracks[k := t], k + 1, |ids|, n)
  {
    var tracks' := tracks[k := t];
    forall j | 0 <= j < k + 1
      ensures Reached(enc, engine, ids[j], inits[j], n + 1, tracks'[j])
    {
      if j < k {
        ReplayedAt(enc, engine, ids, inits, tracks, 0, k, n + 1, j);
      }
    }
    forall j | k + 1 <= j < |ids|
      ensures Reached(enc, engine, ids[j], inits[j], n, tracks'[j])
    {
      ReplayedAt(enc, engine, ids, inits, tracks, k, |ids|, n, j);
    }
  }

  /** `m'` differs from `m` at most in the triggers of members `ids`. */
  ghost predicate TriggersOnly(m: map<string, Perspective>, m': map<string, Perspective>, ids: seq<string>)
  {
    m'.Keys == m.Keys &&
    (forall id :: id in m ==> m'[id] == m[id].(triggers := m'[id].triggers)) &&
    (forall id :: id in m && id !in ids ==> m'[id] == m[id])
  }

  lemma TriggersOnlyStep(m: map<string, Perspective>, m': map<string, Perspective>, ids: seq<string>,
                         id: string, es: seq<PerspectiveTrigger>)
    requires TriggersOnly(m, m', ids) && id in ids && id in m'
    ensures TriggersOnly(m, m'[id := m'[id].(triggers := es)], ids)
  {
  }

  lemma TriggersOnlyTrans(m1: map<string, Perspective>, m2: map<string, Perspective>,
                          m3: map<string, Perspective>, ids: seq<string>)
    requires TriggersOnly(m1, m2, ids) && TriggersOnly(m2, m3, ids)
    ensures TriggersOnly(m1, m3, ids)
  {
  }

  lemma TriggersOnlySame(m: map<string, Perspective>, m': map<string, Perspective>, ids: seq<string>)
    requires TriggersOnly(m, m', ids)
    ensures forall id :: id !in ids ==> Same(m', m, id)
  {
  }

  /** Freshly created contexts hold the members' replays after no lines. */
  lemma ReplayedStart(enc: Encounter, engine: Engine, ids: seq<string>, inits: seq<DataValue>, tracks: seq<Track>)
    requires |ids| == |inits| == |tracks|
    requires forall j :: 0 <= j < |ids| ==> tracks[j] == Track(Ctx(inits[j], [], []), [])
    ensures Replayed(enc, engine, ids, inits, tracks, 0, |ids|, 0)
  {
  }

  /** Replays that reached the end of the log are the members' analyses. */
  lemma ReplayedAnalyses(enc: Encounter, engine: Engine, ids: seq<string>, inits: seq<DataValue>, tracks: seq<Track>)
    requires Replayed(enc, engine, ids, inits, tracks, 0, |ids|, |enc.logLines|)
    requires forall j :: 0 <= j < |ids| ==> SelectData(enc, ids[j], engine.initialData) == Ok(inits[j])
    ensures forall j :: 0 <= j < |ids| ==> MemberAnalysis(enc, engine, ids[j]) == Ok((inits[j], tracks[j]))
  {
    forall j | 0 <= j < |ids|
      ensures MemberAnalysis(enc, engine, ids[j]) == Ok((inits[j], tracks[j]))
    {
      ReplayedAt(enc, engine, ids, inits, tracks, 0, |ids|, |enc.logLines|, j);
    }
  }

  /** A replay that failed makes the member's analysis fail. */
  lemma FailedAnalysis(enc: Encounter, engine: Engine, id: string, d0: DataValue)
    requires SelectData(enc, id, engine.initialData) == Ok(d0)
    requires Fails(enc, engine, id, d0, |enc.logLines|)
    ensures MemberAnalysis(enc, engine, id).Err?
  {
  }

  // ------------------------------------------------- the party, batch by batch

  /** The perspectives `ps` after members `done` were analysed: jobless
      members hold the empty perspective, valid ones show their analysis. */
  ghost predicate Analysed(enc: Encounter, engine: Engine, ps: map<string, Perspective>, done: seq<string>)
    reads set id | id in ps && ps[id].finalData.Some? :: ps[id].finalData.value
  {
    (forall id :: id in done && Jobless(enc, id) ==> id in ps && ps[id] == EmptyPerspective) &&
    (forall id :: id in done && IsValid(enc, id) ==>
      id in ps && ps[id].finalData.Some? && MemberAnalysis(enc, engine, id).Ok? &&
      Shows(ps[id], MemberAnalysis(enc, engine, id).value))
  }

  /** Going from `m` to `m'` while checking members `ids`: the jobless ones
      among them hold the empty perspective, everybody else is as before. */
  ghost predicate MarkedJobless(enc: Encounter, m: map<string, Perspective>, m': map<string, Perspective>, ids: seq<string>)
  {
    (forall id :: id !in ids || !Jobless(enc, id) ==> Same(m', m, id)) &&
    (forall id :: id in ids && Jobless(enc, id) ==> id in m' && m'[id] == EmptyPerspective)
  }

  /** Checking one more member marks it if it is jobless. */
  lemma MarkedJoblessStep(enc: Encounter, m: map<string, Perspective>, mid: map<string, Perspective>,
                          m': map<string, Perspective>, ids: seq<string>, id: string)
    requires MarkedJobless(enc, m, mid, ids)
    requires m' == if Jobless(enc, id) then mid[id := EmptyPerspective] else mid
    ensures MarkedJobless(enc, m, m', ids + [id])
  {
  }

  /** Going from `m` to `m'` leaves every id outside `ids`, and every
      untracked id, as it was. */
  ghost predicate Untouched(enc: Encounter, m: map<string, Perspective>, m': map<string, Perspective>, ids: seq<string>)
  {
    forall id :: (id !in ids || CombatantOf(enc, id).None?) ==> Same(m', m, id)
  }

  /** A further batch, disjoint from the members already analysed, whose
      members are analysed without touching anybody else, extends the
      analysed prefix. */
  lemma AnalysedGrows(enc: Encounter, engine: Engine, m: map<string, Perspective>, m': map<string, Perspective>,
                      done: seq<string>, batch: seq<string>)
    requires Analysed(enc, engine, m, done) && Analysed(enc, engine, m', batch)
    requires Untouched(enc, m, m', batch)
    requires forall id :: id in done ==> id !in batch
    ensures Analysed(enc, engine, m', done + batch)
  {
    forall id | id in done
      ensures Same(m', m, id)
    {
      assert id !in batch;
    }
  }

  lemma UntouchedTrans(enc: Encounter, m1: map<string, Perspective>, m2: map<string, Perspective>,
                       m3: map<string, Perspective>, done: seq<string>, batch: seq<string>)
    requires Untouched(enc, m1, m2, done) && Untouched(enc, m2, m3, batch)
    ensures Untouched(enc, m1, m3, done + batch)
  {
  }

  lemma UntouchedWithin(enc: Encounter, m: map<string, Perspective>, m': map<string, Perspective>,
                        ids: seq<string>, s: seq<string>)
    requires Untouched(enc, m, m', ids) && ids <= s
    ensures Untouched(enc, m, m', s)
  {
  }

  /** What replaying `n` lines guarantees about a member's state: each
      resolver fired on an earlier line and carries that line's timestamp;
      no finalizer still queued was due before the cursor; and every reported
      entry was resolved on one of those lines, no earlier than its trigger
      fired, with its offset measured from the encounter start, and the
      entries are listed in the order they resolved. */
  ghost predicate ReplayedUpTo(enc: Encounter, t: Track, n: nat)
    requires n <= |enc.logLines|
  {
    FiredBefore(enc, t.ctx.resolvers, n) && DueFrom(t.ctx.pending, n) && ResolvedBefore(enc, t.triggers, n)
  }

  ghost predicate FiredBefore(enc: Encounter, res: seq<Resolver>, n: nat)
    requires n <= |enc.logLines|
  {
    forall i :: 0 <= i < |res| ==>
      res[i].firedAt < n && res[i].helper.timestamp == enc.logLines[res[i].firedAt].timestamp
  }

  ghost predicate DueFrom(q: seq<Pending>, n: nat)
  {
    forall j :: 0 <= j < |q| ==> q[j].due >= n
  }

  ghost predicate ResolvedBefore(enc: Encounter, es: seq<PerspectiveTrigger>, n: nat)
    requires n <= |enc.logLines|
  {
    (forall e :: 0 <= e < |es| ==> ResolvedOn(enc, es[e], n)) && OffsetsInOrder(es)
  }

  /** Entries appear in the order they were resolved: offsets never decrease. */
  ghost predicate OffsetsInOrder(es: seq<PerspectiveTrigger>)
  {
    forall e :: 0 < e < |es| ==> es[e - 1].resolvedOffset <= es[e].resolvedOffset
  }

  ghost predicate ResolvedOn(enc: Encounter, e: PerspectiveTrigger, n: nat)
    requires n <= |enc.logLines|
  {
    (exists k :: 0 <= k < n && e.logLine == enc.logLines[k]) &&
    e.triggerHelper.timestamp <= e.logLine.timestamp &&
    e.resolvedOffset == e.logLine.timestamp - enc.startTimestamp
  }

  /** Firings on the line at `idx` fire on that line. */
  lemma FiringsFireHere(enc: Encounter, c0: Ctx, fs: seq<Firing>, idx: nat)
    requires idx < |enc.logLines|
    requires FiredBefore(enc, c0.resolvers, idx)
    ensures FiredBefore(enc, FireAll(c0, fs, enc.logLines[idx], idx).resolvers, idx + 1)
  {
    var c1 := FireAll(c0, fs, enc.logLines[idx], idx);
    assert forall i :: 0 <= i < |c0.resolvers| ==> c1.resolvers[i] == c0.resolvers[i] by {
      assert c1.resolvers[..|c0.resolvers|] == c0.resolvers;
    }
  }

  /** The finalizers drained at `idx` report entries resolved on that line,
      no earlier than their trigger fired. */
  lemma DrainResolvesHere(enc: Encounter, c1: Ctx, idx: nat)
    requires Chronological(enc.logLines)
    requires idx < |enc.logLines|
    requires QueueWf(c1.resolvers, c1.pending)
    requires FiredBefore(enc, c1.resolvers, idx + 1)
    ensures var out := DrainQueue(c1.resolvers, c1.data, c1.pending, enc.logLines[idx], idx);
      FiredBefore(enc, out.0, idx + 1) && DueFrom(out.1, idx + 1) &&
      ResolvedBefore(enc, Entries(out.2, enc.startTimestamp), idx + 1) &&
      forall e :: 0 <= e < |out.2| ==> Entries(out.2, enc.startTimestamp)[e].logLine == enc.logLines[idx]
  {
    var line := enc.logLines[idx];
    var out := DrainQueue(c1.resolvers, c1.data, c1.pending, line, idx);
    var added := Entries(out.2, enc.startTimestamp);
    forall e | 0 <= e < |added|
      ensures ResolvedOn(enc, added[e], idx + 1)
    {
      var r := out.2[e];
      var i :| 0 <= i < |c1.resolvers| && r.helper == c1.resolvers[i].helper && c1.resolvers[i].firedAt <= idx;
      assert added[e].logLine == enc.logLines[idx];
    }
  }

  /** Entries resolved on the line at `n` follow those resolved before it. */
  lemma ResolvedBeforeGrows(enc: Encounter, es: seq<PerspectiveTrigger>, added: seq<PerspectiveTrigger>, n: nat)
    requires Chronological(enc.logLines)
    requires n < |enc.logLines|
    requires ResolvedBefore(enc, es, n) && ResolvedBefore(enc, added, n + 1)
    requires forall e :: 0 <= e < |added| ==> added[e].logLine == enc.logLines[n]
    ensures ResolvedBefore(enc, es + added, n + 1)
  {
    var all := es + added;
    forall e | 0 <= e < |all|
      ensures ResolvedOn(enc, all[e], n + 1)
    {
      if e < |es| {
        assert ResolvedOn(enc, es[e], n);
      } else {
        assert all[e] == added[e - |es|];
      }
    }
    forall e | 0 < e < |all|
      ensures all[e - 1].resolvedOffset <= all[e].resolvedOffset
    {
      if e < |es| {
        assert all[e - 1] == es[e - 1] && all[e] == es[e];
      } else if e == |es| {
        assert ResolvedOn(enc, es[e - 1], n);
        var k :| 0 <= k < n && es[e - 1].logLine == enc.logLines[k];
        assert all[e] == added[0];
      } else {
        assert all[e - 1] == added[e - 1 - |es|] && all[e] == added[e - |es|];
      }
    }
  }

  /** One cursor step keeps `ReplayedUpTo`, one line further. */
  lemma LineStepInvariant(enc: Encounter, engine: Engine, id: string, t: Track, idx: nat, t': Track)
    requires Chronological(enc.logLines)
    requires idx < |enc.logLines|
    requires QueueWf(t.ctx.resolvers, t.ctx.pending)
    requires ReplayedUpTo(enc, t, idx)
    requires LineStep(enc, engine, id, t, idx) == Ok(t')
    ensures ReplayedUpTo(enc, t', idx + 1)
  {
    var line := enc.logLines[idx];
    var u := PlayerUpdate(enc, id, line.timestamp).value;
    var c0 := if u.Some? then t.ctx.(data := t.ctx.data.(player := u)) else t.ctx;
    var fs := engine.fire(c0.data, line);
    var c1 := FireAll(c0, fs, line, idx);
    FiringsFireHere(enc, c0, fs, idx);
    DrainResolvesHere(enc, c1, idx);
    var out := DrainQueue(c1.resolvers, c1.data, c1.pending, line, idx);
    var added := Entries(out.2, enc.startTimestamp);
    ResolvedBeforeGrows(enc, t.triggers, added, idx);
    assert LineStep(enc, engine, id, t, idx) == Ok(Track(Ctx(c1.data, out.0, out.1), t.triggers + added));
  }

  lemma {:induction false} ReplayInvariant(enc: Encounter, engine: Engine, id: string, d0: DataValue, n: nat, t: Track)
    requires Chronological(enc.logLines)
    requires Reached(enc, engine, id, d0, n, t)
    ensures ReplayedUpTo(enc, t, n)
    decreases n
  {
    if n == 0 {
      ReplayStart(enc, engine, id, d0, t);
    } else {
      var t0 := ReplayOkBefore(enc, engine, id, d0, n - 1, t);
      ReplayInvariant(enc, engine, id, d0, n - 1, t0);
      ReplayedStepFrom(enc, engine, id, d0, n, t0, t);
    }
  }

  /** A replay step from a state reached on line `n - 1` keeps
      `ReplayedUpTo` through line `n`. */
  lemma ReplayedStepFrom(enc: Encounter, engine: Engine, id: string, d0: DataValue, n: nat, t0: Track, t: Track)
    requires Chronological(enc.logLines) && 0 < n <= |enc.logLines|
    requires Reached(enc, engine, id, d0, n - 1, t0) && ReplayedUpTo(enc, t0, n - 1)
    requires LineStep(enc, engine, id, t0, n - 1) == Ok(t)
    ensures ReplayedUpTo(enc, t, n)
  {
    var m := n - 1;
    LineStepInvariant(enc, engine, id, t0, m, t);
    assert m + 1 == n;
  }

  /** For a member whose analysis completes: every trigger in its perspective
      resolved on a line of the log, not before the line that fired it; the
      triggers are listed in the order they resolved, so their offsets never
      decrease; and every firing whose finalizer never ran was due only after
      the last line. */
  lemma ResolvedNotBeforeFired(enc: Encounter, engine: Engine, id: string)
    requires Chronological(enc.logLines)
    requires MemberAnalysis(enc, engine, id).Ok?
    ensures var t := MemberAnalysis(enc, engine, id).value.1;
      (forall e :: 0 <= e < |t.triggers| ==>
        t.triggers[e].resolvedOffset >= t.triggers[e].triggerHelper.timestamp - enc.startTimestamp &&
        exists k :: 0 <= k < |enc.logLines| && t.triggers[e].logLine == enc.logLines[k]) &&
      (forall e :: 0 < e < |t.triggers| ==> t.triggers[e - 1].resolvedOffset <= t.triggers[e].resolvedOffset) &&
      (forall j :: 0 <= j < |t.ctx.pending| ==> t.ctx.pending[j].due >= |enc.logLines|)
  {
    var d0 := SelectData(enc, id, engine.initialData).value;
    ReplayInvariant(enc, engine, id, d0, |enc.logLines|, MemberAnalysis(enc, engine, id).value.1);
  }

  // ------------------------------------------- each firing's entry, on time

  /** Resolver `r` still has a finalizer in `q`. */
  ghost predicate Queued(q: seq<Pending>, r: nat)
  {
    exists j :: 0 <= j < |q| && q[j].resolver == r
  }

  /** Some entry of `es` was reported for the firing handed helper `h`. */
  ghost predicate Reported(es: seq<PerspectiveTrigger>, h: TriggerHelper)
  {
    exists e :: 0 <= e < |es| && es[e].triggerHelper == h
  }

  /** Entry `e` belongs to the resolver its helper names, whose work
      completed before line `n`, and was reported on the line where it
      completed, at that line's offset from the encounter start. */
  ghost predicate EntryOf(enc: Encounter, res: seq<Resolver>, e: PerspectiveTrigger, n: nat)
    requires n <= |enc.logLines|
  {
    var r := e.triggerHelper.serial;
    r < |res| && res[r].helper == e.triggerHelper && res[r].due < n &&
    e.logLine == enc.logLines[res[r].due] && e.resolvedOffset == e.logLine.timestamp - enc.startTimestamp
  }

  /** What replaying `n` lines guarantees about firing number `r`: its
      helper names its own resolver and its work completes no earlier than
      it fired; while its work has not completed its finalizer stays queued;
      once it has, the perspective holds an entry for it. */
  ghost predicate FiringOnTime(enc: Encounter, t: Track, n: nat, r: nat)
    requires r < |t.ctx.resolvers|
  {
    var res := t.ctx.resolvers;
    res[r].helper.serial == r && res[r].firedAt <= res[r].due &&
    (res[r].due >= n ==> Queued(t.ctx.pending, r)) &&
    (res[r].due < n ==> Reported(t.triggers, res[r].helper))
  }

  /** What replaying `n` lines guarantees about every firing and every
      entry: each firing is on time, no queued finalizer was due before the
      cursor, and every entry belongs to a firing whose work completed,
      reported on the line where it completed. */
  ghost predicate OnTime(enc: Encounter, t: Track, n: nat)
    requires n <= |enc.logLines|
  {
    DueFrom(t.ctx.pending, n) &&
    (forall r :: 0 <= r < |t.ctx.resolvers| ==> FiringOnTime(enc, t, n, r)) &&
    (forall e :: 0 <= e < |t.triggers| ==> EntryOf(enc, t.ctx.resolvers, t.triggers[e], n))
  }

  /** Firing `i` of the line at `idx` gets a resolver that names its own
      position, completes at or after `idx`, and has its finalizer queued. */
  lemma NewFiring(c0: Ctx, fs: seq<Firing>, line: LogLine, idx: nat, i: nat)
    requires i < |fs|
    ensures var c1 := FireAll(c0, fs, line, idx); var r := |c0.resolvers| + i;
      c1.resolvers[r].helper.serial == r && c1.resolvers[r].firedAt == idx <= c1.resolvers[r].due &&
      c1.pending[|c0.pending| + i].resolver == r
  {
    FireAllFiring(c0, fs, line, idx, i);
  }

  /** A resolver that had its finalizer queued still has it once the
      queue has grown. */
  lemma OldFiring(c0: Ctx, c1: Ctx, r: nat, idx: nat)
    requires |c0.pending| <= |c1.pending| && c1.pending[..|c0.pending|] == c0.pending
    requires Queued(c0.pending, r)
    ensures Queued(c1.pending, r)
  {
    var j :| 0 <= j < |c0.pending| && c0.pending[j].resolver == r;
    assert c1.pending[j] == c1.pending[..|c0.pending|][j];
  }

  /** Growing the resolvers and the queue at their ends keeps the older
      firings on time and the entries tied to their completion lines. */
  lemma OnTimeGrows(enc: Encounter, c0: Ctx, c1: Ctx, es: seq<PerspectiveTrigger>, idx: nat)
    requires idx <= |enc.logLines|
    requires OnTime(enc, Track(c0, es), idx)
    requires |c0.resolvers| <= |c1.resolvers| && c1.resolvers[..|c0.resolvers|] == c0.resolvers
    requires |c0.pending| <= |c1.pending| && c1.pending[..|c0.pending|] == c0.pending
    ensures forall r :: 0 <= r < |c0.resolvers| ==> FiringOnTime(enc, Track(c1, es), idx, r)
    ensures forall e :: 0 <= e < |es| ==> EntryOf(enc, c1.resolvers, es[e], idx)
    ensures forall j :: 0 <= j < |c0.pending| ==> c1.pending[j].due >= idx
  {
    var r0, p0 := |c0.resolvers|, |c0.pending|;
    assert forall r :: 0 <= r < r0 ==> c1.resolvers[r] == c0.resolvers[r] by {
      assert c1.resolvers[..r0] == c0.resolvers;
    }
    assert forall j :: 0 <= j < p0 ==> c1.pending[j] == c0.pending[j] by {
      assert c1.pending[..p0] == c0.pending;
    }
    forall r | 0 <= r < r0
      ensures FiringOnTime(enc, Track(c1, es), idx, r)
    {
      assert FiringOnTime(enc, Track(c0, es), idx, r);
      if c0.resolvers[r].due >= idx {
        OldFiring(c0, c1, r, idx);
      }
    }
    forall e | 0 <= e < |es|
      ensures EntryOf(enc, c1.resolvers, es[e], idx)
    {
      assert EntryOf(enc, c0.resolvers, es[e], idx);
    }
  }

  /** The firings of the line at `idx` keep `OnTime`. */
  lemma OnTimeFires(enc: Encounter, c0: Ctx, fs: seq<Firing>, es: seq<PerspectiveTrigger>, idx: nat)
    requires idx < |enc.logLines|
    requires OnTime(enc, Track(c0, es), idx)
    ensures OnTime(enc, Track(FireAll(c0, fs, enc.logLines[idx], idx), es), idx)
  {
    var line := enc.logLines[idx];
    var c1 := FireAll(c0, fs, line, idx);
    var r0 := |c0.resolvers|;
    OnTimeGrows(enc, c0, c1, es, idx);
    forall r | r0 <= r < |c1.resolvers|
      ensures FiringOnTime(enc, Track(c1, es), idx, r)
    {
      NewFiring(c0, fs, line, idx, r - r0);
    }
  }

  /** A finalizer not yet due stays queued through a drain. */
  lemma StillQueued(res: seq<Resolver>, data: DataValue, q: seq<Pending>, line: LogLine, idx: nat, r: nat)
    requires QueueWf(res, q) && r < |res| && res[r].due > idx && Queued(q, r)
    ensures Queued(DrainQueue(res, data, q, line, idx).1, r)
  {
    DrainLater(res, data, q, line, idx);
    var j :| 0 <= j < |q| && q[j].resolver == r;
    assert q[j] in Later(q, idx);
    var j' :| 0 <= j' < |Later(q, idx)| && Later(q, idx)[j'] == q[j];
  }

  /** A firing whose finalizer is due at `idx` gets its entry from the drain
      at `idx`. */
  lemma ReportedNow(res: seq<Resolver>, data: DataValue, q: seq<Pending>, line: LogLine, idx: nat, r: nat,
                    es: seq<PerspectiveTrigger>, start: int)
    requires QueueWf(res, q) && r < |res| && res[r].due == idx && Queued(q, r)
    ensures Reported(es + Entries(DrainQueue(res, data, q, line, idx).2, start), res[r].helper)
  {
    var out := DrainQueue(res, data, q, line, idx);
    var j :| 0 <= j < |q| && q[j].resolver == r;
    assert q[j] in Due(q, idx);
    var k :| 0 <= k < |Due(q, idx)| && Due(q, idx)[k] == q[j];
    DrainReport(res, data, q, line, idx, k);
    assert (es + Entries(out.2, start))[|es| + k].triggerHelper == out.2[k].helper;
  }

  /** A drain at `idx` keeps firing `r` on time, one line further. */
  lemma DrainedOnTime(enc: Encounter, c1: Ctx, es: seq<PerspectiveTrigger>, idx: nat, r: nat)
    requires idx < |enc.logLines|
    requires QueueWf(c1.resolvers, c1.pending) && r < |c1.resolvers|
    requires FiringOnTime(enc, Track(c1, es), idx, r)
    ensures var out := DrainQueue(c1.resolvers, c1.data, c1.pending, enc.logLines[idx], idx);
      FiringOnTime(enc, Track(Ctx(c1.data, out.0, out.1), es + Entries(out.2, enc.startTimestamp)), idx + 1, r)
  {
    var line := enc.logLines[idx];
    var res, q := c1.resolvers, c1.pending;
    var out := DrainQueue(res, c1.data, q, line, idx);
    var es' := es + Entries(out.2, enc.startTimestamp);
    if res[r].due > idx {
      StillQueued(res, c1.data, q, line, idx, r);
    } else if res[r].due < idx {
      var e :| 0 <= e < |es| && es[e].triggerHelper == res[r].helper;
      assert es'[e] == es[e];
    } else {
      ReportedNow(res, c1.data, q, line, idx, r, es, enc.startTimestamp);
    }
  }

  /** The `k`-th entry a drain at `idx` reports belongs to a firing whose
      work completes at `idx`, and is reported on that line. */
  lemma DrainedEntry(enc: Encounter, c1: Ctx, idx: nat, k: nat)
    requires idx < |enc.logLines|
    requires QueueWf(c1.resolvers, c1.pending) && DueFrom(c1.pending, idx)
    requires forall r :: 0 <= r < |c1.resolvers| ==> c1.resolvers[r].helper.serial == r
    requires k < |DrainQueue(c1.resolvers, c1.data, c1.pending, enc.logLines[idx], idx).2|
    ensures var out := DrainQueue(c1.resolvers, c1.data, c1.pending, enc.logLines[idx], idx);
      EntryOf(enc, out.0, Entry(out.2[k], enc.startTimestamp), idx + 1)
  {
    var line := enc.logLines[idx];
    var res, q := c1.resolvers, c1.pending;
    DrainLater(res, c1.data, q, line, idx);
    DrainReport(res, c1.data, q, line, idx, k);
    var p := Due(q, idx)[k];
    var j :| 0 <= j < |q| && q[j] == p;
  }

  /** The finalizers drained at `idx` keep `OnTime`, one line further. */
  lemma OnTimeDrains(enc: Encounter, c1: Ctx, es: seq<PerspectiveTrigger>, idx: nat)
    requires idx < |enc.logLines|
    requires QueueWf(c1.resolvers, c1.pending)
    requires OnTime(enc, Track(c1, es), idx)
    ensures var out := DrainQueue(c1.resolvers, c1.data, c1.pending, enc.logLines[idx], idx);
      OnTime(enc, Track(Ctx(c1.data, out.0, out.1), es + Entries(out.2, enc.startTimestamp)), idx + 1)
  {
    var line := enc.logLines[idx];
    var res, q := c1.resolvers, c1.pending;
    var out := DrainQueue(res, c1.data, q, line, idx);
    var added := Entries(out.2, enc.startTimestamp);
    var t' := Track(Ctx(c1.data, out.0, out.1), es + added);
    var next := idx + 1;
    forall r | 0 <= r < |out.0|
      ensures FiringOnTime(enc, t', next, r)
    {
      assert FiringOnTime(enc, Track(c1, es), idx, r);
      DrainedOnTime(enc, c1, es, idx, r);
    }
    assert forall r :: 0 <= r < |res| ==> res[r].helper.serial == r by {
      forall r | 0 <= r < |res|
        ensures res[r].helper.serial == r
      {
        assert FiringOnTime(enc, Track(c1, es), idx, r);
      }
    }
    forall e | 0 <= e < |es + added|
      ensures EntryOf(enc, out.0, (es + added)[e], idx + 1)
    {
      if e < |es| {
        assert (es + added)[e] == es[e] && EntryOf(enc, res, es[e], idx);
      } else {
        DrainedEntry(enc, c1, idx, e - |es|);
      }
    }
  }

  /** One cursor step keeps `OnTime`, one line further. */
  lemma OnTimeStep(enc: Encounter, engine: Engine, id: string, t: Track, idx: nat, t': Track)
    requires idx < |enc.logLines|
    requires QueueWf(t.ctx.resolvers, t.ctx.pending)
    requires OnTime(enc, t, idx)
    requires LineStep(enc, engine, id, t, idx) == Ok(t')
    ensures OnTime(enc, t', idx + 1)
  {
    var line := enc.logLines[idx];
    var u := PlayerUpdate(enc, id, line.timestamp).value;
    var c0 := if u.Some? then t.ctx.(data := t.ctx.data.(player := u)) else t.ctx;
    forall r | 0 <= r < |c0.resolvers|
      ensures FiringOnTime(enc, Track(c0, t.triggers), idx, r)
    {
      assert FiringOnTime(enc, t, idx, r);
    }
    var fs := engine.fire(c0.data, line);
    var c1 := FireAll(c0, fs, line, idx);
    OnTimeFires(enc, c0, fs, t.triggers, idx);
    OnTimeDrains(enc, c1, t.triggers, idx);
    var out := DrainQueue(c1.resolvers, c1.data, c1.pending, line, idx);
    assert LineStep(enc, engine, id, t, idx) ==
      Ok(Track(Ctx(c1.data, out.0, out.1), t.triggers + Entries(out.2, enc.startTimestamp)));
  }

  lemma {:induction false} ReplayOnTime(enc: Encounter, engine: Engine, id: string, d0: DataValue, n: nat, t: Track)
    requires Reached(enc, engine, id, d0, n, t)
    ensures OnTime(enc, t, n)
    decreases n
  {
    if n == 0 {
      ReplayStart(enc, engine, id, d0, t);
    } else {
      var t0 := ReplayOkBefore(enc, engine, id, d0, n - 1, t);
      ReplayOnTime(enc, engine, id, d0, n - 1, t0);
      OnTimeStepFrom(enc, engine, id, d0, n, t0, t);
    }
  }

  /** A replay step from a state reached on line `n - 1` keeps `OnTime`
      through line `n`. */
  lemma OnTimeStepFrom(enc: Encounter, engine: Engine, id: string, d0: DataValue, n: nat, t0: Track, t: Track)
    requires 0 < n <= |enc.logLines|
    requires Reached(enc, engine, id, d0, n - 1, t0) && OnTime(enc, t0, n - 1)
    requires LineStep(enc, engine, id, t0, n - 1) == Ok(t)
    ensures OnTime(enc, t, n)
  {
    var m := n - 1;
    OnTimeStep(enc, engine, id, t0, m, t);
    assert m + 1 == n;
  }

  /** Before any line, the replay holds nothing: both invariants hold. */
  lemma ReplayStart(enc: Encounter, engine: Engine, id: string, d0: DataValue, t: Track)
    requires Reached(enc, engine, id, d0, 0, t)
    ensures t == Track(Ctx(d0, [], []), [])
    ensures ReplayedUpTo(enc, t, 0) && OnTime(enc, t, 0)
  {
  }

  /** No two entries of `es` carry the same helper. */
  ghost predicate EntriesUnique(es: seq<PerspectiveTrigger>)
  {
    forall e, e' :: 0 <= e < e' < |es| ==> es[e].triggerHelper != es[e'].triggerHelper
  }

  /** Each firing has at most one finalizer queued and at most one entry. */
  ghost predicate OnceEach(t: Track)
  {
    QueueUnique(t.ctx.pending) && EntriesUnique(t.triggers)
  }

  /** A queue without repeated resolvers, all numbered below `r0`, grown
      at its end by finalizers for resolvers `r0`, `r0 + 1`, ... in turn,
      still has no repeated resolver. */
  lemma QueueGrowsUnique(q0: seq<Pending>, q1: seq<Pending>, r0: nat)
    requires QueueUnique(q0) && forall j :: 0 <= j < |q0| ==> q0[j].resolver < r0
    requires |q0| <= |q1| && q1[..|q0|] == q0
    requires forall j :: |q0| <= j < |q1| ==> q1[j].resolver == r0 + (j - |q0|)
    ensures QueueUnique(q1)
  {
    assert forall j :: 0 <= j < |q0| ==> q1[j] == q0[j] by {
      assert q1[..|q0|] == q0;
    }
  }

  /** The firings of a line queue one finalizer each, for resolvers that
      had none. */
  lemma UniqueFires(c0: Ctx, fs: seq<Firing>, line: LogLine, idx: nat)
    requires QueueWf(c0.resolvers, c0.pending) && QueueUnique(c0.pending)
    ensures QueueUnique(FireAll(c0, fs, line, idx).pending)
  {
    var c1 := FireAll(c0, fs, line, idx);
    var r0, p0 := |c0.resolvers|, |c0.pending|;
    forall j | p0 <= j < |c1.pending|
      ensures c1.pending[j].resolver == r0 + (j - p0)
    {
      FireAllFiring(c0, fs, line, idx, j - p0);
    }
    QueueGrowsUnique(c0.pending, c1.pending, r0);
  }

  /** Every resolver's helper names the resolver's own position. */
  ghost predicate Serials(res: seq<Resolver>)
  {
    forall r :: 0 <= r < |res| ==> res[r].helper.serial == r
  }

  lemma SerialsOnTime(enc: Encounter, t: Track, n: nat)
    requires n <= |enc.logLines| && OnTime(enc, t, n)
    ensures Serials(t.ctx.resolvers)
  {
    forall r | 0 <= r < |t.ctx.resolvers|
      ensures t.ctx.resolvers[r].helper.serial == r
    {
      assert FiringOnTime(enc, t, n, r);
    }
  }

  /** Report `rep` is for the resolver its helper names, whose work
      completes at `idx`. */
  ghost predicate DueReport(res: seq<Resolver>, rep: Report, idx: nat)
  {
    var r := rep.helper.serial;
    r < |res| && res[r].helper == rep.helper && res[r].due == idx
  }

  /** The `k`-th report of the drain at `idx` is for a firing whose work
      completes at `idx`. */
  lemma ReportDue(res: seq<Resolver>, data: DataValue, q: seq<Pending>, line: LogLine, idx: nat, k: nat)
    requires QueueWf(res, q) && DueFrom(q, idx) && k < |Due(q, idx)| && Serials(res)
    ensures k < |DrainQueue(res, data, q, line, idx).2| && DueReport(res, DrainQueue(res, data, q, line, idx).2[k], idx)
  {
    DrainReport(res, data, q, line, idx, k);
    var j :| 0 <= j < |q| && q[j] == Due(q, idx)[k];
  }

  /** Two reports of one drain are for two different firings. */
  lemma ReportsApart(res: seq<Resolver>, data: DataValue, q: seq<Pending>, line: LogLine, idx: nat, k: nat, k': nat)
    requires QueueWf(res, q) && QueueUnique(Due(q, idx)) && k < k' < |Due(q, idx)| && Serials(res)
    ensures var out := DrainQueue(res, data, q, line, idx);
      k' < |out.2| && out.2[k].helper != out.2[k'].helper
  {
    DrainReport(res, data, q, line, idx, k);
    DrainReport(res, data, q, line, idx, k');
  }

  /** The drain at `idx` reports only firings whose work completes at
      `idx`, each at most once. */
  lemma DrainReportsFit(res: seq<Resolver>, data: DataValue, q: seq<Pending>, line: LogLine, idx: nat)
    requires QueueWf(res, q) && DueFrom(q, idx) && QueueUnique(Due(q, idx)) && Serials(res)
    ensures var reps := DrainQueue(res, data, q, line, idx).2;
      (forall k :: 0 <= k < |reps| ==> DueReport(res, reps[k], idx)) &&
      (forall k, k' :: 0 <= k < k' < |reps| ==> reps[k].helper != reps[k'].helper)
  {
    var reps := DrainQueue(res, data, q, line, idx).2;
    DrainLater(res, data, q, line, idx);
    forall k | 0 <= k < |reps|
      ensures DueReport(res, reps[k], idx)
    {
      ReportDue(res, data, q, line, idx, k);
    }
    forall k, k' | 0 <= k < k' < |reps|
      ensures reps[k].helper != reps[k'].helper
    {
      ReportsApart(res, data, q, line, idx, k, k');
    }
  }

  /** Appending the entries of reports for firings whose work completes at
      `idx`, each reported once, to entries of firings whose work completed
      earlier, keeps one entry per firing. */
  lemma AppendApart(enc: Encounter, res: seq<Resolver>, es: seq<PerspectiveTrigger>, reps: seq<Report>, idx: nat)
    requires idx <= |enc.logLines|
    requires EntriesUnique(es) && forall e :: 0 <= e < |es| ==> EntryOf(enc, res, es[e], idx)
    requires forall k :: 0 <= k < |reps| ==> DueReport(res, reps[k], idx)
    requires forall k, k' :: 0 <= k < k' < |reps| ==> reps[k].helper != reps[k'].helper
    ensures EntriesUnique(es + Entries(reps, enc.startTimestamp))
  {
    var all := es + Entries(reps, enc.startTimestamp);
    forall e, e' | 0 <= e < e' < |all|
      ensures all[e].triggerHelper != all[e'].triggerHelper
    {
      if e' < |es| {
        assert all[e] == es[e] && all[e'] == es[e'];
      } else if e < |es| {
        assert all[e] == es[e] && EntryOf(enc, res, es[e], idx);
        assert all[e'].triggerHelper == reps[e' - |es|].helper && DueReport(res, reps[e' - |es|], idx);
      } else {
        assert all[e].triggerHelper == reps[e - |es|].helper && all[e'].triggerHelper == reps[e' - |es|].helper;
      }
    }
  }

  /** The drain at `idx` keeps each firing to at most one queued finalizer
      and at most one entry: it reports each due finalizer once, for a
      firing that had no entry yet. */
  lemma UniqueDrains(enc: Encounter, c1: Ctx, es: seq<PerspectiveTrigger>, idx: nat)
    requires idx < |enc.logLines|
    requires QueueWf(c1.resolvers, c1.pending) && QueueUnique(c1.pending)
    requires OnTime(enc, Track(c1, es), idx) && EntriesUnique(es)
    ensures var out := DrainQueue(c1.resolvers, c1.data, c1.pending, enc.logLines[idx], idx);
      QueueUnique(out.1) && EntriesUnique(es + Entries(out.2, enc.startTimestamp))
  {
    var line := enc.logLines[idx];
    var res, q := c1.resolvers, c1.pending;
    DrainLater(res, c1.data, q, line, idx);
    DueUnique(q, idx);
    LaterUnique(q, idx);
    SerialsOnTime(enc, Track(c1, es), idx);
    DrainReportsFit(res, c1.data, q, line, idx);
    AppendApart(enc, res, es, DrainQueue(res, c1.data, q, line, idx).2, idx);
  }

  /** One cursor step keeps `OnceEach`. */
  lemma OnceEachStep(enc: Encounter, engine: Engine, id: string, t: Track, idx: nat, t': Track)
    requires idx < |enc.logLines|
    requires QueueWf(t.ctx.resolvers, t.ctx.pending)
    requires OnTime(enc, t, idx) && OnceEach(t)
    requires LineStep(enc, engine, id, t, idx) == Ok(t')
    ensures OnceEach(t')
  {
    var line := enc.logLines[idx];
    var u := PlayerUpdate(enc, id, line.timestamp).value;
    var c0 := if u.Some? then t.ctx.(data := t.ctx.data.(player := u)) else t.ctx;
    forall r | 0 <= r < |c0.resolvers|
      ensures FiringOnTime(enc, Track(c0, t.triggers), idx, r)
    {
      assert FiringOnTime(enc, t, idx, r);
    }
    var fs := engine.fire(c0.data, line);
    var c1 := FireAll(c0, fs, line, idx);
    OnTimeFires(enc, c0, fs, t.triggers, idx);
    UniqueFires(c0, fs, line, idx);
    UniqueDrains(enc, c1, t.triggers, idx);
    var out := DrainQueue(c1.resolvers, c1.data, c1.pending, line, idx);
    assert LineStep(enc, engine, id, t, idx) ==
      Ok(Track(Ctx(c1.data, out.0, out.1), t.triggers + Entries(out.2, enc.startTimestamp)));
  }

  /** After any number of lines, each firing has at most one finalizer
      queued and at most one entry. */
  lemma {:induction false} ReplayOnceEach(enc: Encounter, engine: Engine, id: string, d0: DataValue, n: nat, t: Track)
    requires Reached(enc, engine, id, d0, n, t)
    ensures OnceEach(t)
    decreases n
  {
    if n == 0 {
      ReplayStart(enc, engine, id, d0, t);
    } else {
      var t0 := ReplayOkBefore(enc, engine, id, d0, n - 1, t);
      ReplayOnceEach(enc, engine, id, d0, n - 1, t0);
      OnceEachStepFrom(enc, engine, id, d0, n, t0, t);
    }
  }

  /** A replay step from a state reached on line `n - 1` keeps `OnceEach`
      through line `n`. */
  lemma OnceEachStepFrom(enc: Encounter, engine: Engine, id: string, d0: DataValue, n: nat, t0: Track, t: Track)
    requires 0 < n <= |enc.logLines|
    requires Reached(enc, engine, id, d0, n - 1, t0) && OnceEach(t0)
    requires LineStep(enc, engine, id, t0, n - 1) == Ok(t)
    ensures OnceEach(t)
  {
    var m := n - 1;
    ReplayOnTime(enc, engine, id, d0, m, t0);
    OnceEachStep(enc, engine, id, t0, m, t);
  }

  /** A member whose analysis completes ends the log with every firing on
      time. */
  lemma AnalysisOnTime(enc: Encounter, engine: Engine, id: string, d0: DataValue, t: Track)
    requires MemberAnalysis(enc, engine, id) == Ok((d0, t))
    ensures OnTime(enc, t, |enc.logLines|)
  {
    ReplayOnTime(enc, engine, id, d0, |enc.logLines|, t);
  }

  /** For a member whose analysis completes, firing number `r` (which fired
      on line `firedAt` and whose asynchronous work completes on line `due`):
      if that line is in the log, the perspective holds an entry for it, and
      every entry for it names that line and that line's offset from the
      encounter start; otherwise it has no entry and its finalizer is still
      queued. */
  lemma FiringReportedOnTime(enc: Encounter, engine: Engine, id: string, d0: DataValue, t: Track, r: nat)
    requires MemberAnalysis(enc, engine, id) == Ok((d0, t))
    requires r < |t.ctx.resolvers|
    ensures var f := t.ctx.resolvers[r];
      f.firedAt <= f.due &&
      (f.due < |enc.logLines| ==> exists e :: 0 <= e < |t.triggers| && t.triggers[e].triggerHelper == f.helper) &&
      (f.due >= |enc.logLines| ==> exists j :: 0 <= j < |t.ctx.pending| && t.ctx.pending[j].resolver == r)
    ensures var f := t.ctx.resolvers[r];
      forall e :: 0 <= e < |t.triggers| && t.triggers[e].triggerHelper == f.helper ==>
        f.due < |enc.logLines| && t.triggers[e].logLine == enc.logLines[f.due] &&
        t.triggers[e].resolvedOffset == enc.logLines[f.due].timestamp - enc.startTimestamp
    ensures var f := t.ctx.resolvers[r];
      forall e, e' ::
        (0 <= e < |t.triggers| && 0 <= e' < |t.triggers| &&
         t.triggers[e].triggerHelper == f.helper && t.triggers[e'].triggerHelper == f.helper) ==> e == e'
  {
    ReplayOnceEach(enc, engine, id, d0, |enc.logLines|, t);
    var n := |enc.logLines|;
    AnalysisOnTime(enc, engine, id, d0, t);
    assert FiringOnTime(enc, t, n, r);
    forall e | 0 <= e < |t.triggers| && t.triggers[e].triggerHelper == t.ctx.resolvers[r].helper
      ensures t.ctx.resolvers[r].due < n && t.triggers[e].logLine == enc.logLines[t.ctx.resolvers[r].due]
    {
      assert EntryOf(enc, t.ctx.resolvers, t.triggers[e], n);
    }
  }

  /** For a member whose analysis completes, every entry of its perspective
      belongs to a firing whose work completed on a line of the log, and was
      reported on that line. */
  lemma EntryReportedOnTime(enc: Encounter, engine: Engine, id: string, d0: DataValue, t: Track, e: nat)
    requires MemberAnalysis(enc, engine, id) == Ok((d0, t))
    requires e < |t.triggers|
    ensures exists r ::
      0 <= r < |t.ctx.resolvers| && t.triggers[e].triggerHelper == t.ctx.resolvers[r].helper &&
      t.ctx.resolvers[r].due < |enc.logLines| && t.triggers[e].logLine == enc.logLines[t.ctx.resolvers[r].due]
  {
    AnalysisOnTime(enc, engine, id, d0, t);
    assert EntryOf(enc, t.ctx.resolvers, t.triggers[e], |enc.logLines|);
  }
}
