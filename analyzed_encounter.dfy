/** The `AnalyzedEncounter` class: the imperative replay loops, each proved
    against the value-level replay of `ReplaySpec`. */
module Orchestrator {
  import opened Outcomes
  import opened Log
  import opened Resolution
  import opened ReplaySpec

  /** The objects a batch's contexts own. */
  ghost function Footprint(ctxs: seq<PopupTextAnalysis>): set<object>
  {
    (set j | 0 <= j < |ctxs| :: ctxs[j] as object) + (set j | 0 <= j < |ctxs| :: ctxs[j].data as object)
  }

  /** Context `ctxs[j]` and the perspective of member `ids[j]` hold the
      replay state `tracks[j]`. */
  ghost predicate Mirrors(ctxs: seq<PopupTextAnalysis>, ps: map<string, Perspective>, ids: seq<string>, tracks: seq<Track>)
    reads Footprint(ctxs)
  {
    |ctxs| == |ids| == |tracks| &&
    forall j :: 0 <= j < |ids| ==> ids[j] in ps && tracks[j] == Track(ctxs[j].Abs(), ps[ids[j]].triggers)
  }

  /** No two contexts share an engine instance or a data object. */
  ghost predicate Separate(ctxs: seq<PopupTextAnalysis>)
  {
    forall j, k :: 0 <= j < k < |ctxs| ==> ctxs[j] != ctxs[k] && ctxs[j].data != ctxs[k].data
  }

  /** Context `k` shares nothing with any other context, and its member
      with no other member. */
  lemma SeparateAt(ctxs: seq<PopupTextAnalysis>, ids: seq<string>, k: nat)
    requires Separate(ctxs) && Distinct(ids) && |ctxs| == |ids| && k < |ctxs|
    ensures forall j :: 0 <= j < |ctxs| && j != k ==>
      ctxs[j] != ctxs[k] && ctxs[j].data != ctxs[k].data && ids[j] != ids[k]
  {
    forall j | 0 <= j < |ctxs| && j != k
      ensures ctxs[j] != ctxs[k] && ctxs[j].data != ctxs[k].data && ids[j] != ids[k]
    {
      if j < k {
        assert ctxs[j] != ctxs[k] && ctxs[j].data != ctxs[k].data;
      } else {
        assert ctxs[k] != ctxs[j] && ctxs[k].data != ctxs[j].data;
      }
    }
  }

  /** The party list of the tracker, empty when the encounter has none. */
  function PartyOf(enc: Encounter): seq<string>
  {
    if enc.tracker.Some? then enc.tracker.value.partyMembers else []
  }

  class AnalyzedEncounter {
    var perspectives: map<string, Perspective>
    const encounter: Encounter
    const engine: Engine

    constructor (encounter: Encounter, engine: Engine)
      ensures this.encounter == encounter && this.engine == engine
      ensures perspectives == map[]
    {
      this.encounter := encounter;
      this.engine := engine;
      perspectives := map[];
    }

    /** `updateState`: pushes the combatant's state at `timestamp` into the
        engine; a state without a job is an invariant violation. */
    method UpdateState(combatant: Combatant, timestamp: int, popupText: PopupTextAnalysis) returns (o: Outcome)
      modifies popupText.data
      ensures o.Fail? <==> JobMissing(GetState(combatant, timestamp))
      ensures o.Fail? ==> o.fault == UnreachableCode && popupText.data.value == old(popupText.data.value)
      ensures o.Pass? ==> popupText.data.value == old(popupText.data.value).(player := Some(GetState(combatant, timestamp)))
    {
      var state := GetState(combatant, timestamp);
      if JobMissing(state) {
        return Fail(UnreachableCode);
      }
      popupText.OnPlayerChange(state);
      return Pass;
    }

    /** `checkPartyMember`: untracked members are skipped, members whose
        initial job is 0 get an empty perspective, the rest are replayed. */
    method CheckPartyMember(id: string) returns (valid: bool)
      modifies this
      ensures valid == IsValid(encounter, id)
      ensures perspectives == if Jobless(encounter, id) then old(perspectives)[id := EmptyPerspective] else old(perspectives)
    {
      var partyMember := CombatantOf(encounter, id);
      if partyMember.None? {
        return false;
      }
      if partyMember.value.initial.job == Some(0) {
        perspectives := perspectives[id := EmptyPerspective];
        return false;
      }
      return true;
    }

    /** `selectPerspective`: every party member must be tracked (the party
        notification throws otherwise), then the member's state at the
        encounter start is pushed into the engine. */
    method SelectPerspective(id: string, popupText: PopupTextAnalysis) returns (o: Outcome)
      modifies popupText.data
      ensures SelectData(encounter, id, old(popupText.data.value)).Ok? ==>
        o == Pass && popupText.data.value == SelectData(encounter, id, old(popupText.data.value)).value
      ensures SelectData(encounter, id, old(popupText.data.value)).Err? ==>
        o == Fail(UnreachableCode) && popupText.data.value == old(popupText.data.value)
    {
      if encounter.tracker.None? {
        return Pass;
      }
      var tracker := encounter.tracker.value;
      if id !in tracker.combatants {
        return Pass;
      }
      var k := 0;
      while k < |tracker.partyMembers|
        invariant 0 <= k <= |tracker.partyMembers|
        invariant forall j :: 0 <= j < k ==> tracker.partyMembers[j] in tracker.combatants
      {
        if tracker.partyMembers[k] !in tracker.combatants {
          return Fail(UnreachableCode);
        }
        k := k + 1;
      }
      o := UpdateState(tracker.combatants[id], encounter.startTimestamp, popupText);
    }

    /** `popupText.callback`: appends exactly one entry to the member's
        triggers, stamped with the line the finalizer read and its offset
        from the encounter start; nothing else changes. */
    method Callback(id: string, report: Report) returns (o: Outcome)
      modifies this
      ensures id in old(perspectives) ==> (o == Pass &&
        perspectives == old(perspectives)[id := old(perspectives)[id].(triggers :=
          old(perspectives)[id].triggers + [PerspectiveTrigger(report.helper, report.status, report.log,
                                                               report.log.timestamp - encounter.startTimestamp)])])
      ensures id !in old(perspectives) ==> o == Fail(UnreachableCode) && perspectives == old(perspectives)
    {
      if id !in perspectives {
        return Fail(UnreachableCode);
      }
      var perspective := perspectives[id];
      var entry := Entry(report, encounter.startTimestamp);
      perspectives := perspectives[id := perspective.(triggers := perspective.triggers + [entry])];
      return Pass;
    }

    /** Before any line is replayed, every context's member gets a perspective
        with a snapshot of its data, no triggers, and the live data object as
        `finalData`; other members are left alone. */
    method SeedPerspectives(valid: seq<string>, ctxs: seq<PopupTextAnalysis>)
      requires |valid| == |ctxs| && Distinct(valid)
      modifies this
      ensures forall id :: id !in valid ==> Same(perspectives, old(perspectives), id)
      ensures forall j :: 0 <= j < |valid| ==> (valid[j] in perspectives &&
        perspectives[valid[j]] == Perspective(ctxs[j].data.value, [], Some(ctxs[j].data)))
    {
      var i := 0;
      while i < |valid|
        invariant 0 <= i <= |valid|
        invariant forall id :: id !in valid[..i] ==> Same(perspectives, old(perspectives), id)
        invariant forall j :: 0 <= j < i ==> (valid[j] in perspectives &&
          perspectives[valid[j]] == Perspective(ctxs[j].data.value, [], Some(ctxs[j].data)))
      {
        assert valid[..i + 1] == valid[..i] + [valid[i]];
        perspectives := perspectives[valid[i] := Perspective(ctxs[i].data.value, [], Some(ctxs[i].data))];
        i := i + 1;
      }
      assert valid[..i] == valid;
    }

    /** The engine side of one member's turn on the line at `cursor`: the
        player-state update if the combatant has a state at the line's
        timestamp, the engine feed, then the finalizers due at this line. */
    method FeedLine(id: string, popupText: PopupTextAnalysis, cursor: nat) returns (o: Outcome, reports: seq<Report>)
      requires cursor < |encounter.logLines|
      requires QueueWf(popupText.triggerResolvers, popupText.pending)
      modifies popupText, popupText.data
      ensures var r := Feed(encounter, engine, id, old(popupText.Abs()), cursor);
        (r.Err? ==> o == Fail(r.fault)) &&
        (r.Ok? ==> o == Pass && (popupText.Abs(), reports) == r.value)
    {
      var cur := GetCurLogLine(encounter.logLines, cursor);
      var log := cur.value;
      var combatant := CombatantOf(encounter, id);
      if combatant.Some? && HasState(combatant.value, log.timestamp) {
        o := UpdateState(combatant.value, log.timestamp, popupText);
        if o.Fail? {
          return o, [];
        }
      }
      popupText.OnEmulatorLog(log, cursor, engine);
      reports := popupText.Finalize(encounter.logLines, cursor);
      o := Pass;
    }

    /** Every finalized firing reported to member `id`'s perspective, in the
        order the finalizers ran. */
    method ReportAll(id: string, reports: seq<Report>)
      requires id in perspectives
      modifies this
      ensures perspectives == old(perspectives)[id := old(perspectives)[id].(triggers :=
        old(perspectives)[id].triggers + Entries(reports, encounter.startTimestamp))]
    {
      ghost var start := encounter.startTimestamp;
      ghost var p0 := perspectives;
      ghost var e0 := p0[id];
      assert e0.triggers + Entries(reports[..0], start) == e0.triggers;
      assert p0[id := e0] == p0;
      var k := 0;
      while k < |reports|
        invariant 0 <= k <= |reports|
        invariant perspectives == p0[id := e0.(triggers := e0.triggers + Entries(reports[..k], start))]
      {
        ghost var before := e0.triggers + Entries(reports[..k], start);
        var done := Callback(id, reports[k]);
        // the perspective was seeded before the replay, so the callback
        // never raises
        assert done == Pass;
        assert Entries(reports[..k + 1], start) == before[|e0.triggers|..] + [Entry(reports[k], start)];
        assert e0.triggers + Entries(reports[..k + 1], start) == before + [Entry(reports[k], start)];
        k := k + 1;
      }
      assert reports[..k] == reports;
    }

    /** One member's turn on the line at `cursor`: it advances the member's
        replay by exactly that line, and changes no other perspective. */
    method ReplayMember(id: string, popupText: PopupTextAnalysis, ghost d0: DataValue, cursor: nat) returns (o: Outcome)
      requires cursor < |encounter.logLines|
      requires id in perspectives
      requires Reached(encounter, engine, id, d0, cursor, Track(popupText.Abs(), perspectives[id].triggers))
      modifies this, popupText, popupText.data
      ensures id in perspectives
      ensures perspectives == old(perspectives)[id := old(perspectives)[id].(triggers := perspectives[id].triggers)]
      ensures o.Pass? ==> Reached(encounter, engine, id, d0, cursor + 1, Track(popupText.Abs(), perspectives[id].triggers))
      ensures o.Fail? ==> o == Fail(UnreachableCode) && Fails(encounter, engine, id, d0, cursor + 1)
    {
      ReplayAdvances(encounter, engine, id, d0, cursor, Track(popupText.Abs(), perspectives[id].triggers));
      var reports;
      o, reports := FeedLine(id, popupText, cursor);
      if o.Pass? {
        ReportAll(id, reports);
      }
    }

    /** Member `valid[k]`'s turn within a batch: its replay advances by one
        line, and the other members' contexts and perspectives keep theirs. */
    method StepMember(valid: seq<string>, ctxs: seq<PopupTextAnalysis>, ghost inits: seq<DataValue>,
                      ghost tracks: seq<Track>, cursor: nat, k: nat)
      returns (o: Outcome, ghost t: Track)
      requires cursor < |encounter.logLines| && k < |ctxs| == |valid| == |inits|
      requires forall j :: 0 <= j < |ctxs| && j != k ==>
        ctxs[j] != ctxs[k] && ctxs[j].data != ctxs[k].data && valid[j] != valid[k]
      requires Mirrors(ctxs, perspectives, valid, tracks)
      requires Replayed(encounter, engine, valid, inits, tracks, 0, k, cursor + 1)
      requires Replayed(encounter, engine, valid, inits, tracks, k, |valid|, cursor)
      modifies this, ctxs[k], ctxs[k].data
      ensures valid[k] in old(perspectives) &&
        perspectives == old(perspectives)[valid[k] := old(perspectives)[valid[k]].(triggers := t.triggers)]
      ensures o.Pass? ==> Mirrors(ctxs, perspectives, valid, tracks[k := t])
      ensures o.Pass? ==> Replayed(encounter, engine, valid, inits, tracks[k := t], 0, k + 1, cursor + 1)
      ensures o.Pass? ==> Replayed(encounter, engine, valid, inits, tracks[k := t], k + 1, |valid|, cursor)
      ensures o.Fail? ==> o == Fail(UnreachableCode) && Fails(encounter, engine, valid[k], inits[k], cursor + 1)
    {
      ReplayedAt(encounter, engine, valid, inits, tracks, k, |valid|, cursor, k);
      o := ReplayMember(valid[k], ctxs[k], inits[k], cursor);
      t := Track(ctxs[k].Abs(), perspectives[valid[k]].triggers);
      if o.Pass? {
        ReplayedStep(encounter, engine, valid, inits, tracks, k, cursor, t);
        assert forall j :: 0 <= j < |ctxs| && j != k ==>
          ctxs[j].Abs() == old(ctxs[j].Abs()) && perspectives[valid[j]] == old(perspectives)[valid[j]];
      }
    }

    /** All of a batch's contexts, in order, on the line at `cursor`: each
        member's replay advances by one line, and only the members' triggers
        change in the perspectives. */
    method ReplayLine(valid: seq<string>, ctxs: seq<PopupTextAnalysis>, ghost inits: seq<DataValue>,
                      ghost tracks: seq<Track>, cursor: nat)
      returns (o: Outcome, ghost tracks': seq<Track>)
      requires cursor < |encounter.logLines|
      requires Distinct(valid) && Separate(ctxs)
      requires Replayed(encounter, engine, valid, inits, tracks, 0, |valid|, cursor)
      requires Mirrors(ctxs, perspectives, valid, tracks)
      modifies this, Footprint(ctxs)
      ensures TriggersOnly(old(perspectives), perspectives, valid)
      ensures o.Pass? ==> (Replayed(encounter, engine, valid, inits, tracks', 0, |valid|, cursor + 1) &&
        Mirrors(ctxs, perspectives, valid, tracks'))
      ensures o.Fail? ==> (o.fault == UnreachableCode &&
        exists j :: 0 <= j < |valid| && Fails(encounter, engine, valid[j], inits[j], cursor + 1))
    {
      tracks' := tracks;
      var k := 0;
      while k < |ctxs|
        invariant 0 <= k <= |ctxs|
        invariant TriggersOnly(old(perspectives), perspectives, valid)
        invariant Mirrors(ctxs, perspectives, valid, tracks')
        invariant Replayed(encounter, engine, valid, inits, tracks', 0, k, cursor + 1)
        invariant Replayed(encounter, engine, valid, inits, tracks', k, |valid|, cursor)
      {
        SeparateAt(ctxs, valid, k);
        ghost var before := perspectives;
        ghost var t;
        o, t := StepMember(valid, ctxs, inits, tracks', cursor, k);
        TriggersOnlyStep(old(perspectives), before, valid, valid[k], t.triggers);
        if o.Fail? {
          return;
        }
        tracks' := tracks'[k := t];
        k := k + 1;
      }
      o := Pass;
    }

    /** `validPartyMembers`: the batch members that pass `checkPartyMember`,
        in batch order; jobless members get their empty perspective. */
    method ValidMembers(batch: seq<string>) returns (valid: seq<string>)
      requires Distinct(batch)
      modifies this
      ensures valid == FilterValid(encounter, batch)
      ensures forall id :: id in valid <==> id in batch && IsValid(encounter, id)
      ensures Distinct(valid)
      ensures forall id :: id !in batch || !Jobless(encounter, id) ==> Same(perspectives, old(perspectives), id)
      ensures forall id :: id in batch && Jobless(encounter, id) ==> id in perspectives && perspectives[id] == EmptyPerspective
    {
      valid := [];
      var i := 0;
      while i < |batch|
        invariant 0 <= i <= |batch|
        invariant valid == FilterValid(encounter, batch[..i])
        invariant MarkedJobless(encounter, old(perspectives), perspectives, batch[..i])
      {
        assert batch[..i + 1] == batch[..i] + [batch[i]];
        assert batch[..i + 1][..i] == batch[..i];
        ghost var before := perspectives;
        var ok := CheckPartyMember(batch[i]);
        MarkedJoblessStep(encounter, old(perspectives), before, perspectives, batch[..i], batch[i]);
        if ok {
          valid := valid + [batch[i]];
        }
        i := i + 1;
      }
      assert batch[..i] == batch;
      FilterValidDistinct(encounter, batch);
    }

    /** `partyContext`: a fresh engine context per valid member, each with its
        own data object, with the member's starting perspective selected. */
    method MakeContexts(valid: seq<string>)
      returns (o: Outcome, ctxs: seq<PopupTextAnalysis>, ghost inits: seq<DataValue>, ghost tracks: seq<Track>)
      ensures o.Pass? ==> (|ctxs| == |valid| && Separate(ctxs) &&
        (forall j :: 0 <= j < |ctxs| ==> fresh(ctxs[j]) && fresh(ctxs[j].data)) &&
        Replayed(encounter, engine, valid, inits, tracks, 0, |valid|, 0) &&
        forall j :: 0 <= j < |valid| ==> (SelectData(encounter, valid[j], engine.initialData) == Ok(inits[j]) &&
          ctxs[j].data.value == inits[j] && tracks[j] == Track(ctxs[j].Abs(), [])))
      ensures o.Fail? ==> (o == Fail(UnreachableCode) &&
        exists j :: 0 <= j < |valid| && SelectData(encounter, valid[j], engine.initialData).Err?)
    {
      ctxs := [];
      inits := [];
      tracks := [];
      var i := 0;
      while i < |valid|
        invariant 0 <= i <= |valid|
        invariant |ctxs| == i && |inits| == i && |tracks| == i
        invariant forall j :: 0 <= j < i ==> fresh(ctxs[j]) && fresh(ctxs[j].data)
        invariant Separate(ctxs)
        invariant forall j :: 0 <= j < i ==> (SelectData(encounter, valid[j], engine.initialData) == Ok(inits[j]) &&
          ctxs[j].Abs() == Ctx(inits[j], [], []) && tracks[j] == Track(Ctx(inits[j], [], []), []))
      {
        var popupText := new PopupTextAnalysis(engine.initialData);
        o := SelectPerspective(valid[i], popupText);
        if o.Fail? {
          return;
        }
        ctxs := ctxs + [popupText];
        inits := inits + [popupText.data.value];
        tracks := tracks + [Track(Ctx(popupText.data.value, [], []), [])];
        i := i + 1;
      }
      ReplayedStart(encounter, engine, valid, inits, tracks);
      o := Pass;
    }

    /** The replay cursor: every line of the log, in order, for every
        context of the batch; the first fault aborts the batch. */
    method ReplayAll(valid: seq<string>, ctxs: seq<PopupTextAnalysis>, ghost inits: seq<DataValue>,
                     ghost tracks0: seq<Track>)
      returns (o: Outcome, ghost tracks: seq<Track>)
      requires Distinct(valid) && Separate(ctxs)
      requires Replayed(encounter, engine, valid, inits, tracks0, 0, |valid|, 0)
      requires Mirrors(ctxs, perspectives, valid, tracks0)
      modifies this, Footprint(ctxs)
      ensures TriggersOnly(old(perspectives), perspectives, valid)
      ensures o.Pass? ==> (Replayed(encounter, engine, valid, inits, tracks, 0, |valid|, |encounter.logLines|) &&
        Mirrors(ctxs, perspectives, valid, tracks))
      ensures o.Fail? ==> (o == Fail(UnreachableCode) &&
        exists j :: 0 <= j < |valid| && Fails(encounter, engine, valid[j], inits[j], |encounter.logLines|))
    {
      tracks := tracks0;
      var cursor := 0;
      while cursor < |encounter.logLines|
        invariant cursor <= |encounter.logLines|
        invariant TriggersOnly(old(perspectives), perspectives, valid)
        invariant Replayed(encounter, engine, valid, inits, tracks, 0, |valid|, cursor)
        invariant Mirrors(ctxs, perspectives, valid, tracks)
      {
        ghost var before := perspectives;
        o, tracks := ReplayLine(valid, ctxs, inits, tracks, cursor);
        TriggersOnlyTrans(old(perspectives), before, perspectives, valid);
        if o.Fail? {
          SomeFailPersists(encounter, engine, valid, inits, cursor + 1);
          return;
        }
        cursor := cursor + 1;
      }
      o := Pass;
    }

    /** A batch whose contexts were created: the members' perspectives are
        seeded from their contexts, the log is replayed, and each member's
        perspective ends up showing that member's analysis. */
    method RunBatch(valid: seq<string>, ctxs: seq<PopupTextAnalysis>, ghost inits: seq<DataValue>,
                    ghost tracks: seq<Track>) returns (r: Outcome)
      requires |ctxs| == |valid| && Distinct(valid) && Separate(ctxs)
      requires Replayed(encounter, engine, valid, inits, tracks, 0, |valid|, 0)
      requires forall j :: 0 <= j < |valid| ==> (SelectData(encounter, valid[j], engine.initialData) == Ok(inits[j]) &&
        ctxs[j].data.value == inits[j] && tracks[j] == Track(ctxs[j].Abs(), []))
      modifies this, Footprint(ctxs)
      ensures forall id :: id !in valid ==> Same(perspectives, old(perspectives), id)
      ensures r.Fail? ==> (r == Fail(UnreachableCode) &&
        exists j :: 0 <= j < |valid| && MemberAnalysis(encounter, engine, valid[j]).Err?)
      ensures r.Pass? ==> forall j :: 0 <= j < |valid| ==>
        (valid[j] in perspectives && perspectives[valid[j]].finalData == Some(ctxs[j].data) &&
         MemberAnalysis(encounter, engine, valid[j]).Ok? &&
         Shows(perspectives[valid[j]], MemberAnalysis(encounter, engine, valid[j]).value))
    {
      SeedPerspectives(valid, ctxs);
      ghost var seeded := perspectives;
      ghost var tracks' := tracks;
      r, tracks' := ReplayAll(valid, ctxs, inits, tracks);
      TriggersOnlySame(seeded, perspectives, valid);
      forall id | id !in valid
        ensures Same(perspectives, old(perspectives), id)
      {
        assert Same(seeded, old(perspectives), id);
      }
      if r.Fail? {
        ghost var j :| 0 <= j < |valid| && Fails(encounter, engine, valid[j], inits[j], |encounter.logLines|);
        FailedAnalysis(encounter, engine, valid[j], inits[j]);
        return;
      }
      ReplayedAnalyses(encounter, engine, valid, inits, tracks');
    }

    /** The valid members of a batch, from the creation of their contexts to
        the end of the log: each one's perspective ends up showing its own
        analysis, backed by a data object of its own. */
    method AnalyzeValid(valid: seq<string>) returns (r: Outcome)
      requires Distinct(valid)
      modifies this
      ensures forall id :: id !in valid ==> Same(perspectives, old(perspectives), id)
      ensures r.Fail? ==> (r == Fail(UnreachableCode) &&
        exists id :: id in valid && MemberAnalysis(encounter, engine, id).Err?)
      ensures r.Pass? ==> forall id :: id in valid ==>
        id in perspectives && perspectives[id].finalData.Some? && fresh(perspectives[id].finalData.value) &&
        MemberAnalysis(encounter, engine, id).Ok? &&
        Shows(perspectives[id], MemberAnalysis(encounter, engine, id).value)
      ensures r.Pass? ==> forall a, b :: a in valid && b in valid && a != b ==>
        perspectives[a].finalData.value != perspectives[b].finalData.value
    {
      var ctxs;
      ghost var inits, tracks;
      r, ctxs, inits, tracks := MakeContexts(valid);
      if r.Fail? {
        ghost var j :| 0 <= j < |valid| && SelectData(encounter, valid[j], engine.initialData).Err?;
        assert MemberAnalysis(encounter, engine, valid[j]).Err?;
        assert valid[j] in valid;
        return;
      }
      r := RunBatch(valid, ctxs, inits, tracks);
      if r.Fail? {
        ghost var j :| 0 <= j < |valid| && MemberAnalysis(encounter, engine, valid[j]).Err?;
        assert valid[j] in valid;
        return;
      }
      forall a, b | a in valid && b in valid && a != b
        ensures perspectives[a].finalData.value != perspectives[b].finalData.value
      {
        var i :| 0 <= i < |valid| && valid[i] == a;
        var j :| 0 <= j < |valid| && valid[j] == b;
        assert ctxs[i].data != ctxs[j].data;
      }
    }

    /** `analyzeFor`: replays the whole log for one batch of members. */
    method AnalyzeFor(batch: seq<string>) returns (r: Outcome)
      requires Distinct(batch)
      modifies this
      ensures forall id :: id !in batch || CombatantOf(encounter, id).None? ==> Same(perspectives, old(perspectives), id)
      ensures forall id :: id in batch && Jobless(encounter, id) ==> id in perspectives && perspectives[id] == EmptyPerspective
      ensures r.Pass? <==> forall id :: id in batch && IsValid(encounter, id) ==> MemberAnalysis(encounter, engine, id).Ok?
      ensures r.Fail? ==> r.fault == UnreachableCode
      ensures r.Pass? ==> forall id :: id in batch && IsValid(encounter, id) ==>
        id in perspectives && perspectives[id].finalData.Some? && fresh(perspectives[id].finalData.value) &&
        Shows(perspectives[id], MemberAnalysis(encounter, engine, id).value)
      ensures r.Pass? ==> forall a, b :: a in batch && b in batch && IsValid(encounter, a) && IsValid(encounter, b) && a != b ==>
        perspectives[a].finalData.value != perspectives[b].finalData.value
    {
      var valid := ValidMembers(batch);
      ghost var filtered := perspectives;
      r := AnalyzeValid(valid);
      forall id | id !in batch || CombatantOf(encounter, id).None?
        ensures Same(perspectives, old(perspectives), id)
      {
        assert id !in valid && Same(filtered, old(perspectives), id);
      }
    }

    /** `analyzeFor` on the slice `party[i..end]` of a list without repeats:
        the members analysed before keep their perspectives, and nobody
        outside the list is touched. */
    method AnalyzeSlice(party: seq<string>, i: nat, end: nat, ghost p0: map<string, Perspective>) returns (r: Outcome)
      requires NoRepeats(party) && i <= end <= |party|
      requires Analysed(encounter, engine, perspectives, party[..i])
      requires Untouched(encounter, p0, perspectives, party[..i])
      modifies this
      ensures Untouched(encounter, p0, perspectives, party[..end])
      ensures r.Fail? ==> (r.fault == UnreachableCode &&
        exists id :: id in party && IsValid(encounter, id) && MemberAnalysis(encounter, engine, id).Err?)
      ensures r.Pass? ==> Analysed(encounter, engine, perspectives, party[..end])
      ensures r.Pass? ==> forall id :: id in party[i..end] && IsValid(encounter, id) ==>
        id in perspectives && perspectives[id].finalData.Some? && fresh(perspectives[id].finalData.value)
    {
      var batch := party[i..end];
      DistinctSlices(party, i, end);
      DistinctNoRepeats(party);
      r := AnalyzeFor(batch);
      UntouchedTrans(encounter, p0, old(perspectives), perspectives, party[..i], batch);
      assert party[..end] == party[..i] + batch;
      if r.Fail? {
        ghost var id :| id in batch && IsValid(encounter, id) && MemberAnalysis(encounter, engine, id).Err?;
        SliceMember(party, i, end, id);
        return;
      }
      AnalysedGrows(encounter, engine, old(perspectives), perspectives, party[..i], batch);
    }

    /** One iteration of `analyze`'s loop: the next batch, the `k`-th of
        `Batches`, is handed to `analyzeFor`. */
    method AnalyzeNext(party: seq<string>, i: nat, ghost p0: map<string, Perspective>,
                       ghost k: nat, ghost run: seq<seq<string>>)
      returns (r: Outcome, end: nat, ghost run': seq<seq<string>>)
      requires NoRepeats(party) && i < |party|
      requires i == k * BatchSize && k <= |Batches(party, BatchSize)| && run == Batches(party, BatchSize)[..k]
      requires Analysed(encounter, engine, perspectives, party[..i])
      requires Untouched(encounter, p0, perspectives, party[..i])
      modifies this
      ensures end == Min(i + BatchSize, |party|) && i + BatchSize == (k + 1) * BatchSize
      ensures k + 1 <= |Batches(party, BatchSize)| && run' == Batches(party, BatchSize)[..k + 1]
      ensures Untouched(encounter, p0, perspectives, party[..end])
      ensures r.Fail? ==> (r.fault == UnreachableCode &&
        exists id :: id in party && IsValid(encounter, id) && MemberAnalysis(encounter, engine, id).Err?)
      ensures r.Pass? ==> Analysed(encounter, engine, perspectives, party[..end])
    {
      end := Min(i + BatchSize, |party|);
      BatchesNext(party, BatchSize, k, i);
      run' := run + [party[i..end]];
      r := AnalyzeSlice(party, i, end, p0);
    }

    /** `analyze`'s loop over a party list: one `analyzeFor` call per batch,
        in order, until the list is exhausted or a batch faults. */
    method AnalyzeParty(party: seq<string>) returns (r: Outcome, ghost run: seq<seq<string>>)
      requires NoRepeats(party)
      modifies this
      ensures run <= Batches(party, BatchSize)
      ensures r.Pass? ==> run == Batches(party, BatchSize)
      ensures Untouched(encounter, old(perspectives), perspectives, party)
      ensures r.Fail? ==> (r.fault == UnreachableCode &&
        exists id :: id in party && IsValid(encounter, id) && MemberAnalysis(encounter, engine, id).Err?)
      ensures r.Pass? ==> Analysed(encounter, engine, perspectives, party)
    {
      run := [];
      ghost var bs := Batches(party, BatchSize);
      var i := 0;
      ghost var k := 0;
      while i < |party|
        invariant i == k * BatchSize && k <= |bs| && run == bs[..k]
        invariant Untouched(encounter, old(perspectives), perspectives, party[..Min(i, |party|)])
        invariant Analysed(encounter, engine, perspectives, party[..Min(i, |party|)])
      {
        var end;
        r, end, run := AnalyzeNext(party, i, old(perspectives), k, run);
        if r.Fail? {
          UntouchedWithin(encounter, old(perspectives), perspectives, party[..end], party);
          return;
        }
        i := i + BatchSize;
        k := k + 1;
      }
      BatchesEnd(party, BatchSize, k, i);
      assert party[..Min(i, |party|)] == party;
      r := Pass;
    }

    /** `analyze`: the party, when the encounter has a tracker, is analysed
        batch by batch, each batch the next `BatchSize` members; the first
        fault aborts the remaining batches. `run` lists the batches handed to
        `analyzeFor`, in order. */
    method Analyze() returns (r: Outcome, ghost run: seq<seq<string>>)
      requires Distinct(PartyOf(encounter))
      modifies this
      ensures encounter.tracker.None? ==> r == Pass && run == [] && perspectives == old(perspectives)
      ensures r.Fail? ==> r.fault == UnreachableCode
      ensures run <= Batches(PartyOf(encounter), BatchSize)
      ensures r.Pass? ==> run == Batches(PartyOf(encounter), BatchSize)
      ensures r.Pass? <==> forall id :: id in PartyOf(encounter) && IsValid(encounter, id) ==>
        MemberAnalysis(encounter, engine, id).Ok?
      ensures forall id :: id !in PartyOf(encounter) || CombatantOf(encounter, id).None? ==>
        Same(perspectives, old(perspectives), id)
      ensures r.Pass? ==> forall id :: id in PartyOf(encounter) && Jobless(encounter, id) ==>
        id in perspectives && perspectives[id] == EmptyPerspective
      ensures r.Pass? ==> forall id :: id in PartyOf(encounter) && IsValid(encounter, id) ==>
        id in perspectives && perspectives[id].finalData.Some? &&
        Shows(perspectives[id], MemberAnalysis(encounter, engine, id).value)
    {
      if encounter.tracker.None? {
        return Pass, [];
      }
      DistinctNoRepeats(encounter.tracker.value.partyMembers);
      r, run := AnalyzeParty(encounter.tracker.value.partyMembers);
    }
  }
}
