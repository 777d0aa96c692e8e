/** One party member's rule-engine context during a replay: the live engine
    data, the resolvers created by trigger firings, and the queue of
    finalizers still waiting for their trigger's asynchronous work. */
module Resolution {
  import opened Outcomes
  import opened Log

  /** The rule engine's data as a value: the player pushed by the last
      player-state update and the trigger-owned variables. A value is never
      shared, so every snapshot taken of it is independent of later changes. */
  datatype DataValue = DataValue(player: Option<PlayerState>, vars: map<string, int>)

  /** The `{}` data of a perspective that is never replayed. */
  const EmptyData := DataValue(None, map[])

  /** The live object `popupText.getData()` returns: mutated in place by the
      engine, so anything holding the reference sees later changes. The
      engine is taken never to replace this object with another during a
      replay; a perspective's `finalData` relies on that. */
  class LiveData {
    var value: DataValue

    constructor (v: DataValue)
      ensures value == v
    {
      value := v;
    }
  }

  /** One trigger the engine matched: whether the engine suppressed it and
      whether it executed it (the engine sets the two flags separately: a
      trigger whose condition fails is neither), what its handling writes
      into the data, and after how many further log lines its asynchronous
      work completes (0: within the line that fired it). */
  datatype Firing = Firing(trigger: string, suppressed: bool, executed: bool, effect: map<string, int>, deferral: nat)

  /** The rule engine, given only at its interface: the data a fresh engine
      starts from, and the firings a log line causes against given data. */
  datatype Engine = Engine(initialData: DataValue, fire: (DataValue, LogLine) -> seq<Firing>)

  /** What identifies a firing: the trigger, the timestamp of the line that
      was current when it fired, and the position of its resolver among the
      context's resolvers. Each firing is handed a helper object of its own;
      `serial` stands for that object's identity. */
  datatype TriggerHelper = TriggerHelper(trigger: string, timestamp: int, serial: nat)

  datatype ResolverStatus = ResolverStatus(initialData: DataValue, suppressed: bool, executed: bool, finalData: Option<DataValue>)

  /** A resolver, with the cursor position at which its trigger fired and the
      one at which the trigger's asynchronous work completes. */
  datatype Resolver = Resolver(helper: TriggerHelper, status: ResolverStatus, firedAt: nat, due: nat)

  /** A finalizer registered with `setFinal`: it finalizes resolver number
      `resolver` once the cursor reaches `due`. */
  datatype Pending = Pending(resolver: nat, due: nat)

  /** The arguments a finalizer hands to the perspective callback. */
  datatype Report = Report(log: LogLine, helper: TriggerHelper, status: ResolverStatus)

  /** The abstract state of one context. */
  datatype Ctx = Ctx(data: DataValue, resolvers: seq<Resolver>, pending: seq<Pending>)

  /** Every queued finalizer names an existing resolver that fired no later
      than the finalizer is due and whose work completes when it is due. */
  ghost predicate QueueWf(res: seq<Resolver>, q: seq<Pending>)
  {
    forall j :: 0 <= j < |q| ==>
      q[j].resolver < |res| && res[q[j].resolver].firedAt <= q[j].due && res[q[j].resolver].due == q[j].due
  }

  /** A fresh resolver, as the interception hook creates it, before the
      engine has run its trigger. */
  function NewResolver(helper: TriggerHelper, data: DataValue, cursor: nat): (r: Resolver)
    ensures !r.status.suppressed && !r.status.executed
    ensures r.status.initialData == data && r.status.finalData == None
    ensures r.helper == helper && r.firedAt == cursor && r.due == cursor
  {
    Resolver(helper, ResolverStatus(data, false, false, None), cursor, cursor)
  }

  /** The engine's handling of a firing: a suppressed firing leaves the data
      alone; for any other, the engine's handling writes its effect over the
      variables (an empty effect when its condition failed and nothing ran). */
  function Apply(d: DataValue, f: Firing): (d': DataValue)
    ensures f.suppressed ==> d' == d
    ensures d'.player == d.player
    ensures !f.suppressed ==> d'.vars.Keys == d.vars.Keys + f.effect.Keys
    ensures !f.suppressed ==> forall k :: k in d'.vars ==> d'.vars[k] == if k in f.effect then f.effect[k] else d.vars[k]
  {
    if f.suppressed then d else d.(vars := d.vars + f.effect)
  }

  /** The data after the firings `fs`, handled in order. */
  function ApplyAll(d: DataValue, fs: seq<Firing>): (d': DataValue)
    ensures d'.player == d.player
    ensures (forall i :: 0 <= i < |fs| ==> fs[i].suppressed) ==> d' == d
    decreases |fs|
  {
    if fs == [] then d else Apply(ApplyAll(d, fs[..|fs| - 1]), fs[|fs| - 1])
  }

  /** The outcome the engine records on the resolver it was handed, and the
      cursor position at which the trigger's work completes. */
  function Settle(r: Resolver, f: Firing): (r': Resolver)
    ensures r'.status.suppressed == f.suppressed && r'.status.executed == f.executed
    ensures r'.helper == r.helper && r'.firedAt == r.firedAt && r'.due == r.firedAt + f.deferral
    ensures r'.status.initialData == r.status.initialData && r'.status.finalData == r.status.finalData
  {
    r.(status := r.status.(suppressed := f.suppressed, executed := f.executed), due := r.firedAt + f.deferral)
  }

  /** One firing through the interception hook: snapshot the data into a new
      resolver, let the engine run the trigger, queue the finalizer. */
  function Fire(c: Ctx, f: Firing, line: LogLine, cursor: nat): (c': Ctx)
    ensures |c'.resolvers| == |c.resolvers| + 1 && c'.resolvers[..|c.resolvers|] == c.resolvers
    ensures c'.resolvers[|c.resolvers|] ==
      Resolver(TriggerHelper(f.trigger, line.timestamp, |c.resolvers|),
               ResolverStatus(c.data, f.suppressed, f.executed, None), cursor, cursor + f.deferral)
    ensures c'.pending == c.pending + [Pending(|c.resolvers|, cursor + f.deferral)]
    ensures c'.data == Apply(c.data, f)
    ensures QueueWf(c.resolvers, c.pending) ==> QueueWf(c'.resolvers, c'.pending)
  {
    var r := Settle(NewResolver(TriggerHelper(f.trigger, line.timestamp, |c.resolvers|), c.data, cursor), f);
    Ctx(Apply(c.data, f), c.resolvers + [r], c.pending + [Pending(|c.resolvers|, cursor + f.deferral)])
  }

  /** All firings of one line, in the order the engine reports them. */
  function FireAll(c: Ctx, fs: seq<Firing>, line: LogLine, cursor: nat): (c': Ctx)
    ensures |c'.resolvers| == |c.resolvers| + |fs| && c'.resolvers[..|c.resolvers|] == c.resolvers
    ensures forall i :: |c.resolvers| <= i < |c'.resolvers| ==>
      c'.resolvers[i].firedAt == cursor && c'.resolvers[i].helper.timestamp == line.timestamp
    ensures |c'.pending| == |c.pending| + |fs| && c'.pending[..|c.pending|] == c.pending
    ensures forall j :: |c.pending| <= j < |c'.pending| ==> c'.pending[j].due >= cursor
    ensures c'.data.player == c.data.player
    ensures QueueWf(c.resolvers, c.pending) ==> QueueWf(c'.resolvers, c'.pending)
    decreases |fs|
  {
    if fs == [] then c
    else
      var c1 := FireAll(c, fs[..|fs| - 1], line, cursor);
      var c2 := Fire(c1, fs[|fs| - 1], line, cursor);
      assert c2.resolvers[..|c.resolvers|] == c1.resolvers[..|c1.resolvers|][..|c.resolvers|];
      assert c2.pending[..|c.pending|] == c1.pending[..|c1.pending|][..|c.pending|];
      c2
  }

  /** One more firing of a line is one more `Fire`. */
  lemma FireAllNext(c: Ctx, fs: seq<Firing>, line: LogLine, cursor: nat, i: nat)
    requires i < |fs|
    ensures FireAll(c, fs[..i + 1], line, cursor) == Fire(FireAll(c, fs[..i], line, cursor), fs[i], line, cursor)
  {
    assert fs[..i + 1][..i] == fs[..i];
  }

  /** Firing `i` of a line gets resolver number `|c.resolvers| + i`, which
      snapshots the data left by the firings before it, records the engine's
      outcome and completes `fs[i].deferral` lines after the cursor, and one
      finalizer queued for that line. */
  lemma {:induction false} FireAllFiring(c: Ctx, fs: seq<Firing>, line: LogLine, cursor: nat, i: nat)
    requires i < |fs|
    ensures FireAll(c, fs, line, cursor).resolvers[|c.resolvers| + i] ==
      Resolver(TriggerHelper(fs[i].trigger, line.timestamp, |c.resolvers| + i),
               ResolverStatus(ApplyAll(c.data, fs[..i]), fs[i].suppressed, fs[i].executed, None),
               cursor, cursor + fs[i].deferral)
    ensures FireAll(c, fs, line, cursor).pending[|c.pending| + i] == Pending(|c.resolvers| + i, cursor + fs[i].deferral)
    decreases |fs|
  {
    var n := |fs| - 1;
    var c1 := FireAll(c, fs[..n], line, cursor);
    var c2 := Fire(c1, fs[n], line, cursor);
    assert FireAll(c, fs, line, cursor) == c2;
    if i < n {
      FireAllFiring(c, fs[..n], line, cursor, i);
      assert fs[..n][i] == fs[i] && fs[..n][..i] == fs[..i];
      assert c2.resolvers[|c.resolvers| + i] == c1.resolvers[|c.resolvers| + i];
      assert c2.pending[|c.pending| + i] == c1.pending[|c.pending| + i];
    } else {
      FireAllData(c, fs[..n], line, cursor);
      assert fs[..n] == fs[..i];
    }
  }

  /** The firings of a line leave the data as the engine's handling of each
      in turn leaves it. */
  lemma {:induction false} FireAllData(c: Ctx, fs: seq<Firing>, line: LogLine, cursor: nat)
    ensures FireAll(c, fs, line, cursor).data == ApplyAll(c.data, fs)
    decreases |fs|
  {
    if fs != [] {
      FireAllData(c, fs[..|fs| - 1], line, cursor);
    }
  }

  /** Resolver `r` with the current data stored as its final data. */
  function Finalized(r: Resolver, d: DataValue): (r': Resolver)
    ensures r'.helper == r.helper && r'.firedAt == r.firedAt && r'.due == r.due
    ensures r'.status.finalData == Some(d)
    ensures r'.status.(finalData := r.status.finalData) == r.status
  {
    r.(status := r.status.(finalData := Some(d)))
  }

  /** The finalizers of `q` due at `cursor`, in queue order. */
  function Due(q: seq<Pending>, cursor: nat): (d: seq<Pending>)
    ensures forall k :: 0 <= k < |d| ==> d[k].due <= cursor && d[k] in q
    ensures forall j :: 0 <= j < |q| && q[j].due <= cursor ==> q[j] in d
    decreases |q|
  {
    if q == [] then []
    else
      assert forall j :: 0 <= j < |q| - 1 ==> q[..|q| - 1][j] == q[j];
      Due(q[..|q| - 1], cursor) + if q[|q| - 1].due <= cursor then [q[|q| - 1]] else []
  }

  /** The finalizers of `q` not yet due at `cursor`, in queue order: with
      `Due`, they split the queue. */
  function Later(q: seq<Pending>, cursor: nat): (l: seq<Pending>)
    ensures forall k :: 0 <= k < |l| ==> l[k].due > cursor && l[k] in q
    ensures forall j :: 0 <= j < |q| && q[j].due > cursor ==> q[j] in l
    ensures |Due(q, cursor)| + |l| == |q|
    decreases |q|
  {
    if q == [] then []
    else
      assert forall j :: 0 <= j < |q| - 1 ==> q[..|q| - 1][j] == q[j];
      Later(q[..|q| - 1], cursor) + if q[|q| - 1].due > cursor then [q[|q| - 1]] else []
  }

  /** `h` is the helper of a resolver that fired no later than `cursor`. */
  ghost predicate FiredBy(res: seq<Resolver>, h: TriggerHelper, cursor: nat)
  {
    exists i :: 0 <= i < |res| && h == res[i].helper && res[i].firedAt <= cursor
  }

  /** Runs, in queue order, every finalizer due at `cursor`: each stores a
      snapshot of the current data as its resolver's final data and reports
      the line current now, not the line its trigger fired on. Finalizers not
      yet due stay queued in order. */
  function DrainQueue(res: seq<Resolver>, data: DataValue, q: seq<Pending>, line: LogLine, cursor: nat)
    : (out: (seq<Resolver>, seq<Pending>, seq<Report>))
    requires QueueWf(res, q)
    ensures |out.0| == |res|
    ensures forall i :: 0 <= i < |res| ==>
      out.0[i].helper == res[i].helper && out.0[i].firedAt == res[i].firedAt && out.0[i].due == res[i].due
    ensures forall j :: 0 <= j < |out.1| ==> out.1[j].due > cursor
    ensures |out.1| + |out.2| == |q|
    ensures QueueWf(out.0, out.1)
    ensures forall j :: 0 <= j < |out.2| ==> out.2[j].log == line && out.2[j].status.finalData == Some(data)
    ensures forall j :: 0 <= j < |out.2| ==> FiredBy(res, out.2[j].helper, cursor)
    decreases |q|
  {
    if q == [] then (res, [], [])
    else
      var front := q[..|q| - 1];
      assert QueueWf(res, front) by {
        assert forall j :: 0 <= j < |front| ==> front[j] == q[j];
      }
      var (r1, keep, reps) := DrainQueue(res, data, front, line, cursor);
      var p := q[|q| - 1];
      if p.due <= cursor then
        var fin := Finalized(r1[p.resolver], data);
        (r1[p.resolver := fin], keep, reps + [Report(line, fin.helper, fin.status)])
      else
        (r1, keep + [p], reps)
  }

  /** Exactly the finalizers not yet due at `cursor` stay queued, in queue
      order, and one report is made per finalizer due. */
  lemma {:induction false} DrainLater(res: seq<Resolver>, data: DataValue, q: seq<Pending>, line: LogLine, cursor: nat)
    requires QueueWf(res, q)
    ensures DrainQueue(res, data, q, line, cursor).1 == Later(q, cursor)
    ensures |DrainQueue(res, data, q, line, cursor).2| == |Due(q, cursor)|
    decreases |q|
  {
    if q != [] {
      var front := q[..|q| - 1];
      assert QueueWf(res, front) by {
        assert forall j :: 0 <= j < |front| ==> front[j] == q[j];
      }
      DrainLater(res, data, front, line, cursor);
    }
  }

  /** A drain leaves each resolver alone or stores the current data as its
      final data. */
  lemma {:induction false} DrainResolver(res: seq<Resolver>, data: DataValue, q: seq<Pending>, line: LogLine, cursor: nat, i: nat)
    requires QueueWf(res, q) && i < |res|
    ensures var out := DrainQueue(res, data, q, line, cursor);
      out.0[i] == res[i] || out.0[i] == Finalized(res[i], data)
    decreases |q|
  {
    if q != [] {
      var front := q[..|q| - 1];
      assert QueueWf(res, front) by {
        assert forall j :: 0 <= j < |front| ==> front[j] == q[j];
      }
      DrainResolver(res, data, front, line, cursor, i);
    }
  }

  /** The `k`-th report of a drain comes from the `k`-th finalizer due: it
      carries the line current now and the helper and the finalized status
      of the resolver that finalizer names. */
  lemma {:induction false} DrainReport(res: seq<Resolver>, data: DataValue, q: seq<Pending>, line: LogLine, cursor: nat, k: nat)
    requires QueueWf(res, q) && k < |Due(q, cursor)|
    ensures var out := DrainQueue(res, data, q, line, cursor); var p := Due(q, cursor)[k];
      p.resolver < |res| && k < |out.2| &&
      out.2[k] == Report(line, res[p.resolver].helper, Finalized(res[p.resolver], data).status)
    decreases |q|
  {
    var front := q[..|q| - 1];
    assert QueueWf(res, front) by {
      assert forall j :: 0 <= j < |front| ==> front[j] == q[j];
    }
    var (r1, keep, reps) := DrainQueue(res, data, front, line, cursor);
    var last := q[|q| - 1];
    DrainLater(res, data, front, line, cursor);
    if k < |Due(front, cursor)| {
      DrainReport(res, data, front, line, cursor, k);
      assert Due(q, cursor)[k] == Due(front, cursor)[k];
    } else {
      assert Due(q, cursor) == Due(front, cursor) + [last];
      DrainResolver(res, data, front, line, cursor, last.resolver);
    }
  }

  /** No resolver has two finalizers in `q`. */
  ghost predicate QueueUnique(q: seq<Pending>)
  {
    forall j, j' :: 0 <= j < j' < |q| ==> q[j].resolver != q[j'].resolver
  }

  /** The finalizers due at `cursor`, taken from a queue in which no
      resolver has two finalizers, still have that property. */
  lemma {:induction false} DueUnique(q: seq<Pending>, cursor: nat)
    requires QueueUnique(q)
    ensures QueueUnique(Due(q, cursor))
    decreases |q|
  {
    if q != [] {
      var front, last := q[..|q| - 1], q[|q| - 1];
      assert forall j :: 0 <= j < |front| ==> front[j] == q[j];
      DueUnique(front, cursor);
      var d, d' := Due(front, cursor), Due(q, cursor);
      assert d' == d + if last.due <= cursor then [last] else [];
      forall k, k' | 0 <= k < k' < |d'|
        ensures d'[k].resolver != d'[k'].resolver
      {
        if k' < |d| {
          assert d'[k] == d[k] && d'[k'] == d[k'];
        } else {
          assert d'[k] == d[k] && d'[k'] == last;
          var j :| 0 <= j < |front| && front[j] == d[k];
        }
      }
    }
  }

  /** The finalizers not yet due at `cursor`, taken from a queue in which no
      resolver has two finalizers, still have that property. */
  lemma {:induction false} LaterUnique(q: seq<Pending>, cursor: nat)
    requires QueueUnique(q)
    ensures QueueUnique(Later(q, cursor))
    decreases |q|
  {
    if q != [] {
      var front, last := q[..|q| - 1], q[|q| - 1];
      assert forall j :: 0 <= j < |front| ==> front[j] == q[j];
      LaterUnique(front, cursor);
      var l, l' := Later(front, cursor), Later(q, cursor);
      assert l' == l + if last.due > cursor then [last] else [];
      forall k, k' | 0 <= k < k' < |l'|
        ensures l'[k].resolver != l'[k'].resolver
      {
        if k' < |l| {
          assert l'[k] == l[k] && l'[k'] == l[k'];
        } else {
          assert l'[k] == l[k] && l'[k'] == last;
          var j :| 0 <= j < |front| && front[j] == l[k];
        }
      }
    }
  }

  /** The drain of a whole context at `cursor`. */
  function Drain(c: Ctx, line: LogLine, cursor: nat): (out: (Ctx, seq<Report>))
    requires QueueWf(c.resolvers, c.pending)
  {
    var (res, keep, reps) := DrainQueue(c.resolvers, c.data, c.pending, line, cursor);
    (Ctx(c.data, res, keep), reps)
  }

  /** The drain of a whole context leaves the data alone, keeps exactly the
      finalizers not yet due, in queue order, and makes one report per
      finalizer due. (Stated apart from `Drain`, whose callers never need
      these facts unfolded.) */
  lemma DrainSplits(c: Ctx, line: LogLine, cursor: nat)
    requires QueueWf(c.resolvers, c.pending)
    ensures Drain(c, line, cursor).0.data == c.data
    ensures |Drain(c, line, cursor).0.resolvers| == |c.resolvers|
    ensures Drain(c, line, cursor).0.pending == Later(c.pending, cursor)
    ensures |Drain(c, line, cursor).1| == |Due(c.pending, cursor)|
  {
    DrainLater(c.resolvers, c.data, c.pending, line, cursor);
  }

  /** `PopupTextAnalysis` as the replay sees it: one isolated engine instance
      bound to one party member. */
  class PopupTextAnalysis {
    const data: LiveData
    var triggerResolvers: seq<Resolver>
    var pending: seq<Pending>

    ghost function Abs(): Ctx
      reads this, data
    {
      Ctx(data.value, triggerResolvers, pending)
    }

    constructor (initialData: DataValue)
      ensures fresh(data)
      ensures Abs() == Ctx(initialData, [], [])
    {
      data := new LiveData(initialData);
      triggerResolvers := [];
      pending := [];
    }

    /** `OnPlayerChange`: the engine's view of its player becomes `st`. */
    method OnPlayerChange(st: PlayerState)
      modifies data
      ensures data.value == old(data.value).(player := Some(st))
    {
      data.value := data.value.(player := Some(st));
    }

    /** The engine's own `OnTrigger`: it runs the trigger's action against the
        live data and records the outcome on the current resolver. */
    method RunTrigger(f: Firing)
      requires triggerResolvers != []
      modifies this, data
      ensures data.value == Apply(old(data.value), f)
      ensures pending == old(pending)
      ensures triggerResolvers ==
        old(triggerResolvers)[|old(triggerResolvers)| - 1 := Settle(old(triggerResolvers)[|old(triggerResolvers)| - 1], f)]
    {
      var last := |triggerResolvers| - 1;
      triggerResolvers := triggerResolvers[last := Settle(triggerResolvers[last], f)];
      data.value := Apply(data.value, f);
    }

    /** The interception hook for one firing on the line at `cursor`. */
    method OnTrigger(f: Firing, line: LogLine, cursor: nat)
      modifies this, data
      ensures Abs() == Fire(old(Abs()), f, line, cursor)
    {
      var resolver := NewResolver(TriggerHelper(f.trigger, line.timestamp, |triggerResolvers|), data.value, cursor);
      triggerResolvers := triggerResolvers + [resolver];
      RunTrigger(f);
      // setFinal: the finalizer waits in the queue until its work completes
      pending := pending + [Pending(|triggerResolvers| - 1, cursor + f.deferral)];
    }

    /** `onEmulatorLog`: feeds one line to the engine, every firing passing
        through the hook in the order the engine reports them. */
    method OnEmulatorLog(line: LogLine, cursor: nat, engine: Engine)
      modifies this, data
      ensures Abs() == FireAll(old(Abs()), engine.fire(old(data.value), line), line, cursor)
    {
      var fs := engine.fire(data.value, line);
      ghost var c0 := Abs();
      var i := 0;
      while i < |fs|
        invariant 0 <= i <= |fs|
        invariant Abs() == FireAll(c0, fs[..i], line, cursor)
      {
        OnTrigger(fs[i], line, cursor);
        FireAllNext(c0, fs, line, cursor, i);
        i := i + 1;
      }
      assert fs[..i] == fs;
    }

    /** Runs the finalizers due at `cursor`, each reading the line current now. */
    method Finalize(lines: seq<LogLine>, cursor: nat) returns (reports: seq<Report>)
      requires cursor < |lines|
      requires QueueWf(triggerResolvers, pending)
      modifies this
      ensures (Abs(), reports) == Drain(old(Abs()), lines[cursor], cursor)
    {
      var cur := GetCurLogLine(lines, cursor);
      var line := cur.value;
      var q := pending;
      var res := triggerResolvers;
      var keep: seq<Pending> := [];
      reports := [];
      var j := 0;
      while j < |q|
        invariant 0 <= j <= |q|
        invariant QueueWf(triggerResolvers, q[..j])
        invariant (res, keep, reports) == DrainQueue(triggerResolvers, data.value, q[..j], line, cursor)
      {
        assert q[..j + 1][..j] == q[..j];
        var p := q[j];
        if p.due <= cursor {
          var fin := Finalized(res[p.resolver], data.value);
          res := res[p.resolver := fin];
          reports := reports + [Report(line, fin.helper, fin.status)];
        } else {
          keep := keep + [p];
        }
        j := j + 1;
      }
      assert q[..j] == q;
      triggerResolvers, pending := res, keep;
    }
  }
}
