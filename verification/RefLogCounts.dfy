/**
 * What the count of a history and its filing say about its lines: where the count starts, what is added to it,
 * and which histories are filed as skewed or as invalid.
 */
module RefLogCounts {
  import opened Common
  import opened RefLog
  import opened RefLogRuns

  /** The count after the first line of a history, by the state that line shows: a constructor counts one, a number
    * counts as it is, and what is destroyed or invalid counts nothing. */
  function Starting(state: State): int {
    match state
    case Constructor => 1
    case Count(n) => n
    case _ => 0
  }

  /** The line a history begins with. */
  predicate Begins(lines: seq<Line>, log: seq<Entry>) {
    |log| > 0 && log[0].Logged? && log[0].line < |lines| && lines[log[0].line].Parsed?
  }

  function FirstState(lines: seq<Line>, log: seq<Entry>): State
    requires Begins(lines, log)
  {
    lines[log[0].line].state
  }

  /** A history tells its count: the start, by its first line, and all later changes. */
  ghost predicate Told(lines: seq<Line>, r: Record) {
    Begins(lines, r.log) && r.count == Starting(FirstState(lines, r.log)) + Changes(lines, r.log)
  }

  /** It is filed as skewed exactly if its first line is a number or a destruction, and as invalid exactly if its first
    * line is invalid or its count fell below zero. */
  ghost predicate FiledRightly(b: Books, lines: seq<Line>, id: nat)
    requires id < |b.records|
  {
    var r := b.records[id];
    Begins(lines, r.log) &&
    var state := FirstState(lines, r.log);
    && (id in b.skewed <==> state.Count? || state.Destructor?)
    && (id in b.invalid <==> state.Invalid? || r.count < 0)
  }

  ghost predicate AllTold(b: Books, lines: seq<Line>) {
    && (forall id :: 0 <= id < |b.records| ==> Told(lines, b.records[id]) && FiledRightly(b, lines, id))
    && (forall id :: id in b.skewed ==> id < |b.records|)
  }

  /** A history is opened as skewed exactly by a number or a destruction. */
  lemma StepSkews(b: Books, i: nat, l: Line)
    requires Sane(b) && l.Parsed? && Step(b, i, l, ALL).Some?
    ensures Step(b, i, l, ALL).value.skewed
         == if l.addr !in b.current && (l.state.Count? || l.state.Destructor?) then b.skewed + [|b.records|] else b.skewed
  {
  }

  lemma ChangesWritten(lines: seq<Line>, log: seq<Entry>, i: nat, count: int)
    requires i < |lines| && lines[i].Parsed?
    ensures log == [] ==> Changes(lines, log + Written(i, count)) == 0
    ensures log != [] && lines[i].delta.Some? ==>
              Changes(lines, log + Written(i, count)) == Changes(lines, log) + lines[i].delta.value
  {
    var one := log + [Logged(i)];
    if log != [] && lines[i].delta.Some? { ChangesNext(lines, log, i); }
    if count < 0 {
      assert (log + Written(i, count))[..|one|] == one;
    } else {
      assert log + Written(i, count) == one;
    }
  }

  lemma NewIsTold(lines: seq<Line>, i: nat, r: Record)
    requires i < |lines| && lines[i].Parsed?
    requires r.log == Written(i, r.count) && r.count == Starting(lines[i].state)
    ensures Told(lines, r) && FirstState(lines, r.log) == lines[i].state
  {
    assert [] + Written(i, r.count) == Written(i, r.count);
    ChangesWritten(lines, [], i, r.count);
  }

  lemma ContinuedIsTold(lines: seq<Line>, i: nat, was: Record, r: Record)
    requires i < |lines| && lines[i].Parsed? && lines[i].delta.Some? && Told(lines, was)
    requires r.log == was.log + Written(i, r.count) && r.count == was.count + lines[i].delta.value
    ensures Told(lines, r) && FirstState(lines, r.log) == FirstState(lines, was.log)
  {
    ChangesWritten(lines, was.log, i, r.count);
    assert r.log[0] == was.log[0];
    hide Changes;
  }

  lemma NextStarts(b: Books, i: nat, l: Line)
    requires Sane(b) && l.Parsed? && Next(b, i, l).Some? && l.addr !in b.current
    ensures
      var (id, r) := Next(b, i, l).value;
      id == |b.records| && r.log == Written(i, r.count) && r.count == Starting(l.state) && !l.state.Unreadable?
  {
  }

  lemma StepTold(b: Books, lines: seq<Line>, n: nat)
    requires n < |lines| && Filed(b) && AllTold(b, lines) && Sane(b) && Step(b, n, lines[n], ALL).Some?
    ensures AllTold(Step(b, n, lines[n], ALL).value, lines)
  {
    var l := lines[n];
    if l.Short? {
      ShortChangesNothing(b, n);
    } else {
      StepWrites(b, n, l);
      StepSkews(b, n, l);
      NextGains(b, n, l);
      var (id, r) := Next(b, n, l).value;
      var b' := Step(b, n, l, ALL).value;
      if l.addr in b.current {
        assert id < |b.records| && Told(lines, b.records[id]) && FiledRightly(b, lines, id);
        assert id !in b.invalid by { assert Stands(b, id); }
        ContinuedIsTold(lines, n, b.records[id], r);
      } else {
        NextStarts(b, n, l);
        NewIsTold(lines, n, r);
      }
      hide Step, Next, Told, FirstState, Written, Starting;
      PutIsTold(b, b', lines, id, r, l.addr !in b.current, l.state);
    }
  }

  /** The new or continued history in its place. */
  lemma PutIsTold(b: Books, b': Books, lines: seq<Line>, id: nat, r: Record, first: bool, state: State)
    requires Filed(b) && AllTold(b, lines) && id <= |b.records| && b'.records == Put(b.records, id, r)
    requires first <==> id == |b.records|
    requires Told(lines, r) && Begins(lines, r.log)
    requires first ==> FirstState(lines, r.log) == state
    requires !first ==> Begins(lines, b.records[id].log) && id !in b.invalid
                        && FirstState(lines, r.log) == FirstState(lines, b.records[id].log)
    requires b'.skewed == if first && (state.Count? || state.Destructor?) then b.skewed + [|b.records|] else b.skewed
    requires b'.invalid == if r.count < 0 || (first && state.Invalid?) then b.invalid + [id] else b.invalid
    ensures AllTold(b', lines)
  {
    hide Told, Begins, FirstState;
    forall x | 0 <= x < |b'.records| ensures Told(lines, b'.records[x]) && FiledRightly(b', lines, x) {
      if x < |b.records| {
        assert Told(lines, b.records[x]) && FiledRightly(b, lines, x);
      }
    }
  }

  lemma {:induction false} AfterTold(lines: seq<Line>, n: nat)
    requires n <= |lines| && After(lines, n, ALL).Some?
    ensures AllTold(After(lines, n, ALL).value, lines)
    decreases n
  {
    if n > 0 {
      hide Step, Filed, AllTold, Accounted, Counted, Begun;
      AfterTold(lines, n - 1);
      AfterKeeps(lines, n - 1);
      StepTold(After(lines, n - 1, ALL).value, lines, n - 1);
    } else {
      assert After(lines, 0, ALL) == Some(BLANK);
    }
  }

  /** In the end the count of every history, whatever became of it, is the start that its first line gives and all later
    * changes; and exactly the histories that start with a number or a destruction are filed as skewed, exactly
    * those that start invalid or fell below zero as invalid. */
  lemma CountsAreTold(lines: seq<Line>, id: nat)
    requires After(lines, |lines|, ALL).Some? && id < |After(lines, |lines|, ALL).value.records|
    ensures
      var b := After(lines, |lines|, ALL).value;
      var r := b.records[id];
      && Begins(lines, r.log)
      && var state := FirstState(lines, r.log);
         && r.count == Starting(state) + Changes(lines, r.log)
         && (id in b.skewed <==> state.Count? || state.Destructor?)
         && (id in b.invalid <==> state.Invalid? || r.count < 0)
  {
    AfterTold(lines, |lines|);
    var b := After(lines, |lines|, ALL).value;
    assert Told(lines, b.records[id]) && FiledRightly(b, lines, id);
    hide After;
  }

  // ---------------------------------------------------------------------------------------------
  // Reports switched off

  /** A report that is switched off has an empty list, and nothing else differs. */
  predicate Filtered(all: Books, b: Books, o: Options) {
    && b.records == all.records && b.current == all.current
    && b.finished == (if o.normal then all.finished else [])
    && b.invalid == (if o.invalid then all.invalid else [])
    && b.skewed == (if o.skewed then all.skewed else [])
  }

  lemma OpenFilters(all: Books, b: Books, l: Line, o: Options)
    requires l.Parsed? && Filtered(all, b, o)
    ensures Open(b, l, o).None? <==> Open(all, l, ALL).None?
    ensures Open(b, l, o).Some? ==>
              && Filtered(Open(all, l, ALL).value.0, Open(b, l, o).value.0, o)
              && Open(b, l, o).value.1 == Open(all, l, ALL).value.1
  {
  }

  lemma LogFilters(all: Books, b: Books, i: nat, addr: string, rejected: bool, o: Options)
    requires Filtered(all, b, o) && addr in b.current && b.current[addr] < |b.records|
    ensures Filtered(Log(all, i, addr, rejected, ALL), Log(b, i, addr, rejected, o), o)
  {
  }

  lemma StepFilters(all: Books, b: Books, i: nat, l: Line, o: Options)
    requires Sane(all) && Sane(b) && Filtered(all, b, o)
    ensures Step(b, i, l, o).None? <==> Step(all, i, l, ALL).None?
    ensures Step(b, i, l, o).Some? ==> Filtered(Step(all, i, l, ALL).value, Step(b, i, l, o).value, o)
  {
    hide Log, Open;
    if l.Parsed? && l.addr !in b.current {
      OpenFilters(all, b, l, o);
      OpenSane(b, l, o);
      if Open(b, l, o).Some? {
        var (c, rejected) := Open(b, l, o).value;
        LogFilters(Open(all, l, ALL).value.0, c, i, l.addr, rejected, o);
      }
    } else if l.Parsed? && l.delta.Some? {
      var id := b.current[l.addr];
      var r := b.records[id];
      var records := b.records[id := r.(count := r.count + l.delta.value)];
      LogFilters(all.(records := records), b.(records := records), i, l.addr, false, o);
    }
  }

  /** Whatever reports are switched on, each lists exactly what it would list with all of them on. */
  lemma {:induction false} ReportsAreIndependent(lines: seq<Line>, n: nat, o: Options)
    requires n <= |lines|
    ensures After(lines, n, o).None? <==> After(lines, n, ALL).None?
    ensures After(lines, n, o).Some? ==> Filtered(After(lines, n, ALL).value, After(lines, n, o).value, o)
    decreases n
  {
    hide Step, Filtered, Sane;
    if n > 0 {
      ReportsAreIndependent(lines, n - 1, o);
      if After(lines, n - 1, o).Some? {
        StepFilters(After(lines, n - 1, ALL).value, After(lines, n - 1, o).value, n - 1, lines[n - 1], o);
      }
    } else {
      assert Filtered(BLANK, BLANK, o) by { BlankIsFiltered(o); }
    }
  }

  lemma BlankIsFiltered(o: Options)
    ensures Filtered(BLANK, BLANK, o)
  {
  }
}
