/** What the classified histories account for, with all options on. */
module RefLogRuns {
  import opened Common
  import opened RefLog

  const ALL := Options(true, true, true, true)

  /** All entries of all histories. */
  function Entries(records: seq<Record>): multiset<Entry> {
    if records == [] then multiset{}
    else Entries(records[..|records| - 1]) + multiset(records[|records| - 1].log)
  }

  /** A history is continued. */
  lemma {:induction false} EntriesPut(records: seq<Record>, id: nat, r: Record, more: seq<Entry>)
    requires id < |records| && r.log == records[id].log + more
    ensures Entries(records[id := r]) == Entries(records) + multiset(more)
    decreases |records|
  {
    var n := |records| - 1;
    if id == n {
      assert records[id := r][..n] == records[..n];
    } else {
      assert records[id := r][..n] == records[..n][id := r];
      EntriesPut(records[..n], id, r, more);
    }
  }

  lemma EntriesNew(records: seq<Record>, r: Record)
    ensures Entries(records + [r]) == Entries(records) + multiset(r.log)
    ensures Abnormal(records + [r]) == Abnormal(records) + if r.count < 0 then 1 else 0
  {
    assert (records + [r])[..|records|] == records;
  }

  lemma {:induction false} EntryHasHome(records: seq<Record>, e: Entry) returns (id: nat, p: nat)
    requires e in Entries(records)
    ensures id < |records| && p < |records[id].log| && records[id].log[p] == e
    decreases |records|
  {
    var n := |records| - 1;
    if e in multiset(records[n].log) {
      id := n;
      p :| 0 <= p < |records[n].log| && records[n].log[p] == e;
    } else {
      id, p := EntryHasHome(records[..n], e);
    }
  }

  function Parses(lines: seq<Line>, n: nat): nat
    requires n <= |lines|
  {
    if n == 0 then 0 else Parses(lines, n - 1) + if lines[n - 1].Parsed? then 1 else 0
  }

  /** How many histories ended below zero. */
  function Abnormal(records: seq<Record>): nat {
    if records == [] then 0
    else Abnormal(records[..|records| - 1]) + if records[|records| - 1].count < 0 then 1 else 0
  }

  lemma {:induction false} AbnormalUpdate(records: seq<Record>, id: nat, r: Record)
    requires id < |records| && records[id].count >= 0
    ensures Abnormal(records[id := r]) == Abnormal(records) + if r.count < 0 then 1 else 0
    decreases |records|
  {
    var n := |records| - 1;
    if id == n {
      assert records[id := r][..n] == records[..n];
    } else {
      assert records[id := r][..n] == records[..n][id := r];
      AbnormalUpdate(records[..n], id, r);
    }
  }

  // ---------------------------------------------------------------------------------------------
  // Where a history stands

  predicate Live(b: Books, id: nat) {
    id < |b.records| && b.records[id].addr in b.current && b.current[b.records[id].addr] == id
  }

  predicate Finished(b: Books, id: nat) {
    id in b.finished
  }

  /** Referenced when invalid: filed as invalid without ever having been a proper object. */
  predicate Rejected(b: Books, id: nat) {
    id in b.invalid && id !in b.finished
  }

  ghost predicate Filed(b: Books) {
    && (forall a :: a in b.current ==> b.current[a] < |b.records| && b.records[b.current[a]].addr == a)
    && (forall id :: id in b.finished || id in b.invalid || id in b.skewed ==> id < |b.records|)
    && (forall id :: 0 <= id < |b.records| ==> Stands(b, id))
  }

  /** One entry for each line that could be parsed, and one more for each abnormal end. */
  ghost predicate Accounted(b: Books, lines: seq<Line>, n: nat)
    requires n <= |lines|
  {
    && (forall i: nat :: Entries(b.records)[Logged(i)] == if i < n && lines[i].Parsed? then 1 else 0)
    && Entries(b.records)[Implied] == Abnormal(b.records)
    && |Entries(b.records)| == Parses(lines, n) + Abnormal(b.records)
  }

  /** The number of changes to the count that a history logs after its first line. */
  function Changes(lines: seq<Line>, log: seq<Entry>): int {
    if |log| <= 1 then 0
    else
      Changes(lines, log[..|log| - 1]) +
      match log[|log| - 1]
      case Logged(i) => if i < |lines| && lines[i].Parsed? && lines[i].delta.Some? then lines[i].delta.value else 0
      case Implied => 0
  }

  predicate StartsWithConstructor(lines: seq<Line>, log: seq<Entry>) {
    |log| > 0 && log[0].Logged? && log[0].line < |lines| && lines[log[0].line].Parsed?
    && lines[log[0].line].state == Constructor
  }

  /** A history that began with its constructor counts one and all later changes. */
  ghost predicate Counted(b: Books, lines: seq<Line>) {
    forall id :: 0 <= id < |b.records| && Live(b, id) && StartsWithConstructor(lines, b.records[id].log) ==>
      b.records[id].count == 1 + Changes(lines, b.records[id].log)
  }

  // ---------------------------------------------------------------------------------------------
  // One line

  /** What a line leaves in the history it belongs to. */
  function Written(i: nat, count: int): seq<Entry> {
    if count < 0 then [Logged(i), Implied] else [Logged(i)]
  }

  /** The history a line belongs to, after the line. */
  function Next(b: Books, i: nat, l: Line): Option<(nat, Record)>
    requires Sane(b) && l.Parsed?
  {
    if l.addr in b.current then
      if l.delta.None? then None
      else
        var id := b.current[l.addr];
        var count := b.records[id].count + l.delta.value;
        Some((id, Record(b.records[id].addr, b.records[id].log + Written(i, count), count)))
    else match l.state
      case Constructor => Some((|b.records|, Record(l.addr, Written(i, 1), 1)))
      case Invalid => Some((|b.records|, Record(l.addr, Written(i, 0), 0)))
      case Destructor => Some((|b.records|, Record(l.addr, Written(i, 0), 0)))
      case Count(n) => Some((|b.records|, Record(l.addr, Written(i, n), n)))
      case Unreadable => None
  }

  function Put(records: seq<Record>, id: nat, r: Record): seq<Record>
    requires id <= |records|
  {
    if id == |records| then records + [r] else records[id := r]
  }

  predicate IsRejected(b: Books, l: Line) {
    l.Parsed? && l.addr !in b.current && l.state == Invalid
  }

  /** The books after a parsed line, all at once. */
  lemma StepWrites(b: Books, i: nat, l: Line)
    requires Sane(b) && l.Parsed?
    ensures Next(b, i, l).None? <==> Step(b, i, l, ALL).None?
    ensures Next(b, i, l).Some? ==>
              var (id, r) := Next(b, i, l).value;
              var b' := Step(b, i, l, ALL).value;
              && id <= |b.records|
              && b'.records == Put(b.records, id, r)
              && b'.current == (if r.count > 0 then b.current[l.addr := id] else b.current - {l.addr})
              && b'.finished == (if r.count <= 0 && !IsRejected(b, l) then b.finished + [id] else b.finished)
              && b'.invalid == (if r.count < 0 || IsRejected(b, l) then b.invalid + [id] else b.invalid)
              && (b'.skewed == b.skewed || b'.skewed == b.skewed + [id])
  {
    if Next(b, i, l).Some? {
      var (id, r) := Next(b, i, l).value;
      var b' := Step(b, i, l, ALL).value;
      if l.addr in b.current {
        assert b.records[id].log + [Logged(i)] + [Implied] == b.records[id].log + [Logged(i), Implied];
        assert b.current[l.addr := id] == b.current;
      } else {
        var r0 := Record(l.addr, [], r.count);
        var r1 := r0.(log := r0.log + [Logged(i)]);
        assert r1 == Record(l.addr, [Logged(i)], r.count);
        assert (b.records + [r0])[id := r1] == b.records + [r1];
        assert [Logged(i)] + [Implied] == [Logged(i), Implied];
        assert (b.records + [r1])[id := r] == b.records + [r];
        assert b.current[l.addr := id] - {l.addr} == b.current - {l.addr};
      }
    }
  }

  lemma FiledIsSane(b: Books)
    requires Filed(b)
    ensures Sane(b)
  {
  }

  lemma CurrentIsLive(b: Books, a: string)
    requires Filed(b) && a in b.current
    ensures b.current[a] < |b.records| && b.records[b.current[a]].addr == a
    ensures Live(b, b.current[a]) && b.records[b.current[a]].count >= 1
  {
    assert Live(b, b.current[a]) && Stands(b, b.current[a]);
  }

  lemma NextGains(b: Books, i: nat, l: Line)
    requires Filed(b) && Sane(b) && l.Parsed? && Next(b, i, l).Some?
    ensures
      var (id, r) := Next(b, i, l).value;
      && id <= |b.records|
      && r.addr == l.addr
      && r.log == (if id == |b.records| then [] else b.records[id].log) + Written(i, r.count)
      && (id < |b.records| ==> Live(b, id) && b.records[id].count >= 1 && l.delta.Some?
                               && r.count == b.records[id].count + l.delta.value)
      && (id == |b.records| && l.state == Constructor ==> r.count == 1)
  {
    if l.addr in b.current {
      CurrentIsLive(b, l.addr);
    }
  }

  /** The standing of one history after a line. */
  ghost predicate Stands(b: Books, x: nat)
    requires x < |b.records|
  {
    && (Live(b, x) ==> !Finished(b, x) && !Rejected(b, x) && x !in b.invalid && b.records[x].count >= 1)
    && (!Live(b, x) ==> (Finished(b, x) || Rejected(b, x)) && b.records[x].count <= 0)
    && (Finished(b, x) && x in b.invalid <==> b.records[x].count < 0)
  }

  /** From b to b' by putting history r of address a at place id. */
  ghost predicate Moves(b: Books, b': Books, a: string, id: nat, r: Record, rejected: bool) {
    && id <= |b.records| && r.addr == a
    && b'.records == Put(b.records, id, r)
    && b'.current == (if r.count > 0 then b.current[a := id] else b.current - {a})
    && b'.finished == (if r.count <= 0 && !rejected then b.finished + [id] else b.finished)
    && b'.invalid == (if r.count < 0 || rejected then b.invalid + [id] else b.invalid)
    && (b'.skewed == b.skewed || b'.skewed == b.skewed + [id])
    && (if id < |b.records| then a in b.current && b.current[a] == id && !rejected else a !in b.current)
    && (rejected ==> r.count == 0)
  }

  lemma OtherStands(b: Books, b': Books, a: string, id: nat, r: Record, rejected: bool, x: nat)
    requires Filed(b) && Moves(b, b', a, id, r, rejected) && x < |b.records| && x != id
    ensures x < |b'.records| && b'.records[x] == b.records[x] && (Live(b', x) <==> Live(b, x)) && Stands(b', x)
  {
    assert Stands(b, x);
  }

  lemma ThisStands(b: Books, b': Books, a: string, id: nat, r: Record, rejected: bool)
    requires Filed(b) && Moves(b, b', a, id, r, rejected)
    ensures id < |b'.records| && Stands(b', id)
  {
    if id < |b.records| {
      assert Live(b, id) && Stands(b, id);
    }
  }

  lemma MovesFiled(b: Books, b': Books, a: string, id: nat, r: Record, rejected: bool)
    requires Filed(b) && Moves(b, b', a, id, r, rejected)
    ensures Filed(b')
  {
    forall x | 0 <= x < |b'.records|
      ensures Stands(b', x)
    {
      if x == id {
        ThisStands(b, b', a, id, r, rejected);
      } else {
        OtherStands(b, b', a, id, r, rejected, x);
      }
    }
    hide Stands, Live, Finished, Rejected;
  }

  lemma StepFiled(b: Books, i: nat, l: Line)
    requires Filed(b) && l.Parsed? && Sane(b) && Step(b, i, l, ALL).Some?
    ensures Filed(Step(b, i, l, ALL).value)
  {
    StepWrites(b, i, l);
    NextGains(b, i, l);
    var (id, r) := Next(b, i, l).value;
    assert id < |b.records| <==> l.addr in b.current;
    assert IsRejected(b, l) ==> r.count == 0;
    hide Step, Next, Filed, Put;
    MovesFiled(b, Step(b, i, l, ALL).value, l.addr, id, r, IsRejected(b, l));
  }

  /** Putting a history in its place adds what it gained. */
  lemma PutAccounts(records: seq<Record>, id: nat, r: Record, more: seq<Entry>)
    requires id <= |records|
    requires r.log == (if id == |records| then [] else records[id].log) + more
    requires id < |records| ==> records[id].count >= 0
    ensures Entries(Put(records, id, r)) == Entries(records) + multiset(more)
    ensures Abnormal(Put(records, id, r)) == Abnormal(records) + if r.count < 0 then 1 else 0
  {
    if id == |records| {
      assert r.log == more;
      EntriesNew(records, r);
    } else {
      EntriesPut(records, id, r, more);
      AbnormalUpdate(records, id, r);
    }
  }

  lemma WrittenCounts(i: nat, count: int)
    ensures
      var m := multiset(Written(i, count));
      && m[Logged(i)] == 1
      && m[Implied] == (if count < 0 then 1 else 0)
      && |m| == 1 + (if count < 0 then 1 else 0)
      && (forall j: nat :: j != i ==> m[Logged(j)] == 0)
  {
    if count < 0 {
      assert multiset(Written(i, count)) == multiset{Logged(i), Implied};
    } else {
      assert multiset(Written(i, count)) == multiset{Logged(i)};
    }
  }

  lemma AddsUp(b: Books, b': Books, lines: seq<Line>, n: nat, count: int)
    requires n < |lines| && lines[n].Parsed? && Accounted(b, lines, n)
    requires Entries(b'.records) == Entries(b.records) + multiset(Written(n, count))
    requires Abnormal(b'.records) == Abnormal(b.records) + if count < 0 then 1 else 0
    ensures Accounted(b', lines, n + 1)
  {
    WrittenCounts(n, count);
    hide Entries, Abnormal, Written;
  }

  lemma StepAccounted(b: Books, lines: seq<Line>, n: nat)
    requires n < |lines| && Filed(b) && Accounted(b, lines, n)
    requires Sane(b) && Step(b, n, lines[n], ALL).Some?
    ensures Accounted(Step(b, n, lines[n], ALL).value, lines, n + 1)
  {
    var l := lines[n];
    if l.Parsed? {
      hide Step, Next, Filed, Entries, Abnormal, Put, Accounted, Written;
      StepWrites(b, n, l);
      NextGains(b, n, l);
      var (id, r) := Next(b, n, l).value;
      PutAccounts(b.records, id, r, Written(n, r.count));
      AddsUp(b, Step(b, n, l, ALL).value, lines, n, r.count);
    } else {
      ShortChangesNothing(b, n);
      hide Step, Entries, Abnormal;
    }
  }

  lemma ChangesNext(lines: seq<Line>, log: seq<Entry>, i: nat)
    requires log != [] && i < |lines| && lines[i].Parsed? && lines[i].delta.Some?
    ensures Changes(lines, log + [Logged(i)]) == Changes(lines, log) + lines[i].delta.value
  {
    assert (log + [Logged(i)])[..|log|] == log;
  }

  /** Every history has a first line. */
  ghost predicate Begun(b: Books) {
    forall id :: 0 <= id < |b.records| ==> b.records[id].log != []
  }

  lemma StepCounted(b: Books, lines: seq<Line>, n: nat)
    requires n < |lines| && Filed(b) && Counted(b, lines) && Begun(b)
    requires Sane(b) && Step(b, n, lines[n], ALL).Some?
    ensures Counted(Step(b, n, lines[n], ALL).value, lines) && Begun(Step(b, n, lines[n], ALL).value)
  {
    var l := lines[n];
    if l.Parsed? {
      StepWrites(b, n, l);
      NextGains(b, n, l);
      var (id, r) := Next(b, n, l).value;
      var b' := Step(b, n, l, ALL).value;
      hide Step, Next, Filed, Changes, StartsWithConstructor;
      forall x | 0 <= x < |b'.records| && Live(b', x) && StartsWithConstructor(lines, b'.records[x].log)
        ensures b'.records[x].count == 1 + Changes(lines, b'.records[x].log)
      {
        if x != id {
          assert b'.records[x] == b.records[x];
          assert Live(b, x) by { StillLive(b, b', l, id, x); }
        } else {
          OneMoreLine(b, lines, n, id, r);
        }
      }
    }
  }

  lemma StillLive(b: Books, b': Books, l: Line, id: nat, x: nat)
    requires l.Parsed? && x < |b.records| && x < |b'.records| && b'.records[x] == b.records[x] && x != id && Live(b', x)
    requires b'.current == b.current[l.addr := id] || b'.current == b.current - {l.addr}
    ensures Live(b, x)
  {
  }

  lemma OneMoreLine(b: Books, lines: seq<Line>, n: nat, id: nat, r: Record)
    requires n < |lines| && lines[n].Parsed? && id <= |b.records| && r.count > 0
    requires StartsWithConstructor(lines, r.log) && Counted(b, lines) && Begun(b)
    requires r.log == (if id == |b.records| then [] else b.records[id].log) + [Logged(n)]
    requires id < |b.records| ==> Live(b, id) && lines[n].delta.Some?
    requires id < |b.records| ==> r.count == b.records[id].count + lines[n].delta.value
    requires id == |b.records| && lines[n].state == Constructor ==> r.count == 1
    ensures r.count == 1 + Changes(lines, r.log)
  {
    if id < |b.records| {
      ChangesNext(lines, b.records[id].log, n);
      assert StartsWithConstructor(lines, b.records[id].log);
    }
  }

  lemma {:induction false} AfterKeeps(lines: seq<Line>, n: nat)
    requires n <= |lines| && After(lines, n, ALL).Some?
    ensures
      var b := After(lines, n, ALL).value;
      Filed(b) && Accounted(b, lines, n) && Counted(b, lines) && Begun(b)
    decreases n
  {
    if n > 0 {
      hide Step, Filed, Accounted, Counted, Begun;
      AfterKeeps(lines, n - 1);
      StepAll(After(lines, n - 1, ALL).value, lines, n - 1);
    }
  }

  lemma StepAll(b: Books, lines: seq<Line>, n: nat)
    requires n < |lines| && Filed(b) && Accounted(b, lines, n) && Counted(b, lines) && Begun(b)
    requires Sane(b) && Step(b, n, lines[n], ALL).Some?
    ensures
      var b' := Step(b, n, lines[n], ALL).value;
      Filed(b') && Accounted(b', lines, n + 1) && Counted(b', lines) && Begun(b')
  {
    hide Filed, Accounted, Counted, Begun;
    StepAccounted(b, lines, n);
    StepCounted(b, lines, n);
    if lines[n].Parsed? {
      StepFiled(b, n, lines[n]);
    } else {
      ShortChangesNothing(b, n);
    }
    hide Step;
  }

  lemma ShortChangesNothing(b: Books, i: nat)
    requires Sane(b)
    ensures Step(b, i, Short, ALL) == Some(b)
  {
  }

  /** Every parsed line is in exactly one history, once, and no other line is in any. */
  lemma LineHasOneHistory(lines: seq<Line>, i: nat)
    requires i < |lines| && After(lines, |lines|, ALL).Some?
    ensures
      var records := After(lines, |lines|, ALL).value.records;
      && Entries(records)[Logged(i)] == (if lines[i].Parsed? then 1 else 0)
      && ((exists id, p :: 0 <= id < |records| && 0 <= p < |records[id].log| && records[id].log[p] == Logged(i))
          <==> lines[i].Parsed?)
  {
    AfterKeeps(lines, |lines|);
    var records := After(lines, |lines|, ALL).value.records;
    if lines[i].Parsed? {
      var id, p := EntryHasHome(records, Logged(i));
      assert records[id].log[p] == Logged(i);
    } else if id, p :| 0 <= id < |records| && 0 <= p < |records[id].log| && records[id].log[p] == Logged(i) {
      HomeHasEntry(records, id, p);
    }
  }

  lemma {:induction false} HomeHasEntry(records: seq<Record>, id: nat, p: nat)
    requires id < |records| && p < |records[id].log|
    ensures records[id].log[p] in Entries(records)
    decreases |records|
  {
    if id < |records| - 1 {
      HomeHasEntry(records[..|records| - 1], id, p);
    } else {
      assert records[id].log[p] in multiset(records[id].log);
    }
  }

  /** The histories split into finished, referenced when invalid, and leaked; the leaked ones count at least
    * one, and one with a constructor counts one plus all its later changes. */
  lemma HistoriesSplit(lines: seq<Line>, id: nat)
    requires After(lines, |lines|, ALL).Some? && id < |After(lines, |lines|, ALL).value.records|
    ensures
      var b := After(lines, |lines|, ALL).value;
      var r := b.records[id];
      && (Live(b, id) || Finished(b, id) || Rejected(b, id))
      && !(Live(b, id) && Finished(b, id)) && !(Live(b, id) && Rejected(b, id)) && !(Finished(b, id) && Rejected(b, id))
      && (Live(b, id) ==> r.count >= 1)
      && (Live(b, id) && StartsWithConstructor(lines, r.log) ==> r.count == 1 + Changes(lines, r.log))
  {
    hide After, Accounted, Begun, Changes, StartsWithConstructor;
    AfterKeeps(lines, |lines|);
    assert Stands(After(lines, |lines|, ALL).value, id);
  }

  /** The histories have one entry for each parsed line and one more for each abnormal end, which are just
    * those filed both as finished and as invalid. */
  lemma EntriesConserved(lines: seq<Line>)
    requires After(lines, |lines|, ALL).Some?
    ensures
      var b := After(lines, |lines|, ALL).value;
      && |Entries(b.records)| == Parses(lines, |lines|) + Abnormal(b.records)
      && Entries(b.records)[Implied] == Abnormal(b.records)
      && (forall id :: 0 <= id < |b.records| ==>
            (b.records[id].count < 0 <==> Finished(b, id) && id in b.invalid))
  {
    hide After, Entries, Abnormal, Counted, Begun;
    AfterKeeps(lines, |lines|);
    var b := After(lines, |lines|, ALL).value;
    forall id | 0 <= id < |b.records|
      ensures b.records[id].count < 0 <==> Finished(b, id) && id in b.invalid
    {
      assert Stands(b, id);
    }
  }
}
