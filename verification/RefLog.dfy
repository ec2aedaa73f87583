/**
 * The classifier of reference logs: it follows each object from the first line that names its address to
 * the line that brings its count to zero or below, and files the histories.
 *
 * A history that is filed early goes on being updated while its object lives, so the files hold the
 * numbers of the histories.
 */
module RefLog {
  import opened Common

  /** What the state column says, by the order in which the classifier looks for its marks. */
  datatype State = Constructor | Invalid | Destructor | Count(n: int) | Unreadable

  /** A line of the log: too short, or with an address, a change of the count, if that can be read as a
    * number, and a state. */
  datatype Line = Short | Parsed(addr: string, delta: Option<int>, state: State)

  /** An entry of a history: the line with that number, or the destruction it implies. */
  datatype Entry = Logged(line: nat) | Implied

  datatype Record = Record(addr: string, log: seq<Entry>, count: int)

  datatype Options = Options(invalid: bool, leaks: bool, normal: bool, skewed: bool)

  datatype Books = Books(
    records: seq<Record>,
    current: map<string, nat>,
    finished: seq<nat>,
    invalid: seq<nat>,
    skewed: seq<nat>)

  const BLANK := Books([], map[], [], [], [])

  /** A line opens a history for an address that has none.  Nothing comes of a state that is no number. */
  function Open(b: Books, l: Line, o: Options): Option<(Books, bool)>
    requires l.Parsed?
  {
    var id := |b.records|;
    var count := match l.state
      case Constructor => 1
      case Invalid => 0
      case Destructor => 0
      case Count(n) => n
      case Unreadable => 0;
    var b1 := b.(records := b.records + [Record(l.addr, [], count)], current := b.current[l.addr := id]);
    match l.state
    case Constructor => Some((b1, false))
    case Invalid => Some((if o.invalid then b1.(invalid := b1.invalid + [id]) else b1, true))
    case Unreadable => None
    case _ => Some((if o.skewed then b1.(skewed := b1.skewed + [id]) else b1, false))
  }

  function Add(b: Books, id: nat, e: Entry): Books
    requires id < |b.records|
  {
    b.(records := b.records[id := b.records[id].(log := b.records[id].log + [e])])
  }

  /** The line is logged, and a count that is used up closes the history. */
  function Log(b: Books, i: nat, addr: string, rejected: bool, o: Options): Books
    requires addr in b.current && b.current[addr] < |b.records|
  {
    var id := b.current[addr];
    var b1 := Add(b, id, Logged(i));
    if b1.records[id].count > 0 then b1
    else
      var b2 := if b1.records[id].count < 0 then
        var b3 := Add(b1, id, Implied);
        if o.invalid then b3.(invalid := b3.invalid + [id]) else b3
      else b1;
      var b4 := if !rejected && o.normal then b2.(finished := b2.finished + [id]) else b2;
      b4.(current := b4.current - {addr})
  }

  predicate Sane(b: Books) {
    forall a :: a in b.current ==> b.current[a] < |b.records|
  }

  /** One line; a number that cannot be read ends the whole run. */
  function Step(b: Books, i: nat, l: Line, o: Options): Option<Books>
    requires Sane(b)
  {
    if l.Short? then Some(b)
    else if l.addr in b.current then
      if l.delta.None? then None
      else
        var id := b.current[l.addr];
        var r := b.records[id];
        Some(Log(b.(records := b.records[id := r.(count := r.count + l.delta.value)]), i, l.addr, false, o))
    else match Open(b, l, o)
      case None => None
      case Some(start) => Some(Log(start.0, i, l.addr, start.1, o))
  }

  lemma LogSane(b: Books, i: nat, addr: string, rejected: bool, o: Options)
    requires Sane(b) && addr in b.current
    ensures Sane(Log(b, i, addr, rejected, o))
  {
  }

  lemma OpenSane(b: Books, l: Line, o: Options)
    requires Sane(b) && l.Parsed?
    ensures Open(b, l, o).Some? ==>
              Sane(Open(b, l, o).value.0) && l.addr in Open(b, l, o).value.0.current
  {
  }

  lemma StepSane(b: Books, i: nat, l: Line, o: Options)
    requires Sane(b)
    ensures Step(b, i, l, o).Some? ==> Sane(Step(b, i, l, o).value)
  {
    hide Log, Open;
    if l.Parsed? && l.addr in b.current {
      if l.delta.Some? {
        var id := b.current[l.addr];
        var b1 := b.(records := b.records[id := b.records[id].(count := b.records[id].count + l.delta.value)]);
        LogSane(b1, i, l.addr, false, o);
      }
    } else if l.Parsed? {
      OpenSane(b, l, o);
      if Open(b, l, o).Some? {
        LogSane(Open(b, l, o).value.0, i, l.addr, Open(b, l, o).value.1, o);
      }
    }
  }

  /** The books after the first n lines. */
  function After(lines: seq<Line>, n: nat, o: Options): (b: Option<Books>)
    requires n <= |lines|
    ensures b.Some? ==> Sane(b.value)
    decreases n
  {
    if n == 0 then Some(BLANK)
    else match After(lines, n - 1, o)
      case None => None
      case Some(b) =>
        StepSane(b, n - 1, lines[n - 1], o);
        Step(b, n - 1, lines[n - 1], o)
  }

  /** The loop over the lines. */
  method ProcessFile(lines: seq<Line>, o: Options)
    returns (books: Option<Books>, leaked: seq<nat>)
    ensures books == After(lines, |lines|, o)
    ensures books.Some? && o.leaks ==>
              forall id: nat :: id in leaked <==> exists a :: a in books.value.current && books.value.current[a] == id
    ensures books.None? || !o.leaks ==> leaked == []
  {
    hide Open, Log;
    leaked := [];
    var b := BLANK;
    var i := 0;
    while i < |lines|
      invariant 0 <= i <= |lines| && After(lines, i, o) == Some(b)
    {
      var l := lines[i];
      if l.Parsed? {
        var id, rejected := 0, false;
        if l.addr !in b.current {
          match Open(b, l, o)
          case None =>
            FailureStays(lines, i + 1, o);
            return None, [];
          case Some(start) =>
            OpenSane(b, l, o);
            b, rejected := start.0, start.1;
        } else {
          if l.delta.None? {
            FailureStays(lines, i + 1, o);
            return None, [];
          }
          id := b.current[l.addr];
          b := b.(records := b.records[id := b.records[id].(count := b.records[id].count + l.delta.value)]);
        }
        b := Log(b, i, l.addr, rejected, o);
      }
      i := i + 1;
    }
    books := Some(b);
    if o.leaks {
      leaked := ValuesOf(b.current);
    }
  }

  lemma {:induction false} FailureStays(lines: seq<Line>, n: nat, o: Options)
    requires n <= |lines| && After(lines, n, o).None?
    ensures After(lines, |lines|, o).None?
    decreases |lines| - n
  {
    if n < |lines| {
      FailureStays(lines, n + 1, o);
    }
  }

  /** The histories still open, in whatever order the dictionary yields them. */
  method ValuesOf(m: map<string, nat>) returns (s: seq<nat>)
    ensures forall id: nat :: id in s <==> exists a :: a in m && m[a] == id
  {
    s := [];
    var keys := m.Keys;
    while keys != {}
      invariant keys <= m.Keys
      invariant forall id: nat :: id in s <==> exists a :: a in m && a !in keys && m[a] == id
      decreases |keys|
    {
      var k :| k in keys;
      ghost var before := keys;
      keys := keys - {k};
      s := s + [m[k]];
      assert forall a :: a in m && a !in keys ==> a == k || a !in before;
    }
  }
}
