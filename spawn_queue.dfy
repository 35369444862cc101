/** The pending-spawn queue of one parent thread, followed through a whole run.
    A `pthread_create` in the parent appends a marker to the tail of the queue
    (`insertSpaceInThreadCreation`); each child that starts removes the head marker
    and records itself in the thread-dependency table (`popSpaceInThreadCreation`).
    The lemmas show that this pairs the i-th child start with the i-th
    `pthread_create`, whatever the instruction counts are. */
module SpawnQueue {
  import opened Records
  import opened Tables

  /** What happens to one parent's queue, in the order the parent's lock admits it. */
  datatype SpawnEvent =
    | PthreadCreate(marker: Marker)                // the marker the push appends
    | ThreadStarted(child: u64, parentInsNum: u64) // a child starts while the parent is at this count

  datatype Start = Start(child: u64, parentInsNum: u64)

  /** The queue and table after one pop: the head leaves, the child gets its record. */
  function PopState(parent: u64, q: seq<Marker>, db: map<u64, DependencyRecord>, child: u64, now: u64)
    : (r: (seq<Marker>, map<u64, DependencyRecord>))
    requires q != []
    ensures r.0 == q[1..] && |r.0| == |q| - 1
    ensures r.1.Keys == db.Keys + {child}
    ensures child !in db ==> r.1[child] == NewRecord(parent, q[0].instructionNumber, now)
    ensures forall k :: k in db ==> r.1[k] == db[k]
  {
    (q[1..], InsertIfAbsent(db, child, NewRecord(parent, q[0].instructionNumber, now)))
  }

  /** The queue and table after the events, or None when a child starts while the
      queue is empty (the tracer then dereferences a null head). */
  function Replay(parent: u64, q: seq<Marker>, db: map<u64, DependencyRecord>, events: seq<SpawnEvent>)
    : Option<(seq<Marker>, map<u64, DependencyRecord>)>
    decreases |events|
  {
    if events == [] then Some((q, db))
    else match events[0]
      case PthreadCreate(m) => Replay(parent, q + [m], db, events[1..])
      case ThreadStarted(c, now) =>
        if q == [] then None
        else
          var next := PopState(parent, q, db, c, now);
          Replay(parent, next.0, next.1, events[1..])
  }

  /** The markers pushed by the events, in push order. */
  function Created(events: seq<SpawnEvent>): seq<Marker>
    decreases |events|
  {
    if events == [] then []
    else
      (if events[0].PthreadCreate? then [events[0].marker] else []) + Created(events[1..])
  }

  /** The child starts among the events, in the order they pop. */
  function Started(events: seq<SpawnEvent>): seq<Start>
    decreases |events|
  {
    if events == [] then []
    else
      (if events[0].ThreadStarted? then [Start(events[0].child, events[0].parentInsNum)] else [])
      + Started(events[1..])
  }

  /** The ids of the starting children. */
  function ChildIds(starts: seq<Start>): set<u64>
    decreases |starts|
  {
    if starts == [] then {} else {starts[0].child} + ChildIds(starts[1..])
  }

  /** No child starts while its parent's queue is empty. */
  ghost predicate NeverStarved(q: seq<Marker>, events: seq<SpawnEvent>)
  {
    forall n :: 0 <= n < |events| && events[n].ThreadStarted? ==>
      |Started(events[..n])| < |q| + |Created(events[..n])|
  }

  /** The children that start are distinct and had no record before. */
  ghost predicate FreshChildren(db: map<u64, DependencyRecord>, starts: seq<Start>)
  {
    && (forall i :: 0 <= i < |starts| ==> starts[i].child !in db)
    && (forall i, j :: 0 <= i < j < |starts| ==> starts[i].child != starts[j].child)
  }

  lemma PrefixStep(events: seq<SpawnEvent>, n: nat)
    requires n < |events|
    ensures events[..n + 1][1..] == events[1..][..n]
    ensures Created(events[..n + 1]) ==
      (if events[0].PthreadCreate? then [events[0].marker] else []) + Created(events[1..][..n])
    ensures Started(events[..n + 1]) ==
      (if events[0].ThreadStarted? then [Start(events[0].child, events[0].parentInsNum)] else [])
      + Started(events[1..][..n])
  {
  }

  /** The replay gets through the events exactly when no child starts on an empty queue. */
  lemma {:induction false} ReplayDefined(parent: u64, q: seq<Marker>, db: map<u64, DependencyRecord>, events: seq<SpawnEvent>)
    ensures Replay(parent, q, db, events).Some? <==> NeverStarved(q, events)
    decreases |events|
  {
    if events != [] {
      var e, rest := events[0], events[1..];
      assert events[..0] == [];
      var q' := if e.PthreadCreate? then q + [e.marker] else if q == [] then q else q[1..];
      if e.ThreadStarted? && q == [] {
        assert !NeverStarved(q, events);
      } else {
        var db' := if e.PthreadCreate? then db else PopState(parent, q, db, e.child, e.parentInsNum).1;
        assert Replay(parent, q, db, events) == Replay(parent, q', db', rest);
        ReplayDefined(parent, q', db', rest);
        // the starvation condition of `events` at n + 1 is that of `rest` at n
        forall n | 0 <= n < |rest|
          ensures (|Started(events[..n + 1])| < |q| + |Created(events[..n + 1])|)
            <==> (|Started(rest[..n])| < |q'| + |Created(rest[..n])|)
        {
          PrefixStep(events, n);
        }
        if NeverStarved(q, events) {
          forall n | 0 <= n < |rest| && rest[n].ThreadStarted?
            ensures |Started(rest[..n])| < |q'| + |Created(rest[..n])|
          {
            assert events[n + 1] == rest[n];
          }
        }
        if NeverStarved(q', rest) {
          forall n | 0 <= n < |events| && events[n].ThreadStarted?
            ensures |Started(events[..n])| < |q| + |Created(events[..n])|
          {
            if n > 0 {
              assert rest[n - 1] == events[n];
            }
          }
        }
      }
    }
  }

  /** FIFO: the i-th start pops the i-th marker of the queue-then-pushes order, and
      what stays queued is the rest of that order. */
  lemma {:induction false} ReplayFifo(parent: u64, q: seq<Marker>, db: map<u64, DependencyRecord>, events: seq<SpawnEvent>)
    requires Replay(parent, q, db, events).Some?
    ensures |Started(events)| <= |q| + |Created(events)|
    ensures Replay(parent, q, db, events).value.0 == (q + Created(events))[|Started(events)|..]
    decreases |events|
  {
    if events != [] {
      var rest := events[1..];
      match events[0]
      case PthreadCreate(m) =>
        ReplayFifo(parent, q + [m], db, rest);
        PushShift(q, m, Created(rest));
      case ThreadStarted(c, now) =>
        var next := PopState(parent, q, db, c, now);
        ReplayFifo(parent, next.0, next.1, rest);
        PopShift(q, Created(rest), |Started(rest)|);
    }
  }

  lemma PushShift(q: seq<Marker>, m: Marker, created: seq<Marker>)
    ensures q + ([m] + created) == (q + [m]) + created
  {
  }

  lemma PopShift(q: seq<Marker>, created: seq<Marker>, n: nat)
    requires q != [] && n <= |q| - 1 + |created|
    ensures (q + created)[n + 1..] == (q[1..] + created)[n..]
  {
    assert (q + created)[1..] == q[1..] + created;
  }

  /** Records that existed before the events are never touched, and the table gains
      exactly the children that started. */
  lemma {:induction false} ReplayKeepsRecords(parent: u64, q: seq<Marker>, db: map<u64, DependencyRecord>, events: seq<SpawnEvent>)
    requires Replay(parent, q, db, events).Some?
    ensures forall k :: k in db ==> k in Replay(parent, q, db, events).value.1 && Replay(parent, q, db, events).value.1[k] == db[k]
    ensures Replay(parent, q, db, events).value.1.Keys == db.Keys + ChildIds(Started(events))
    decreases |events|
  {
    if events != [] {
      var rest := events[1..];
      match events[0]
      case PthreadCreate(m) =>
        ReplayKeepsRecords(parent, q + [m], db, rest);
        assert Started(events) == Started(rest);
      case ThreadStarted(c, now) =>
        var next := PopState(parent, q, db, c, now);
        ReplayKeepsRecords(parent, next.0, next.1, rest);
        assert Started(events) == [Start(c, now)] + Started(rest);
    }
  }

  /** FIFO pairing: when the starting children are fresh, the i-th child to start gets
      the instruction count of the i-th marker as its pthread_create time and its
      parent's count at its start as its start time. */
  lemma {:induction false} ReplayPairsInOrder(parent: u64, q: seq<Marker>, db: map<u64, DependencyRecord>, events: seq<SpawnEvent>)
    requires Replay(parent, q, db, events).Some?
    requires FreshChildren(db, Started(events))
    ensures |Started(events)| <= |q| + |Created(events)|
    ensures forall i :: 0 <= i < |Started(events)| ==>
      var s := Started(events)[i];
      s.child in Replay(parent, q, db, events).value.1 &&
      Replay(parent, q, db, events).value.1[s.child]
        == NewRecord(parent, (q + Created(events))[i].instructionNumber, s.parentInsNum)
    decreases |events|
  {
    ReplayFifo(parent, q, db, events);
    if events != [] {
      var rest := events[1..];
      var result := Replay(parent, q, db, events).value.1;
      match events[0]
      case PthreadCreate(m) =>
        assert Started(events) == Started(rest);
        assert q + Created(events) == (q + [m]) + Created(rest);
        ReplayPairsInOrder(parent, q + [m], db, rest);
      case ThreadStarted(c, now) =>
        var next := PopState(parent, q, db, c, now);
        var s, s' := Started(events), Started(rest);
        assert s == [Start(c, now)] + s';
        assert q + Created(events) == [q[0]] + (q[1..] + Created(rest));
        assert FreshChildren(next.1, s') by {
          forall i | 0 <= i < |s'| ensures s'[i].child !in next.1 {
            assert s'[i] == s[i + 1];
            assert s[0].child != s[i + 1].child;
          }
          forall i, j | 0 <= i < j < |s'| ensures s'[i].child != s'[j].child {
            assert s'[i] == s[i + 1] && s'[j] == s[j + 1];
          }
        }
        ReplayPairsInOrder(parent, next.0, next.1, rest);
        ReplayKeepsRecords(parent, next.0, next.1, rest);
        assert c !in db by { assert s[0].child == c; }
        forall i | 0 <= i < |s|
          ensures s[i].child in result
          ensures result[s[i].child] == NewRecord(parent, (q + Created(events))[i].instructionNumber, s[i].parentInsNum)
        {
        }
    }
  }

  /** The two-child run: markers at counts 10 and 25, the first child (id 1) starts
      while the parent is at 30, the second (id 2) at 40. */
  lemma TwoChildrenScenario(m1: Marker, m2: Marker)
    requires m1.instructionNumber == 10 && m2.instructionNumber == 25
    ensures var r := Replay(0, [], map[], [PthreadCreate(m1), PthreadCreate(m2), ThreadStarted(1, 30), ThreadStarted(2, 40)]);
      && r.Some? && r.value.0 == []
      && r.value.1 == map[1 := DependencyRecord(0, 10, 30, 0, 0), 2 := DependencyRecord(0, 25, 40, 0, 0)]
  {
    var e := [PthreadCreate(m1), PthreadCreate(m2), ThreadStarted(1, 30), ThreadStarted(2, 40)];
    var e1, e2, e3 := e[1..], e[2..], e[3..];
    assert e1[1..] == e2 && e2[1..] == e3 && e3[1..] == [];
    assert [] + [m1] == [m1] && [m1] + [m2] == [m1, m2] && [m1, m2][1..] == [m2] && [m2][1..] == [];
    var db1 := map[1 := DependencyRecord(0, 10, 30, 0, 0)];
    var db2 := db1[2 := DependencyRecord(0, 25, 40, 0, 0)];
    calc {
      Replay(0, [], map[], e);
      Replay(0, [m1], map[], e1);
      Replay(0, [m1, m2], map[], e2);
      Replay(0, [m2], db1, e3);
      Replay(0, [], db2, []);
    }
  }
}
