/** The two process-wide maps: the thread-identity map (OS id to Pin id) and the
    thread-dependency table (child Pin id to its DependencyRecord). Both tracers
    define them identically. */
module Tables {
  import opened Records

  /** `std::map::insert`: a key that is already present keeps its value. */
  function InsertIfAbsent<K, V>(m: map<K, V>, k: K, v: V): (r: map<K, V>)
    ensures r.Keys == m.Keys + {k}
    ensures forall j :: j in m ==> r[j] == m[j]
    ensures k !in m ==> r[k] == v
  {
    if k in m then m else m[k := v]
  }

  /** The record a newly started child gets: both termination fields are zero. */
  function NewRecord(parent: u64, pthreadTime: u64, actualTime: u64): (r: DependencyRecord)
    ensures r.parentThread == parent && r.pthreadCreateTime == pthreadTime && r.startTime == actualTime
    ensures r.terminateTime == 0 && r.insCount == 0
  {
    DependencyRecord(parent, pthreadTime, actualTime, 0, 0)
  }

  /** The table after `find(child)->second.terminateTime = t`. */
  function WithTerminateTime(db: map<u64, DependencyRecord>, child: u64, t: u64): (r: map<u64, DependencyRecord>)
    requires child in db
    ensures r.Keys == db.Keys
    ensures forall k :: k in db && k != child ==> r[k] == db[k]
    ensures r[child].terminateTime == t
    ensures r[child].parentThread == db[child].parentThread
    ensures r[child].pthreadCreateTime == db[child].pthreadCreateTime
    ensures r[child].startTime == db[child].startTime
    ensures r[child].insCount == db[child].insCount
  {
    db[child := db[child].(terminateTime := t)]
  }

  /** The table after `find(child)->second.insCount = n`. */
  function WithInsCount(db: map<u64, DependencyRecord>, child: u64, n: u64): (r: map<u64, DependencyRecord>)
    requires child in db
    ensures r.Keys == db.Keys
    ensures forall k :: k in db && k != child ==> r[k] == db[k]
    ensures r[child].insCount == n
    ensures r[child].parentThread == db[child].parentThread
    ensures r[child].pthreadCreateTime == db[child].pthreadCreateTime
    ensures r[child].startTime == db[child].startTime
    ensures r[child].terminateTime == db[child].terminateTime
  {
    db[child := db[child].(insCount := n)]
  }

  /** A second registration of the same OS id does not overwrite the first one,
      and the query after a first registration answers the registered Pin id. */
  lemma RegisterThenQuery(m: map<u64, u64>, osId: u64, pinId: u64, other: u64)
    ensures osId !in m ==> InsertIfAbsent(m, osId, pinId)[osId] == pinId
    ensures InsertIfAbsent(InsertIfAbsent(m, osId, pinId), osId, other) == InsertIfAbsent(m, osId, pinId)
  {
  }

  /** `threadMapDB` with `insertThreadMapDB` and `queryThreadMapDB`. */
  class ThreadMap {
    var entries: map<u64, u64>

    constructor ()
      ensures entries == map[]
    {
      entries := map[];
    }

    method Insert(osId: u64, pinId: u64)
      modifies this
      ensures entries == InsertIfAbsent(old(entries), osId, pinId)
    {
      entries := InsertIfAbsent(entries, osId, pinId);
    }

    /** `find(OSID)->second`: dereferencing `end()` is undefined, so the id must be registered. */
    function Query(osId: u64): (pinId: u64)
      reads this
      requires osId in entries
      ensures (osId, pinId) in entries.Items
    {
      entries[osId]
    }
  }

  /** `threadDependencyDB` with its insert and two update helpers. */
  class DependencyTable {
    var records: map<u64, DependencyRecord>

    constructor ()
      ensures records == map[]
    {
      records := map[];
    }

    method Insert(childId: u64, parentId: u64, pthreadTime: u64, actualTime: u64)
      modifies this
      ensures records == InsertIfAbsent(old(records), childId, NewRecord(parentId, pthreadTime, actualTime))
    {
      var r := NewRecord(parentId, pthreadTime, actualTime);
      records := InsertIfAbsent(records, childId, r);
    }

    /** `updateThreadDependencyDB`: the child must already have a record. */
    method UpdateTerminateTime(childId: u64, terminateInsCount: u64)
      requires childId in records
      modifies this
      ensures records == WithTerminateTime(old(records), childId, terminateInsCount)
    {
      records := WithTerminateTime(records, childId, terminateInsCount);
    }

    /** `updateThreadDependencyDBTerminateInsCount`: the child must already have a record. */
    method UpdateInsCount(childId: u64, num: u64)
      requires childId in records
      modifies this
      ensures records == WithInsCount(old(records), childId, num)
    {
      records := WithInsCount(records, childId, num);
    }
  }
}
