/** The "set insert" that RegRead, RegWrite, MemoryRead and MemoryWrite perform on
    one fixed-size operand array of the trace record: a value already present is
    skipped, otherwise it goes into the first empty (zero) slot, and it is dropped
    when no slot is empty. The arrays hold `unsigned char` register numbers or
    `unsigned long long` addresses, so the slot type and its zero are parameters. */
module Slots {

  /** Index of the first zero slot, or |s| when every slot is occupied. */
  function FirstZero<T(==)>(s: seq<T>, zero: T): (k: nat)
    ensures k <= |s|
    ensures k < |s| ==> s[k] == zero
    ensures forall j :: 0 <= j < k ==> s[j] != zero
  {
    if s == [] then 0
    else if s[0] == zero then 0
    else 1 + FirstZero(s[1..], zero)
  }

  /** The slots after inserting `v`. */
  function SlotInsert<T(==)>(s: seq<T>, zero: T, v: T): seq<T>
  {
    if v in s then s
    else
      var k := FirstZero(s, zero);
      if k < |s| then s[k := v] else s
  }

  /** No non-zero value occupies two slots. */
  ghost predicate NonzeroDistinct<T>(s: seq<T>, zero: T)
  {
    forall i, j :: 0 <= i < j < |s| && s[i] != zero ==> s[i] != s[j]
  }

  /** What an insert does: the slots are unchanged exactly when the value is already
      present or no slot is empty; otherwise the only slot that changes is the
      lowest-index zero slot, and it receives the value. */
  lemma SlotInsertEffect<T>(s: seq<T>, zero: T, v: T)
    ensures |SlotInsert(s, zero, v)| == |s|
    ensures SlotInsert(s, zero, v) == s <==> v in s || zero !in s
    ensures forall k :: 0 <= k < |s| && SlotInsert(s, zero, v)[k] != s[k] ==>
      s[k] == zero && SlotInsert(s, zero, v)[k] == v && forall j :: 0 <= j < k ==> s[j] != zero
    ensures forall i, j :: 0 <= i < j < |s| && SlotInsert(s, zero, v)[i] != s[i] ==> SlotInsert(s, zero, v)[j] == s[j]
  {
  }

  /** Every non-zero value that was recorded stays recorded, a non-zero value that
      finds room (or is already present) is recorded afterwards, and nothing but
      that value is ever added. */
  lemma {:induction false} SlotInsertRecords<T>(s: seq<T>, zero: T, v: T)
    ensures forall x :: x in s && x != zero ==> x in SlotInsert(s, zero, v)
    ensures v in s || zero in s ==> v in SlotInsert(s, zero, v)
    ensures forall x :: x in SlotInsert(s, zero, v) ==> x in s || x == v
  {
    var r := SlotInsert(s, zero, v);
    if v !in s && zero in s {
      SlotInsertEffect(s, zero, v);
      var k := FirstZero(s, zero);
      assert |r| == |s|;
      forall x | x in s && x != zero ensures x in r {
        var i :| 0 <= i < |s| && s[i] == x;
        assert i != k;
        assert r[i] == x;
      }
      assert k < |s| by {
        var i :| 0 <= i < |s| && s[i] == zero;
        assert !(i < k);
      }
      assert r[k] == v;
    }
  }

  /** Inserting keeps the non-zero slots pairwise distinct. */
  lemma SlotInsertKeepsDistinct<T>(s: seq<T>, zero: T, v: T)
    requires NonzeroDistinct(s, zero)
    ensures NonzeroDistinct(SlotInsert(s, zero, v), zero)
  {
  }

  /** Inserting the same value twice has the effect of inserting it once. */
  lemma SlotInsertIdempotent<T>(s: seq<T>, zero: T, v: T)
    ensures SlotInsert(SlotInsert(s, zero, v), zero, v) == SlotInsert(s, zero, v)
  {
  }

  /** The two loops of RegRead, RegWrite, MemoryRead and MemoryWrite on one slot array. */
  method InsertUnique<T(==)>(a: array<T>, zero: T, v: T)
    modifies a
    ensures a[..] == SlotInsert(old(a[..]), zero, v)
  {
    // check whether the value is already in the list
    var alreadyFound := false;
    var i := 0;
    while i < a.Length
      invariant 0 <= i <= a.Length
      invariant !alreadyFound ==> forall j :: 0 <= j < i ==> a[j] != v
      invariant alreadyFound ==> v in a[..]
    {
      if a[i] == v {
        alreadyFound := true;
        break;
      }
      i := i + 1;
    }
    if !alreadyFound {
      i := 0;
      while i < a.Length
        invariant 0 <= i <= a.Length
        invariant forall j :: 0 <= j < i ==> a[j] != zero
        invariant a[..] == old(a[..])
      {
        if a[i] == zero {
          a[i] := v;
          assert a[..] == old(a[..])[FirstZero(old(a[..]), zero) := v];
          return;
        }
        i := i + 1;
      }
    }
  }
}
