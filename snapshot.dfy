/** The composite string key under which the session snapshot stores
    response and rubric records: `f"{sid}::{iid}"`. */
module Snapshot {

  function CompositeKey(sid: string, iid: string): string {
    sid + "::" + iid
  }

  /** Position of the first ':' in `s`, or `|s|` when there is none. */
  function ColonIndex(s: string): (n: nat)
    ensures n <= |s|
  {
    if s == [] || s[0] == ':' then 0 else 1 + ColonIndex(s[1..])
  }

  /** In a key built from a student id without ':', the first ':' ends the id. */
  lemma {:induction false} ColonIndexOfKey(sid: string, iid: string)
    requires ':' !in sid
    ensures ColonIndex(CompositeKey(sid, iid)) == |sid|
  {
    if sid != [] {
      assert CompositeKey(sid, iid)[1..] == CompositeKey(sid[1..], iid);
      ColonIndexOfKey(sid[1..], iid);
    }
  }

  /** Student ids without ':' make the key unambiguous: it determines both parts. */
  lemma CompositeKeyInjective(sid1: string, iid1: string, sid2: string, iid2: string)
    requires ':' !in sid1 && ':' !in sid2
    requires CompositeKey(sid1, iid1) == CompositeKey(sid2, iid2)
    ensures sid1 == sid2 && iid1 == iid2
  {
    var k := CompositeKey(sid1, iid1);
    ColonIndexOfKey(sid1, iid1);
    ColonIndexOfKey(sid2, iid2);
    assert sid1 == k[..|sid1|] == sid2;
    assert iid1 == k[|sid1| + 2..] == iid2;
  }

  /** With "::" allowed inside ids, two different (student, item) pairs share a key. */
  lemma CompositeKeyCollides(s: string, m: string, i: string)
    ensures CompositeKey(s + "::" + m, i) == CompositeKey(s, m + "::" + i)
  {
  }
}
