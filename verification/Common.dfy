/** Types shared by every module of the model. */
module Common {

  /** Identifiers stand for UUIDs; a single counter hands them out, so none is ever reused. */
  type Id = nat

  /** Instants and durations, in seconds. */
  type Time = real

  datatype Option<+T> = None | Some(value: T)

  function Bit(b: bool): nat { if b then 1 else 0 }

  function Min(x: int, y: int): int { if x <= y then x else y }

  function Max(x: int, y: int): int { if x <= y then y else x }

  ghost predicate Distinct(ids: seq<Id>) {
    forall i, j | 0 <= i < j < |ids| :: ids[i] != ids[j]
  }

  function Members(ids: seq<Id>): set<Id> {
    set x | x in ids
  }

  lemma {:induction false} MembersCount(ids: seq<Id>)
    ensures |Members(ids)| <= |ids|
    ensures Distinct(ids) ==> |Members(ids)| == |ids|
  {
    if ids == [] {
      assert Members(ids) == {};
    } else {
      var n := |ids| - 1;
      MembersCount(ids[..n]);
      assert Members(ids) == Members(ids[..n]) + {ids[n]};
    }
  }
}
