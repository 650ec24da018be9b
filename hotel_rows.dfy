/** Hotel-list operations both dashboards share: the active flag written by
    `toggleHotelStatus`, and the number of active hotels. */
module HotelRows {
  import opened Types
  import opened Lists

  /** `update({ is_active: v }).eq('id', id)` on a list of hotels. */
  function SetActive(hs: seq<Hotel>, id: string, v: bool): (r: seq<Hotel>)
    ensures |r| == |hs|
    ensures forall i :: 0 <= i < |hs| ==>
      && r[i].(isActive := hs[i].isActive) == hs[i]
      && r[i].isActive == (if hs[i].id == id then v else hs[i].isActive)
  {
    seq(|hs|, i requires 0 <= i < |hs| => if hs[i].id == id then hs[i].(isActive := v) else hs[i])
  }

  /** The write applied to the head and to the rest of a list separately. */
  lemma SetActiveSplit(hs: seq<Hotel>, id: string, v: bool)
    requires hs != []
    ensures SetActive(hs, id, v) == SetActive([hs[0]], id, v) + SetActive(hs[1..], id, v)
  {
  }

  /** The page passes the flag it shows, so toggling twice restores the list. */
  lemma ToggleTwiceRestores(hs: seq<Hotel>, id: string, shown: bool)
    requires forall h :: h in hs && h.id == id ==> h.isActive == shown
    ensures SetActive(SetActive(hs, id, !shown), id, shown) == hs
  {
    var once := SetActive(hs, id, !shown);
    var twice := SetActive(once, id, shown);
    forall i | 0 <= i < |hs| ensures twice[i] == hs[i] {
      assert hs[i] in hs;
    }
  }

  predicate IsActive(h: Hotel) { h.isActive }

  /** `hotels.filter(h => h.is_active).length`. */
  function CountActive(hs: seq<Hotel>): (n: nat)
    ensures n <= |hs|
    ensures n == |hs| <==> forall h :: h in hs ==> h.isActive
  {
    ActiveCountFull(hs);
    |Filter(IsActive, hs)|
  }

  /** Every hotel is active exactly when none is filtered out. */
  lemma ActiveCountFull(hs: seq<Hotel>)
    ensures |Filter(IsActive, hs)| == |hs| <==> forall h :: h in hs ==> h.isActive
  {
    if forall h :: h in hs ==> h.isActive {
      FilterKeepsAll(IsActive, hs);
    } else {
      ActiveCountBelow(hs);
    }
  }

  lemma {:induction false} ActiveCountBelow(hs: seq<Hotel>)
    requires exists h :: h in hs && !h.isActive
    ensures |Filter(IsActive, hs)| < |hs|
  {
    if hs[0].isActive {
      assert exists h :: h in hs[1..] && !h.isActive by {
        var h :| h in hs && !h.isActive;
        assert h != hs[0];
      }
      ActiveCountBelow(hs[1..]);
    }
  }
}
