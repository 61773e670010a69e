/** The scans over the `queues` array in core/events/event_dispatcher.c. */
module SlotSearch {
  import opened Options

  /** The first unused position, or the length if all are used. */
  function FirstFree<T>(slots: seq<Option<T>>): (p: nat)
    ensures p <= |slots|
    ensures forall i :: 0 <= i < p ==> slots[i].Some?
    ensures p < |slots| ==> slots[p].None?
  {
    if slots == [] || slots[0].None? then 0 else 1 + FirstFree(slots[1..])
  }

  /** The first position that holds this ID, or -1. */
  function FirstWith(ids: seq<Option<int>>, id: int): (p: int)
    ensures -1 <= p < |ids|
    ensures p >= 0 ==> ids[p] == Some(id) && forall i :: 0 <= i < p ==> ids[i] != Some(id)
    ensures p == -1 ==> forall i :: 0 <= i < |ids| ==> ids[i] != Some(id)
  {
    if ids == [] then -1
    else if ids[0] == Some(id) then 0
    else
      var p := FirstWith(ids[1..], id);
      if p == -1 then -1 else p + 1
  }

  /** The scan is determined by these properties. */
  lemma FirstWithIs(ids: seq<Option<int>>, id: int, p: nat)
    requires p < |ids| && ids[p] == Some(id) && forall i :: 0 <= i < p ==> ids[i] != Some(id)
    ensures FirstWith(ids, id) == p
  {
  }
}
