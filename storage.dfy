/**
 * The record store: the value kept under the key "tasks" of the browser's
 * local storage, an ordered list of records that only ever grows.
 */
module Storage {
  import opened Wrappers

  /** One call note, as submitted and as persisted. */
  datatype Record = Record(imageUrl: string, fullName: string, homeTown: string, purpose: string, category: string)

  class TaskStore {
    /** The stored list; None while the key "tasks" has never been written. */
    var stored: Option<seq<Record>>

    /** The store as the page finds it when it opens. */
    constructor (persisted: Option<seq<Record>>)
      ensures stored == persisted
    {
      stored := persisted;
    }

    /** The list a reader gets: a missing key reads as the empty list. */
    function Load(): (r: seq<Record>)
      reads this
      ensures stored.None? ==> r == []
      ensures stored.Some? ==> r == stored.value
    {
      stored.GetOr([])
    }

    /** `savetoLocalStorage`: appends `obj` after everything already stored. */
    method Save(obj: Record)
      modifies this
      ensures stored.Some?
      ensures Load() == old(Load()) + [obj]
      ensures |Load()| == |old(Load())| + 1
      ensures Load()[..|old(Load())|] == old(Load()) && Load()[|Load()| - 1] == obj
    {
      if stored.None? {
        var oldTask := [];
        oldTask := oldTask + [obj];
        stored := Some(oldTask);
      } else {
        var oldTask := stored.value;
        oldTask := oldTask + [obj];
        stored := Some(oldTask);
      }
    }
  }
}
