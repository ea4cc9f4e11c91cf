/** Where a session's activity goes. */
module EventSinks {
  /** A sink only ever appends. */
  class EventSink<T> {
    var log: seq<T>

    constructor ()
      ensures log == []
    {
      log := [];
    }

    method Emit(activity: T)
      modifies this
      ensures log == old(log) + [activity]
    {
      log := log + [activity];
    }
  }
}
