/** Small vocabulary shared by the other modules. */
module Base {
  datatype Option<+T> = None | Some(value: T)

  datatype Result<+T, +E> = Success(value: T) | Failure(error: E)

  predicate Distinct<T(==)>(s: seq<T>) {
    forall i, j :: 0 <= i < j < |s| ==> s[i] != s[j]
  }

  function Flatten<T>(parts: seq<seq<T>>): (r: seq<T>) {
    if parts == [] then [] else Flatten(parts[..|parts| - 1]) + parts[|parts| - 1]
  }
}

/** The monotonic clock of the event loop, in exact arithmetic. Every reading and every
    sleep may take arbitrarily longer than asked, and never shorter. */
module Time {
  class Clock {
    var now: real

    constructor ()
      ensures now == 0.0
    {
      now := 0.0;
    }

    method Read() returns (t: real)
      modifies this
      ensures old(now) <= now && t == now
    {
      Drift();
      t := now;
    }

    method Sleep(seconds: real)
      modifies this
      ensures old(now) <= now && old(now) + seconds <= now
    {
      if seconds > 0.0 {
        now := now + seconds;
      }
      Drift();
    }

    method Drift()
      modifies this
      ensures old(now) <= now
    {
      var delay: real := *;
      if delay > 0.0 {
        now := now + delay;
      }
    }
  }
}
