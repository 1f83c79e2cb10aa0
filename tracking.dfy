/**
 The nutrition log aggregate (`class Tracker`): today's open list of entries
 and the archive of closed days. The pure functions below specify each
 operation on values; the class carries the same state in mutable fields and
 its methods are proved against those functions.
 */
module Tracking {
  import opened Wrappers
  import opened Entries

  /** The `Codable` content of a `Tracker`: what is encoded and decoded. */
  datatype Snapshot = Snapshot(daily: seq<Food>, history: map<Day, seq<Food>>)

  /** `add`: the entry goes to the end of today's list; the archive is untouched. */
  function Append(s: Snapshot, food: Food): (r: Snapshot)
    ensures |r.daily| == |s.daily| + 1
    ensures r.daily[..|s.daily|] == s.daily && r.daily[|s.daily|] == food
    ensures r.history == s.history
  {
    Snapshot(s.daily + [food], s.history)
  }

  /**
   `saveDay`: today's list becomes the archived list of `today`, replacing any
   earlier one for that day, and the open list is emptied.
   */
  function Archive(s: Snapshot, today: Day): (r: Snapshot)
    ensures r.daily == []
    ensures today in r.history && r.history[today] == s.daily
    ensures r.history.Keys == s.history.Keys + {today}
    ensures forall d :: d in s.history && d != today ==> r.history[d] == s.history[d]
  {
    Snapshot([], s.history[today := s.daily])
  }

  /**
   `load`: `decoded` is what reading the stored data and decoding it gave,
   `None` when the key was absent or the data did not decode.
   */
  function Restore(s: Snapshot, decoded: Option<Snapshot>): (r: Snapshot)
    ensures decoded.None? ==> r.daily == s.daily && r.history == s.history
    ensures decoded.Some? ==> r.daily == decoded.value.daily && r.history == decoded.value.history
  {
    match decoded
    case None => s
    case Some(loaded) => loaded
  }

  /**
   Archiving a day, logging `later`, and archiving the same day again keeps
   only `later` for that day: the second snapshot replaces the first instead
   of being merged with it, and no other day is affected.
   */
  lemma ArchiveAgainOverwrites(s: Snapshot, today: Day, later: seq<Food>)
    ensures var first := Archive(s, today);
            var second := Archive(Snapshot(first.daily + later, first.history), today);
            second.daily == [] && second.history == s.history[today := later]
  {
    var first := Archive(s, today);
    assert first.daily + later == later;
  }

  /**
   Archiving the same day twice with nothing logged in between leaves an
   empty list as that day's snapshot: the first snapshot is lost.
   */
  lemma ArchiveTwiceEmpties(s: Snapshot, today: Day)
    ensures Archive(Archive(s, today), today).history[today] == []
    ensures Archive(Archive(s, today), today).history == s.history[today := []]
  {
  }

  /** A failed load is a no-op; a successful one ignores the previous state. */
  lemma RestoreReplacesOrKeeps(s: Snapshot, t: Snapshot, decoded: Option<Snapshot>)
    ensures Restore(s, None) == s
    ensures decoded.Some? ==> Restore(s, decoded) == Restore(t, decoded)
  {
  }

  class Tracker {
    var daily: seq<Food>
    var history: map<Day, seq<Food>>
    /**
     What this tracker has written to the `"nutriai"` entry of the store, as
     the value handed to the encoder; `None` until its first save. The bytes
     the encoder produces are not modelled.
     */
    var stored: Option<Snapshot>

    /** The tracker's encoded fields as a value. */
    function State(): (s: Snapshot)
      reads this
    {
      Snapshot(daily, history)
    }

    /** `Tracker()`: both fields start empty and nothing has been written. */
    constructor ()
      ensures daily == [] && history == map[] && stored == None
    {
      daily := [];
      history := map[];
      stored := None;
    }

    /** `add`: appends `food` to `daily` in place; it does not save. */
    method Add(food: Food)
      modifies this
      ensures State() == Append(old(State()), food)
      ensures stored == old(stored)
    {
      daily := daily + [food];
    }

    /**
     `save`: encodes the whole tracker and writes it under `"nutriai"`,
     replacing what was there; the log itself is unchanged.
     */
    method Save()
      modifies this
      ensures stored == Some(State())
      ensures daily == old(daily) && history == old(history)
    {
      stored := Some(Snapshot(daily, history));
    }

    /**
     `saveDay`: archives `daily` under `today` (the caller's clock reading),
     clears `daily`, then saves the archived state.
     */
    method SaveDay(today: Day)
      modifies this
      ensures State() == Archive(old(State()), today)
      ensures stored == Some(State())
    {
      history := history[today := daily];
      daily := [];
      Save();
    }

    /**
     `load`: replaces both fields with the decoded tracker's, or changes
     nothing when there was no stored data or it did not decode. It writes
     nothing.
     */
    method Load(decoded: Option<Snapshot>)
      modifies this
      ensures State() == Restore(old(State()), decoded)
      ensures stored == old(stored)
    {
      if decoded.Some? {
        daily := decoded.value.daily;
        history := decoded.value.history;
      }
    }
  }
}
