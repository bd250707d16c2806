/** What the three pin-change interrupt registries (ports B, C and D) have in
    common: the table entry, the sampled level, and the rule by which the port's
    interrupt handler decides which registered callbacks to call. */
module PinChange {
  import opened Common

  /** `pcint_x_state_t`: the last level seen on a pin, UNKNOWN right after registration. */
  datatype Level = Low | High | Unknown

  /** Callbacks are recorded by identity; calling one is modelled as reporting its id. */
  type CallbackId = nat

  /** What a caller registers: a pin, its pull-up choice and a callback (never NULL). */
  datatype PinConfig = PinConfig(pin: nat, isPullupEnabled: bool, callback: CallbackId)

  /** A table entry. Removing a pin clears only the callback; pin and pull-up stay. */
  datatype Entry = Entry(pin: nat, isPullupEnabled: bool, callback: Option<CallbackId>)

  /** The entry that registering `c` stores. */
  function Stored(c: PinConfig): (e: Entry)
    ensures e.pin == c.pin && e.isPullupEnabled == c.isPullupEnabled && e.callback == Some(c.callback)
  {
    Entry(c.pin, c.isPullupEnabled, Some(c.callback))
  }

  predicate AnyCallback(entries: seq<Entry>) {
    exists i :: 0 <= i < |entries| && entries[i].callback.Some?
  }

  /** The handler calls an entry's callback when the entry is registered, it names
      a pin the handler reads, and the level read differs from the stored one. */
  predicate Fires(e: Entry, sampled: Option<Level>, prev: Level) {
    e.callback.Some? && sampled.Some? && sampled.value != prev
  }

  /** The stored level after one handler run. */
  function NextLevel(e: Entry, sampled: Option<Level>, prev: Level): (l: Level)
    ensures Fires(e, sampled, prev) ==> l == sampled.value
    ensures !Fires(e, sampled, prev) ==> l == prev
  {
    if Fires(e, sampled, prev) then sampled.value else prev
  }

  function NextLevels(entries: seq<Entry>, sampled: seq<Option<Level>>, prev: seq<Level>): (r: seq<Level>)
    requires |entries| == |sampled| == |prev|
    ensures |r| == |prev|
    ensures forall i :: 0 <= i < |r| ==> r[i] == NextLevel(entries[i], sampled[i], prev[i])
  {
    seq(|prev|, i requires 0 <= i < |prev| => NextLevel(entries[i], sampled[i], prev[i]))
  }

  /** The call the handler makes for one entry, if any: its callback with the new level. */
  function Call(e: Entry, sampled: Option<Level>, prev: Level): (c: seq<(CallbackId, Level)>)
    ensures |c| <= 1
    ensures |c| == 1 <==> Fires(e, sampled, prev)
    ensures |c| == 1 ==> c[0] == (e.callback.value, sampled.value)
  {
    if Fires(e, sampled, prev) then [(e.callback.value, sampled.value)] else []
  }

  /** The callbacks the handler calls, with the level passed to each, scanning the
      first n entries in index order. */
  function FiredUpTo(entries: seq<Entry>, sampled: seq<Option<Level>>, prev: seq<Level>, n: nat): seq<(CallbackId, Level)>
    requires n <= |entries| == |sampled| == |prev|
  {
    if n == 0 then []
    else
      FiredUpTo(entries, sampled, prev, n - 1) + Call(entries[n - 1], sampled[n - 1], prev[n - 1])
  }

  /** Every call the handler makes belongs to a registered entry whose sampled
      level differs from its stored level, and passes that new level. */
  lemma {:induction false} FiredOnlyOnChange(entries: seq<Entry>, sampled: seq<Option<Level>>, prev: seq<Level>, n: nat, k: nat)
    requires n <= |entries| == |sampled| == |prev|
    requires k < |FiredUpTo(entries, sampled, prev, n)|
    ensures exists i :: (0 <= i < n && Fires(entries[i], sampled[i], prev[i]) &&
                         FiredUpTo(entries, sampled, prev, n)[k] == (entries[i].callback.value, sampled[i].value))
  {
    var before := FiredUpTo(entries, sampled, prev, n - 1);
    if k < |before| {
      FiredOnlyOnChange(entries, sampled, prev, n - 1, k);
    } else {
      assert Fires(entries[n - 1], sampled[n - 1], prev[n - 1]);
    }
  }

  /** Conversely, every registered entry whose level changed is called. */
  lemma {:induction false} ChangeIsReported(entries: seq<Entry>, sampled: seq<Option<Level>>, prev: seq<Level>, n: nat, i: nat)
    requires n <= |entries| == |sampled| == |prev|
    requires i < n && Fires(entries[i], sampled[i], prev[i])
    ensures (entries[i].callback.value, sampled[i].value) in FiredUpTo(entries, sampled, prev, n)
  {
    if i < n - 1 {
      ChangeIsReported(entries, sampled, prev, n - 1, i);
    }
  }

  /** A second handler run that reads the same levels calls nothing: the first run
      stored every level it reported. */
  lemma {:induction false} SecondRunIsQuiet(entries: seq<Entry>, sampled: seq<Option<Level>>, prev: seq<Level>, n: nat)
    requires n <= |entries| == |sampled| == |prev|
    ensures FiredUpTo(entries, sampled, NextLevels(entries, sampled, prev), n) == []
  {
    if n > 0 {
      SecondRunIsQuiet(entries, sampled, prev, n - 1);
      var next := NextLevels(entries, sampled, prev);
      assert !Fires(entries[n - 1], sampled[n - 1], next[n - 1]);
    }
  }
}
