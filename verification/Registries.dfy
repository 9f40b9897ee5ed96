/** The process-wide registry: session indexes and the callers waiting for a device. */
module Registries {
  import opened Basics

  /** The indexes, the listed waiter channels of each device, and every waiter channel's one slot. */
  datatype Index<S> = Index(
    byDevice: map<string, S>, byRun: map<string, S>, byPerm: map<string, S>, byAsk: map<string, S>,
    waiters: map<string, seq<nat>>, slots: map<nat, Option<S>>)

  /** Everything but the entries of one session. */
  function Without<S(==)>(m: map<string, S>, s: S): map<string, S> {
    map k | k in m && m[k] != s :: m[k]
  }

  function Evicted<S(==)>(x: Index<S>, s: S): Index<S> {
    x.(byRun := Without(x.byRun, s), byPerm := Without(x.byPerm, s), byAsk := Without(x.byAsk, s))
  }

  function Listed<S>(x: Index<S>, device: string): seq<nat> {
    if device in x.waiters then x.waiters[device] else []
  }

  /** A non-blocking send into each of the channels. */
  function Deliver<S>(slots: map<nat, Option<S>>, channels: seq<nat>, s: S): map<nat, Option<S>> {
    map c | c in slots :: if c in channels && slots[c].None? then Some(s) else slots[c]
  }

  /** The latest dial-in wins, and everyone waiting for the device is told. */
  function Registered<S(==)>(x: Index<S>, device: string, s: S): Index<S> {
    var evicted := if device in x.byDevice && x.byDevice[device] != s then Evicted(x, x.byDevice[device]) else x;
    evicted.(byDevice := x.byDevice[device := s],
             slots := Deliver(x.slots, Listed(x, device), s),
             waiters := x.waiters - {device})
  }

  function Deregistered<S(==)>(x: Index<S>, device: string, s: S): Index<S> {
    var byDevice := if device in x.byDevice && x.byDevice[device] == s then x.byDevice - {device} else x.byDevice;
    Evicted(x, s).(byDevice := byDevice)
  }

  function Enlisted<S>(x: Index<S>, device: string, channel: nat): Index<S> {
    x.(waiters := x.waiters[device := Listed(x, device) + [channel]], slots := x.slots[channel := None])
  }

  function Remaining(channels: seq<nat>, channel: nat): seq<nat> {
    if channels == [] then []
    else if channels[|channels| - 1] == channel then Remaining(channels[..|channels| - 1], channel)
    else Remaining(channels[..|channels| - 1], channel) + [channels[|channels| - 1]]
  }

  function Unlisted<S>(x: Index<S>, device: string, channel: nat): Index<S> {
    if device !in x.waiters then x
    else
      var left := Remaining(x.waiters[device], channel);
      x.(waiters := if left == [] then x.waiters - {device} else x.waiters[device := left])
  }

  lemma {:induction false} RemainingIsTheRest(channels: seq<nat>, channel: nat)
    ensures forall c :: c in Remaining(channels, channel) <==> c in channels && c != channel
    ensures Distinct(channels) ==> Distinct(Remaining(channels, channel))
    ensures |Remaining(channels, channel)| <= |channels|
    decreases |channels|
  {
    if channels != [] {
      var front, last := channels[..|channels| - 1], channels[|channels| - 1];
      RemainingIsTheRest(front, channel);
      assert channels == front + [last];
      if Distinct(channels) {
        assert Distinct(front) by {
          assert forall i :: 0 <= i < |front| ==> front[i] == channels[i];
        }
        assert last !in front by {
          assert forall i :: 0 <= i < |front| ==> front[i] == channels[i];
        }
      }
    }
  }

  /** The loop that filters a slice onto its own front. */
  method FilterInPlace(a: array<nat>, channel: nat) returns (n: nat)
    modifies a
    ensures n <= a.Length && a[..n] == Remaining(old(a[..]), channel)
  {
    n := 0;
    for i := 0 to a.Length
      invariant n <= i
      invariant a[i..] == old(a[..])[i..]
      invariant a[..n] == Remaining(old(a[..])[..i], channel)
    {
      ghost var was := old(a[..]);
      assert was[..i + 1][..i] == was[..i];
      assert a[i] == a[i..][0] == was[i];
      assert a[i + 1..] == a[i..][1..];
      if a[i] != channel {
        a[n] := a[i];
        n := n + 1;
      }
    }
    assert old(a[..])[..a.Length] == old(a[..]);
  }

  class Registry<S(==)> {
    var byDevice: map<string, S>
    var byRun: map<string, S>
    var byPerm: map<string, S>
    var byAsk: map<string, S>
    var waiters: map<string, seq<nat>>
    var slots: map<nat, Option<S>>

    constructor ()
      ensures Value() == Index(map[], map[], map[], map[], map[], map[])
    {
      byDevice, byRun, byPerm, byAsk, waiters, slots := map[], map[], map[], map[], map[], map[];
    }

    function Value(): Index<S>
      reads this
    {
      Index(byDevice, byRun, byPerm, byAsk, waiters, slots)
    }

    method Drop(m: map<string, S>, s: S) returns (left: map<string, S>)
      ensures left == Without(m, s)
    {
      left := m;
      var keys := m.Keys;
      while keys != {}
        invariant keys <= m.Keys && left.Keys <= m.Keys
        invariant forall k :: k in left ==> left[k] == m[k]
        invariant forall k :: k in m && k !in left ==> m[k] == s
        invariant forall k :: k in left && k !in keys ==> m[k] != s
        decreases keys
      {
        var k :| k in keys;
        if m[k] == s {
          left := left - {k};
        }
        keys := keys - {k};
      }
    }

    method Evict(s: S)
      modifies this
      ensures Value() == Evicted(old(Value()), s)
    {
      byRun := Drop(byRun, s);
      byPerm := Drop(byPerm, s);
      byAsk := Drop(byAsk, s);
    }

    method Signal(pending: seq<nat>, s: S)
      requires forall c :: c in pending ==> c in slots
      modifies this`slots
      ensures slots == Deliver(old(slots), pending, s)
    {
      for i := 0 to |pending|
        invariant slots == Deliver(old(slots), pending[..i], s)
      {
        assert pending[..i + 1] == pending[..i] + [pending[i]];
        if slots[pending[i]].None? {
          slots := slots[pending[i] := Some(s)];
        }
      }
      assert pending[..|pending|] == pending;
    }

    method Register(device: string, s: S) returns (previous: Option<S>)
      requires forall c :: c in Listed(Value(), device) ==> c in slots
      modifies this
      ensures Value() == Registered(old(Value()), device, s)
      ensures previous == if device in old(byDevice) then Some(old(byDevice)[device]) else None
    {
      previous := if device in byDevice then Some(byDevice[device]) else None;
      if previous.Some? && previous.value != s {
        Evict(previous.value);
      }
      byDevice := byDevice[device := s];
      if device in waiters {
        Signal(waiters[device], s);
        waiters := waiters - {device};
      } else {
        assert slots == Deliver(slots, [], s);
        assert waiters - {device} == waiters;
      }
    }

    method Deregister(device: string, s: S)
      modifies this
      ensures Value() == Deregistered(old(Value()), device, s)
    {
      if device in byDevice && byDevice[device] == s {
        byDevice := byDevice - {device};
      }
      Evict(s);
    }

    method AttachRun(run: string, s: S)
      modifies this`byRun
      ensures byRun == if run == "" then old(byRun) else old(byRun)[run := s]
    {
      if run != "" {
        byRun := byRun[run := s];
      }
    }

    /** Removes the run's entry whichever session it belongs to. */
    method DetachRun(run: string)
      modifies this`byRun
      ensures byRun == if run == "" then old(byRun) else old(byRun) - {run}
    {
      if run != "" {
        byRun := byRun - {run};
      }
    }

    /** The locked part of waiting: an answer now, or a listed channel. */
    method Wait(device: string, channel: nat) returns (ready: Option<S>)
      requires channel !in slots
      modifies this
      ensures ready == if device in old(byDevice) then Some(old(byDevice)[device]) else None
      ensures Value() == if ready.Some? then old(Value()) else Enlisted(old(Value()), device, channel)
    {
      if device in byDevice {
        return Some(byDevice[device]);
      }
      var listed := if device in waiters then waiters[device] else [];
      waiters, slots := waiters[device := listed + [channel]], slots[channel := None];
      return None;
    }

    method RemoveWaiter(device: string, channel: nat)
      modifies this
      ensures Value() == Unlisted(old(Value()), device, channel)
    {
      if device !in waiters {
        return;
      }
      var pending := waiters[device];
      var slice := new nat[|pending|](i requires 0 <= i < |pending| => pending[i]);
      assert slice[..] == pending;
      var n := FilterInPlace(slice, channel);
      waiters := if n == 0 then waiters - {device} else waiters[device := slice[..n]];
    }
  }
}
