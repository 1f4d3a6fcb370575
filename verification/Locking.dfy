/** The token lock that serialises the runs of one configuration (internal/lock/redis_lock.go): SET NX with an expiry, and
    a release that deletes the key only while it still holds the caller's token. */
module Locking {
  import opened Money

  /** A key in Redis; without an expiry it never goes away by itself. */
  datatype Entry = Entry(token: nat, expires: Option<int>)

  /** One granted lock: its time to live, zero for none, and when its holder released it. */
  datatype Section = Section(key: string, token: nat, start: int, ttl: nat, released: Option<int>)

  datatype State = State(now: int, entries: map<string, Entry>, sections: seq<Section>)

  predicate Alive(expires: Option<int>, now: int) {
    expires.None? || now < expires.value
  }

  predicate Held(s: State, key: string) {
    key in s.entries && Alive(s.entries[key].expires, s.now)
  }

  function Deadline(now: int, ttl: nat): Option<int> {
    if ttl == 0 then None else Some(now + ttl)
  }

  function Tried(s: State, key: string, ttl: nat, token: nat): (State, bool) {
    if Held(s, key) then (s, false)
    else
      (State(s.now, s.entries[key := Entry(token, Deadline(s.now, ttl))],
             s.sections + [Section(key, token, s.now, ttl, None)]), true)
  }

  /** The release of section `i`; calling it again changes nothing that was recorded. */
  function Released(s: State, i: nat): State
    requires i < |s.sections|
  {
    var section := s.sections[i];
    var entries := if Held(s, section.key) && s.entries[section.key].token == section.token
                   then s.entries - {section.key} else s.entries;
    State(s.now, entries,
          s.sections[i := if section.released.Some? then section else section.(released := Some(s.now))])
  }

  datatype Event = TryLock(key: string, ttl: nat, token: nat) | Release(section: nat) | Pass(time: nat)

  function Step(s: State, e: Event): State {
    match e
    case TryLock(key, ttl, token) => Tried(s, key, ttl, token).0
    case Release(i) => if i < |s.sections| then Released(s, i) else s
    case Pass(time) => s.(now := s.now + time)
  }

  function Trace(s: State, events: seq<Event>): State
    decreases |events|
  {
    if events == [] then s else Trace(Step(s, events[0]), events[1..])
  }

  /** Every token is drawn once. */
  predicate Fresh(s: State, e: Event) {
    e.TryLock? ==> forall i :: 0 <= i < |s.sections| ==> s.sections[i].token != e.token
  }

  predicate AllFresh(s: State, events: seq<Event>)
    decreases |events|
  {
    events == [] || (Fresh(s, events[0]) && AllFresh(Step(s, events[0]), events[1..]))
  }

  /** The section's time to live is over at time `t`. */
  predicate RunOut(section: Section, t: int) {
    section.ttl > 0 && section.start + section.ttl <= t
  }

  /** The section was given up or had run out at time `t`. */
  predicate OverBy(section: Section, t: int) {
    (section.released.Some? && section.released.value <= t) || RunOut(section, t)
  }

  /** The entry of a section's key while the section lasts: its token, and an expiry one time to live after its start. */
  predicate Backs(e: Entry, section: Section) {
    && e.token == section.token
    && e.expires == if section.ttl == 0 then None else Some(section.start + section.ttl)
  }

  /** The key still holds the token of every section that is neither released nor expired. */
  predicate Backed(s: State) {
    forall i :: 0 <= i < |s.sections| && !OverBy(s.sections[i], s.now) ==>
      && s.sections[i].key in s.entries
      && Backs(s.entries[s.sections[i].key], s.sections[i])
  }

  /** A live key belongs to a section that is neither released nor expired. */
  predicate Owned(s: State) {
    forall key :: key in s.entries && Alive(s.entries[key].expires, s.now) ==>
      exists i :: 0 <= i < |s.sections| && Owns(s, i, key)
  }

  predicate Owns(s: State, i: nat, key: string)
    requires i < |s.sections| && key in s.entries
  {
    s.sections[i].key == key && !OverBy(s.sections[i], s.now)
    && Backs(s.entries[key], s.sections[i])
  }

  predicate Ordered(s: State) {
    && (forall i, j :: 0 <= i < j < |s.sections| ==>
          s.sections[i].start <= s.sections[j].start && s.sections[i].token != s.sections[j].token)
    && (forall i :: 0 <= i < |s.sections| ==> s.sections[i].start <= s.now)
    && (forall i :: 0 <= i < |s.sections| && s.sections[i].released.Some? ==> s.sections[i].released.value <= s.now)
  }

  /** A later section on the same key started only when the earlier one was over. */
  predicate Exclusive(s: State) {
    forall i, j :: 0 <= i < j < |s.sections| && s.sections[i].key == s.sections[j].key ==>
      OverBy(s.sections[i], s.sections[j].start)
  }

  predicate Safe(s: State) {
    Backed(s) && Owned(s) && Ordered(s) && Exclusive(s)
  }

  lemma TriedIsSafe(s: State, key: string, ttl: nat, token: nat)
    requires Safe(s) && Fresh(s, TryLock(key, ttl, token))
    ensures Safe(Tried(s, key, ttl, token).0)
  {
    var t := Tried(s, key, ttl, token).0;
    if !Held(s, key) {
      var n := |s.sections|;
      forall i | 0 <= i < n && s.sections[i].key == key
        ensures OverBy(s.sections[i], s.now)
      {
      }
      assert forall i :: 0 <= i < n ==> t.sections[i] == s.sections[i];
      TriedIsOwned(s, key, ttl, token);
      TriedIsBacked(s, key, ttl, token);
      hide Owned, Backed, Held;
    }
  }

  lemma TriedIsBacked(s: State, key: string, ttl: nat, token: nat)
    requires Backed(s) && !Held(s, key)
    ensures Backed(Tried(s, key, ttl, token).0)
  {
    var t := Tried(s, key, ttl, token).0;
    forall i | 0 <= i < |t.sections| && !OverBy(t.sections[i], t.now)
      ensures t.sections[i].key in t.entries && Backs(t.entries[t.sections[i].key], t.sections[i])
    {
      if i < |s.sections| {
        assert t.sections[i] == s.sections[i];
      }
    }
  }

  lemma TriedIsOwned(s: State, key: string, ttl: nat, token: nat)
    requires Owned(s) && Ordered(s) && !Held(s, key)
    ensures Owned(Tried(s, key, ttl, token).0)
  {
    var t := Tried(s, key, ttl, token).0;
    forall k | k in t.entries && Alive(t.entries[k].expires, t.now)
      ensures exists i :: 0 <= i < |t.sections| && Owns(t, i, k)
    {
      if k == key {
        assert Owns(t, |s.sections|, k);
      } else {
        var i :| 0 <= i < |s.sections| && Owns(s, i, k);
        assert Owns(t, i, k);
      }
    }
  }

  lemma ReleasedIsOwned(s: State, i: nat)
    requires Owned(s) && Ordered(s) && i < |s.sections|
    ensures Owned(Released(s, i))
  {
    var t := Released(s, i);
    forall k | k in t.entries && Alive(t.entries[k].expires, t.now)
      ensures exists j :: 0 <= j < |t.sections| && Owns(t, j, k)
    {
      var j :| 0 <= j < |s.sections| && Owns(s, j, k);
      assert j != i;
      assert Owns(t, j, k);
    }
  }

  lemma ReleasedIsSafe(s: State, i: nat)
    requires Safe(s) && i < |s.sections|
    ensures Safe(Released(s, i))
  {
    var t := Released(s, i);
    var key := s.sections[i].key;
    ReleasedIsOwned(s, i);
    assert forall k :: 0 <= k < |s.sections| && k != i ==> t.sections[k] == s.sections[k];
    forall k | 0 <= k < |t.sections| && !OverBy(t.sections[k], t.now)
      ensures t.sections[k].key in t.entries
      ensures Backs(t.entries[t.sections[k].key], t.sections[k])
    {
      assert k != i && !OverBy(s.sections[k], s.now);
    }
  }

  lemma PassingIsOwned(s: State, time: nat)
    requires Owned(s) && Ordered(s)
    ensures Owned(s.(now := s.now + time))
  {
    var t := s.(now := s.now + time);
    forall k | k in t.entries && Alive(t.entries[k].expires, t.now)
      ensures exists j :: 0 <= j < |t.sections| && Owns(t, j, k)
    {
      var j :| 0 <= j < |s.sections| && Owns(s, j, k);
      assert Owns(t, j, k);
    }
  }

  lemma PassingIsSafe(s: State, time: nat)
    requires Safe(s)
    ensures Safe(s.(now := s.now + time))
  {
    PassingIsOwned(s, time);
    hide Owned;
    assert forall i :: 0 <= i < |s.sections| && OverBy(s.sections[i], s.now) ==> OverBy(s.sections[i], s.now + time);
  }

  lemma StepIsSafe(s: State, e: Event)
    requires Safe(s) && Fresh(s, e)
    ensures Safe(Step(s, e))
  {
    hide Safe, Tried, Released;
    match e
    case TryLock(key, ttl, token) => TriedIsSafe(s, key, ttl, token);
    case Release(i) =>
      if i < |s.sections| {
        ReleasedIsSafe(s, i);
      }
    case Pass(time) => PassingIsSafe(s, time);
  }

  predicate Initial(s: State) {
    s.entries == map[] && s.sections == []
  }

  lemma {:induction false} TraceIsSafe(s: State, events: seq<Event>)
    requires Safe(s) && AllFresh(s, events)
    ensures Safe(Trace(s, events))
    decreases |events|
  {
    if events != [] {
      hide Safe, Step, Fresh;
      StepIsSafe(s, events[0]);
      TraceIsSafe(Step(s, events[0]), events[1..]);
    }
  }

  /** At every time at most one section holds a key: of two sections on one key, one has been released or has expired. */
  lemma OneHolder(s: State, events: seq<Event>, i: nat, j: nat)
    requires Initial(s) && AllFresh(s, events)
    requires i < j < |Trace(s, events).sections|
    requires Trace(s, events).sections[i].key == Trace(s, events).sections[j].key
    ensures var t := Trace(s, events); OverBy(t.sections[i], t.now) || OverBy(t.sections[j], t.now)
  {
    TraceIsSafe(s, events);
  }

  /** A section that releases its lock, or is still running, before its time to live is over. */
  predicate InTime(section: Section, now: int) {
    !RunOut(section, if section.released.Some? then section.released.value else now)
  }

  /** If every critical section ends before its time to live, sections on one key never overlap: the earlier one has been
      released by the time the later one starts. */
  lemma SectionsDoNotOverlap(s: State, events: seq<Event>, i: nat, j: nat)
    requires Initial(s) && AllFresh(s, events)
    requires i < j < |Trace(s, events).sections|
    requires Trace(s, events).sections[i].key == Trace(s, events).sections[j].key
    requires InTime(Trace(s, events).sections[i], Trace(s, events).now)
    ensures var t := Trace(s, events);
            t.sections[i].released.Some? && t.sections[i].released.value <= t.sections[j].start
  {
    TraceIsSafe(s, events);
  }

  /** Whoever releases, however late: the keys of all other sections that are still running are left alone. */
  lemma ReleaseSparesOthers(s: State, events: seq<Event>, i: nat, j: nat)
    requires Initial(s) && AllFresh(s, events)
    requires i < |Trace(s, events).sections| && j < |Trace(s, events).sections| && i != j
    requires !OverBy(Trace(s, events).sections[j], Trace(s, events).now)
    ensures var t := Trace(s, events);
            var r := Released(t, i);
            && Held(r, t.sections[j].key) && r.entries[t.sections[j].key].token == t.sections[j].token
            && !OverBy(r.sections[j], r.now)
  {
    TraceIsSafe(s, events);
    ReleasedIsSafe(Trace(s, events), i);
  }

  /** Exactly when a lock is granted: every section on its key has been released or has expired. */
  lemma GrantedExactly(s: State, events: seq<Event>, key: string, ttl: nat, token: nat)
    requires Initial(s) && AllFresh(s, events)
    ensures var t := Trace(s, events);
            Tried(t, key, ttl, token).1 <==>
              forall i :: 0 <= i < |t.sections| && t.sections[i].key == key ==> OverBy(t.sections[i], t.now)
  {
    TraceIsSafe(s, events);
    var t := Trace(s, events);
    if Held(t, key) {
      var i :| 0 <= i < |t.sections| && Owns(t, i, key);
    }
  }

  /** If a later section on a key starts before the earlier one is released, the earlier one had expired by then. */
  lemma OverlapMeansExpired(s: State, events: seq<Event>, i: nat, j: nat)
    requires Initial(s) && AllFresh(s, events)
    requires i < j < |Trace(s, events).sections|
    requires Trace(s, events).sections[i].key == Trace(s, events).sections[j].key
    requires var earlier, later := Trace(s, events).sections[i], Trace(s, events).sections[j];
             earlier.released.None? || earlier.released.value > later.start
    ensures var earlier, later := Trace(s, events).sections[i], Trace(s, events).sections[j];
            earlier.ttl > 0 && earlier.start + earlier.ttl <= later.start
  {
    TraceIsSafe(s, events);
  }

  /** A granted key stays with its token for its whole time to live while its holder does not release it, whatever others
      do, and for ever without a time to live. From the end of that time on it is not held by that token any more. */
  lemma HeldForItsTime(s: State, events: seq<Event>, i: nat)
    requires Initial(s) && AllFresh(s, events) && i < |Trace(s, events).sections|
    ensures var t := Trace(s, events);
            var section := t.sections[i];
            && (section.released.None? && (section.ttl == 0 || t.now < section.start + section.ttl) ==>
                  Held(t, section.key) && t.entries[section.key].token == section.token)
            && (section.ttl > 0 && t.now >= section.start + section.ttl ==>
                  !(Held(t, section.key) && t.entries[section.key].token == section.token))
  {
    TraceIsSafe(s, events);
    var t := Trace(s, events);
    var section := t.sections[i];
    if section.ttl > 0 && t.now >= section.start + section.ttl && Held(t, section.key) {
      var j :| 0 <= j < |t.sections| && Owns(t, j, section.key);
      assert j != i;
    }
  }

  /** A grant takes exactly the time to live asked for: until then, and only until then, the key is not free. */
  lemma GrantLastsExactly(s: State, key: string, ttl: nat, token: nat, wait: nat)
    requires Tried(s, key, ttl, token).1
    ensures var t := Tried(s, key, ttl, token).0;
            Held(t.(now := t.now + wait), key) <==> ttl == 0 || wait < ttl
    ensures var t := Tried(s, key, ttl, token).0;
            && t.entries.Keys == s.entries.Keys + {key} && t.entries[key].token == token
            && (forall k :: k in s.entries && k != key ==> t.entries[k] == s.entries[k])
            && t.sections == s.sections + [Section(key, token, s.now, ttl, None)] && t.now == s.now
    ensures !Held(s, key)
  {
  }

  /** Such an overlap: a section that overruns its time to live. */
  lemma OverrunOverlaps()
    ensures var t := Trace(State(0, map[], []), [TryLock("hedge", 5, 1), Pass(5), TryLock("hedge", 5, 2)]);
            |t.sections| == 2 && t.sections[0].released.None? && t.sections[1].start == 5
  {
    var a, b, c := TryLock("hedge", 5, 1), Pass(5), TryLock("hedge", 5, 2);
    var s := State(0, map[], []);
    assert [a, b, c][1..] == [b, c] && [b, c][1..] == [c] && [c][1..] == [];
    assert Trace(s, [a, b, c]) == Trace(Step(Step(s, a), b), [c]) == Step(Step(Step(s, a), b), c);
  }

  /** The lock object. Without a client every attempt is granted and nothing is stored. */
  class RedisLocker {
    const connected: bool
    var now: int
    var entries: map<string, Entry>
    ghost var sections: seq<Section>

    ghost function View(): State
      reads this
    {
      State(now, entries, sections)
    }

    constructor (connected: bool, now: int)
      ensures Initial(View()) && this.connected == connected
    {
      this.connected, this.now, entries, sections := connected, now, map[], [];
    }

    method TryLock(key: string, ttl: nat, token: nat) returns (ok: bool)
      modifies this
      ensures !connected ==> ok && View() == old(View())
      ensures connected ==> (View(), ok) == Tried(old(View()), key, ttl, token)
      ensures connected ==>
                (ok <==> !(key in old(entries)
                           && (old(entries)[key].expires.None? || old(now) < old(entries)[key].expires.value)))
      ensures connected && ok ==>
                entries == old(entries)[key := Entry(token, if ttl == 0 then None else Some(now + ttl))]
    {
      if !connected {
        return true;
      }
      if key in entries && Alive(entries[key].expires, now) {
        return false;
      }
      entries := entries[key := Entry(token, Deadline(now, ttl))];
      sections := sections + [Section(key, token, now, ttl, None)];
      return true;
    }

    /** The release closure of the section `i` that TryLock granted for this key and token. */
    method Release(key: string, token: nat, ghost i: nat)
      requires connected && i < |sections| && sections[i].key == key && sections[i].token == token
      modifies this
      ensures View() == Released(old(View()), i)
      ensures entries == if key in old(entries) && old(entries)[key].token == token
                            && (old(entries)[key].expires.None? || now < old(entries)[key].expires.value)
                         then old(entries) - {key} else old(entries)
    {
      if key in entries && Alive(entries[key].expires, now) && entries[key].token == token {
        entries := entries - {key};
      }
      if sections[i].released.None? {
        sections := sections[i := sections[i].(released := Some(now))];
      }
    }
  }
}
