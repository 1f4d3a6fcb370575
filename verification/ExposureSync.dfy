/** The periodic exposure sync (internal/service/exposure_sync_service.go): configurations grouped by agent, source and
    symbol, one exposure snapshot per group, one hedge run queued per configuration that can execute. */
module ExposureSync {
  import opened Money
  import opened Symbols

  const MAX_INT64 := 0x7fff_ffff_ffff_ffff

  datatype MonitorConfig = MonitorConfig(
    id: nat, agent: nat, source: string, symbol: string, globalEnabled: bool, enabled: bool, lifecycleActive: bool,
    account: nat, accountAgent: nat, accountActive: bool)

  predicate CanExecute(c: MonitorConfig) {
    c.globalEnabled && c.enabled && c.lifecycleActive && c.agent != 0 && c.account != 0 && c.accountAgent == c.agent
    && c.accountActive
  }

  datatype Key = Key(agent: nat, source: string, symbol: string)

  function KeyOf(c: MonitorConfig): Key {
    Key(c.agent, if Trim(c.source) == "" then "platform" else Lower(Trim(c.source)), Upper(Trim(c.symbol)))
  }

  /** A group is for one agent, one source and one symbol: a blank source is the platform, other sources are told apart by
      their letters but not by case, and so are symbols. */
  lemma KeysExactly(c: MonitorConfig, d: MonitorConfig)
    ensures KeyOf(c) == KeyOf(d) <==>
              c.agent == d.agent && Lower(SourceNamed(c)) == Lower(SourceNamed(d))
              && Upper(Trim(c.symbol)) == Upper(Trim(d.symbol))
    ensures KeyOf(c).agent == c.agent && KeyOf(c).source == Lower(SourceNamed(c))
            && KeyOf(c).symbol == Upper(Trim(c.symbol))
  {
    SourceIsNamed(c);
    SourceIsNamed(d);
    hide Trim, Lower, Upper, SourceNamed;
  }

  lemma SourceIsNamed(c: MonitorConfig)
    ensures KeyOf(c).source == Lower(SourceNamed(c))
  {
    TrimmedAway(c.source);
    hide Trim, Blank, Lower, Upper;
    LowerStays("platform");
  }

  function SourceNamed(c: MonitorConfig): string {
    if Blank(c.source) then "platform" else Trim(c.source)
  }

  predicate Valid(c: MonitorConfig) {
    0 < c.agent <= MAX_INT64 && KeyOf(c).symbol != ""
  }

  datatype Stage = ValidateConfig | CacheNetQuantity | ReadMarkPrice | UpsertSnapshot | EnqueueHedge

  datatype Failure = Failure(key: Key, config: nat, stage: Stage)

  // ---- Grouping -------------------------------------------------------------------------------------------------

  type Groups = map<Key, seq<MonitorConfig>>

  function Joined(groups: Groups, c: MonitorConfig): Groups {
    if !Valid(c) then groups
    else groups[KeyOf(c) := (if KeyOf(c) in groups then groups[KeyOf(c)] else []) + [c]]
  }

  function Grouped(configs: seq<MonitorConfig>): Groups {
    if configs == [] then map[] else Joined(Grouped(configs[..|configs| - 1]), configs[|configs| - 1])
  }

  function Rejected(configs: seq<MonitorConfig>): seq<Failure> {
    if configs == [] then []
    else
      var c := configs[|configs| - 1];
      Rejected(configs[..|configs| - 1]) + if Valid(c) then [] else [Failure(KeyOf(c), c.id, ValidateConfig)]
  }

  /** How many configurations the groups `keys` hold together, defined without an order of summation. */
  ghost function Members(groups: Groups, keys: set<Key>): nat
    requires keys <= groups.Keys
    decreases |keys|
  {
    if keys == {} then 0
    else
      var key :| key in keys;
      |groups[key]| + Members(groups, keys - {key})
  }

  lemma {:induction false} MembersSplit(groups: Groups, keys: set<Key>, key: Key)
    requires keys <= groups.Keys && key in keys
    ensures Members(groups, keys) == |groups[key]| + Members(groups, keys - {key})
    decreases |keys|
  {
    var first :| first in keys && Members(groups, keys) == |groups[first]| + Members(groups, keys - {first});
    if first != key {
      MembersSplit(groups, keys - {first}, key);
      MembersSplit(groups, keys - {key}, first);
      assert keys - {first} - {key} == keys - {key} - {first};
    }
  }

  lemma {:induction false} MembersAgree(a: Groups, b: Groups, keys: set<Key>)
    requires keys <= a.Keys && keys <= b.Keys && forall key :: key in keys ==> a[key] == b[key]
    ensures Members(a, keys) == Members(b, keys)
    decreases |keys|
  {
    if keys != {} {
      var key :| key in keys;
      MembersSplit(a, keys, key);
      MembersSplit(b, keys, key);
      MembersAgree(a, b, keys - {key});
    }
  }

  lemma JoinAddsOne(groups: Groups, c: MonitorConfig)
    requires Valid(c)
    ensures var r := Joined(groups, c); Members(r, r.Keys) == Members(groups, groups.Keys) + 1
  {
    hide Valid, KeyOf;
    var r, key := Joined(groups, c), KeyOf(c);
    MembersSplit(r, r.Keys, key);
    if key in groups {
      MembersSplit(groups, groups.Keys, key);
      assert r.Keys - {key} == groups.Keys - {key};
      MembersAgree(r, groups, groups.Keys - {key});
    } else {
      assert r.Keys - {key} == groups.Keys;
      MembersAgree(r, groups, groups.Keys);
    }
  }

  predicate Causes(c: MonitorConfig, f: Failure) {
    !Valid(c) && f == Failure(KeyOf(c), c.id, ValidateConfig)
  }

  predicate InGroup(groups: Groups, key: Key, c: MonitorConfig) {
    key in groups && c in groups[key]
  }

  /** Every configuration is counted once: a valid one in the group of its key and in no other, every other as one
      validation failure. */
  lemma {:induction false} GroupsPartition(configs: seq<MonitorConfig>)
    ensures var groups := Grouped(configs); Members(groups, groups.Keys) + |Rejected(configs)| == |configs|
    ensures forall c, key :: InGroup(Grouped(configs), key, c) <==> c in configs && Valid(c) && key == KeyOf(c)
    ensures forall f :: f in Rejected(configs) <==>
              exists c :: c in configs && Causes(c, f)
    decreases |configs|
  {
    hide Valid, KeyOf;
    if configs != [] {
      var n := |configs| - 1;
      var c := configs[n];
      GroupsPartition(configs[..n]);
      if Valid(c) {
        JoinAddsOne(Grouped(configs[..n]), c);
      }
      assert configs == configs[..n] + [c];
      GroupsOfLonger(Grouped(configs[..n]), c);
      forall f
        ensures f in Rejected(configs) <==>
                exists d :: d in configs && Causes(d, f)
      {
        RejectedOfLonger(configs, f);
      }
    }
  }

  lemma GroupsOfLonger(groups: Groups, c: MonitorConfig)
    ensures forall d, key :: InGroup(Joined(groups, c), key, d) <==>
              InGroup(groups, key, d) || (Valid(c) && d == c && key == KeyOf(c))
  {
    hide Valid, KeyOf;
  }

  lemma RejectedUnrolls(configs: seq<MonitorConfig>, f: Failure)
    requires configs != []
    ensures f in Rejected(configs) <==> f in Rejected(configs[..|configs| - 1]) || Causes(configs[|configs| - 1], f)
  {
    hide Valid, KeyOf;
    var earlier, c := Rejected(configs[..|configs| - 1]), configs[|configs| - 1];
    if Valid(c) {
      assert Rejected(configs) == earlier;
    } else {
      assert Rejected(configs) == earlier + [Failure(KeyOf(c), c.id, ValidateConfig)];
    }
  }

  lemma RejectedOfLonger(configs: seq<MonitorConfig>, f: Failure)
    requires configs != []
    requires f in Rejected(configs[..|configs| - 1]) <==> exists d :: d in configs[..|configs| - 1] && Causes(d, f)
    ensures f in Rejected(configs) <==> exists c :: c in configs && Causes(c, f)
  {
    hide Causes, Rejected;
    RejectedUnrolls(configs, f);
    ghost var n := |configs| - 1;
    if f in Rejected(configs) {
      if f in Rejected(configs[..n]) {
        var d :| d in configs[..n] && Causes(d, f);
        assert d in configs;
      } else {
        assert configs[n] in configs;
      }
    } else {
      forall c | c in configs
        ensures !Causes(c, f)
      {
        var k :| 0 <= k < |configs| && configs[k] == c;
        assert k < n ==> configs[..n][k] == c;
      }
    }
  }

  method GroupExposureConfigs(configs: seq<MonitorConfig>) returns (groups: Groups, failures: seq<Failure>)
    ensures groups == Grouped(configs) && failures == Rejected(configs)
  {
    hide Valid, KeyOf;
    groups, failures := map[], [];
    for i := 0 to |configs|
      invariant groups == Grouped(configs[..i]) && failures == Rejected(configs[..i])
    {
      var c := configs[i];
      assert configs[..i + 1][..i] == configs[..i];
      if Valid(c) {
        groups := groups[KeyOf(c) := (if KeyOf(c) in groups then groups[KeyOf(c)] else []) + [c]];
      } else {
        failures := failures + [Failure(KeyOf(c), c.id, ValidateConfig)];
      }
    }
    assert configs[..|configs|] == configs;
  }

  // ---- Counting -------------------------------------------------------------------------------------------------

  datatype Kind = OfConfig | OfGroup | OfQueue

  function KindOf(stage: Stage): Kind {
    match stage
    case ValidateConfig => OfConfig
    case EnqueueHedge => OfQueue
    case _ => OfGroup
  }

  function Count(failures: seq<Failure>, kind: Kind): nat {
    if failures == [] then 0
    else Count(failures[..|failures| - 1], kind) + if KindOf(failures[|failures| - 1].stage) == kind then 1 else 0
  }

  lemma CountOneMore(failures: seq<Failure>, f: Failure, kind: Kind)
    ensures Count(failures + [f], kind) == Count(failures, kind) + if KindOf(f.stage) == kind then 1 else 0
  {
    assert (failures + [f])[..|failures|] == failures;
  }

  lemma {:induction false} RejectedCount(configs: seq<MonitorConfig>)
    ensures Count(Rejected(configs), OfConfig) == |Rejected(configs)|
    ensures Count(Rejected(configs), OfGroup) == 0 && Count(Rejected(configs), OfQueue) == 0
    decreases |configs|
  {
    hide Valid, KeyOf;
    if configs != [] {
      var earlier, c := Rejected(configs[..|configs| - 1]), configs[|configs| - 1];
      RejectedCount(configs[..|configs| - 1]);
      if Valid(c) {
        assert Rejected(configs) == earlier;
      } else {
        var f := Failure(KeyOf(c), c.id, ValidateConfig);
        assert Rejected(configs) == earlier + [f];
        hide Count;
        CountOneMore(earlier, f, OfConfig);
        CountOneMore(earlier, f, OfGroup);
        CountOneMore(earlier, f, OfQueue);
      }
    }
  }

  datatype Batch = Batch(
    configs: nat, groups: nat, snapshots: nat, enqueued: nat, skipped: nat, failures: seq<Failure>)

  /** The configurations this sync has accounted for. */
  function Settled(b: Batch): nat {
    b.enqueued + b.skipped + Count(b.failures, OfQueue)
  }

  function Failed(b: Batch, f: Failure): Batch {
    b.(failures := b.failures + [f])
  }

  // ---- The service ----------------------------------------------------------------------------------------------

  /** How the three stages of a group turn out. */
  datatype GroupAnswer = GroupAnswer(cached: bool, price: Option<real>, stored: bool, at: int)

  datatype QueueAnswer = Accepted | Duplicate | Refused

  datatype World = World(net: map<(nat, string), real>, groups: Key -> GroupAnswer, queue: nat -> QueueAnswer)

  datatype Exposed = Exposed(quantity: real, notional: real, mark: real, observedAt: int)

  predicate Reaches(w: World, key: Key) {
    w.groups(key).cached && w.groups(key).price.Some? && w.groups(key).stored
  }

  function ExposedOf(w: World, key: Key): Exposed
    requires Reaches(w, key)
  {
    var quantity := if (key.agent, key.symbol) in w.net then w.net[(key.agent, key.symbol)] else 0.0;
    var price := w.groups(key).price.value;
    Exposed(quantity, quantity * price, price, w.groups(key).at)
  }

  /** What a snapshot must show: the net quantity read for the agent and the symbol, or zero when none was, its value at the
      fetched price, that price, and the time of the group's sync. */
  predicate Measures(w: World, key: Key, e: Exposed) {
    var a := w.groups(key);
    && a.price.Some?
    && e.quantity == (if (key.agent, key.symbol) in w.net.Keys then w.net[(key.agent, key.symbol)] else 0.0)
    && e.mark == a.price.value && e.notional == e.quantity * e.mark && e.observedAt == a.at
  }

  lemma ExposedIsMeasured(w: World, key: Key)
    requires Reaches(w, key)
    ensures Measures(w, key, ExposedOf(w, key))
    ensures w.groups(key).cached && w.groups(key).price.Some? && w.groups(key).stored
  {
  }

  predicate Runs(w: World, c: MonitorConfig) {
    CanExecute(c) && w.queue(c.id).Accepted?
  }

  /** A run of a valid configuration is queued exactly when all its switches are on, its lifecycle and its account are active,
      the account is its agent's, the stages of its group succeed and the queue takes it. */
  lemma RunsExactly(w: World, c: MonitorConfig)
    ensures var answer := w.groups(KeyOf(c));
            Valid(c) && Runs(w, c) && Reaches(w, KeyOf(c)) <==>
            && c.globalEnabled && c.enabled && c.lifecycleActive && c.account != 0 && c.accountActive
            && c.agent == c.accountAgent && 0 < c.agent <= MAX_INT64 && Trim(c.symbol) != "" && w.queue(c.id).Accepted?
            && answer.cached && answer.price.Some? && answer.stored
  {
    hide Trim;
  }

  /** The configurations of a group whose run was queued, in order. */
  function RunsOf(w: World, group: seq<MonitorConfig>): seq<MonitorConfig> {
    if group == [] then []
    else RunsOf(w, group[..|group| - 1]) + if Runs(w, group[|group| - 1]) then [group[|group| - 1]] else []
  }

  lemma {:induction false} RunsOfMembers(w: World, group: seq<MonitorConfig>)
    ensures forall c :: c in RunsOf(w, group) <==> c in group && Runs(w, c)
    decreases |group|
  {
    hide Runs;
    if group != [] {
      RunsOfMembers(w, group[..|group| - 1]);
      assert group == group[..|group| - 1] + [group[|group| - 1]];
    }
  }

  /** The failures of a group's queueing, in order: one for each configuration that can execute and was refused. */
  function RefusalsOf(w: World, key: Key, group: seq<MonitorConfig>): seq<Failure> {
    if group == [] then []
    else
      var c := group[|group| - 1];
      RefusalsOf(w, key, group[..|group| - 1])
      + if CanExecute(c) && w.queue(c.id).Refused? then [Failure(key, c.id, EnqueueHedge)] else []
  }

  /** The stage at which a group fails, if it does: the first that did not succeed. */
  predicate FailsAt(answer: GroupAnswer, stage: Stage) {
    match stage
    case CacheNetQuantity => !answer.cached
    case ReadMarkPrice => answer.cached && answer.price.None?
    case UpsertSnapshot => answer.cached && answer.price.Some? && !answer.stored
    case _ => false
  }

  class ExposureSyncService {
    var snapshots: map<Key, Exposed>
    var queued: seq<MonitorConfig>

    constructor ()
      ensures snapshots == map[] && queued == []
    {
      snapshots, queued := map[], [];
    }

    /** Queues a run for each configuration of a group that can execute. */
    method QueueGroup(w: World, key: Key, group: seq<MonitorConfig>, before: Batch) returns (after: Batch)
      modifies `queued
      ensures queued == old(queued) + RunsOf(w, group)
      ensures after == before.(enqueued := after.enqueued, skipped := after.skipped, failures := after.failures)
      ensures after.enqueued == before.enqueued + |RunsOf(w, group)|
      ensures after.failures == before.failures + RefusalsOf(w, key, group)
      ensures Settled(after) == Settled(before) + |group|
      ensures Count(after.failures, OfGroup) == Count(before.failures, OfGroup)
      ensures Count(after.failures, OfConfig) == Count(before.failures, OfConfig)
    {
      hide Count;
      after := before;
      for i := 0 to |group|
        invariant queued == old(queued) + RunsOf(w, group[..i])
        invariant after == before.(enqueued := after.enqueued, skipped := after.skipped, failures := after.failures)
        invariant after.enqueued == before.enqueued + |RunsOf(w, group[..i])|
        invariant after.failures == before.failures + RefusalsOf(w, key, group[..i])
        invariant Settled(after) == Settled(before) + i
        invariant Count(after.failures, OfGroup) == Count(before.failures, OfGroup)
        invariant Count(after.failures, OfConfig) == Count(before.failures, OfConfig)
      {
        var c := group[i];
        assert group[..i + 1][..i] == group[..i];
        if !CanExecute(c) {
          after := after.(skipped := after.skipped + 1);
          continue;
        }
        match w.queue(c.id)
        case Accepted =>
          queued := queued + [c];
          after := after.(enqueued := after.enqueued + 1);
        case Duplicate => after := after.(skipped := after.skipped + 1);
        case Refused =>
          var f := Failure(key, c.id, EnqueueHedge);
          CountOneMore(after.failures, f, OfGroup);
          CountOneMore(after.failures, f, OfConfig);
          CountOneMore(after.failures, f, OfQueue);
          after := Failed(after, f);
      }
      assert group[..|group|] == group;
    }

    /** One group: its stages in order, each failure skipping the whole group. */
    method SyncGroup(w: World, key: Key, group: seq<MonitorConfig>, before: Batch) returns (after: Batch)
      modifies this
      ensures snapshots == if Reaches(w, key) then old(snapshots)[key := ExposedOf(w, key)] else old(snapshots)
      ensures var answer := w.groups(key);
              if answer.cached && answer.price.Some? && answer.stored then
                && key in snapshots && snapshots == old(snapshots)[key := snapshots[key]]
                && snapshots[key].quantity ==
                   (if (key.agent, key.symbol) in w.net then w.net[(key.agent, key.symbol)] else 0.0)
                && snapshots[key].mark == answer.price.value
                && snapshots[key].notional == snapshots[key].quantity * snapshots[key].mark
                && snapshots[key].observedAt == answer.at
              else snapshots == old(snapshots)
      ensures queued == old(queued) + if Reaches(w, key) then RunsOf(w, group) else []
      ensures after.configs == before.configs && after.groups == before.groups
      ensures if Reaches(w, key) then after.failures == before.failures + RefusalsOf(w, key, group)
              else |after.failures| == |before.failures| + 1 && before.failures <= after.failures
                   && after.failures[|before.failures|].key == key && after.failures[|before.failures|].config == 0
                   && FailsAt(w.groups(key), after.failures[|before.failures|].stage)
      ensures after.enqueued - before.enqueued == |queued| - |old(queued)|
      ensures Settled(after) == Settled(before) + |group|
      ensures after.snapshots == before.snapshots + if Reaches(w, key) then 1 else 0
      ensures Count(after.failures, OfGroup) == Count(before.failures, OfGroup) + if Reaches(w, key) then 0 else 1
      ensures Count(after.failures, OfConfig) == Count(before.failures, OfConfig)
    {
      hide Count, RunsOf, RefusalsOf;
      var answer := w.groups(key);
      if !answer.cached || answer.price.None? || !answer.stored {
        var stage := if !answer.cached then CacheNetQuantity
                     else if answer.price.None? then ReadMarkPrice else UpsertSnapshot;
        var f := Failure(key, 0, stage);
        CountOneMore(before.failures, f, OfGroup);
        CountOneMore(before.failures, f, OfConfig);
        CountOneMore(before.failures, f, OfQueue);
        return Failed(before, f).(skipped := before.skipped + |group|);
      }
      snapshots := snapshots[key := ExposedOf(w, key)];
      after := QueueGroup(w, key, group, before.(snapshots := before.snapshots + 1));
    }

    /** One sync over all configurations; the groups are taken in an arbitrary order. No completion means the net
        exposures could not be read, and then nothing was stored or queued. */
    method SyncEnabledConfigs(configs: seq<MonitorConfig>, readable: bool, w: World)
      returns (b: Batch, completed: bool)
      modifies this
      ensures completed <==> readable || configs == []
      ensures !completed ==> snapshots == old(snapshots) && queued == old(queued)
      ensures b.configs == |configs| && b.groups == |Grouped(configs).Keys|
      ensures completed ==>
                && b.configs == b.enqueued + b.skipped + Count(b.failures, OfQueue)
                && b.snapshots == b.groups - Count(b.failures, OfGroup)
                && Count(b.failures, OfConfig) == |Rejected(configs)|
                && b.enqueued == |queued| - |old(queued)|
      ensures completed ==>
                && old(queued) <= queued
                && (forall c :: c in queued[|old(queued)|..] <==>
                      c in configs && Valid(c) && Runs(w, c) && Reaches(w, KeyOf(c)))
      ensures completed ==>
                forall c :: c in queued[|old(queued)|..] ==>
                  && c.globalEnabled && c.enabled && c.lifecycleActive && c.account != 0 && c.accountActive
                  && c.agent == c.accountAgent && 0 < c.agent <= MAX_INT64 && w.queue(c.id).Accepted?
                  && var answer := w.groups(KeyOf(c)); answer.cached && answer.price.Some? && answer.stored
      ensures completed ==>
                && snapshots.Keys == old(snapshots).Keys + Written(w, Grouped(configs).Keys)
                && (forall key :: key in Grouped(configs) && Reaches(w, key) ==>
                      snapshots[key] == ExposedOf(w, key) && Measures(w, key, snapshots[key]))
                && (forall key :: key in old(snapshots) && key !in Written(w, Grouped(configs).Keys) ==>
                      snapshots[key] == old(snapshots)[key])
    {
      b := Batch(|configs|, 0, 0, 0, 0, []);
      if configs == [] {
        return b, true;
      }
      var groups, failures := GroupExposureConfigs(configs);
      b := b.(groups := |groups|, skipped := |failures|, failures := failures);
      assert |groups| == |groups.Keys|;
      if !readable {
        return b, false;
      }
      GroupsPartition(configs);
      RejectedCount(configs);
      hide Grouped, Rejected, Valid, KeyOf, Count, Members, Reaches, Runs, RunsOf, CanExecute;
      b := SyncGroups(w, groups, b);
      completed := true;
      assert Settled(b) == |configs|;
      forall key | key in groups && Reaches(w, key)
        ensures Measures(w, key, snapshots[key])
      {
        ExposedIsMeasured(w, key);
      }
      var added := queued[|old(queued)|..];
      forall c
        ensures c in added <==> c in configs && Valid(c) && Runs(w, c) && Reaches(w, KeyOf(c))
      {
        assert c in added <==> exists key :: InGroup(groups, key, c) && Runs(w, c) && Reaches(w, key);
        assert c in configs && Valid(c) ==> InGroup(groups, KeyOf(c), c);
        RunsExactly(w, c);
      }
    }

    method SyncGroups(w: World, groups: Groups, before: Batch) returns (b: Batch)
      modifies this
      ensures Tallied(before, b, groups, groups.Keys)
      ensures b.enqueued - before.enqueued == |queued| - |old(queued)| && old(queued) <= queued
      ensures QueuedFrom(w, groups, groups.Keys, queued[|old(queued)|..])
      ensures WrittenFrom(w, old(snapshots), snapshots, groups.Keys)
    {
      hide Tallied, QueuedFrom, WrittenFrom, Settled, Reaches;
      b := before;
      var rest := groups.Keys;
      NothingDone(w, groups, before, snapshots);
      assert queued[|old(queued)|..] == [];
      while rest != {}
        invariant rest <= groups.Keys
        invariant Tallied(before, b, groups, groups.Keys - rest)
        invariant b.enqueued - before.enqueued == |queued| - |old(queued)| && old(queued) <= queued
        invariant QueuedFrom(w, groups, groups.Keys - rest, queued[|old(queued)|..])
        invariant WrittenFrom(w, old(snapshots), snapshots, groups.Keys - rest)
        decreases |rest|
      {
        var key :| key in rest;
        ghost var done, written, last := groups.Keys - rest, snapshots, b;
        ghost var added := queued[|old(queued)|..];
        b := SyncGroup(w, key, groups[key], b);
        rest := rest - {key};
        assert groups.Keys - rest == done + {key};
        OneTallied(before, last, b, w, groups, done, key);
        OneQueued(w, groups, done, key, added);
        assert queued[|old(queued)|..] == added + if Reaches(w, key) then RunsOf(w, groups[key]) else [];
        OneWritten(w, old(snapshots), written, done, key);
      }
      assert groups.Keys - rest == groups.Keys;
    }
  }

  // ---- One group after the other --------------------------------------------------------------------------------

  ghost predicate Tallied(before: Batch, b: Batch, groups: Groups, done: set<Key>)
    requires done <= groups.Keys
  {
    && b.configs == before.configs && b.groups == before.groups
    && Settled(b) == Settled(before) + Members(groups, done)
    && b.snapshots + Count(b.failures, OfGroup) == before.snapshots + Count(before.failures, OfGroup) + |done|
    && Count(b.failures, OfConfig) == Count(before.failures, OfConfig)
  }

  /** The jobs queued for the groups `done`: every configuration that runs, in a group whose snapshot was written. */
  ghost predicate QueuedFrom(w: World, groups: Groups, done: set<Key>, jobs: seq<MonitorConfig>) {
    forall c :: c in jobs <==> exists key :: key in done && InGroup(groups, key, c) && Runs(w, c) && Reaches(w, key)
  }

  ghost predicate WrittenFrom(w: World, before: map<Key, Exposed>, after: map<Key, Exposed>, done: set<Key>) {
    && after.Keys == before.Keys + Written(w, done)
    && (forall key :: key in done && Reaches(w, key) ==> after[key] == ExposedOf(w, key))
    && (forall key :: key in before && key !in Written(w, done) ==> after[key] == before[key])
  }

  lemma NothingDone(w: World, groups: Groups, b: Batch, snapshots: map<Key, Exposed>)
    ensures var done := groups.Keys - groups.Keys;
            Tallied(b, b, groups, done) && QueuedFrom(w, groups, done, []) && WrittenFrom(w, snapshots, snapshots, done)
  {
    assert groups.Keys - groups.Keys == {};
  }

  lemma OneTallied(before: Batch, last: Batch, b: Batch, w: World, groups: Groups, done: set<Key>, key: Key)
    requires done <= groups.Keys && key in groups && key !in done && Tallied(before, last, groups, done)
    requires b.configs == last.configs && b.groups == last.groups && Settled(b) == Settled(last) + |groups[key]|
    requires b.snapshots + Count(b.failures, OfGroup) == last.snapshots + Count(last.failures, OfGroup) + 1
    requires Count(b.failures, OfConfig) == Count(last.failures, OfConfig)
    ensures Tallied(before, b, groups, done + {key})
  {
    hide Settled, Count;
    MembersSplit(groups, done + {key}, key);
    assert done + {key} - {key} == done;
  }

  lemma OneQueued(w: World, groups: Groups, done: set<Key>, key: Key, jobs: seq<MonitorConfig>)
    requires key in groups && QueuedFrom(w, groups, done, jobs)
    ensures QueuedFrom(w, groups, done + {key}, jobs + if Reaches(w, key) then RunsOf(w, groups[key]) else [])
  {
    RunsOfMembers(w, groups[key]);
    hide RunsOf, Runs, Reaches;
    var more := if Reaches(w, key) then RunsOf(w, groups[key]) else [];
    forall c
      ensures c in jobs + more <==>
              exists k :: k in done + {key} && InGroup(groups, k, c) && Runs(w, c) && Reaches(w, k)
    {
      if c in more {
        assert InGroup(groups, key, c);
      }
    }
  }

  lemma OneWritten(w: World, before: map<Key, Exposed>, last: map<Key, Exposed>, done: set<Key>, key: Key)
    requires WrittenFrom(w, before, last, done)
    ensures WrittenFrom(w, before, if Reaches(w, key) then last[key := ExposedOf(w, key)] else last, done + {key})
  {
    WrittenGrew(w, done, key);
    hide Reaches;
  }

  /** The keys among `keys` whose snapshot is written. */
  ghost function Written(w: World, keys: set<Key>): set<Key> {
    set key | key in keys && Reaches(w, key)
  }

  lemma WrittenGrew(w: World, done: set<Key>, key: Key)
    ensures Written(w, done + {key}) == Written(w, done) + if Reaches(w, key) then {key} else {}
  {
    hide Reaches;
  }
}
