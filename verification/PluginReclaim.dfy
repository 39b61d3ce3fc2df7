/**
 Deferred reclamation of plugin hosts. Effect edits retire hosts under a mutex and stamp them with
 the next value of a wrapping edit counter; the audio thread announces the counter value whose
 effect states it has cached; polling frees what was retired no later than that. Every method
 below is one atomic step of one thread, so an interleaving is any sequence of calls.
 */
module PluginReclaim {
  import opened Basics

  type Host = nat
  type Id = string

  const HALF: nat := 0x8000_0000

  /** `count` is the edit count that `sequence` is the low 32 bits of. */
  datatype Retired = Retired(sequence: nat, host: Host, count: nat)

  datatype Audio = Resting | Refreshing(sequence: nat, count: nat, next: nat) | InBlock

  /** What a processing node plays through: its host, as copied when the counter had this value. */
  datatype Cached = Cached(host: Option<Host>, sequence: nat, count: nat)

  /** The signed 32-bit difference is not negative. */
  predicate ReachedBy(sequence: nat, observed: nat) {
    (observed - sequence) % U32 < HALF
  }

  lemma NotReached(count: nat, observed: nat)
    requires observed < count <= observed + HALF
    ensures !ReachedBy(count % U32, observed % U32)
  {
    assert (observed % U32 - count % U32) % U32 == (observed - count) % U32;
    assert (observed - count) % U32 == U32 - (count - observed);
  }

  /** Exactly which later edits the wrapped comparison takes for announced: those more than half a turn away. */
  lemma ReachedTooSoon(count: nat, observed: nat)
    requires observed < count <= observed + U32
    ensures ReachedBy(count % U32, observed % U32) <==> count > observed + HALF
  {
    assert (observed % U32 - count % U32) % U32 == (observed - count) % U32;
    assert count < observed + U32 ==> (observed - count) % U32 == U32 - (count - observed);
    assert count == observed + U32 ==> (observed - count) % U32 == 0;
  }

  lemma SameWord(a: nat, b: nat)
    requires a <= b < a + U32 && a % U32 == b % U32
    ensures a == b
  {
  }

  ghost function Hosts(retired: seq<Retired>): set<Host> {
    set r | r in retired :: r.host
  }

  /** The retired list without what the announced counter has reached. */
  function Kept(retired: seq<Retired>, observed: nat): (kept: seq<Retired>)
    ensures forall r :: r in kept <==> r in retired && !ReachedBy(r.sequence, observed)
  {
    if retired == [] then []
    else
      var last := retired[|retired| - 1];
      Kept(retired[..|retired| - 1], observed) + if ReachedBy(last.sequence, observed) then [] else [last]
  }

  ghost predicate DistinctHosts(retired: seq<Retired>) {
    forall i, j :: 0 <= i < j < |retired| ==> retired[i].host != retired[j].host
  }

  lemma {:induction false} KeptDistinct(retired: seq<Retired>, observed: nat)
    requires DistinctHosts(retired)
    ensures DistinctHosts(Kept(retired, observed))
  {
    if retired != [] {
      var init := retired[..|retired| - 1];
      KeptDistinct(init, observed);
      forall r | r in Kept(init, observed)
        ensures r.host != retired[|retired| - 1].host
      {
        assert r in init;
      }
    }
  }

  /** Every host ever created is in exactly one of live, retired and freed, and there once. */
  ghost predicate Parted(hosts: map<Id, Host>, retired: seq<Retired>, freed: set<Host>, created: set<Host>) {
    && (forall a, b :: a in hosts && b in hosts && hosts[a] == hosts[b] ==> a == b)
    && DistinctHosts(retired)
    && hosts.Values !! Hosts(retired) !! freed
    && created == hosts.Values + Hosts(retired) + freed
  }

  /** A copied host is live, or was retired by an edit later than the one it was copied at. */
  ghost predicate Safe(hosts: map<Id, Host>, retired: seq<Retired>, c: Cached) {
    c.host.Some? ==>
      c.host.value in hosts.Values || exists r :: r in retired && r.host == c.host.value && r.count > c.count
  }

  lemma ValuesWithout(hosts: map<Id, Host>, id: Id)
    requires id in hosts && forall a, b :: a in hosts && b in hosts && hosts[a] == hosts[b] ==> a == b
    ensures (hosts - {id}).Values == hosts.Values - {hosts[id]}
  {
    forall h | h in hosts.Values && h != hosts[id]
      ensures h in (hosts - {id}).Values
    {
      var other :| other in hosts && hosts[other] == h;
      assert (hosts - {id})[other] == h;
    }
  }

  lemma RetiredParted(hosts: map<Id, Host>, retired: seq<Retired>, freed: set<Host>, created: set<Host>, id: Id, r: Retired)
    requires Parted(hosts, retired, freed, created) && id in hosts && r.host == hosts[id]
    ensures Parted(hosts - {id}, retired + [r], freed, created)
  {
    ValuesWithout(hosts, id);
    assert Hosts(retired + [r]) == Hosts(retired) + {r.host};
    forall x | x in retired
      ensures x.host != r.host
    {
      assert x.host in Hosts(retired);
    }
  }

  lemma RetiredSafe(hosts: map<Id, Host>, retired: seq<Retired>, id: Id, r: Retired, c: Cached)
    requires Safe(hosts, retired, c) && id in hosts && r.host == hosts[id] && c.count < r.count
    ensures Safe(hosts - {id}, retired + [r], c)
  {
    if c.host.Some? {
      if c.host.value in hosts.Values {
        var other :| other in hosts && hosts[other] == c.host.value;
        if other == id {
          assert r in retired + [r];
        } else {
          assert (hosts - {id})[other] == c.host.value;
        }
      } else {
        var earlier :| earlier in retired && earlier.host == c.host.value && earlier.count > c.count;
        assert earlier in retired + [r];
      }
    }
  }

  /** Freeing what the announced count has reached takes nothing from a cache labelled since. */
  lemma KeptSafe(hosts: map<Id, Host>, retired: seq<Retired>, observed: nat, c: Cached)
    requires Safe(hosts, retired, c) && c.count >= observed
    requires forall r :: r in retired ==> r.sequence == r.count % U32 && r.count <= observed + HALF
    ensures Safe(hosts, Kept(retired, observed % U32), c)
  {
    if c.host.Some? && c.host.value !in hosts.Values {
      var r :| r in retired && r.host == c.host.value && r.count > c.count;
      NotReached(r.count, observed);
    }
  }

  lemma AddedSafe(hosts: map<Id, Host>, retired: seq<Retired>, id: Id, host: Host, c: Cached)
    requires Safe(hosts, retired, c) && id !in hosts
    ensures Safe(hosts[id := host], retired, c)
  {
    if c.host.Some? && c.host.value in hosts.Values {
      var other :| other in hosts && hosts[other] == c.host.value;
      assert hosts[id := host][other] == c.host.value;
    }
  }

  lemma LoadedParted(retired: seq<Retired>, freed: set<Host>, created: set<Host>, hosts: map<Id, Host>)
    requires Parted(map[], retired, freed, created) && hosts.Values !! created
    requires forall a, b :: a in hosts && b in hosts && hosts[a] == hosts[b] ==> a == b
    ensures Parted(hosts, retired, freed, created + hosts.Values)
  {
    var none: map<Id, Host> := map[];
    assert none.Values == {};
  }

  lemma LoadedSafe(retired: seq<Retired>, hosts: map<Id, Host>, c: Cached)
    requires Safe(map[], retired, c)
    ensures Safe(hosts, retired, c)
  {
    var none: map<Id, Host> := map[];
    assert none.Values == {};
  }

  class Registry {
    var pluginHosts: map<Id, Host>
    var effectStates: map<Id, Option<Host>>
    var retiredPlugins: seq<Retired>
    var effectStatesSeq: nat
    var pluginObservedSeq: nat
    var processingThreadStarted: bool
    var effectNodes: seq<Id>
    var cache: seq<Cached>
    var controlsKnown: bool
    var audio: Audio
    var edits: nat
    var observed: nat
    ghost var created: set<Host>
    ghost var freed: set<Host>
    /** The thread exists; the control thread is creating it and has not marked it started yet. */
    ghost var running: bool
    ghost var starting: bool

    /** The effect states name exactly the hosts that are registered. */
    ghost predicate Registered()
      reads `pluginHosts, `effectStates
    {
      && (forall id :: id in pluginHosts <==> id in effectStates && effectStates[id].Some?)
      && (forall id :: id in pluginHosts ==> effectStates[id] == Some(pluginHosts[id]))
    }

    ghost predicate Partition()
      reads `pluginHosts, `retiredPlugins, `created, `freed
    {
      Parted(pluginHosts, retiredPlugins, freed, created)
    }

    /** The words are the low halves of the counts; `bound` is the largest stamp so far. */
    ghost predicate Counters(bound: nat)
      reads `retiredPlugins, `effectStatesSeq, `pluginObservedSeq, `edits, `observed
    {
      && effectStatesSeq == edits % U32 && pluginObservedSeq == observed % U32
      && observed <= edits && bound <= observed + HALF
      && (forall r :: r in retiredPlugins ==> r.sequence == r.count % U32 && r.count <= bound)
    }

    ghost predicate Labelled(c: Cached, count: nat)
      reads `pluginHosts, `retiredPlugins
    {
      c.count == count && c.sequence == count % U32 && Safe(pluginHosts, retiredPlugins, c)
    }

    ghost predicate Caches()
      reads `pluginHosts, `retiredPlugins, `edits, `observed, `effectNodes, `cache, `controlsKnown, `audio
    {
      && |cache| == |effectNodes|
      && (audio.InBlock? ==> controlsKnown)
      && (!audio.Refreshing? && controlsKnown ==> forall k :: 0 <= k < |cache| ==> Labelled(cache[k], observed))
      && (audio.Refreshing? ==>
            && observed <= audio.count <= edits && audio.sequence == audio.count % U32 && audio.next <= |cache|
            && (forall k :: 0 <= k < audio.next ==> Labelled(cache[k], audio.count))
            && (controlsKnown ==> forall k :: audio.next <= k < |cache| ==> Labelled(cache[k], observed)))
    }

    /** The caches belong to the processing thread, which is marked started but for a moment when it begins. */
    ghost predicate Owned()
      reads `audio, `controlsKnown, `processingThreadStarted, `running, `starting
    {
      && (audio != Resting || controlsKnown ==> running)
      && (processingThreadStarted <==> running && !starting)
    }

    ghost predicate Valid()
      reads this
    {
      Registered() && Partition() && Counters(edits) && Caches() && Owned()
    }

    constructor (firstSequence: nat)
      requires firstSequence < HALF
      ensures Valid() && created == {}
    {
      pluginHosts, effectStates, retiredPlugins := map[], map[], [];
      effectStatesSeq, pluginObservedSeq, edits, observed := firstSequence, 0, firstSequence, 0;
      processingThreadStarted, controlsKnown, audio := false, false, Resting;
      effectNodes, cache := [], [];
      created, freed, running, starting := {}, {}, false, false;
    }

    // ----------------------------------------------------------------------------------------
    // Effect edits, each under the effects mutex.

    /** Moves the host of an effect, if it has one, to the retired list. */
    method RetirePlugin(id: Id)
      requires Partition() && Caches() && Counters(edits + 1)
      modifies `pluginHosts, `retiredPlugins
      ensures Partition() && Caches() && Counters(edits + 1)
      ensures pluginHosts == old(pluginHosts) - {id}
      ensures retiredPlugins ==
              old(retiredPlugins) + if id in old(pluginHosts) then [Retired((effectStatesSeq + 1) % U32, old(pluginHosts)[id], edits + 1)] else []
    {
      hide Parted, Safe;
      if id in pluginHosts {
        var retired := Retired((effectStatesSeq + 1) % U32, pluginHosts[id], edits + 1);
        RetiredParted(pluginHosts, retiredPlugins, freed, created, id, retired);
        forall c: Cached | Safe(pluginHosts, retiredPlugins, c) && c.count <= edits
          ensures Safe(pluginHosts - {id}, retiredPlugins + [retired], c)
        {
          RetiredSafe(pluginHosts, retiredPlugins, id, retired, c);
        }
        pluginHosts := pluginHosts - {id};
        retiredPlugins := retiredPlugins + [retired];
      }
    }

    /** Sets, changes or adds an effect together with its new host. */
    method SetEffect(id: Id, host: Option<Host>)
      requires Valid() && edits < observed + HALF
      requires host.Some? ==> host.value !in created
      modifies `pluginHosts, `effectStates, `retiredPlugins, `effectStatesSeq, `edits, `created
      ensures Valid() && edits == old(edits) + 1
      ensures effectStates == old(effectStates)[id := host]
      ensures created == old(created) + if host.Some? then {host.value} else {}
    {
      RetirePlugin(id);
      ghost var others := pluginHosts;
      if host.Some? {
        forall c: Cached | Safe(pluginHosts, retiredPlugins, c)
          ensures Safe(pluginHosts[id := host.value], retiredPlugins, c)
        {
          AddedSafe(pluginHosts, retiredPlugins, id, host.value, c);
        }
        pluginHosts := pluginHosts[id := host.value];
        created := created + {host.value};
        assert pluginHosts.Values == others.Values + {host.value} by {
          assert pluginHosts[id] == host.value;
          assert forall other :: other in others ==> pluginHosts[other] == others[other];
        }
      }
      effectStates := effectStates[id := host];
      CountEdit();
    }

    /** Bumps the edit counter; what the caches hold stays as it was. */
    method CountEdit()
      requires Registered() && Partition() && Caches() && Counters(edits + 1) && Owned()
      modifies `effectStatesSeq, `edits
      ensures Valid() && edits == old(edits) + 1
    {
      effectStatesSeq := (effectStatesSeq + 1) % U32;
      edits := edits + 1;
    }

    /** A change of parameters: only the counter moves. */
    method SetEffectParam(id: Id) returns (ok: bool)
      requires Valid() && edits < observed + HALF
      modifies `effectStatesSeq, `edits
      ensures Valid() && (ok <==> id in effectStates) && edits == old(edits) + if ok then 1 else 0
    {
      ok := id in effectStates;
      if ok {
        CountEdit();
      }
    }

    method DeleteEffect(id: Id) returns (ok: bool)
      requires Valid() && edits < observed + HALF
      modifies `pluginHosts, `effectStates, `retiredPlugins, `effectStatesSeq, `edits
      ensures Valid() && (ok <==> id in old(effectStates)) && effectStates == old(effectStates) - {id}
    {
      ok := id in effectStates;
      if ok {
        RetirePlugin(id);
        effectStates := effectStates - {id};
        CountEdit();
      }
    }

    /** Replaces all effects at once, as a configuration load or a recalled scene does. */
    method LoadEffects(states: map<Id, Option<Host>>, hosts: map<Id, Host>)
      requires Valid() && edits < observed + HALF
      requires forall id :: id in hosts <==> id in states && states[id].Some?
      requires forall id :: id in hosts ==> states[id] == Some(hosts[id])
      requires forall a, b :: a in hosts && b in hosts && hosts[a] == hosts[b] ==> a == b
      requires hosts.Values !! created
      modifies `pluginHosts, `effectStates, `retiredPlugins, `effectStatesSeq, `edits, `created
      ensures Valid() && effectStates == states && pluginHosts == hosts
      ensures created == old(created) + hosts.Values
      ensures old(pluginHosts.Values) <= Hosts(retiredPlugins)
    {
      RetireAll();
      LoadedParted(retiredPlugins, freed, created, hosts);
      forall c: Cached | Safe(map[], retiredPlugins, c)
        ensures Safe(hosts, retiredPlugins, c)
      {
        LoadedSafe(retiredPlugins, hosts, c);
      }
      pluginHosts, effectStates, created := hosts, states, created + hosts.Values;
      CountEdit();
    }

    method RetireAll()
      requires Partition() && Caches() && Counters(edits + 1)
      modifies `pluginHosts, `retiredPlugins
      ensures Partition() && Caches() && Counters(edits + 1) && pluginHosts == map[]
      ensures old(pluginHosts.Values) <= Hosts(retiredPlugins)
    {
      while pluginHosts != map[]
        invariant Partition() && Caches() && Counters(edits + 1)
        invariant old(pluginHosts.Values) <= pluginHosts.Values + Hosts(retiredPlugins)
        decreases |pluginHosts|
      {
        RetireSome();
      }
      assert pluginHosts.Values == {};
    }

    method RetireSome()
      requires Partition() && Caches() && Counters(edits + 1) && pluginHosts != map[]
      modifies `pluginHosts, `retiredPlugins
      ensures Partition() && Caches() && Counters(edits + 1)
      ensures |pluginHosts| < old(|pluginHosts|)
      ensures pluginHosts.Values + Hosts(retiredPlugins) == old(pluginHosts.Values + Hosts(retiredPlugins))
    {
      var id :| id in pluginHosts;
      ghost var before := pluginHosts;
      RetirePlugin(id);
      assert before.Keys == pluginHosts.Keys + {id};
      assert |before.Keys| == |pluginHosts.Keys| + 1;
    }

    /**
     Frees what no cache can hold any more. The control thread polls, and it is the one that starts
     the processing thread, so it never polls halfway through starting it.
     */
    method PollPlugins()
      requires Valid() && !starting
      modifies `retiredPlugins, `freed
      ensures Valid() && created == old(created)
      ensures forall r :: r in old(retiredPlugins) ==>
                (r in retiredPlugins <==> processingThreadStarted && !ReachedBy(r.sequence, pluginObservedSeq))
      ensures freed == old(freed) + (Hosts(old(retiredPlugins)) - Hosts(retiredPlugins))
    {
      ghost var before := retiredPlugins;
      if processingThreadStarted {
        retiredPlugins := Kept(retiredPlugins, pluginObservedSeq);
        KeptDistinct(before, pluginObservedSeq);
        forall c: Cached | Safe(pluginHosts, before, c) && c.count >= observed
          ensures Safe(pluginHosts, retiredPlugins, c)
        {
          KeptSafe(pluginHosts, before, observed, c);
        }
      } else {
        retiredPlugins := [];
      }
      freed := freed + (Hosts(before) - Hosts(retiredPlugins));
    }

    // ----------------------------------------------------------------------------------------
    // The audio thread.

    /** A new graph: other nodes, and nothing cached may be trusted until it is refreshed. */
    method RebuildGraph(nodes: seq<Id>, leftovers: seq<Cached>)
      requires Valid() && audio == Resting && |leftovers| == |nodes|
      modifies `effectNodes, `cache, `controlsKnown
      ensures Valid() && effectNodes == nodes
    {
      effectNodes, cache, controlsKnown := nodes, leftovers, false;
    }

    method BeginUpdate()
      requires Valid() && audio == Resting && running
      modifies `audio
      ensures Valid() && audio == Refreshing(effectStatesSeq, edits, 0)
    {
      audio := Refreshing(effectStatesSeq, edits, 0);
    }

    /** Copies one node's effect state, unless its label says that nothing has changed. */
    method RefreshNode()
      requires Valid() && audio.Refreshing? && audio.next < |cache|
      modifies `cache, `audio
      ensures Valid() && audio == old(audio).(next := old(audio).next + 1)
      ensures var k, c := old(audio).next, old(cache);
              cache == if controlsKnown && c[k].sequence == audio.sequence then c
                       else c[k := Cached(if effectNodes[k] in effectStates then effectStates[effectNodes[k]] else None,
                                          audio.sequence, audio.count)]
    {
      var k := audio.next;
      if !controlsKnown || cache[k].sequence != audio.sequence {
        var id := effectNodes[k];
        var host := if id in effectStates then effectStates[id] else None;
        if host.Some? {
          assert pluginHosts[id] == host.value;
        }
        cache := cache[k := Cached(host, audio.sequence, audio.count)];
      } else {
        SameWord(cache[k].count, audio.count);
      }
      audio := audio.(next := k + 1);
    }

    /** Announces the counter value the caches stand for and starts processing. */
    method Observe()
      requires Valid() && audio.Refreshing? && audio.next == |cache|
      modifies `audio, `controlsKnown, `pluginObservedSeq, `observed
      ensures Valid() && audio == InBlock && controlsKnown && observed == old(audio).count
    {
      controlsKnown := true;
      pluginObservedSeq, observed := audio.sequence, audio.count;
      audio := InBlock;
    }

    /** During a block the audio thread calls into the host of a node: it has not been freed. */
    method UsePlugin(k: nat) returns (host: Option<Host>)
      requires Valid() && audio == InBlock && k < |cache|
      ensures host == cache[k].host
      ensures host.Some? ==> host.value !in freed && (host.value in pluginHosts.Values || host.value in Hosts(retiredPlugins))
    {
      host := cache[k].host;
      assert Labelled(cache[k], observed);
    }

    method EndBlock()
      requires Valid() && audio == InBlock
      modifies `audio
      ensures Valid() && audio == Resting
    {
      audio := Resting;
    }

    // ----------------------------------------------------------------------------------------
    // The control thread starts and joins the audio thread.

    /** The thread is created, and may do its steps at once. */
    ghost method CreateThread()
      requires Valid() && !running && !starting
      modifies `running, `starting
      ensures Valid() && running && starting
    {
      running, starting := true, true;
    }

    /** Creating it has succeeded. */
    method MarkStarted()
      requires Valid() && running && starting
      modifies `processingThreadStarted, `starting
      ensures Valid() && processingThreadStarted && !starting
    {
      processingThreadStarted := true;
      starting := false;
    }

    /** The thread is joined between blocks; its caches go with it. */
    method JoinThread()
      requires Valid() && audio == Resting && !starting
      modifies `processingThreadStarted, `controlsKnown, `running
      ensures Valid() && !processingThreadStarted && !running
    {
      processingThreadStarted, controlsKnown := false, false;
      running := false;
    }
  }
}
