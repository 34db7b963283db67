/** The two-level locking scheme, apart from the code that follows it.

    A database lock ("gate") is held while the map of client mutexes is searched or changed and while a
    client mutex is being waited for; client mutexes guard records; a metadata lock guards the counters.
    What a thread is entitled to believe at a point of its program is its `Stance`.  The lemmas below show
    that every lock operation keeps all stances true of the shared state, whatever the other threads do. */
module LockProtocol {
  import opened MachineInts
  import opened Wrappers

  type Tid = nat

  /** A mutex is named by what brought it into existence: the snapshot that was loaded before the threads
      started, or the registration that allocated it. */
  datatype MutexId = Loaded(ip: Addr) | Created(creator: Tid)

  datatype Locks = Locks(
    gate: Option<Tid>,
    meta: Option<Tid>,
    entries: map<Addr, MutexId>,            // client_locks
    mutexes: map<MutexId, Option<Tid>>,     // the initialised mutexes and their holders
    members: set<Addr>)                     // the keys of database_records

  /** Why a lock entry may lack its record: a registration that has yet to insert it, or a removal that has
      erased it.  The mutex is then held by that thread, or free, or already destroyed. */
  datatype Claim = Nothing | Locked(ip: Addr) | Vacant(ip: Addr) | Dangling(ip: Addr)

  datatype Stage = Unborn | Private | Published | Dropped

  datatype Stance = Stance(
    gate: bool,
    meta: bool,
    held: set<Addr>,
    claim: Claim,
    seen: Option<Addr>,        // a client whose entry was found under the gate
    target: Option<Addr>,      // the client whose mutex was looked up in order to lock it
    pointer: Option<MutexId>,  // the result of that lookup
    home: Addr,                // the client a registration registers
    stage: Stage)              // the mutex this thread allocated

  // ---------------------------------------------------------------------------
  // The invariant
  // ---------------------------------------------------------------------------

  ghost predicate Holds(s: Locks, m: MutexId, t: Tid) {
    m in s.mutexes && s.mutexes[m] == Some(t)
  }

  ghost predicate Free(s: Locks, m: MutexId) {
    m in s.mutexes && s.mutexes[m] == None
  }

  ghost predicate ClaimTrue(s: Locks, c: Claim, gate: bool, held: set<Addr>) {
    && (!c.Nothing? ==> c.ip in s.entries && c.ip !in s.members)
    && (c.Locked? ==> c.ip in held)
    && (c.Vacant? ==> gate && Free(s, s.entries[c.ip]))
    && (c.Dangling? ==> gate && s.entries[c.ip] !in s.mutexes)
  }

  ghost predicate StanceTrue(s: Locks, t: Tid, v: Stance) {
    && (v.gate <==> s.gate == Some(t))
    && (v.meta <==> s.meta == Some(t))
    && (forall ip :: ip in v.held ==> ip in s.entries && Holds(s, s.entries[ip], t))
    && ClaimTrue(s, v.claim, v.gate, v.held)
    && (v.seen.Some? ==> v.gate && v.seen.value in s.entries)
    && (v.target.Some? ==>
          v.gate && !v.claim.Dangling? && v.target.value in s.entries && v.pointer == Some(s.entries[v.target.value]))
    && (v.stage.Unborn? ==> Created(t) !in s.mutexes)
    && (v.stage.Private? ==> Free(s, Created(t)))
  }

  ghost function HomeOf(vs: map<Tid, Stance>, m: MutexId): Option<Addr> {
    match m
    case Loaded(ip) => Some(ip)
    case Created(t) => if t in vs then Some(vs[t].home) else None
  }

  ghost predicate MutexTrue(s: Locks, vs: map<Tid, Stance>, m: MutexId)
    requires m in s.mutexes
  {
    && (m.Created? ==> m.creator in vs && !vs[m.creator].stage.Unborn?)
    && (s.mutexes[m].Some? ==>
          && s.mutexes[m].value in vs
          && HomeOf(vs, m).Some?
          && HomeOf(vs, m).value in vs[s.mutexes[m].value].held
          && HomeOf(vs, m).value in s.entries
          && s.entries[HomeOf(vs, m).value] == m)
  }

  ghost predicate Claims(vs: map<Tid, Stance>, t: Tid, ip: Addr) {
    t in vs && !vs[t].claim.Nothing? && vs[t].claim.ip == ip
  }

  ghost predicate Claimed(vs: map<Tid, Stance>, ip: Addr) {
    exists t :: Claims(vs, t, ip)
  }

  ghost predicate EntryTrue(s: Locks, vs: map<Tid, Stance>, ip: Addr)
    requires ip in s.entries
  {
    var m := s.entries[ip];
    && HomeOf(vs, m) == Some(ip)
    && (m.Created? ==> m.creator in vs && vs[m.creator].stage.Published?)
    && (m in s.mutexes || (s.gate.Some? && s.gate.value in vs && vs[s.gate.value].claim == Dangling(ip)))
    && (ip in s.members || Claimed(vs, ip))
  }

  ghost predicate Consistent(s: Locks, vs: map<Tid, Stance>) {
    && (s.gate.Some? ==> s.gate.value in vs)
    && (s.meta.Some? ==> s.meta.value in vs)
    && s.members <= s.entries.Keys
    && (forall t :: t in vs ==> StanceTrue(s, t, vs[t]))
    && (forall m :: m in s.mutexes ==> MutexTrue(s, vs, m))
    && (forall ip :: ip in s.entries ==> EntryTrue(s, vs, ip))
  }

  // ---------------------------------------------------------------------------
  // What the invariant gives
  // ---------------------------------------------------------------------------

  /** A client mutex has one holder. */
  lemma MutualExclusion(s: Locks, vs: map<Tid, Stance>, t: Tid, u: Tid, ip: Addr)
    requires Consistent(s, vs) && t in vs && u in vs
    requires ip in vs[t].held && ip in vs[u].held
    ensures t == u
  {
    assert StanceTrue(s, t, vs[t]) && StanceTrue(s, u, vs[u]);
  }

  /** Only the thread that holds a client's mutex, or that finds it free under the gate, can be the one on
      whose account the record is missing. */
  lemma ClaimantIsHolder(s: Locks, vs: map<Tid, Stance>, t: Tid, u: Tid, ip: Addr)
    requires Consistent(s, vs) && t in vs && ip in s.entries && Claims(vs, u, ip)
    requires ip in vs[t].held || (vs[t].gate && Free(s, s.entries[ip]))
    ensures t == u
  {
    assert StanceTrue(s, t, vs[t]) && StanceTrue(s, u, vs[u]);
  }

  /** Whoever holds a client's mutex, or finds it free under the gate, finds the client's record too, unless
      the missing record is that thread's own doing. */
  lemma RecordPresent(s: Locks, vs: map<Tid, Stance>, t: Tid, ip: Addr)
    requires Consistent(s, vs) && t in vs && ip in s.entries && !Claims(vs, t, ip)
    requires ip in vs[t].held || (vs[t].gate && Free(s, s.entries[ip]))
    ensures ip in s.members
  {
    assert EntryTrue(s, vs, ip);
    forall u | Claims(vs, u, ip) ensures u == t {
      ClaimantIsHolder(s, vs, t, u, ip);
    }
  }

  /** No two clients share a mutex. */
  lemma EntriesApart(s: Locks, vs: map<Tid, Stance>, ip: Addr)
    requires Consistent(s, vs) && ip in s.entries
    ensures forall x :: x in s.entries && s.entries[x] == s.entries[ip] ==> x == ip
  {
    assert EntryTrue(s, vs, ip);
    forall x | x in s.entries && s.entries[x] == s.entries[ip] ensures x == ip {
      assert EntryTrue(s, vs, x);
    }
  }

  /** A mutex is destroyed only when no thread holds it and no thread is waiting for it. */
  lemma DestroyedUnused(s: Locks, vs: map<Tid, Stance>, t: Tid, m: MutexId, u: Tid)
    requires Consistent(s, vs) && t in vs && u in vs
    requires (vs[t].claim.Vacant? && m == s.entries[vs[t].claim.ip]) || (vs[t].stage.Private? && m == Created(t))
    requires vs[t].target == None
    ensures !Holds(s, m, u) && !(vs[u].target.Some? && vs[u].pointer == Some(m))
  {
    assert StanceTrue(s, t, vs[t]) && StanceTrue(s, u, vs[u]);
    assert vs[u].target.Some? ==> EntryTrue(s, vs, vs[u].target.value);
  }

  // ---------------------------------------------------------------------------
  // The operations
  // ---------------------------------------------------------------------------

  /** A claim outlives every step except the one by which its claimant gives it up. */
  lemma ClaimOutlives(vs: map<Tid, Stance>, t: Tid, v: Stance, ip: Addr)
    requires Claimed(vs, ip)
    requires Claims(vs, t, ip) ==> !v.claim.Nothing? && v.claim.ip == ip
    ensures Claimed(vs[t := v], ip)
  {
    var u :| Claims(vs, u, ip);
    assert Claims(vs[t := v], u, ip);
  }

  /** Entries stay true when no entry, record or mutex comes or goes and no claim changes hands. */
  lemma EntriesStay(s: Locks, vs: map<Tid, Stance>, t: Tid, s': Locks, v: Stance)
    requires Consistent(s, vs) && t in vs
    requires s'.entries == s.entries && s'.members == s.members && s'.mutexes.Keys == s.mutexes.Keys
    requires v.home == vs[t].home && v.stage == vs[t].stage
    requires v.claim.Nothing? <==> vs[t].claim.Nothing?
    requires !v.claim.Nothing? ==> v.claim.ip == vs[t].claim.ip
    requires vs[t].claim.Dangling? ==> v.claim == vs[t].claim && s'.gate == s.gate
    requires s'.gate == s.gate || s.gate == None || s.gate == Some(t)
    ensures forall ip :: ip in s'.entries ==> EntryTrue(s', vs[t := v], ip)
  {
    assert StanceTrue(s, t, vs[t]);
    forall ip | ip in s'.entries ensures EntryTrue(s', vs[t := v], ip) {
      assert EntryTrue(s, vs, ip);
      if ip !in s.members {
        ClaimOutlives(vs, t, v, ip);
      }
    }
  }

  /** Mutexes stay true when no mutex or entry changes and the thread holds what it held. */
  lemma MutexesStay(s: Locks, vs: map<Tid, Stance>, t: Tid, s': Locks, v: Stance)
    requires Consistent(s, vs) && t in vs && s'.entries == s.entries && s'.mutexes == s.mutexes
    requires v.home == vs[t].home && v.stage == vs[t].stage && v.held == vs[t].held
    ensures forall m :: m in s'.mutexes ==> MutexTrue(s', vs[t := v], m)
  {
    forall m | m in s'.mutexes ensures MutexTrue(s', vs[t := v], m) {
      assert MutexTrue(s, vs, m);
    }
  }

  lemma KeepSpawn(s: Locks, vs: map<Tid, Stance>, t: Tid, v: Stance)
    requires Consistent(s, vs) && t !in vs
    requires !v.gate && !v.meta && v.held == {} && v.claim.Nothing? && v.seen.None? && v.target.None? && v.stage.Unborn?
    ensures Consistent(s, vs[t := v])
  {
    var vs' := vs[t := v];
    assert Created(t) in s.mutexes ==> MutexTrue(s, vs, Created(t));
    forall m | m in s.mutexes ensures MutexTrue(s, vs', m) {
      assert MutexTrue(s, vs, m);
    }
    forall ip | ip in s.entries ensures EntryTrue(s, vs', ip) {
      assert EntryTrue(s, vs, ip);
      if ip !in s.members {
        ClaimOutlives(vs, t, vs'[t], ip);
      }
    }
  }

  /** Locking or unlocking the gate, resolving a pointer, and steps that touch nothing shared: only the
      thread's own view of the gate and of its lookup changes. */
  lemma KeepGate(s: Locks, vs: map<Tid, Stance>, t: Tid, gate: Option<Tid>, v: Stance)
    requires Consistent(s, vs) && t in vs
    requires v == vs[t].(gate := v.gate, seen := v.seen, target := v.target, pointer := v.pointer)
    requires gate == s.gate || (s.gate == None && gate == Some(t)) || (s.gate == Some(t) && gate == None)
    requires v.gate <==> gate == Some(t)
    requires !v.gate ==> (v.claim.Nothing? || v.claim.Locked?) && v.seen.None? && v.target.None?
    requires v.seen.Some? ==> v.seen.value in s.entries
    requires v.target.Some? ==>
      !v.claim.Dangling? && v.target.value in s.entries && v.pointer == Some(s.entries[v.target.value])
    ensures Consistent(s.(gate := gate), vs[t := v])
  {
    var s' := s.(gate := gate);
    var vs' := vs[t := v];
    assert StanceTrue(s, t, vs[t]);
    forall u | u in vs' ensures StanceTrue(s', u, vs'[u]) {
      assert u in vs && StanceTrue(s, u, vs[u]);
    }
    MutexesStay(s, vs, t, s', v);
    EntriesStay(s, vs, t, s', v);
  }

  /** Locking or unlocking the metadata lock. */
  lemma KeepMeta(s: Locks, vs: map<Tid, Stance>, t: Tid, meta: Option<Tid>)
    requires Consistent(s, vs) && t in vs
    requires (s.meta == None && meta == Some(t)) || (s.meta == Some(t) && meta == None)
    ensures Consistent(s.(meta := meta), vs[t := vs[t].(meta := meta.Some?)])
  {
    var s' := s.(meta := meta);
    var vs' := vs[t := vs[t].(meta := meta.Some?)];
    forall u | u in vs' ensures StanceTrue(s', u, vs'[u]) {
      assert StanceTrue(s, u, vs[u]);
    }
    MutexesStay(s, vs, t, s', vs'[t]);
    EntriesStay(s, vs, t, s', vs'[t]);
  }

  lemma KeepNewMutex(s: Locks, vs: map<Tid, Stance>, t: Tid)
    requires Consistent(s, vs) && t in vs && vs[t].stage.Unborn?
    ensures Consistent(s.(mutexes := s.mutexes[Created(t) := None]), vs[t := vs[t].(stage := Private)])
  {
    var s' := s.(mutexes := s.mutexes[Created(t) := None]);
    var vs' := vs[t := vs[t].(stage := Private)];
    assert StanceTrue(s, t, vs[t]);
    forall ip | ip in s'.entries ensures EntryTrue(s', vs', ip) && s.entries[ip] != Created(t) {
      assert EntryTrue(s, vs, ip);
      if ip !in s.members {
        ClaimOutlives(vs, t, vs'[t], ip);
      }
    }
    forall u | u in vs' ensures StanceTrue(s', u, vs'[u]) {
      assert StanceTrue(s, u, vs[u]);
    }
    forall m | m in s'.mutexes ensures MutexTrue(s', vs', m) {
      assert m in s.mutexes ==> MutexTrue(s, vs, m);
    }
  }

  lemma KeepDropMutex(s: Locks, vs: map<Tid, Stance>, t: Tid)
    requires Consistent(s, vs) && t in vs && vs[t].stage.Private?
    ensures Consistent(s.(mutexes := s.mutexes - {Created(t)}), vs[t := vs[t].(stage := Dropped)])
  {
    var s' := s.(mutexes := s.mutexes - {Created(t)});
    var vs' := vs[t := vs[t].(stage := Dropped)];
    assert StanceTrue(s, t, vs[t]);
    forall ip | ip in s'.entries ensures EntryTrue(s', vs', ip) && s.entries[ip] != Created(t) {
      assert EntryTrue(s, vs, ip);
      if ip !in s.members {
        ClaimOutlives(vs, t, vs'[t], ip);
      }
    }
    forall u | u in vs' ensures StanceTrue(s', u, vs'[u]) {
      assert StanceTrue(s, u, vs[u]);
    }
    forall m | m in s'.mutexes ensures MutexTrue(s', vs', m) {
      assert MutexTrue(s, vs, m);
    }
  }

  /** Entering the private mutex into the map of client mutexes, which claims the client. */
  lemma KeepPublish(s: Locks, vs: map<Tid, Stance>, t: Tid)
    requires Consistent(s, vs) && t in vs && vs[t].stage.Private? && vs[t].gate && vs[t].claim.Nothing?
    requires vs[t].home !in s.entries && vs[t].target.None?
    ensures Consistent(s.(entries := s.entries[vs[t].home := Created(t)]),
                       vs[t := vs[t].(stage := Published, claim := Vacant(vs[t].home), seen := Some(vs[t].home))])
  {
    var ip := vs[t].home;
    var s' := s.(entries := s.entries[ip := Created(t)]);
    var vs' := vs[t := vs[t].(stage := Published, claim := Vacant(ip), seen := Some(ip))];
    assert StanceTrue(s, t, vs[t]);
    forall u | u in vs' ensures StanceTrue(s', u, vs'[u]) {
      assert StanceTrue(s, u, vs[u]);
    }
    forall m | m in s'.mutexes ensures MutexTrue(s', vs', m) {
      assert MutexTrue(s, vs, m);
    }
    forall x | x in s'.entries ensures EntryTrue(s', vs', x) {
      if x == ip {
        assert Claims(vs', t, ip);
      } else {
        assert EntryTrue(s, vs, x);
        if x !in s.members {
          ClaimOutlives(vs, t, vs'[t], x);
        }
      }
    }
  }

  /** Locking the client mutex that was looked up. */
  lemma KeepAcquire(s: Locks, vs: map<Tid, Stance>, t: Tid)
    requires Consistent(s, vs) && t in vs && vs[t].target.Some? && vs[t].pointer.Some? && Free(s, vs[t].pointer.value)
    requires vs[t].claim.Nothing? || vs[t].claim == Vacant(vs[t].target.value)
    ensures var ip := vs[t].target.value;
            Consistent(s.(mutexes := s.mutexes[vs[t].pointer.value := Some(t)]),
                       vs[t := vs[t].(held := vs[t].held + {ip}, target := None,
                                      claim := if vs[t].claim.Nothing? then Nothing else Locked(ip))])
  {
    var ip, m := vs[t].target.value, vs[t].pointer.value;
    var s' := s.(mutexes := s.mutexes[m := Some(t)]);
    var v := vs[t].(held := vs[t].held + {ip}, target := None,
                    claim := if vs[t].claim.Nothing? then Nothing else Locked(ip));
    var vs' := vs[t := v];
    assert StanceTrue(s, t, vs[t]);
    assert EntryTrue(s, vs, ip);
    forall u | u in vs' ensures StanceTrue(s', u, vs'[u]) {
      assert StanceTrue(s, u, vs[u]);
    }
    forall x | x in s'.mutexes ensures MutexTrue(s', vs', x) {
      assert MutexTrue(s, vs, x);
    }
    EntriesStay(s, vs, t, s', v);
  }

  /** Unlocking a client mutex.  A removal does this while its claim stands, under the gate. */
  lemma KeepRelease(s: Locks, vs: map<Tid, Stance>, t: Tid, ip: Addr)
    requires Consistent(s, vs) && t in vs && ip in vs[t].held && vs[t].target.None?
    requires vs[t].claim.Nothing? || (vs[t].claim == Locked(ip) && vs[t].gate)
    ensures ip in s.entries && Holds(s, s.entries[ip], t)
    ensures Consistent(s.(mutexes := s.mutexes[s.entries[ip] := None]),
                       vs[t := vs[t].(held := vs[t].held - {ip},
                                      claim := if vs[t].claim.Nothing? then Nothing else Vacant(ip))])
  {
    assert StanceTrue(s, t, vs[t]);
    var m := s.entries[ip];
    var s' := s.(mutexes := s.mutexes[m := None]);
    var v := vs[t].(held := vs[t].held - {ip}, claim := if vs[t].claim.Nothing? then Nothing else Vacant(ip));
    var vs' := vs[t := v];
    ReleaseStances(s, vs, t, ip, v);
    forall x | x in s'.mutexes ensures MutexTrue(s', vs', x) {
      assert MutexTrue(s, vs, x);
    }
    EntriesStay(s, vs, t, s', v);
  }

  lemma ReleaseStances(s: Locks, vs: map<Tid, Stance>, t: Tid, ip: Addr, v: Stance)
    requires Consistent(s, vs) && t in vs && ip in vs[t].held && vs[t].target.None? && ip in s.entries
    requires vs[t].claim.Nothing? || (vs[t].claim == Locked(ip) && vs[t].gate)
    requires v == vs[t].(held := vs[t].held - {ip}, claim := if vs[t].claim.Nothing? then Nothing else Vacant(ip))
    ensures var s', vs' := s.(mutexes := s.mutexes[s.entries[ip] := None]), vs[t := v];
            forall u :: u in vs' ==> StanceTrue(s', u, vs'[u])
  {
    var s', vs' := s.(mutexes := s.mutexes[s.entries[ip] := None]), vs[t := v];
    EntriesApart(s, vs, ip);
    assert StanceTrue(s, t, vs[t]);
    forall u | u in vs' ensures StanceTrue(s', u, vs'[u]) {
      assert StanceTrue(s, u, vs[u]);
    }
  }

  lemma KeepDestroy(s: Locks, vs: map<Tid, Stance>, t: Tid)
    requires Consistent(s, vs) && t in vs && vs[t].claim.Vacant? && vs[t].target.None? && !vs[t].stage.Private?
    ensures vs[t].claim.ip in s.entries && Free(s, s.entries[vs[t].claim.ip])
    ensures Consistent(s.(mutexes := s.mutexes - {s.entries[vs[t].claim.ip]}),
                       vs[t := vs[t].(claim := Dangling(vs[t].claim.ip))])
  {
    assert StanceTrue(s, t, vs[t]);
    var ip := vs[t].claim.ip;
    var m := s.entries[ip];
    var s' := s.(mutexes := s.mutexes - {m});
    var vs' := vs[t := vs[t].(claim := Dangling(ip))];
    assert EntryTrue(s, vs, ip);
    forall u | u in vs' ensures StanceTrue(s', u, vs'[u]) {
      assert StanceTrue(s, u, vs[u]);
    }
    forall x | x in s'.mutexes ensures MutexTrue(s', vs', x) {
      assert MutexTrue(s, vs, x);
    }
    forall x | x in s'.entries ensures EntryTrue(s', vs', x) {
      assert EntryTrue(s, vs, x);
      if x !in s.members {
        ClaimOutlives(vs, t, vs'[t], x);
      }
    }
  }

  lemma KeepEraseEntry(s: Locks, vs: map<Tid, Stance>, t: Tid)
    requires Consistent(s, vs) && t in vs && vs[t].claim.Dangling? && vs[t].seen.None? && vs[t].target.None?
    ensures vs[t].claim.ip in s.entries
    ensures Consistent(s.(entries := s.entries - {vs[t].claim.ip}), vs[t := vs[t].(claim := Nothing)])
  {
    assert StanceTrue(s, t, vs[t]);
    var ip := vs[t].claim.ip;
    var s' := s.(entries := s.entries - {ip});
    var vs' := vs[t := vs[t].(claim := Nothing)];
    forall u | u in vs' ensures StanceTrue(s', u, vs'[u]) {
      assert StanceTrue(s, u, vs[u]);
      assert u != t ==> ip !in vs[u].held && (vs[u].claim.Nothing? || vs[u].claim.ip != ip);
    }
    forall x | x in s'.mutexes ensures MutexTrue(s', vs', x) {
      assert MutexTrue(s, vs, x);
    }
    forall x | x in s'.entries ensures EntryTrue(s', vs', x) {
      assert EntryTrue(s, vs, x);
      if x !in s.members {
        ClaimOutlives(vs, t, vs'[t], x);
      }
    }
  }

  /** Inserting the record a registration claimed. */
  lemma KeepInsert(s: Locks, vs: map<Tid, Stance>, t: Tid)
    requires Consistent(s, vs) && t in vs && vs[t].claim.Locked?
    ensures vs[t].claim.ip in s.entries && vs[t].claim.ip !in s.members
    ensures Consistent(s.(members := s.members + {vs[t].claim.ip}), vs[t := vs[t].(claim := Nothing)])
  {
    assert StanceTrue(s, t, vs[t]);
    var ip := vs[t].claim.ip;
    var s' := s.(members := s.members + {ip});
    var vs' := vs[t := vs[t].(claim := Nothing)];
    forall u | u in vs' ensures StanceTrue(s', u, vs'[u]) {
      assert StanceTrue(s, u, vs[u]);
    }
    MutexesStay(s, vs, t, s', vs'[t]);
    forall x | x in s'.entries ensures EntryTrue(s', vs', x) {
      assert EntryTrue(s, vs, x);
      if x !in s'.members {
        ClaimOutlives(vs, t, vs'[t], x);
      }
    }
  }

  /** Erasing a record whose mutex is held, which claims the client. */
  lemma KeepErase(s: Locks, vs: map<Tid, Stance>, t: Tid, ip: Addr)
    requires Consistent(s, vs) && t in vs && ip in vs[t].held && vs[t].claim.Nothing?
    ensures ip in s.members
    ensures Consistent(s.(members := s.members - {ip}), vs[t := vs[t].(claim := Locked(ip))])
  {
    assert StanceTrue(s, t, vs[t]);
    RecordPresent(s, vs, t, ip);
    var s' := s.(members := s.members - {ip});
    var vs' := vs[t := vs[t].(claim := Locked(ip))];
    forall u | u in vs' ensures StanceTrue(s', u, vs'[u]) {
      assert StanceTrue(s, u, vs[u]);
    }
    MutexesStay(s, vs, t, s', vs'[t]);
    forall x | x in s'.entries ensures EntryTrue(s', vs', x) {
      assert EntryTrue(s, vs, x);
      if x !in s.members {
        ClaimOutlives(vs, t, vs'[t], x);
      } else if x == ip {
        assert Claims(vs', t, ip);
      }
    }
  }

  // ---------------------------------------------------------------------------
  // The operations as one vocabulary
  // ---------------------------------------------------------------------------

  datatype Action =
    | Skip
    | TakeGate
    | GiveGate
    | TakeMeta
    | GiveMeta
    | Allocate
    | Discard
    | Enter              // the private mutex goes into the map of client mutexes
    | See(ip: Addr)      // an entry is found there
    | Resolve(ip: Addr)  // a mutex is looked up in order to lock it
    | TakeClient
    | GiveClient(ip: Addr)
    | Destroy
    | Forget             // the entry of a destroyed mutex is erased
    | Insert
    | Erase(ip: Addr)
    | Touch(ip: Addr)    // a record is read or written in place

  /** What a thread must already be entitled to. */
  predicate Allowed(v: Stance, a: Action) {
    var still := (v.claim.Nothing? || v.claim.Locked?) && v.seen.None? && v.target.None?;
    match a
    case Skip => true
    case TakeGate => still
    case GiveGate => v.gate && still
    case TakeMeta => true
    case GiveMeta => v.meta
    case Allocate => v.stage.Unborn?
    case Discard => v.stage.Private?
    case Enter => v.stage.Private? && v.gate && v.claim.Nothing? && v.target.None?
    case See(_) => v.gate
    case Resolve(_) => v.gate && !v.claim.Dangling?
    case TakeClient => v.target.Some? && (v.claim.Nothing? || v.claim == Vacant(v.target.value))
    case GiveClient(ip) => ip in v.held && v.target.None? && (v.claim.Nothing? || (v.claim == Locked(ip) && v.gate))
    case Destroy => v.claim.Vacant? && v.target.None? && !v.stage.Private?
    case Forget => v.claim.Dangling? && v.seen.None? && v.target.None?
    case Insert => v.claim.Locked?
    case Erase(ip) => ip in v.held && v.claim.Nothing?
    case Touch(ip) => ip in v.held && v.claim.Nothing?
  }

  /** What it is entitled to afterwards. */
  function Shift(v: Stance, a: Action): Stance
    requires Allowed(v, a)
  {
    match a
    case Skip => v
    case TakeGate => v.(gate := true)
    case GiveGate => v.(gate := false)
    case TakeMeta => v.(meta := true)
    case GiveMeta => v.(meta := false)
    case Allocate => v.(stage := Private)
    case Discard => v.(stage := Dropped)
    case Enter => v.(stage := Published, claim := Vacant(v.home), seen := Some(v.home))
    case See(ip) => v.(seen := Some(ip))
    case Resolve(ip) => v.(target := Some(ip), seen := None)
    case TakeClient =>
      v.(held := v.held + {v.target.value}, target := None,
         claim := if v.claim.Nothing? then Nothing else Locked(v.target.value))
    case GiveClient(ip) =>
      v.(held := v.held - {ip}, claim := if v.claim.Nothing? then Nothing else Vacant(ip))
    case Destroy => v.(claim := Dangling(v.claim.ip))
    case Forget => v.(claim := Nothing)
    case Insert => v.(claim := Nothing)
    case Erase(ip) => v.(claim := Locked(ip))
    case Touch(_) => v
  }

  /** The conditions the operation itself waits for or tests. */
  predicate Ready(s: Locks, v: Stance, a: Action) {
    match a
    case TakeGate => s.gate == None
    case TakeMeta => s.meta == None
    case Enter => v.home !in s.entries
    case See(ip) => ip in s.entries
    case Resolve(ip) => ip in s.entries
    case TakeClient => v.pointer.Some? && v.pointer.value in s.mutexes && s.mutexes[v.pointer.value] == None
    case _ => true
  }

  /** The operation did what it is for, and nothing else. */
  ghost predicate Performed(s: Locks, t: Tid, v: Stance, a: Action, s': Locks)
    requires Allowed(v, a) && Ready(s, v, a)
  {
    match a
    case Skip => s' == s
    case TakeGate => s' == s.(gate := Some(t))
    case GiveGate => s.gate == Some(t) && s' == s.(gate := None)
    case TakeMeta => s' == s.(meta := Some(t))
    case GiveMeta => s.meta == Some(t) && s' == s.(meta := None)
    case Allocate => s' == s.(mutexes := s.mutexes[Created(t) := None])
    case Discard => s' == s.(mutexes := s.mutexes - {Created(t)})
    case Enter => s' == s.(entries := s.entries[v.home := Created(t)])
    case See(_) => s' == s
    case Resolve(_) => s' == s
    case TakeClient => s' == s.(mutexes := s.mutexes[v.pointer.value := Some(t)])
    case GiveClient(ip) => ip in s.entries && s' == s.(mutexes := s.mutexes[s.entries[ip] := None])
    case Destroy => v.claim.ip in s.entries && s' == s.(mutexes := s.mutexes - {s.entries[v.claim.ip]})
    case Forget => s' == s.(entries := s.entries - {v.claim.ip})
    case Insert => s' == s.(members := s.members + {v.claim.ip})
    case Erase(ip) => s' == s.(members := s.members - {ip})
    case Touch(_) => s' == s
  }

  function Pointed(s: Locks, v: Stance, a: Action): Stance
    requires Ready(s, v, a)
  {
    if a.Resolve? then v.(pointer := Some(s.entries[a.ip])) else v
  }

  /** Whatever the other threads believe, an operation a thread is entitled to leaves every belief true. */
  lemma ActionKeeps(s: Locks, vs: map<Tid, Stance>, t: Tid, a: Action, s': Locks)
    requires Consistent(s, vs) && t in vs && Allowed(vs[t], a) && Ready(s, vs[t], a)
    requires Performed(s, t, vs[t], a, s')
    ensures Consistent(s', vs[t := Pointed(s, Shift(vs[t], a), a)])
  {
    assert StanceTrue(s, t, vs[t]);
    var v' := Pointed(s, Shift(vs[t], a), a);
    match a {
      case Skip => assert vs[t := v'] == vs;
      case TakeGate => KeepGate(s, vs, t, Some(t), v');
      case GiveGate => KeepGate(s, vs, t, None, v');
      case TakeMeta => KeepMeta(s, vs, t, Some(t));
      case GiveMeta => KeepMeta(s, vs, t, None);
      case Allocate => KeepNewMutex(s, vs, t);
      case Discard => KeepDropMutex(s, vs, t);
      case Enter => KeepPublish(s, vs, t);
      case See(ip) => KeepGate(s, vs, t, s.gate, v');
      case Resolve(ip) => KeepGate(s, vs, t, s.gate, v');
      case TakeClient => KeepAcquire(s, vs, t);
      case GiveClient(ip) => KeepRelease(s, vs, t, ip);
      case Destroy => KeepDestroy(s, vs, t);
      case Forget => KeepEraseEntry(s, vs, t);
      case Insert => KeepInsert(s, vs, t);
      case Erase(ip) => KeepErase(s, vs, t, ip);
      case Touch(ip) => assert vs[t := v'] == vs;
    }
  }
}
