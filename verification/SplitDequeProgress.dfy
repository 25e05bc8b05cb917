/** What the steps of the split deque achieve: steals succeed, spawns and syncs share as much as they are asked to, and
    no reached state is a dead end. */
module SplitDequeProgress {
  import opened SplitDeque

  /** `mid` splits [lo, hi) in the middle; the odd element goes to the lower part if `up`, and otherwise to the upper. */
  predicate Middle(lo: nat, mid: nat, hi: nat, up: bool) {
    && lo <= mid <= hi
    && (if up then 0 <= (mid - lo) - (hi - mid) <= 1 else 0 <= (hi - mid) - (mid - lo) <= 1)
  }

  function Owners(n: nat): (es: seq<Event>)
    ensures |es| == n
  {
    if n == 0 then [] else [Owner] + Owners(n - 1)
  }

  lemma First(s: State, e: Event, es: seq<Event>)
    requires Enabled(s, e) && Possible(Next(s, e), es)
    ensures Possible(s, [e] + es) && After(s, [e] + es) == After(Next(s, e), es)
  {
    assert ([e] + es)[1..] == es;
  }

  lemma {:induction false} Append(s: State, es: seq<Event>, fs: seq<Event>)
    requires Possible(s, es) && Possible(After(s, es), fs)
    ensures Possible(s, es + fs) && After(s, es + fs) == After(After(s, es), fs)
    decreases |es|
  {
    hide Enabled, Next;
    if es == [] {
      assert es + fs == fs;
    } else {
      Append(Next(s, es[0]), es[1..], fs);
      assert (es + fs)[1..] == es[1..] + fs;
    }
  }

  // ---------------------------------------------------------------------------------------------------------
  // Stealing
  // ---------------------------------------------------------------------------------------------------------

  /** The state in which thief `k` has stolen the task at the tail, run it and completed its slot. */
  ghost function Stolen(s: State, k: nat): State
    requires s.tail < |s.slots| && s.slots[s.tail].task < |s.runs| == |s.done|
  {
    var x := s.slots[s.tail].task;
    s.(tail := s.tail + 1, claimed := s.tail + 1, slots := s.slots[s.tail := Slot(Completed, x, k)],
       runs := s.runs[x := 1], done := s.done[x := true])
  }

  /** In every run, a thief that finds work and is not disturbed steals exactly the task at the tail and runs it. */
  lemma StealSucceeds(size: nat, thieves: nat, es: seq<Event>, k: nat)
    requires Possible(Initial(size, thieves), es)
    requires var s := Reached(size, thieves, es);
      k < |s.thieves| && s.thieves[k].Idle? && !s.allStolen && s.tail < s.split
    ensures var s := Reached(size, thieves, es);
      && s.tail < |s.slots| && s.slots[s.tail].task < |s.runs| == |s.done|
      && Possible(s, Steps(k, 7)) && After(s, Steps(k, 7)) == Stolen(s, k)
  {
    hide Inv, Possible, After, Initial, Steps, Stolen;
    ReachedInv(size, thieves, es);
    Steal(Reached(size, thieves, es), k);
  }

  lemma Steal(s: State, k: nat)
    requires Inv(s) && k < |s.thieves| && s.thieves[k].Idle? && !s.allStolen && s.tail < s.split
    ensures s.tail < |s.slots| && s.slots[s.tail].task < |s.runs| == |s.done|
    ensures Possible(s, Steps(k, 7)) && After(s, Steps(k, 7)) == Stolen(s, k)
  {
    Stealable(s);
    Untouched(s, s.tail);
    hide Inv;
    Claims(s, k);
    var t := s.(tail := s.tail + 1, claimed := s.tail + 1, slots := s.slots[s.tail := s.slots[s.tail].(taker := k)],
                thieves := s.thieves[k := Won(s.tail)]);
    Works(t, k);
    Append(s, Steps(k, 3), Steps(k, 4));
    StepsAdd(k);
    assert Stolen(s, k).slots == t.slots[s.tail := Slot(Completed, s.slots[s.tail].task, k)];
    assert Stolen(s, k).thieves == t.thieves[k := Idle];
  }

  lemma StepsAdd(k: nat)
    ensures Steps(k, 7) == Steps(k, 3) + Steps(k, 4)
  {
    assert Steps(k, 3) == [Thief(k)] + Steps(k, 2) == [Thief(k), Thief(k)] + Steps(k, 1) == [Thief(k), Thief(k), Thief(k)];
    assert Steps(k, 7) == [Thief(k)] + Steps(k, 6) == [Thief(k), Thief(k)] + Steps(k, 5);
    assert Steps(k, 5) == [Thief(k)] + Steps(k, 4);
  }

  /** Look at the flag, read tail and split, and take the slot. */
  lemma Claims(s: State, k: nat)
    requires k < |s.thieves| && s.thieves[k].Idle? && !s.allStolen && s.tail < s.split && s.tail < |s.slots|
    ensures Possible(s, Steps(k, 3))
    ensures After(s, Steps(k, 3)) ==
      s.(tail := s.tail + 1, claimed := s.tail + 1, slots := s.slots[s.tail := s.slots[s.tail].(taker := k)],
         thieves := s.thieves[k := Won(s.tail)])
  {
    var s1 := NextThief(s, k);
    var s2 := NextThief(s1, k);
    var s3 := NextThief(s2, k);
    First(s2, Thief(k), Steps(k, 0));
    First(s1, Thief(k), Steps(k, 1));
    First(s, Thief(k), Steps(k, 2));
    assert s3.thieves == s.thieves[k := Won(s.tail)];
  }

  /** Mark the slot, run the task to its end, and complete the slot. */
  lemma Works(s: State, k: nat)
    requires k < |s.thieves| && s.thieves[k].Won?
    requires var i := s.thieves[k].slot;
      i < |s.slots| && s.slots[i].task < |s.runs| == |s.done| && s.runs[s.slots[i].task] == 0
    ensures Possible(s, Steps(k, 4))
    ensures var i := s.thieves[k].slot;
      var x := s.slots[i].task;
      After(s, Steps(k, 4)) ==
      s.(slots := s.slots[i := s.slots[i].(mark := Completed)], runs := s.runs[x := 1], done := s.done[x := true],
         thieves := s.thieves[k := Idle])
  {
    var i := s.thieves[k].slot;
    var s1 := NextThief(s, k);
    var s2 := NextThief(s1, k);
    var s3 := NextThief(s2, k);
    var s4 := NextThief(s3, k);
    assert s2.thieves[k] == Running(i) && s3.thieves[k] == Finishing(i);
    First(s3, Thief(k), Steps(k, 0));
    First(s2, Thief(k), Steps(k, 1));
    First(s1, Thief(k), Steps(k, 2));
    First(s, Thief(k), Steps(k, 3));
    assert s4.thieves == s.thieves[k := Idle];
    assert s4.slots == s.slots[i := s.slots[i].(mark := Completed)];
  }

  /** A thief that finds nothing to steal asks the owner to move the split, and does nothing else. */
  lemma StealAsks(s: State, k: nat)
    requires k < |s.thieves| && s.thieves[k].Idle? && !s.allStolen && s.tail >= s.split
    ensures Possible(s, Steps(k, 3)) && After(s, Steps(k, 3)) == s.(moveSplit := true)
  {
    var s1 := NextThief(s, k);
    var s2 := NextThief(s1, k);
    First(s2, Thief(k), Steps(k, 0));
    First(s1, Thief(k), Steps(k, 1));
    First(s, Thief(k), Steps(k, 2));
    assert NextThief(s2, k).thieves == s.thieves;
  }

  /** A thief whose compare-and-swap comes too late gives up, and changes nothing. */
  lemma StealLost(s: State, k: nat)
    requires k < |s.thieves| && s.thieves[k].Aiming? && (s.thieves[k].tail != s.tail || s.thieves[k].split != s.split)
    ensures Possible(s, Steps(k, 1)) && After(s, Steps(k, 1)) == s.(thieves := s.thieves[k := Idle])
  {
    First(s, Thief(k), Steps(k, 0));
  }

  /** The steps that an attempt to steal still takes. */
  function AttemptSteps(s: State, k: nat): nat
    requires k < |s.thieves|
  {
    match s.thieves[k]
    case Idle => 0
    case Peeked => if s.tail < s.split then 6 else 2
    case Requesting => 1
    case Aiming(tail, split) => if tail == s.tail && split == s.split then 5 else 1
    case _ => Remaining(s.thieves[k])
  }

  /** In every run, every attempt to steal can be brought to its end by the thief alone. */
  lemma AttemptEnds(size: nat, thieves: nat, es: seq<Event>, k: nat)
    requires Possible(Initial(size, thieves), es) && k < |Reached(size, thieves, es).thieves|
    ensures var s := Reached(size, thieves, es);
      && Possible(s, Steps(k, AttemptSteps(s, k)))
      && |After(s, Steps(k, AttemptSteps(s, k))).thieves| == |s.thieves|
      && After(s, Steps(k, AttemptSteps(s, k))).thieves[k].Idle?
  {
    hide Inv, Possible, After, Initial, Steps, AttemptSteps;
    ReachedInv(size, thieves, es);
    AttemptGoesOn(Reached(size, thieves, es), k);
  }

  lemma {:induction false} AttemptGoesOn(s: State, k: nat)
    requires Inv(s) && k < |s.thieves|
    ensures Possible(s, Steps(k, AttemptSteps(s, k)))
    ensures |After(s, Steps(k, AttemptSteps(s, k))).thieves| == |s.thieves|
    ensures After(s, Steps(k, AttemptSteps(s, k))).thieves[k].Idle?
    decreases AttemptSteps(s, k)
  {
    if !s.thieves[k].Idle? {
      var t := NextThief(s, k);
      ThiefInv(s, k);
      AttemptStep(s, k);
      hide Inv, NextThief, AttemptSteps;
      AttemptGoesOn(t, k);
      First(s, Thief(k), Steps(k, AttemptSteps(t, k)));
    }
  }

  lemma AttemptStep(s: State, k: nat)
    requires Inv(s) && k < |s.thieves| && !s.thieves[k].Idle?
    ensures |NextThief(s, k).thieves| == |s.thieves|
    ensures AttemptSteps(s, k) > 0 && AttemptSteps(NextThief(s, k), k) == AttemptSteps(s, k) - 1
  {
    if At(s.thieves[k]) >= 0 {
      ThiefStep(s, k);
    } else {
      if s.tail < s.split { Stealable(s); }
      assert ThiefOk(s.claimed, s.slots, s.thieves, s.runs, s.done, k);
      hide Inv;
    }
  }

  // ---------------------------------------------------------------------------------------------------------
  // The flags
  // ---------------------------------------------------------------------------------------------------------

  /** The public and the private `allstolen` flag agree but for the time between their two stores. */
  predicate Flags(s: State) {
    match s.pc
    case SpawnClear => s.allStolen && s.ownAllStolen
    case SpawnReset => s.allStolen && s.ownAllStolen
    case SpawnPublish => s.allStolen && s.ownAllStolen
    case SpawnPrivate => !s.allStolen && s.ownAllStolen
    case StolenPublic => !s.allStolen && !s.ownAllStolen
    case StolenPrivate => s.allStolen && !s.ownAllStolen
    case LeapPublic => !s.allStolen && !s.ownAllStolen
    case LeapPrivate => s.allStolen && !s.ownAllStolen
    case ShrinkRead => !s.allStolen && !s.ownAllStolen
    case ShrinkWrite(_, _) => !s.allStolen && !s.ownAllStolen
    case ShrinkCheck(_, _) => !s.allStolen && !s.ownAllStolen
    case _ => s.allStolen == s.ownAllStolen
  }

  lemma NextFlags(s: State, e: Event)
    requires Flags(s) && Enabled(s, e)
    ensures Flags(Next(s, e))
  {
    match e {
      case Owner => hide Popped, RunByOwner; OwnerFlags(s);
      case Thief(k) => ThiefFlags(s, k);
      case _ =>
    }
  }

  lemma OwnerFlags(s: State)
    requires Flags(s) && Enabled(s, Owner)
    ensures Flags(NextOwner(s))
  {
  }

  lemma ThiefFlags(s: State, k: nat)
    requires Flags(s) && k < |s.thieves|
    ensures Flags(NextThief(s, k))
  {
    var t := NextThief(s, k);
    assert t.pc == s.pc && t.allStolen == s.allStolen && t.ownAllStolen == s.ownAllStolen;
  }

  lemma {:induction false} RunFlags(s: State, es: seq<Event>)
    requires Flags(s) && Possible(s, es)
    ensures Flags(After(s, es))
    decreases |es|
  {
    hide Flags, Enabled, Next;
    if es != [] {
      NextFlags(s, es[0]);
      RunFlags(Next(s, es[0]), es[1..]);
    }
  }

  /** In every run, whenever application code runs and something can be stolen, the thieves can see it; and when they see
      that all is stolen, it is. */
  lemma WorkIsVisible(size: nat, thieves: nat, es: seq<Event>)
    requires Possible(Initial(size, thieves), es)
    requires Reached(size, thieves, es).pc.Work?
    ensures var s := Reached(size, thieves, es);
      && (s.tail < s.split ==> !s.allStolen)
      && (s.allStolen ==> s.claimed == s.head)
  {
    ReachedInv(size, thieves, es);
    RunFlags(Initial(size, thieves), es);
    hide Data, Initial, Possible, After;
  }

  // ---------------------------------------------------------------------------------------------------------
  // Spawning
  // ---------------------------------------------------------------------------------------------------------

  /** The number of stores after the task is in its slot. */
  function SpawnStores(s: State): nat {
    if s.ownAllStolen then 4 else if s.moveSplit then 3 else 0
  }

  /** Undisturbed, a spawn puts its task on top. After all was stolen exactly the new task is shared; on a request the
      shared part grows by at least half of what was private, and the request is settled. */
  ghost predicate Spawned(s: State, t: State) {
    && s.head < |s.slots| && t.pc.Work? && t.head == s.head + 1
    && t.slots == s.slots[s.head := Slot(Task, |s.runs|, 0)]
    && t.runs == s.runs + [0] && t.done == s.done + [false] && t.home == s.home + [s.head]
    && t.thieves == s.thieves && t.frames == s.frames && t.claimed == s.claimed
    && (if s.ownAllStolen then
          t.tail == s.head && t.split == s.head + 1 && !t.allStolen && !t.moveSplit
        else
          && t.tail == s.tail && t.allStolen == s.allStolen && !t.moveSplit
          && if s.moveSplit then s.split < t.split && Middle(s.split, t.split, s.head + 1, true) else t.split == s.split)
  }

  lemma SpawnShares(size: nat, thieves: nat, es: seq<Event>)
    requires Possible(Initial(size, thieves), es)
    requires Enabled(Reached(size, thieves, es), Spawn)
    ensures var s := Reached(size, thieves, es);
      && Possible(s, [Spawn] + Owners(SpawnStores(s)))
      && Spawned(s, After(s, [Spawn] + Owners(SpawnStores(s))))
  {
    hide Inv, Possible, After, Initial, Spawned, Enabled;
    ReachedInv(size, thieves, es);
    SpawnGoes(Reached(size, thieves, es));
  }

  lemma SpawnGoes(s: State)
    requires Inv(s) && Enabled(s, Spawn)
    ensures Possible(s, [Spawn] + Owners(SpawnStores(s)))
    ensures Spawned(s, After(s, [Spawn] + Owners(SpawnStores(s))))
  {
    if s.ownAllStolen {
      SpawnAfterAllStolen(s);
    } else if s.moveSplit {
      SpawnOnRequest(s);
    } else {
      hide Data;
      First(s, Spawn, []);
      assert [Spawn] + [] == [Spawn] + Owners(0);
    }
  }

  lemma SpawnAfterAllStolen(s: State)
    requires Inv(s) && Enabled(s, Spawn) && s.ownAllStolen
    ensures Possible(s, [Spawn] + Owners(4)) && Spawned(s, After(s, [Spawn] + Owners(4)))
  {
    hide Data, Frames;
    var s1 := NextSpawn(s);
    var s2 := NextOwner(s1);
    var s3 := NextOwner(s2);
    var s4 := NextOwner(s3);
    First(s4, Owner, Owners(0));
    First(s3, Owner, Owners(1));
    First(s2, Owner, Owners(2));
    First(s1, Owner, Owners(3));
    First(s, Spawn, Owners(4));
  }

  lemma SpawnOnRequest(s: State)
    requires Inv(s) && Enabled(s, Spawn) && !s.ownAllStolen && s.moveSplit
    ensures Possible(s, [Spawn] + Owners(3)) && Spawned(s, After(s, [Spawn] + Owners(3)))
  {
    hide Data, Frames;
    var s1 := NextSpawn(s);
    var s2 := NextOwner(s1);
    var s3 := NextOwner(s2);
    First(s3, Owner, Owners(0));
    First(s2, Owner, Owners(1));
    First(s1, Owner, Owners(2));
    First(s, Spawn, Owners(3));
  }

  // ---------------------------------------------------------------------------------------------------------
  // Syncing
  // ---------------------------------------------------------------------------------------------------------

  /** Undisturbed, the sync of a slot that nobody has claimed runs its task and takes it off. If the slot was shared, the
      owner first takes back the upper half of what could be stolen, and leaves the rest; on a request it then shares at
      least half of what it has, and settles the request. `p` is the split between the two. */
  ghost predicate Synced(s: State, t: State, p: nat) {
    && 0 < s.head <= |s.slots| && t.pc.Work? && t.head == s.head - 1
    && s.slots[s.head - 1].task < |s.runs| == |s.done| == |s.home|
    && (var x := s.slots[s.head - 1].task;
        t.runs == s.runs[x := 1] && t.done == s.done[x := true] && t.home == s.home[x := -1])
    && t.slots == s.slots[s.head - 1 := s.slots[s.head - 1].(mark := Empty)]
    && t.thieves == s.thieves && t.frames == s.frames && t.claimed == s.claimed && t.tail == s.tail
    && t.allStolen == s.allStolen && t.ownAllStolen == s.ownAllStolen && !t.moveSplit
    && (if s.split < s.head then p == s.split else p < s.split && Middle(s.tail, p, s.split, false))
    && (if s.moveSplit then Middle(p, t.split, s.head - 1, true) else t.split == p)
  }

  /** The number of the owner's steps: one on the fast path, five to take slots back, three to share. */
  function SyncSteps(s: State): nat {
    if !s.moveSplit && s.split < s.head then 1
    else (if s.split < s.head then 1 else 5) + (if s.moveSplit then 3 else 1) + 1
  }

  lemma SyncAlone(size: nat, thieves: nat, es: seq<Event>) returns (p: nat)
    requires Possible(Initial(size, thieves), es)
    requires Enabled(Reached(size, thieves, es), Sync)
    requires !Reached(size, thieves, es).ownAllStolen && Reached(size, thieves, es).tail < Reached(size, thieves, es).head
    ensures var s := Reached(size, thieves, es);
      && Possible(s, [Sync] + Owners(SyncSteps(s))) && Synced(s, After(s, [Sync] + Owners(SyncSteps(s))), p)
  {
    hide Inv, Possible, After, Initial, Synced, Enabled, SyncSteps;
    ReachedInv(size, thieves, es);
    p := SyncGoes(Reached(size, thieves, es));
  }

  /** The owner's own split agrees with the shared one, and slot `head` is live. */
  ghost predicate Syncing(s: State) {
    && s.head < |s.slots| && !s.ownAllStolen && s.ownSplit == s.split <= s.head + 1
    && s.tail <= s.head && s.tail <= s.split && s.claimed == s.tail
    && s.slots[s.head].task < |s.runs| == |s.done| == |s.home| && s.runs[s.slots[s.head].task] == 0
  }

  lemma SyncGoes(s: State) returns (p: nat)
    requires Inv(s) && Enabled(s, Sync) && !s.ownAllStolen && s.tail < s.head
    ensures Possible(s, [Sync] + Owners(SyncSteps(s))) && Synced(s, After(s, [Sync] + Owners(SyncSteps(s))), p)
  {
    var t := NextSync(s);
    TopFresh(s);
    hide Inv, Data, Indices, Frames;
    if !s.moveSplit && s.split < s.head {
      Pops(t);
      First(s, Sync, Owners(1));
      p := s.split;
    } else {
      var u;
      p, u := SlowPart(t);
      var n := if s.split < s.head then 1 else 5;
      GrowsAndPops(u);
      Joined(t, n, if s.moveSplit then 4 else 2);
      First(s, Sync, Owners(SyncSteps(s)));
    }
  }

  lemma TopFresh(s: State)
    requires Inv(s) && Enabled(s, Sync) && !s.ownAllStolen && s.tail < s.head
    ensures Syncing(NextSync(s)) && 0 < s.head <= |s.slots|
  {
    assert SlotOk(s.claimed, s.slots, s.thieves, s.runs, s.done, s.home, s.head - 1);
    hide Data;
  }

  lemma {:induction false} OwnersAdd(m: nat, n: nat)
    ensures Owners(m + n) == Owners(m) + Owners(n)
  {
    if m > 0 { OwnersAdd(m - 1, n); }
  }

  lemma Joined(s: State, m: nat, n: nat)
    requires Possible(s, Owners(m)) && Possible(After(s, Owners(m)), Owners(n))
    ensures Possible(s, Owners(m + n)) && After(s, Owners(m + n)) == After(After(s, Owners(m)), Owners(n))
  {
    Append(s, Owners(m), Owners(n));
    OwnersAdd(m, n);
  }

  lemma Pops(s: State)
    requires Syncing(s) && s.pc.SyncPop?
    ensures var x := s.slots[s.head].task;
      && Possible(s, Owners(1))
      && After(s, Owners(1)) == s.(runs := s.runs[x := 1], done := s.done[x := true], home := s.home[x := -1],
                                    slots := s.slots[s.head := s.slots[s.head].(mark := Empty)], pc := Work)
  {
    First(s, Owner, Owners(0));
  }

  lemma GrowsAndPops(s: State)
    requires Syncing(s) && s.pc.SyncGrowTest? && s.split <= s.head
    ensures var x := s.slots[s.head].task;
      var n := if s.moveSplit then 4 else 2;
      && Possible(s, Owners(n))
      && var t := After(s, Owners(n));
      && (if s.moveSplit then Middle(s.split, t.split, s.head, true) else t.split == s.split)
      && t == s.(runs := s.runs[x := 1], done := s.done[x := true], home := s.home[x := -1], moveSplit := false,
                 split := t.split, ownSplit := t.split,
                 slots := s.slots[s.head := s.slots[s.head].(mark := Empty)], pc := Work)
  {
    var t := NextOwner(s);
    if s.moveSplit {
      var u := NextOwner(t);
      var v := NextOwner(u);
      Pops(v);
      First(u, Owner, Owners(1));
      First(t, Owner, Owners(2));
      First(s, Owner, Owners(3));
    } else {
      Pops(t);
      First(s, Owner, Owners(1));
    }
  }

  /** Before the owner looks whether it shall share, it takes back the upper half of what can be stolen if its slot is
      shared. */
  lemma SlowPart(s: State) returns (p: nat, t: State)
    requires Syncing(s) && s.pc.SyncSlow?
    ensures var n := if s.split <= s.head then 1 else 5;
      Possible(s, Owners(n)) && t == After(s, Owners(n))
    ensures if s.split <= s.head then p == s.split else p < s.split && Middle(s.tail, p, s.split, false)
    ensures t == s.(split := p, ownSplit := p, pc := SyncGrowTest)
  {
    if s.split <= s.head {
      First(s, Owner, Owners(0));
      p, t := s.split, NextOwner(s);
    } else {
      p, t := TakesBack(s);
    }
  }

  lemma TakesBack(s: State) returns (p: nat, t: State)
    requires Syncing(s) && s.pc.SyncSlow? && s.split == s.head + 1
    ensures Possible(s, Owners(5)) && t == After(s, Owners(5))
    ensures p < s.split && Middle(s.tail, p, s.split, false)
    ensures t == s.(split := p, ownSplit := p, pc := SyncGrowTest)
  {
    hide Popped, RunByOwner, After, Possible, Owners;
    var s2, s4;
    s2, p := LooksBack(s);
    s4, t := Shrinks(s2);
    FiveOwners(s, NextOwner(s), s2, NextOwner(s2), s4);
  }

  lemma LooksBack(s: State) returns (s2: State, p: nat)
    requires Syncing(s) && s.pc.SyncSlow? && s.split == s.head + 1
    ensures Enabled(NextOwner(s), Owner) && s2 == NextOwner(NextOwner(s))
    ensures s2 == s.(pc := ShrinkWrite(s.tail, s.split))
    ensures p == NextOwner(s2).split < s.split && Middle(s.tail, p, s.split, false)
  {
    hide Popped, RunByOwner;
    s2 := NextOwner(NextOwner(s));
    p := (s.tail + s.split) / 2;
  }

  lemma Shrinks(s: State) returns (s2: State, t: State)
    requires Syncing(s) && s.split == s.head + 1 && s.pc == ShrinkWrite(s.tail, s.split)
    ensures Enabled(NextOwner(s), Owner) && s2 == NextOwner(NextOwner(s))
    ensures Enabled(s2, Owner) && t == NextOwner(s2)
    ensures var p := NextOwner(s).split;
      t == s.(split := p, ownSplit := p, pc := SyncGrowTest)
  {
    hide Popped, RunByOwner;
    s2 := NextOwner(NextOwner(s));
    t := NextOwner(s2);
  }

  lemma FiveOwners(s: State, s1: State, s2: State, s3: State, s4: State)
    requires Enabled(s, Owner) && s1 == NextOwner(s) && Enabled(s1, Owner) && s2 == NextOwner(s1)
    requires Enabled(s2, Owner) && s3 == NextOwner(s2) && Enabled(s3, Owner) && s4 == NextOwner(s3) && Enabled(s4, Owner)
    ensures Possible(s, Owners(5)) && After(s, Owners(5)) == NextOwner(s4)
  {
    hide NextOwner;
    First(s4, Owner, Owners(0));
    First(s3, Owner, Owners(1));
    First(s2, Owner, Owners(2));
    First(s1, Owner, Owners(3));
    First(s, Owner, Owners(4));
  }

  /** In every run, when the owner takes slots back while thieves steal, it first leaves the lower half of what it saw;
      once it sees how far they have come, it finds that all is stolen, or keeps its split, or, if they have come past it,
      leaves them the lower half of what is still there. */
  lemma ShrinkHalves(size: nat, thieves: nat, es: seq<Event>)
    requires Possible(Initial(size, thieves), es)
    requires Reached(size, thieves, es).pc.ShrinkWrite?
    ensures var s := Reached(size, thieves, es);
      && s.head < |s.slots| && NextOwner(s).pc == ShrinkCheck(s.pc.split, NextOwner(s).split)
      && s.pc.split == s.split && s.pc.tail <= s.tail && NextOwner(s).split < s.split
      && Middle(s.pc.tail, NextOwner(s).split, s.split, false)
  {
    ReachedInv(size, thieves, es);
    hide Data, Initial, Possible, After;
  }

  lemma ShrinkSettles(size: nat, thieves: nat, es: seq<Event>)
    requires Possible(Initial(size, thieves), es)
    requires Reached(size, thieves, es).pc.ShrinkCheck?
    ensures var s := Reached(size, thieves, es);
      var n := if s.tail <= s.split then 2 else 3;
      && Possible(s, Owners(n))
      && var t := After(s, Owners(n));
      && s.tail <= s.pc.split == s.head + 1
      && (if s.tail == s.pc.split then t == s.(allStolen := true, ownAllStolen := true, pc := LeapStart)
          else t == s.(split := t.split, ownSplit := t.split, pc := SyncGrowTest))
      && (s.split < s.tail < s.pc.split ==> t.split < s.pc.split && Middle(s.tail, t.split, s.pc.split, false))
      && (s.tail <= s.split ==> t.split == s.split)
  {
    hide Inv, Initial, Possible, After, Middle, NextOwner;
    ReachedInv(size, thieves, es);
    ShrinkGoes(Reached(size, thieves, es));
  }

  lemma ShrinkGoes(s: State)
    requires Inv(s) && s.pc.ShrinkCheck?
    ensures
      var n := if s.tail <= s.split then 2 else 3;
      && Possible(s, Owners(n))
      && var t := After(s, Owners(n));
      && s.tail <= s.pc.split == s.head + 1
      && (if s.tail == s.pc.split then t == s.(allStolen := true, ownAllStolen := true, pc := LeapStart)
          else t == s.(split := t.split, ownSplit := t.split, pc := SyncGrowTest))
      && (s.split < s.tail < s.pc.split ==> t.split < s.pc.split && Middle(s.tail, t.split, s.pc.split, false))
      && (s.tail <= s.split ==> t.split == s.split)
  {
    CheckBounds(s);
    hide Inv, Popped, RunByOwner;
    if s.tail <= s.split { ShrinkKeeps(s); } else if s.tail == s.pc.split { ShrinkFails(s); } else { ShrinkFixes(s); }
  }

  lemma CheckBounds(s: State)
    requires Inv(s) && s.pc.ShrinkCheck?
    ensures s.head < |s.slots| && !s.ownAllStolen && s.ownSplit == s.pc.split == s.head + 1
    ensures s.split == s.pc.newsplit < s.pc.split && s.tail <= s.pc.split
  {
    hide Data;
  }

  lemma ShrinkKeeps(s: State)
    requires s.pc.ShrinkCheck? && s.head < |s.slots| && s.tail <= s.split == s.pc.newsplit < s.pc.split
    ensures Possible(s, Owners(2)) && After(s, Owners(2)) == s.(ownSplit := s.split, pc := SyncGrowTest)
  {
    hide Popped, RunByOwner;
    First(NextOwner(s), Owner, Owners(0));
    First(s, Owner, Owners(1));
  }

  lemma ShrinkFails(s: State)
    requires s.pc.ShrinkCheck? && s.head < |s.slots| && s.tail == s.pc.split
    ensures Possible(s, Owners(3))
    ensures After(s, Owners(3)) == s.(allStolen := true, ownAllStolen := true, pc := LeapStart)
  {
    hide Popped, RunByOwner;
    First(NextOwner(NextOwner(s)), Owner, Owners(0));
    First(NextOwner(s), Owner, Owners(1));
    First(s, Owner, Owners(2));
  }

  lemma ShrinkFixes(s: State)
    requires s.pc.ShrinkCheck? && s.head < |s.slots| && s.pc.newsplit < s.tail < s.pc.split
    ensures Possible(s, Owners(3))
    ensures var t := After(s, Owners(3));
      && t == s.(split := t.split, ownSplit := t.split, pc := SyncGrowTest)
      && t.split < s.pc.split && Middle(s.tail, t.split, s.pc.split, false)
  {
    hide NextOwner;
    var m := FixSteps(s);
    First(NextOwner(NextOwner(s)), Owner, Owners(0));
    First(NextOwner(s), Owner, Owners(1));
    First(s, Owner, Owners(2));
  }

  lemma FixSteps(s: State) returns (m: nat)
    requires s.pc.ShrinkCheck? && s.head < |s.slots| && s.pc.newsplit < s.tail < s.pc.split
    ensures m < s.pc.split && Middle(s.tail, m, s.pc.split, false)
    ensures NextOwner(s) == s.(pc := ShrinkFix(m)) && NextOwner(NextOwner(s)) == s.(split := m, pc := ShrinkPrivate(m))
    ensures NextOwner(NextOwner(NextOwner(s))) == s.(split := m, ownSplit := m, pc := SyncGrowTest)
  {
    hide Popped, RunByOwner;
    m := (s.tail + s.pc.split) / 2;
  }

  /** Stealing elsewhere while a sync waits puts the application on a floor of its own; back on that floor, the sync
      waits on where it was, and not before. */
  lemma NestReturns(s: State)
    requires Enabled(s, Nest)
    ensures var t := Next(s, Nest);
      && t.pc.Work? && t.head == Floor(t) && !Enabled(t, Sync) && Enabled(t, Resume) && Next(t, Resume) == s
  {
    assert Next(s, Nest).frames[..|s.frames|] == s.frames;
  }

  // ---------------------------------------------------------------------------------------------------------
  // No dead ends
  // ---------------------------------------------------------------------------------------------------------

  /** How far the owner is from the end of what it is doing, per slot. */
  function Distance(pc: OwnerPc): nat {
    match pc
    case SpawnClear => 24
    case SpawnReset => 23
    case SpawnPublish => 22
    case SpawnPrivate => 21
    case GrowShared(_) => 23
    case GrowPrivate(_) => 22
    case GrowDone => 21
    case Work => 20
    case SyncSlow => 14
    case ShrinkRead => 13
    case ShrinkWrite(_, _) => 12
    case ShrinkCheck(_, _) => 11
    case ShrinkFix(_) => 10
    case ShrinkPrivate(_) => 9
    case StolenPublic => 9
    case StolenPrivate => 8
    case SyncGrowTest => 8
    case SyncGrowShared(_) => 7
    case SyncGrowDone => 6
    case SyncPop => 5
    case LeapStart => 7
    case LeapWait => 6
    case Leaping => 4
    case LeapPublic => 3
    case LeapPrivate => 2
    case LeapPop => 1
  }

  predicate Done(s: State) {
    s.pc.Work? && s.head == 0
  }

  /** Fewer live slots, or the owner is closer to the end of what it does with the top one. */
  predicate Closer(t: State, s: State) {
    Live(t) < Live(s) || (Live(t) == Live(s) && Distance(t.pc) < Distance(s.pc))
  }

  lemma WorkAdvances(s: State)
    requires Inv(s) && s.pc.Work? && s.head > 0
    ensures var e := if s.head > Floor(s) then Sync else Resume;
      Enabled(s, e) && Closer(Next(s, e), s) && Next(s, e).runs == s.runs
  {
    assert s.head >= Floor(s) by { hide Data, Indices; }
    hide Data, Indices;
  }

  lemma OwnerAdvances(s: State)
    requires !s.pc.Work? && s.head < |s.slots| && (Waiting(s) ==> Finished(s))
    ensures Enabled(s, Owner) && Closer(NextOwner(s), s) && |NextOwner(s).runs| == |s.runs|
  {
    hide Distance, Closer, NextOwner, Finished;
    match s.pc {
      case SyncPop => PopAdvances(s);
      case LeapPop => PopAdvances(s);
      case LeapStart => LeapAdvances(s);
      case LeapWait => LeapAdvances(s);
      case Leaping => LeapAdvances(s);
      case SpawnClear => SpawnAdvances(s);
      case SpawnReset => SpawnAdvances(s);
      case SpawnPublish => SpawnAdvances(s);
      case SpawnPrivate => SpawnAdvances(s);
      case GrowShared(_) => SpawnAdvances(s);
      case GrowPrivate(_) => SpawnAdvances(s);
      case GrowDone => SpawnAdvances(s);
      case _ => SyncAdvances(s);
    }
  }

  lemma PopAdvances(s: State)
    requires s.pc.SyncPop? || s.pc.LeapPop?
    requires s.head < |s.slots|
    ensures Closer(NextOwner(s), s) && |NextOwner(s).runs| == |s.runs|
  {
    hide Distance;
    assert NextOwner(s) == Popped(if s.pc.SyncPop? then RunByOwner(s) else s);
  }

  lemma LeapAdvances(s: State)
    requires Waiting(s) && Finished(s)
    ensures Closer(NextOwner(s), s) && |NextOwner(s).runs| == |s.runs|
  {
    hide Popped, RunByOwner;
  }

  lemma SpawnAdvances(s: State)
    requires s.pc.SpawnClear? || s.pc.SpawnReset? || s.pc.SpawnPublish? || s.pc.SpawnPrivate? || s.pc.GrowShared? ||
      s.pc.GrowPrivate? || s.pc.GrowDone?
    requires s.head < |s.slots|
    ensures Closer(NextOwner(s), s) && |NextOwner(s).runs| == |s.runs|
  {
    hide Popped, RunByOwner;
  }

  lemma SyncAdvances(s: State)
    requires s.pc.SyncSlow? || s.pc.ShrinkRead? || s.pc.ShrinkWrite? || s.pc.ShrinkCheck? || s.pc.ShrinkFix? ||
      s.pc.ShrinkPrivate? || s.pc.StolenPublic? || s.pc.StolenPrivate? || s.pc.SyncGrowTest? || s.pc.SyncGrowShared? ||
      s.pc.SyncGrowDone? || s.pc.LeapPublic? || s.pc.LeapPrivate?
    requires s.head < |s.slots|
    ensures Closer(NextOwner(s), s) && |NextOwner(s).runs| == |s.runs|
  {
    hide Popped, RunByOwner;
  }

  /** What is to happen next: a waiting owner needs its thief to finish first. */
  lemma Advance(s: State) returns (es: seq<Event>)
    requires Inv(s) && !Done(s)
    ensures Possible(s, es) && |After(s, es).runs| == |s.runs| && Closer(After(s, es), s)
  {
    if s.pc.Work? {
      var e := if s.head > Floor(s) then Sync else Resume;
      WorkAdvances(s);
      First(s, e, []);
      es := [e] + [];
    } else if Waiting(s) {
      var fs := WaitCanEnd(s);
      var t := After(s, fs);
      RunInv(s, fs);
      OwnerAdvances(t);
      First(t, Owner, []);
      Append(s, fs, [Owner] + []);
      es := fs + ([Owner] + []);
    } else {
      OwnerAdvances(s);
      First(s, Owner, []);
      es := [Owner] + [];
    }
  }

  /** Every reached state can be continued until everything that was spawned has been synced: nobody is ever stuck, and
      then every task has been run exactly once. */
  lemma RunsCanEnd(size: nat, thieves: nat, es: seq<Event>) returns (fs: seq<Event>)
    requires Possible(Initial(size, thieves), es)
    ensures var s := Reached(size, thieves, es);
      && Possible(s, fs) && Possible(Initial(size, thieves), es + fs)
      && var t := Reached(size, thieves, es + fs);
      && t == After(s, fs) && Done(t) && t.frames == [] && |t.runs| == |s.runs| == |t.done|
      && forall x :: 0 <= x < |t.runs| ==> t.runs[x] == 1 && t.done[x]
  {
    hide Inv, Possible, After, Initial, Done;
    var s := Reached(size, thieves, es);
    ReachedInv(size, thieves, es);
    fs := Drain(s);
    Append(Initial(size, thieves), es, fs);
    RunInv(s, fs);
    AllRun(After(s, fs));
  }

  lemma FrameBelow(s: State, j: nat)
    requires Frames(s) && j < |s.frames|
    ensures s.frames[j] < s.head
  {
  }

  lemma AllRun(s: State)
    requires Inv(s) && Done(s)
    ensures s.frames == [] && |s.runs| == |s.done|
    ensures forall x :: 0 <= x < |s.runs| ==> s.runs[x] == 1 && s.done[x]
  {
    hide Indices, Frames;
    if |s.frames| > 0 {
      FrameBelow(s, 0);
      assert false;
    }
    forall x: nat | x < |s.runs| ensures s.runs[x] == 1 && s.done[x] {
      assert TaskOk(Live(s), s.slots, s.runs, s.done, s.home, x);
    }
  }

  lemma Drain(s: State) returns (es: seq<Event>)
    requires Inv(s)
    ensures Possible(s, es) && Done(After(s, es)) && |After(s, es).runs| == |s.runs|
    decreases Live(s), Distance(s.pc)
  {
    hide Inv, Distance, Live, Done, Next, Enabled;
    es := [];
    if !Done(s) {
      var first := Advance(s);
      RunInv(s, first);
      var rest := Drain(After(s, first));
      Append(s, first, rest);
      es := first + rest;
    }
  }
}
