/** Lace's split deque: one owner and any number of thieves, in atomic steps.

    Thieves take tasks at the tail by compare-and-swap on the packed word (tail, split); the owner keeps the tasks from
    the split on for itself and moves the split with plain stores. */
module SplitDeque {

  /** The `thief` field of a task. */
  datatype Mark = Empty | Task | By(k: nat) | Completed

  /** A slot of the deque: its `thief` field, and, for the proof, the task it holds and the thief that claimed it. */
  datatype Slot = Slot(mark: Mark, task: nat, taker: nat)

  /** Where the owner is. `Work` runs application code; in all other states `head` is the slot that is being spawned or
      synced. The names in brackets are those of the values it has read or computed. */
  datatype OwnerPc =
    | Work
    | SpawnClear | SpawnReset | SpawnPublish | SpawnPrivate
    | GrowShared(newsplit: nat) | GrowPrivate(newsplit: nat) | GrowDone
    | SyncSlow
    | ShrinkRead | ShrinkWrite(tail: nat, split: nat) | ShrinkCheck(split: nat, newsplit: nat)
    | ShrinkFix(newsplit: nat) | ShrinkPrivate(newsplit: nat) | StolenPublic | StolenPrivate
    | SyncGrowTest | SyncGrowShared(diff: nat) | SyncGrowDone | SyncPop
    | LeapStart | LeapWait | Leaping | LeapPublic | LeapPrivate | LeapPop

  datatype ThiefPc =
    | Idle | Peeked | Requesting
    | Aiming(tail: nat, split: nat)
    | Won(slot: nat) | Marked(slot: nat) | Running(slot: nat) | Finishing(slot: nat)

  datatype State = State(
    // shared with the thieves
    tail: nat, split: nat, allStolen: bool, moveSplit: bool, slots: seq<Slot>,
    // the owner's
    ownSplit: nat, ownAllStolen: bool, head: nat, frames: seq<nat>, pc: OwnerPc,
    thieves: seq<ThiefPc>,
    // history: the slots claimed by thieves, and for each task how often it was started, whether it is done, and its slot
    claimed: nat, runs: seq<nat>, done: seq<bool>, home: seq<int>)

  /** What happens next: the application spawns, syncs or returns to a waiting sync; the owner continues; the owner
      steals elsewhere while it waits; or thief `k` continues. */
  datatype Event = Spawn | Sync | Resume | Owner | Nest | Thief(k: nat)

  ghost function Initial(size: nat, thieves: nat): State {
    State(0, 0, false, false, seq(size, _ => Slot(Empty, 0, 0)), 0, false, 0, [], Work,
          seq(thieves, _ => Idle), 0, [], [], [])
  }

  /** The number of slots that hold a task. */
  function Live(s: State): nat {
    if s.pc.Work? then s.head else s.head + 1
  }

  /** Application code may sync what it has spawned itself, not what lies below a waiting sync. */
  function Floor(s: State): nat {
    if s.frames == [] then 0 else s.frames[|s.frames| - 1] + 1
  }

  predicate Enabled(s: State, e: Event) {
    match e
    case Spawn => s.pc.Work? && s.head < |s.slots|
    case Sync => s.pc.Work? && s.head > Floor(s)
    case Resume => s.pc.Work? && s.frames != [] && s.head == Floor(s)
    case Owner => !s.pc.Work? && s.head < |s.slots|
    case Nest => s.pc.Leaping?
    case Thief(k) => k < |s.thieves|
  }

  function Next(s: State, e: Event): State
    requires Enabled(s, e)
  {
    match e
    case Spawn => NextSpawn(s)
    case Sync => NextSync(s)
    case Resume => s.(frames := s.frames[..|s.frames| - 1], head := s.head - 1, pc := Leaping)
    case Owner => NextOwner(s)
    case Nest => s.(frames := s.frames + [s.head], head := s.head + 1, pc := Work)
    case Thief(k) => NextThief(s, k)
  }

  /** Write the task into its slot, and look at the flags. */
  function NextSpawn(s: State): State
    requires s.head < |s.slots|
  {
    s.(slots := s.slots[s.head := Slot(Task, |s.runs|, 0)],
       runs := s.runs + [0], done := s.done + [false], home := s.home + [s.head],
       pc := if s.ownAllStolen then SpawnClear
             else if s.moveSplit then GrowShared((s.ownSplit + s.head + 2) / 2)
             else Work,
       head := if s.ownAllStolen || s.moveSplit then s.head else s.head + 1)
  }

  /** The fast path is taken when no thief has asked for work and the slot is private. */
  function NextSync(s: State): State
    requires s.head > 0
  {
    s.(head := s.head - 1, pc := if !s.moveSplit && s.ownSplit <= s.head - 1 then SyncPop else SyncSlow)
  }

  /** The task of the slot leaves the deque. */
  function Popped(s: State): State
    requires s.head < |s.slots|
  {
    s.(slots := s.slots[s.head := s.slots[s.head].(mark := Empty)],
       home := if s.slots[s.head].task < |s.home| then s.home[s.slots[s.head].task := -1] else s.home,
       claimed := if s.claimed < s.head then s.claimed else s.head,
       pc := Work)
  }

  /** The owner starts the task of the slot itself. */
  function RunByOwner(s: State): State
    requires s.head < |s.slots|
  {
    var t := s.slots[s.head].task;
    if t < |s.runs| && t < |s.done| then s.(runs := s.runs[t := s.runs[t] + 1], done := s.done[t := true]) else s
  }

  function NextOwner(s: State): State
    requires s.head < |s.slots|
  {
    match s.pc
    case Work => s
    // SPAWN
    case SpawnClear => s.(moveSplit := false, pc := SpawnReset)
    case SpawnReset => s.(tail := s.head, split := s.head + 1, pc := SpawnPublish)
    case SpawnPublish => s.(allStolen := false, pc := SpawnPrivate)
    case SpawnPrivate => s.(ownSplit := s.head + 1, ownAllStolen := false, head := s.head + 1, pc := Work)
    case GrowShared(newsplit) => s.(split := newsplit, pc := GrowPrivate(newsplit))
    case GrowPrivate(newsplit) => s.(ownSplit := newsplit, pc := GrowDone)
    case GrowDone => s.(moveSplit := false, head := s.head + 1, pc := Work)
    // SYNC_SLOW
    case SyncSlow =>
      s.(pc := if s.ownAllStolen then LeapStart else if s.ownSplit > s.head then ShrinkRead else SyncGrowTest)
    case ShrinkRead => s.(pc := if s.tail != s.split then ShrinkWrite(s.tail, s.split) else StolenPublic)
    case ShrinkWrite(tail, split) => s.(split := (tail + split) / 2, pc := ShrinkCheck(split, (tail + split) / 2))
    case ShrinkCheck(split, newsplit) =>
      s.(pc := if s.tail == split then StolenPublic
               else if s.tail > newsplit then ShrinkFix((s.tail + split) / 2)
               else ShrinkPrivate(newsplit))
    case ShrinkFix(newsplit) => s.(split := newsplit, pc := ShrinkPrivate(newsplit))
    case ShrinkPrivate(newsplit) => s.(ownSplit := newsplit, pc := SyncGrowTest)
    case StolenPublic => s.(allStolen := true, pc := StolenPrivate)
    case StolenPrivate => s.(ownAllStolen := true, pc := LeapStart)
    case SyncGrowTest =>
      if s.moveSplit && s.ownSplit <= s.head then
        var diff := (s.head - s.ownSplit + 1) / 2;
        s.(ownSplit := s.ownSplit + diff, pc := SyncGrowShared(diff))
      else s.(pc := SyncPop)
    case SyncGrowShared(diff) => s.(split := s.split + diff, pc := SyncGrowDone)
    case SyncGrowDone => s.(moveSplit := false, pc := SyncPop)
    case SyncPop => Popped(RunByOwner(s))
    // lace_leapfrog
    case LeapStart => s.(pc := if s.slots[s.head].mark.Completed? then LeapPop else LeapWait)
    case LeapWait => if s.slots[s.head].mark.Empty? || s.slots[s.head].mark.Task? then s else s.(pc := Leaping)
    case Leaping =>
      if !s.slots[s.head].mark.Completed? then s
      else s.(pc := if s.ownAllStolen then LeapPop else LeapPublic)
    case LeapPublic => s.(allStolen := true, pc := LeapPrivate)
    case LeapPrivate => s.(ownAllStolen := true, pc := LeapPop)
    case LeapPop => Popped(s)
  }

  function At(t: ThiefPc): int {
    match t
    case Won(i) => i
    case Marked(i) => i
    case Running(i) => i
    case Finishing(i) => i
    case _ => -1
  }

  function NextThief(s: State, k: nat): State
    requires k < |s.thieves|
  {
    match s.thieves[k]
    case Idle => if s.allStolen then s else s.(thieves := s.thieves[k := Peeked])
    case Peeked =>
      s.(thieves := s.thieves[k := if s.tail < s.split then Aiming(s.tail, s.split) else Requesting])
    case Requesting => s.(moveSplit := true, thieves := s.thieves[k := Idle])
    case Aiming(tail, split) =>
      // compare-and-swap
      if s.tail == tail && s.split == split && tail < |s.slots| then
        s.(tail := tail + 1, claimed := tail + 1, slots := s.slots[tail := s.slots[tail].(taker := k)],
           thieves := s.thieves[k := Won(tail)])
      else s.(thieves := s.thieves[k := Idle])
    case Won(i) =>
      if i < |s.slots| then
        s.(slots := s.slots[i := s.slots[i].(mark := By(k))], thieves := s.thieves[k := Marked(i)])
      else s
    case Marked(i) =>
      if i < |s.slots| && s.slots[i].task < |s.runs| then
        s.(runs := s.runs[s.slots[i].task := s.runs[s.slots[i].task] + 1], thieves := s.thieves[k := Running(i)])
      else s
    case Running(i) =>
      if i < |s.slots| && s.slots[i].task < |s.done| then
        s.(done := s.done[s.slots[i].task := true], thieves := s.thieves[k := Finishing(i)])
      else s
    case Finishing(i) =>
      if i < |s.slots| then
        s.(slots := s.slots[i := s.slots[i].(mark := Completed)], thieves := s.thieves[k := Idle])
      else s
  }

  // ---------------------------------------------------------------------------------------------------------
  // The invariant
  // ---------------------------------------------------------------------------------------------------------

  /** The state of a thief that works on slot `i` agrees with the slot and with the history of its task. */
  ghost predicate Agrees(t: ThiefPc, k: nat, slot: Slot, runs: seq<nat>, done: seq<bool>)
    requires slot.task < |runs| == |done|
  {
    match t
    case Won(_) => slot.mark == Task && runs[slot.task] == 0 && !done[slot.task]
    case Marked(_) => slot.mark == By(k) && runs[slot.task] == 0 && !done[slot.task]
    case Running(_) => slot.mark == By(k) && runs[slot.task] == 1 && !done[slot.task]
    case Finishing(_) => slot.mark == By(k) && runs[slot.task] == 1 && done[slot.task]
    case _ => true
  }

  /** The claimed slot `i` is finished, or the thief that claimed it is at work on it. */
  ghost predicate Taken(slots: seq<Slot>, thieves: seq<ThiefPc>, runs: seq<nat>, done: seq<bool>, i: nat)
    requires i < |slots| && slots[i].task < |runs| == |done|
  {
    || (slots[i].mark == Completed && runs[slots[i].task] == 1 && done[slots[i].task])
    || (slots[i].taker < |thieves| && At(thieves[slots[i].taker]) == i)
  }

  ghost predicate Fresh(slots: seq<Slot>, runs: seq<nat>, done: seq<bool>, i: nat)
    requires i < |slots| && slots[i].task < |runs| == |done|
  {
    slots[i].mark == Task && runs[slots[i].task] == 0 && !done[slots[i].task]
  }

  ghost predicate SlotOk(claimed: nat, slots: seq<Slot>, thieves: seq<ThiefPc>, runs: seq<nat>, done: seq<bool>, home: seq<int>, i: nat)
    requires i < |slots|
  {
    && slots[i].task < |runs| == |done| == |home| && home[slots[i].task] == i
    && (if i < claimed then Taken(slots, thieves, runs, done, i) else Fresh(slots, runs, done, i))
  }

  ghost predicate ThiefOk(claimed: nat, slots: seq<Slot>, thieves: seq<ThiefPc>, runs: seq<nat>, done: seq<bool>, k: nat)
    requires k < |thieves|
  {
    && (thieves[k].Aiming? ==> thieves[k].tail < thieves[k].split)
    && (At(thieves[k]) >= 0 ==>
          var i := At(thieves[k]);
          && i < claimed && i < |slots| && slots[i].taker == k && slots[i].task < |runs| == |done|
          && Agrees(thieves[k], k, slots[i], runs, done))
  }

  ghost predicate TaskOk(live: nat, slots: seq<Slot>, runs: seq<nat>, done: seq<bool>, home: seq<int>, t: nat)
    requires t < |home| == |runs| == |done|
  {
    || (home[t] == -1 && runs[t] == 1 && done[t])
    || (0 <= home[t] < live && home[t] < |slots| && slots[home[t]].task == t)
  }

  /** Every live slot is claimed by one thief or still untouched, and every task is in a live slot or has been run. */
  ghost predicate Data(live: nat, claimed: nat, slots: seq<Slot>, thieves: seq<ThiefPc>, runs: seq<nat>, done: seq<bool>, home: seq<int>) {
    && claimed <= live <= |slots|
    && |runs| == |done| == |home|
    && (forall i :: 0 <= i < live ==> SlotOk(claimed, slots, thieves, runs, done, home, i))
    && (forall k :: 0 <= k < |thieves| ==> ThiefOk(claimed, slots, thieves, runs, done, k))
    && (forall t :: 0 <= t < |home| ==> TaskOk(live, slots, runs, done, home, t))
  }

  /** Between operations: nothing left to steal or split off, or the owner's view of the split is exact. */
  ghost predicate Settled(s: State, live: nat) {
    if s.ownAllStolen then
      s.claimed == live && s.tail >= s.split && s.ownSplit >= live
    else
      s.ownSplit == s.split && s.tail <= s.split <= live && s.claimed == s.tail
  }

  /** Slot `head` is private to the owner. */
  ghost predicate Private(s: State) {
    !s.ownAllStolen && s.ownSplit == s.split && s.tail <= s.split <= s.head && s.claimed == s.tail
  }

  ghost predicate Everything(s: State) {
    s.claimed == s.head + 1 && s.tail >= s.split && s.ownSplit >= s.head + 1
  }

  ghost predicate Finished(s: State) {
    s.head < |s.slots| && s.slots[s.head].mark == Completed
  }

  /** What the indices are at each point of the owner's code. */
  ghost predicate Indices(s: State) {
    var h := s.head;
    match s.pc
    case Work => Settled(s, h)
    case SpawnClear => s.ownAllStolen && Settled(s, h)
    case SpawnReset => s.ownAllStolen && Settled(s, h)
    case SpawnPublish => s.split == h + 1 && h <= s.tail <= h + 1 && s.claimed == s.tail
    case SpawnPrivate => s.split == h + 1 && h <= s.tail <= h + 1 && s.claimed == s.tail
    case GrowShared(n) => !s.ownAllStolen && Settled(s, h) && s.split <= n <= h + 1
    case GrowPrivate(n) => !s.ownAllStolen && s.split == n <= h + 1 && s.tail <= n && s.claimed == s.tail
    case GrowDone => !s.ownAllStolen && Settled(s, h + 1)
    case SyncSlow => Settled(s, h + 1)
    case ShrinkRead => !s.ownAllStolen && Settled(s, h + 1) && s.split == h + 1
    case ShrinkWrite(t, n) => !s.ownAllStolen && Settled(s, h + 1) && n == s.split == h + 1 && t <= s.tail && t < n
    case ShrinkCheck(n, m) =>
      !s.ownAllStolen && s.ownSplit == n == h + 1 && s.split == m < n && s.tail <= n && s.claimed == s.tail
    case ShrinkFix(m) =>
      !s.ownAllStolen && s.ownSplit == h + 1 && s.split < s.tail <= m <= h && s.claimed == s.tail
    case ShrinkPrivate(m) => !s.ownAllStolen && s.split == m && s.tail <= m <= h && s.claimed == s.tail
    case StolenPublic => Everything(s)
    case StolenPrivate => Everything(s)
    case SyncGrowTest => Private(s)
    case SyncGrowShared(d) =>
      !s.ownAllStolen && s.ownSplit == s.split + d <= h && s.tail <= s.split && s.claimed == s.tail
    case SyncGrowDone => Private(s)
    case SyncPop => Private(s)
    case LeapStart => s.ownAllStolen && Everything(s)
    case LeapWait => s.ownAllStolen && Everything(s)
    case Leaping => Settled(s, h + 1) && s.claimed == h + 1
    case LeapPublic => Everything(s) && Finished(s)
    case LeapPrivate => Everything(s) && Finished(s)
    case LeapPop => s.ownAllStolen && Everything(s) && Finished(s)
  }

  /** The waiting syncs wait for claimed slots, in order. */
  ghost predicate Frames(s: State) {
    && (forall j, k :: 0 <= j < k < |s.frames| ==> s.frames[j] < s.frames[k])
    && (forall j :: 0 <= j < |s.frames| ==> s.frames[j] < s.claimed && s.frames[j] < s.head)
  }

  ghost predicate Inv(s: State) {
    && Data(Live(s), s.claimed, s.slots, s.thieves, s.runs, s.done, s.home)
    && (!s.pc.Work? ==> s.head < |s.slots|)
    && Indices(s)
    && Frames(s)
  }

  // ---------------------------------------------------------------------------------------------------------
  // Every step keeps it
  // ---------------------------------------------------------------------------------------------------------

  lemma InitialInv(size: nat, thieves: nat)
    ensures Inv(Initial(size, thieves))
  {
  }

  lemma SpawnInv(s: State)
    requires Inv(s) && Enabled(s, Spawn)
    ensures Inv(NextSpawn(s))
  {
    var t := NextSpawn(s);
    SpawnData(s);
    hide Data;
    assert Indices(t) && Frames(t);
  }

  lemma SpawnData(s: State)
    requires Data(s.head, s.claimed, s.slots, s.thieves, s.runs, s.done, s.home) && s.head < |s.slots|
    ensures var t := NextSpawn(s);
      Data(s.head + 1, t.claimed, t.slots, t.thieves, t.runs, t.done, t.home)
  {
    var t := NextSpawn(s);
    forall i | 0 <= i < s.head + 1 ensures SlotOk(t.claimed, t.slots, t.thieves, t.runs, t.done, t.home, i) {
      if i < s.head { assert SlotOk(s.claimed, s.slots, s.thieves, s.runs, s.done, s.home, i); }
    }
    forall k | 0 <= k < |t.thieves| ensures ThiefOk(t.claimed, t.slots, t.thieves, t.runs, t.done, k) {
      assert ThiefOk(s.claimed, s.slots, s.thieves, s.runs, s.done, k);
    }
    var live := s.head + 1;
    forall x: nat | x < |t.home| ensures TaskOk(live, t.slots, t.runs, t.done, t.home, x) {
      if x < |s.home| { assert TaskOk(s.head, s.slots, s.runs, s.done, s.home, x); }
    }
  }

  lemma Fits(live: nat, claimed: nat, slots: seq<Slot>, thieves: seq<ThiefPc>, runs: seq<nat>, done: seq<bool>, home: seq<int>)
    requires Data(live, claimed, slots, thieves, runs, done, home)
    ensures claimed <= live <= |slots|
  {
  }

  lemma ApplicationInv(s: State, e: Event)
    requires Inv(s) && Enabled(s, e) && (e.Sync? || e.Resume? || e.Nest?)
    ensures Inv(Next(s, e))
  {
    hide Data;
    Fits(Live(s), s.claimed, s.slots, s.thieves, s.runs, s.done, s.home);
  }

  /** The owner's stores move the split, never past what thieves have claimed. */
  lemma OwnerInv(s: State)
    requires Inv(s) && Enabled(s, Owner)
    ensures Inv(NextOwner(s))
  {
    hide Data, SlotOk, ThiefOk, TaskOk;
    match s.pc {
      case SyncPop => PopOwn(s);
      case LeapPop => PopFinished(s);
      case ShrinkWrite(_, _) => ShrinkInv(s);
      case ShrinkCheck(_, _) => ShrinkInv(s);
      case ShrinkFix(_) => ShrinkInv(s);
      case SyncGrowTest => GrowInv(s);
      case LeapStart => LeapInv(s);
      case LeapWait => LeapInv(s);
      case Leaping => LeapInv(s);
      case SpawnClear => SpawnStoreInv(s);
      case SpawnReset => SpawnStoreInv(s);
      case SpawnPublish => SpawnStoreInv(s);
      case SpawnPrivate => SpawnStoreInv(s);
      case GrowShared(_) => SpawnStoreInv(s);
      case GrowPrivate(_) => SpawnStoreInv(s);
      case GrowDone => SpawnStoreInv(s);
      case _ => SyncStoreInv(s);
    }
  }

  lemma SpawnStoreInv(s: State)
    requires Inv(s) && s.head < |s.slots|
    requires s.pc.SpawnClear? || s.pc.SpawnReset? || s.pc.SpawnPublish? || s.pc.SpawnPrivate? || s.pc.GrowShared? ||
      s.pc.GrowPrivate? || s.pc.GrowDone?
    ensures Inv(NextOwner(s))
  {
    hide Data;
  }

  lemma SyncStoreInv(s: State)
    requires Inv(s) && s.head < |s.slots|
    requires s.pc.SyncSlow? || s.pc.ShrinkRead? || s.pc.ShrinkPrivate? || s.pc.StolenPublic? || s.pc.StolenPrivate? ||
      s.pc.SyncGrowShared? || s.pc.SyncGrowDone? || s.pc.LeapPublic? || s.pc.LeapPrivate?
    ensures Inv(NextOwner(s))
  {
    hide Data;
  }

  lemma ShrinkInv(s: State)
    requires Inv(s) && (s.pc.ShrinkWrite? || s.pc.ShrinkCheck? || s.pc.ShrinkFix?)
    ensures Inv(NextOwner(s))
  {
    hide Data;
  }

  lemma GrowInv(s: State)
    requires Inv(s) && s.pc.SyncGrowTest?
    ensures Inv(NextOwner(s))
  {
    hide Data;
  }

  lemma LeapInv(s: State)
    requires Inv(s) && (s.pc.LeapStart? || s.pc.LeapWait? || s.pc.Leaping?)
    ensures Inv(NextOwner(s))
  {
    hide Data;
  }

  /** A private slot is taken off: its task has not been started by anybody, and now the owner runs it. */
  lemma PopOwn(s: State)
    requires Inv(s) && s.pc.SyncPop?
    ensures Inv(NextOwner(s))
  {
    hide Indices, Frames;
    PopOwnData(s);
    PopOwnIndices(s);
  }

  lemma PopOwnData(s: State)
    requires Inv(s) && s.pc.SyncPop?
    ensures var t := NextOwner(s);
      Data(s.head, t.claimed, t.slots, t.thieves, t.runs, t.done, t.home)
  {
    var t := NextOwner(s);
    assert s.claimed <= s.head by { hide Data; assert Private(s); }
    hide Indices, Frames;
    assert SlotOk(s.claimed, s.slots, s.thieves, s.runs, s.done, s.home, s.head);
    forall i | 0 <= i < s.head ensures SlotOk(t.claimed, t.slots, t.thieves, t.runs, t.done, t.home, i) {
      assert SlotOk(s.claimed, s.slots, s.thieves, s.runs, s.done, s.home, i);
    }
    forall k | 0 <= k < |t.thieves| ensures ThiefOk(t.claimed, t.slots, t.thieves, t.runs, t.done, k) {
      assert ThiefOk(s.claimed, s.slots, s.thieves, s.runs, s.done, k);
      if At(s.thieves[k]) >= 0 { assert SlotOk(s.claimed, s.slots, s.thieves, s.runs, s.done, s.home, At(s.thieves[k])); }
    }
    forall x | 0 <= x < |t.home| ensures TaskOk(s.head, t.slots, t.runs, t.done, t.home, x) {
      assert TaskOk(s.head + 1, s.slots, s.runs, s.done, s.home, x);
    }
  }

  lemma PopOwnIndices(s: State)
    requires Inv(s) && s.pc.SyncPop?
    ensures Indices(NextOwner(s)) && Frames(NextOwner(s))
  {
    assert SlotOk(s.claimed, s.slots, s.thieves, s.runs, s.done, s.home, s.head);
    hide Data, SlotOk;
  }

  /** A stolen slot is taken off: its task has been run once, by the thief, and is done. */
  lemma PopFinished(s: State)
    requires Inv(s) && s.pc.LeapPop?
    ensures Inv(NextOwner(s))
  {
    hide Indices, Frames;
    PopFinishedData(s);
    PopFinishedIndices(s);
  }

  lemma PopFinishedData(s: State)
    requires Inv(s) && s.pc.LeapPop?
    ensures var t := NextOwner(s);
      Data(s.head, t.claimed, t.slots, t.thieves, t.runs, t.done, t.home)
  {
    var t := NextOwner(s);
    assert s.claimed == s.head + 1 && Finished(s) by { hide Data; }
    hide Indices, Frames;
    assert SlotOk(s.claimed, s.slots, s.thieves, s.runs, s.done, s.home, s.head);
    forall i | 0 <= i < s.head ensures SlotOk(t.claimed, t.slots, t.thieves, t.runs, t.done, t.home, i) {
      assert SlotOk(s.claimed, s.slots, s.thieves, s.runs, s.done, s.home, i);
    }
    if s.slots[s.head].taker < |s.thieves| { assert ThiefOk(s.claimed, s.slots, s.thieves, s.runs, s.done, s.slots[s.head].taker); }
    forall k | 0 <= k < |t.thieves| ensures ThiefOk(t.claimed, t.slots, t.thieves, t.runs, t.done, k) {
      assert ThiefOk(s.claimed, s.slots, s.thieves, s.runs, s.done, k);
    }
    forall x | 0 <= x < |t.home| ensures TaskOk(s.head, t.slots, t.runs, t.done, t.home, x) {
      assert TaskOk(s.head + 1, s.slots, s.runs, s.done, s.home, x);
    }
  }

  lemma PopFinishedIndices(s: State)
    requires Inv(s) && s.pc.LeapPop?
    ensures Indices(NextOwner(s)) && Frames(NextOwner(s))
  {
    hide Data;
  }

  /** Thieves only advance the tail over slots that are live, unclaimed and shared. */
  lemma ThiefInv(s: State, k: nat)
    requires Inv(s) && k < |s.thieves|
    ensures Inv(NextThief(s, k))
  {
    hide Indices, Frames;
    ThiefData(s, k);
    ThiefIndices(s, k);
  }

  lemma Stealable(s: State)
    requires Inv(s) && s.tail < s.split
    ensures s.claimed == s.tail && s.split <= Live(s) <= |s.slots|
  {
  }

  lemma ThiefIndices(s: State, k: nat)
    requires Inv(s) && k < |s.thieves|
    ensures Indices(NextThief(s, k)) && Frames(NextThief(s, k)) && Live(NextThief(s, k)) == Live(s)
  {
    assert ThiefOk(s.claimed, s.slots, s.thieves, s.runs, s.done, k);
    if s.thieves[k].Aiming? && s.tail == s.thieves[k].tail && s.split == s.thieves[k].split {
      Stealable(s);
      ClaimIndices(s, k);
    } else {
      ThiefFrame(s, k);
      hide Data, Indices, SlotOk, TaskOk, ThiefOk, NextThief, Finished;
      IndicesKept(s, NextThief(s, k));
    }
  }

  /** Short of a claim, a thief changes no index, and no finished slot. */
  lemma ThiefFrame(s: State, k: nat)
    requires k < |s.thieves| && ThiefOk(s.claimed, s.slots, s.thieves, s.runs, s.done, k)
    requires s.thieves[k].Aiming? ==> s.tail != s.thieves[k].tail || s.split != s.thieves[k].split
    ensures var t := NextThief(s, k);
      && t == s.(slots := t.slots, thieves := t.thieves, runs := t.runs, done := t.done, moveSplit := t.moveSplit)
      && (Finished(s) ==> Finished(t))
  {
  }

  /** The indices do not depend on what thieves do with claimed slots. */
  lemma IndicesKept(s: State, t: State)
    requires Indices(s) && (Finished(s) ==> Finished(t))
    requires t == s.(slots := t.slots, thieves := t.thieves, runs := t.runs, done := t.done, moveSplit := t.moveSplit)
    ensures Indices(t)
  {
  }

  lemma ThiefData(s: State, k: nat)
    requires Inv(s) && k < |s.thieves|
    ensures var t := NextThief(s, k);
      Data(Live(s), t.claimed, t.slots, t.thieves, t.runs, t.done, t.home)
  {
    assert ThiefOk(s.claimed, s.slots, s.thieves, s.runs, s.done, k);
    if s.thieves[k].Aiming? && s.tail == s.thieves[k].tail && s.split == s.thieves[k].split {
      Stealable(s);
      Claim(s, k);
    } else if At(s.thieves[k]) >= 0 {
      WorkOn(s, k);
    } else {
      Elsewhere(s, k);
    }
  }

  lemma Elsewhere(s: State, k: nat)
    requires Inv(s) && k < |s.thieves| && At(s.thieves[k]) < 0
    requires s.thieves[k].Aiming? ==> s.tail != s.thieves[k].tail || s.split != s.thieves[k].split
    ensures var t := NextThief(s, k);
      Data(Live(s), t.claimed, t.slots, t.thieves, t.runs, t.done, t.home)
  {
    var t := NextThief(s, k);
    hide Indices, Frames;
    forall i | 0 <= i < Live(s) ensures SlotOk(t.claimed, t.slots, t.thieves, t.runs, t.done, t.home, i) {
      assert SlotOk(s.claimed, s.slots, s.thieves, s.runs, s.done, s.home, i);
    }
    forall j | 0 <= j < |t.thieves| ensures ThiefOk(t.claimed, t.slots, t.thieves, t.runs, t.done, j) {
      assert ThiefOk(s.claimed, s.slots, s.thieves, s.runs, s.done, j);
    }
  }

  /** The compare-and-swap succeeds: slot `tail` is claimed. */
  lemma Claim(s: State, k: nat)
    requires Inv(s) && k < |s.thieves| && s.thieves[k] == Aiming(s.tail, s.split)
    requires s.tail == s.claimed < s.split <= Live(s)
    ensures var t := NextThief(s, k);
      Data(Live(s), t.claimed, t.slots, t.thieves, t.runs, t.done, t.home)
  {
    var t := NextThief(s, k);
    hide Indices, Frames;
    assert SlotOk(s.claimed, s.slots, s.thieves, s.runs, s.done, s.home, s.tail);
    forall i | 0 <= i < Live(s) ensures SlotOk(t.claimed, t.slots, t.thieves, t.runs, t.done, t.home, i) {
      assert SlotOk(s.claimed, s.slots, s.thieves, s.runs, s.done, s.home, i);
    }
    forall j | 0 <= j < |t.thieves| ensures ThiefOk(t.claimed, t.slots, t.thieves, t.runs, t.done, j) {
      assert ThiefOk(s.claimed, s.slots, s.thieves, s.runs, s.done, j);
    }
    forall x | 0 <= x < |t.home| ensures TaskOk(Live(s), t.slots, t.runs, t.done, t.home, x) {
      assert TaskOk(Live(s), s.slots, s.runs, s.done, s.home, x);
    }
  }

  /** The thief marks, runs, finishes or releases the slot it has claimed. */
  lemma WorkOn(s: State, k: nat)
    requires Inv(s) && k < |s.thieves| && At(s.thieves[k]) >= 0
    ensures var t := NextThief(s, k);
      Data(Live(s), t.claimed, t.slots, t.thieves, t.runs, t.done, t.home)
  {
    var t := NextThief(s, k);
    var i0 := At(s.thieves[k]);
    hide Indices, Frames;
    assert ThiefOk(s.claimed, s.slots, s.thieves, s.runs, s.done, k);
    assert SlotOk(s.claimed, s.slots, s.thieves, s.runs, s.done, s.home, i0);
    forall i | 0 <= i < Live(s) ensures SlotOk(t.claimed, t.slots, t.thieves, t.runs, t.done, t.home, i) {
      assert SlotOk(s.claimed, s.slots, s.thieves, s.runs, s.done, s.home, i);
      WorkOnSlot(s, k, i);
    }
    forall j | 0 <= j < |t.thieves| ensures ThiefOk(t.claimed, t.slots, t.thieves, t.runs, t.done, j) {
      assert ThiefOk(s.claimed, s.slots, s.thieves, s.runs, s.done, j);
      if At(s.thieves[j]) >= 0 { assert SlotOk(s.claimed, s.slots, s.thieves, s.runs, s.done, s.home, At(s.thieves[j])); }
      WorkOnThief(s, k, j);
    }
    forall x: nat | x < |t.home| ensures TaskOk(Live(s), t.slots, t.runs, t.done, t.home, x) {
      assert TaskOk(Live(s), s.slots, s.runs, s.done, s.home, x);
      WorkOnTask(s, k, x);
    }
  }

  ghost predicate Working(s: State, k: nat) {
    && k < |s.thieves| && At(s.thieves[k]) >= 0 && |s.runs| == |s.done| == |s.home|
    && ThiefOk(s.claimed, s.slots, s.thieves, s.runs, s.done, k)
    && SlotOk(s.claimed, s.slots, s.thieves, s.runs, s.done, s.home, At(s.thieves[k]))
  }

  lemma WorkOnSlot(s: State, k: nat, i: nat)
    requires Working(s, k) && i < |s.slots| && SlotOk(s.claimed, s.slots, s.thieves, s.runs, s.done, s.home, i)
    ensures var t := NextThief(s, k);
      i < |t.slots| && SlotOk(t.claimed, t.slots, t.thieves, t.runs, t.done, t.home, i)
  {
    if i == At(s.thieves[k]) {
      WorkOnOwnSlot(s, k);
    } else {
      WorkOnOtherSlot(s, k, i);
    }
  }

  lemma WorkOnOwnSlot(s: State, k: nat)
    requires Working(s, k)
    ensures var t := NextThief(s, k);
      SlotOk(t.claimed, t.slots, t.thieves, t.runs, t.done, t.home, At(s.thieves[k]))
  {
  }

  lemma WorkOnOtherSlot(s: State, k: nat, i: nat)
    requires Working(s, k) && i < |s.slots| && SlotOk(s.claimed, s.slots, s.thieves, s.runs, s.done, s.home, i)
    requires i != At(s.thieves[k])
    ensures var t := NextThief(s, k);
      i < |t.slots| && SlotOk(t.claimed, t.slots, t.thieves, t.runs, t.done, t.home, i)
  {
    assert s.slots[i].task != s.slots[At(s.thieves[k])].task;
  }

  lemma WorkOnThief(s: State, k: nat, j: nat)
    requires Working(s, k) && j < |s.thieves| && ThiefOk(s.claimed, s.slots, s.thieves, s.runs, s.done, j)
    requires At(s.thieves[j]) >= 0 ==> SlotOk(s.claimed, s.slots, s.thieves, s.runs, s.done, s.home, At(s.thieves[j]))
    ensures var t := NextThief(s, k);
      j < |t.thieves| && ThiefOk(t.claimed, t.slots, t.thieves, t.runs, t.done, j)
  {
    if j == k { WorkOnItself(s, k); } else { WorkOnOtherThief(s, k, j); }
  }

  lemma WorkOnItself(s: State, k: nat)
    requires Working(s, k)
    ensures var t := NextThief(s, k);
      k < |t.thieves| && ThiefOk(t.claimed, t.slots, t.thieves, t.runs, t.done, k)
  {
  }

  lemma WorkOnOtherThief(s: State, k: nat, j: nat)
    requires Working(s, k) && j < |s.thieves| && ThiefOk(s.claimed, s.slots, s.thieves, s.runs, s.done, j) && j != k
    requires At(s.thieves[j]) >= 0 ==> SlotOk(s.claimed, s.slots, s.thieves, s.runs, s.done, s.home, At(s.thieves[j]))
    ensures var t := NextThief(s, k);
      j < |t.thieves| && ThiefOk(t.claimed, t.slots, t.thieves, t.runs, t.done, j)
  {
  }

  lemma WorkOnTask(s: State, k: nat, x: nat)
    requires Working(s, k) && x < |s.home| && TaskOk(Live(s), s.slots, s.runs, s.done, s.home, x)
    ensures var t := NextThief(s, k);
      x < |t.home| == |t.runs| == |t.done| && TaskOk(Live(s), t.slots, t.runs, t.done, t.home, x)
  {
  }

  lemma ClaimIndices(s: State, k: nat)
    requires Inv(s) && k < |s.thieves| && s.thieves[k] == Aiming(s.tail, s.split)
    requires s.tail == s.claimed < s.split <= Live(s) <= |s.slots|
    ensures Indices(NextThief(s, k)) && Frames(NextThief(s, k))
  {
    hide Data;
  }

  lemma NextInv(s: State, e: Event)
    requires Inv(s) && Enabled(s, e)
    ensures Inv(Next(s, e))
  {
    match e {
      case Spawn => SpawnInv(s);
      case Owner => OwnerInv(s);
      case Thief(k) => ThiefInv(s, k);
      case _ => ApplicationInv(s, e);
    }
  }

  // ---------------------------------------------------------------------------------------------------------
  // What holds in every run
  // ---------------------------------------------------------------------------------------------------------

  /** The events can happen one after the other. */
  predicate Possible(s: State, es: seq<Event>)
    decreases |es|
  {
    es == [] || (Enabled(s, es[0]) && Possible(Next(s, es[0]), es[1..]))
  }

  function After(s: State, es: seq<Event>): State
    requires Possible(s, es)
    decreases |es|
  {
    if es == [] then s else After(Next(s, es[0]), es[1..])
  }

  lemma {:induction false} RunInv(s: State, es: seq<Event>)
    requires Inv(s) && Possible(s, es)
    ensures Inv(After(s, es))
    decreases |es|
  {
    hide Inv, Enabled, Next;
    if es != [] {
      NextInv(s, es[0]);
      RunInv(Next(s, es[0]), es[1..]);
    }
  }

  lemma TaskOnce(s: State, t: nat)
    requires Inv(s) && t < |s.runs|
    ensures t < |s.done| && s.runs[t] <= 1 && (s.done[t] ==> s.runs[t] == 1)
    ensures t < |s.home| && (s.home[t] == -1 ==> s.runs[t] == 1 && s.done[t])
  {
    hide Indices, Frames;
    assert TaskOk(Live(s), s.slots, s.runs, s.done, s.home, t);
    if s.home[t] != -1 {
      var i: nat := s.home[t];
      assert SlotOk(s.claimed, s.slots, s.thieves, s.runs, s.done, s.home, i);
      if s.slots[i].taker < |s.thieves| { assert ThiefOk(s.claimed, s.slots, s.thieves, s.runs, s.done, s.slots[i].taker); }
    }
  }

  /** In every run no task is started twice, none is started by both sides, and none is done without having run. */
  lemma StartedAtMostOnce(size: nat, thieves: nat, es: seq<Event>, t: nat)
    requires Possible(Initial(size, thieves), es)
    requires t < |After(Initial(size, thieves), es).runs|
    ensures var s := After(Initial(size, thieves), es);
      t < |s.done| && s.runs[t] <= 1 && (s.done[t] ==> s.runs[t] == 1)
  {
    InitialInv(size, thieves);
    RunInv(Initial(size, thieves), es);
    hide Inv;
    TaskOnce(After(Initial(size, thieves), es), t);
  }

  /** Whenever everything that was spawned has been synced, every task has been run exactly once, to its end. */
  lemma RunExactlyOnce(size: nat, thieves: nat, es: seq<Event>, t: nat)
    requires Possible(Initial(size, thieves), es)
    requires var s := After(Initial(size, thieves), es);
      s.pc.Work? && s.head == 0 && t < |s.runs|
    ensures var s := After(Initial(size, thieves), es);
      t < |s.done| && s.runs[t] == 1 && s.done[t]
  {
    var s := After(Initial(size, thieves), es);
    InitialInv(size, thieves);
    RunInv(Initial(size, thieves), es);
    TaskOnce(s, t);
    hide Indices, Frames;
    assert TaskOk(Live(s), s.slots, s.runs, s.done, s.home, t);
  }

  /** The state that a run from the beginning has come to. */
  ghost function Reached(size: nat, thieves: nat, es: seq<Event>): State
    requires Possible(Initial(size, thieves), es)
  {
    After(Initial(size, thieves), es)
  }

  lemma ReachedInv(size: nat, thieves: nat, es: seq<Event>)
    requires Possible(Initial(size, thieves), es)
    ensures Inv(Reached(size, thieves, es))
  {
    InitialInv(size, thieves);
    RunInv(Initial(size, thieves), es);
  }

  /** In every run a sync goes on only when its task is done, whoever ran it; the task is the one the slot was spawned
      with. */
  lemma SyncedWhenDone(size: nat, thieves: nat, es: seq<Event>)
    requires Possible(Initial(size, thieves), es)
    requires Reached(size, thieves, es).pc.SyncPop? || Reached(size, thieves, es).pc.LeapPop?
    ensures var s := Reached(size, thieves, es);
      && s.head < |s.slots| && s.slots[s.head].task < |s.runs| == |s.done| == |s.home| == |NextOwner(s).home|
      && var x := s.slots[s.head].task;
      && NextOwner(s).home == s.home[x := -1] && s.home[x] == s.head
      && NextOwner(s).runs == s.runs[x := 1] && NextOwner(s).done == s.done[x := true]
      && (s.pc.LeapPop? ==> NextOwner(s).runs == s.runs && NextOwner(s).done == s.done)
  {
    hide Inv, Possible, After, NextOwner, Initial;
    ReachedInv(size, thieves, es);
    SyncDone(Reached(size, thieves, es));
  }

  lemma SyncDone(s: State)
    requires Inv(s) && (s.pc.SyncPop? || s.pc.LeapPop?)
    ensures s.head < |s.slots| && s.slots[s.head].task < |s.runs| == |s.done| == |s.home| == |NextOwner(s).home|
    ensures var x := s.slots[s.head].task;
      && NextOwner(s).home == s.home[x := -1] && s.home[x] == s.head
      && NextOwner(s).runs == s.runs[x := 1] && NextOwner(s).done == s.done[x := true]
    ensures s.pc.LeapPop? ==> NextOwner(s).runs == s.runs && NextOwner(s).done == s.done
  {
    assert SlotOk(s.claimed, s.slots, s.thieves, s.runs, s.done, s.home, s.head);
    if s.slots[s.head].taker < |s.thieves| { assert ThiefOk(s.claimed, s.slots, s.thieves, s.runs, s.done, s.slots[s.head].taker); }
    hide Data;
  }

  /** In every run, [0, tail) is claimed and [tail, split) can be stolen whenever a compare-and-swap can succeed; the rest
      is private. */
  lemma StealableUntouched(size: nat, thieves: nat, es: seq<Event>, i: nat)
    requires Possible(Initial(size, thieves), es)
    requires Reached(size, thieves, es).tail <= i < Reached(size, thieves, es).split
    ensures var s := Reached(size, thieves, es);
      && i < Live(s) <= |s.slots| && s.slots[i].task < |s.runs| == |s.done|
      && s.slots[i].mark == Task && s.runs[s.slots[i].task] == 0
      && forall k :: 0 <= k < |s.thieves| ==> At(s.thieves[k]) != i
  {
    hide Inv, Possible, After, Live, Initial;
    ReachedInv(size, thieves, es);
    Untouched(Reached(size, thieves, es), i);
  }

  lemma Untouched(s: State, i: nat)
    requires Inv(s) && s.tail <= i < s.split
    ensures i < Live(s) <= |s.slots| && s.slots[i].task < |s.runs| == |s.done|
    ensures s.slots[i].mark == Task && s.runs[s.slots[i].task] == 0
    ensures forall k :: 0 <= k < |s.thieves| ==> At(s.thieves[k]) != i
  {
    Stealable(s);
    hide Indices, Frames;
    assert SlotOk(s.claimed, s.slots, s.thieves, s.runs, s.done, s.home, i);
    forall k | 0 <= k < |s.thieves| ensures At(s.thieves[k]) != i {
      assert ThiefOk(s.claimed, s.slots, s.thieves, s.runs, s.done, k);
    }
  }

  /** In no run do two thieves work on the same slot. */
  lemma ThievesApart(size: nat, thieves: nat, es: seq<Event>, j: nat, k: nat)
    requires Possible(Initial(size, thieves), es)
    requires var s := Reached(size, thieves, es);
      j < |s.thieves| && k < |s.thieves| && At(s.thieves[j]) == At(s.thieves[k]) >= 0
    ensures j == k
  {
    hide Inv, Possible, After, Initial;
    ReachedInv(size, thieves, es);
    Apart(Reached(size, thieves, es), j, k);
  }

  lemma Apart(s: State, j: nat, k: nat)
    requires Inv(s) && j < |s.thieves| && k < |s.thieves| && At(s.thieves[j]) == At(s.thieves[k]) >= 0
    ensures j == k
  {
    hide Indices, Frames;
    assert ThiefOk(s.claimed, s.slots, s.thieves, s.runs, s.done, j);
    assert ThiefOk(s.claimed, s.slots, s.thieves, s.runs, s.done, k);
  }

  predicate Waiting(s: State) {
    s.pc.LeapStart? || s.pc.LeapWait? || s.pc.Leaping?
  }

  /** In every run, while the owner waits for a stolen task that is not finished, the thief that claimed it is at work on
      it. */
  lemma WaitedFor(size: nat, thieves: nat, es: seq<Event>)
    requires Possible(Initial(size, thieves), es)
    requires Waiting(Reached(size, thieves, es)) && !Finished(Reached(size, thieves, es))
    ensures var s := Reached(size, thieves, es);
      s.head < |s.slots| && s.slots[s.head].taker < |s.thieves| && At(s.thieves[s.slots[s.head].taker]) == s.head
  {
    hide Inv, Possible, After, Initial, Finished;
    ReachedInv(size, thieves, es);
    TakerWorks(Reached(size, thieves, es));
  }

  lemma TakerWorks(s: State)
    requires Inv(s) && Waiting(s) && !Finished(s)
    ensures s.head < |s.slots| &&  s.slots[s.head].taker < |s.thieves| && At(s.thieves[s.slots[s.head].taker]) == s.head
  {
    assert s.claimed == s.head + 1 by { hide Data; }
    hide Indices, Frames;
    assert SlotOk(s.claimed, s.slots, s.thieves, s.runs, s.done, s.home, s.head);
  }

  function Steps(k: nat, n: nat): (es: seq<Event>)
    ensures |es| == n
  {
    if n == 0 then [] else [Thief(k)] + Steps(k, n - 1)
  }

  /** The steps a thief still has to take on its slot. */
  function Remaining(t: ThiefPc): nat {
    match t
    case Won(_) => 4
    case Marked(_) => 3
    case Running(_) => 2
    case Finishing(_) => 1
    case _ => 0
  }

  /** In every run, nothing can stop a thief from finishing the task it has claimed. */
  lemma ThiefFinishes(size: nat, thieves: nat, es: seq<Event>, k: nat)
    requires Possible(Initial(size, thieves), es)
    requires k < |Reached(size, thieves, es).thieves| && At(Reached(size, thieves, es).thieves[k]) >= 0
    ensures var s := Reached(size, thieves, es);
      && At(s.thieves[k]) < |s.slots| && Possible(s, Steps(k, Remaining(s.thieves[k])))
      && var t := After(s, Steps(k, Remaining(s.thieves[k])));
      && |t.slots| == |s.slots| && t.slots[At(s.thieves[k])].mark == Completed && t.pc == s.pc && t.head == s.head
  {
    hide Inv, Possible, After, Initial, Steps;
    ReachedInv(size, thieves, es);
    ThiefGoesOn(Reached(size, thieves, es), k);
  }

  /** One step of a thief that has claimed a slot. */
  lemma ThiefStep(s: State, k: nat)
    requires Inv(s) && k < |s.thieves| && At(s.thieves[k]) >= 0
    ensures var t, i := NextThief(s, k), At(s.thieves[k]);
      && i < |s.slots| == |t.slots| && |t.thieves| == |s.thieves| && t.pc == s.pc && t.head == s.head && Enabled(s, Thief(k))
      && |t.runs| == |s.runs|
      && Remaining(t.thieves[k]) == Remaining(s.thieves[k]) - 1
      && (Remaining(s.thieves[k]) > 1 ==> At(t.thieves[k]) == i)
      && (Remaining(s.thieves[k]) == 1 ==> t.slots[i].mark == Completed)
  {
    assert ThiefOk(s.claimed, s.slots, s.thieves, s.runs, s.done, k);
    hide SlotOk, TaskOk, Indices, Frames;
  }

  lemma {:induction false} ThiefGoesOn(s: State, k: nat)
    requires Inv(s) && k < |s.thieves| && At(s.thieves[k]) >= 0
    ensures At(s.thieves[k]) < |s.slots| && Possible(s, Steps(k, Remaining(s.thieves[k])))
    ensures var t := After(s, Steps(k, Remaining(s.thieves[k])));
      && |t.slots| == |s.slots| && t.slots[At(s.thieves[k])].mark == Completed && t.pc == s.pc && t.head == s.head
      && |t.runs| == |s.runs|
    decreases Remaining(s.thieves[k])
  {
    ThiefInv(s, k);
    ThiefStep(s, k);
    hide Inv, NextThief;
    var n := Remaining(s.thieves[k]);
    var t := NextThief(s, k);
    assert Steps(k, n) == [Thief(k)] + Steps(k, n - 1);
    assert Steps(k, n)[1..] == Steps(k, n - 1);
    if n > 1 {
      ThiefGoesOn(t, k);
    }
  }

  /** In every run the wait of a sync can end: some thief's next steps complete the task that it waits for. */
  lemma WaitEnds(size: nat, thieves: nat, es: seq<Event>) returns (fs: seq<Event>)
    requires Possible(Initial(size, thieves), es) && Waiting(Reached(size, thieves, es))
    ensures var s := Reached(size, thieves, es);
      && |fs| <= 4 && Possible(s, fs)
      && After(s, fs).pc == s.pc && After(s, fs).head == s.head && Finished(After(s, fs))
  {
    hide Inv, Possible, After, Initial, Finished;
    ReachedInv(size, thieves, es);
    fs := WaitCanEnd(Reached(size, thieves, es));
  }

  lemma WaitCanEnd(s: State) returns (es: seq<Event>)
    requires Inv(s) && Waiting(s)
    ensures |es| <= 4 && Possible(s, es)
    ensures var t := After(s, es);
      t.pc == s.pc && t.head == s.head && Finished(t) && |t.runs| == |s.runs|
  {
    if Finished(s) {
      es := [];
    } else {
      TakerWorks(s);
      ThiefGoesOn(s, s.slots[s.head].taker);
      es := Steps(s.slots[s.head].taker, Remaining(s.thieves[s.slots[s.head].taker]));
    }
  }
}
