/** How an owner leaves its slot, whatever the others do meanwhile, and what that means for completions. */
module CorrelationFates {
  import opened Common
  import opened Correlation
  import opened CorrelationSafety

  /** The part of a slot that only its owner writes. */
  datatype Left = Left(phase: Phase, id: U32, response: Option<Reply>)

  function Core(slot: Slot): Left { Left(slot.phase, slot.id, slot.response) }

  /** The slot as it was before a stale caller seized it. */
  function PutBack(slot: Slot, job: Job): Left {
    Left(if FromReady(job) then Ready else Waiting, slot.id, slot.response)
  }

  function CarriedOut(slot: Slot, id: U32, job: Job): Left {
    if job.Complete? && job.reply.Some? then Left(Ready, slot.id, Some(Reply(id, job.reply.value)))
    else Left(Empty, slot.id, None)
  }

  /** What an owner will have made of its slot when it lets go. */
  function Fate(slot: Slot, t: Task): Left
    requires Owns(t)
  {
    match t
    case Installing(id) => Left(Waiting, id, None)
    case Opening(id) => Left(Waiting, slot.id, None)
    case Comparing(id, job) => if slot.id != id then PutBack(slot, job) else CarriedOut(slot, id, job)
    case Restoring(id, job) => PutBack(slot, job)
    case Acting(id, job) => CarriedOut(slot, id, job)
    case Closing(id, job, _) => CarriedOut(slot, id, job)
    case Dumping(_) => Left(Empty, slot.id, None)
    case Emptying(_) => Left(Empty, slot.id, None)
  }

  /** Where a stale caller goes on after putting the slot back. */
  function SentAway(id: U32, job: Job, at: nat): Task {
    match job
    case Take => Ringing(at, ThenEnded(id, Dropped))
    case Expire => Polling(id, false, Final, false)
    case Cancel(_) => Idle
    case Complete(_) => Idle
  }

  /** Where a rightful owner goes on; a waiter leaves with the reply its cell held. */
  function Satisfied(id: U32, job: Job, response: Option<Reply>, at: nat): Task {
    match job
    case Take => Ended(id, if response.Some? then Got(response.value) else Dropped)
    case Expire => Ended(id, TimedOut)
    case Cancel(_) => Ringing(at, ThenIdle)
    case Complete(_) => Ringing(at, ThenIdle)
  }

  /** What will have become of an owner when it lets go. */
  function Destiny(slot: Slot, t: Task, at: nat): Task
    requires Owns(t)
  {
    match t
    case Installing(id) => Held(id)
    case Opening(id) => Held(id)
    case Comparing(id, job) => if slot.id != id then SentAway(id, job, at) else Satisfied(id, job, slot.response, at)
    case Restoring(id, job) => SentAway(id, job, at)
    case Acting(id, job) => Satisfied(id, job, slot.response, at)
    case Closing(id, job, got) => Satisfied(id, job, got, at)
    case Dumping(_) => Ringing(at, ThenIdle)
    case Emptying(_) => Ringing(at, ThenIdle)
  }

  /** How many accesses an owner still makes before it lets go, at most. */
  function AccessesLeft(t: Task): nat {
    if t.Comparing? then 3 else if t.Acting? || t.Installing? || t.Dumping? then 2 else if Owns(t) then 1 else 0
  }

  lemma TurnFollowsFate(slot: Slot, t: Task, me: nat, at: nat, fillers: nat, ring: nat)
    requires ring > 0 && Owns(t) && TurnReady(slot, t, at, 1, fillers, ring) && (t.Closing? ==> WroteOwn(slot, t))
    requires t.Restoring? ==> slot.id != t.id
    ensures var turn := TurnOf(slot, t, me, at);
      if Owns(turn.task)
      then Fate(turn.slot, turn.task) == Fate(slot, t) && Destiny(turn.slot, turn.task, at) == Destiny(slot, t, at)
      else Core(turn.slot) == Fate(slot, t) && turn.task == Destiny(slot, t, at)
  {
  }

  /** An owner can always make its next access, keeps to its plan, and is done after three at most. */
  lemma OwnStep(s: State, i: nat)
    requires Inv(s) && i < |s.tasks| && Owns(s.tasks[i])
    ensures Index(s.tasks[i], |s.slots|) < |s.slots| && Enabled(s, Act(i))
    ensures var t := Apply(s, Act(i));
      var at := Index(s.tasks[i], |s.slots|);
      if Owns(t.tasks[i])
      then Index(t.tasks[i], |s.slots|) == at && Fate(t.slots[at], t.tasks[i]) == Fate(s.slots[at], s.tasks[i]) &&
           Destiny(t.slots[at], t.tasks[i], at) == Destiny(s.slots[at], s.tasks[i], at) &&
           AccessesLeft(t.tasks[i]) < AccessesLeft(s.tasks[i])
      else Core(t.slots[at]) == Fate(s.slots[at], s.tasks[i]) &&
           t.tasks[i] == Destiny(s.slots[at], s.tasks[i], at)
  {
    var ring := |s.slots|;
    var at := Index(s.tasks[i], ring);
    assert TaskOk(s.tasks[i], s.slots);
    CanTurn(s, i);
    TaskMoves(s.tasks, i, Idle, Owning(at), ring);
    assert SlotOk(s.slots[at], Total(s.tasks, Owning(at), ring), Total(s.tasks, Filling(at), ring));
    assert TaskOk(s.tasks[i], s.slots);
    TurnFollowsFate(s.slots[at], s.tasks[i], i, at, Total(s.tasks, Filling(at), ring), ring);
    TurnStays(s.slots[at], s.tasks[i], i, at, ring);
    TurnShortens(s.slots[at], s.tasks[i], i, at);
    OwnTaskAfter(s, i);
  }

  lemma TurnShortens(slot: Slot, t: Task, me: nat, at: nat)
    requires Owns(t)
    ensures AccessesLeft(TurnOf(slot, t, me, at).task) < AccessesLeft(t)
  {
  }

  /** An owner is never registered for a wake-up it would itself cause. */
  lemma OwnTaskAfter(s: State, i: nat)
    requires Enabled(s, Act(i)) && Owns(s.tasks[i])
    ensures var at := Index(s.tasks[i], |s.slots|);
      Apply(s, Act(i)).tasks[i] == TurnOf(s.slots[at], s.tasks[i], i, at).task
  {
  }

  /** The caller holds its slot in every state of the run before the last. */
  ghost predicate HoldsThrough(s: State, run: seq<Step>, i: nat)
    decreases |run|
  {
    run == [] ||
    (HoldsThrough(s, run[..|run| - 1], i) && After(s, run[..|run| - 1]).Some? &&
     var before := After(s, run[..|run| - 1]).value;
     i < |before.tasks| && Owns(before.tasks[i]))
  }

  /** The owner is still bound for what was planned, or has done it. */
  predicate Bound(s: State, i: nat, at: nat, fate: Left, destiny: Task)
    requires i < |s.tasks| && at < |s.slots|
  {
    if Owns(s.tasks[i])
    then Index(s.tasks[i], |s.slots|) == at && Fate(s.slots[at], s.tasks[i]) == fate &&
         Destiny(s.slots[at], s.tasks[i], at) == destiny
    else Core(s.slots[at]) == fate && s.tasks[i] == destiny
  }

  lemma StepKeepsBound(s: State, step: Step, i: nat, at: nat, fate: Left, destiny: Task)
    requires Inv(s) && Enabled(s, step) && i < |s.tasks| && at < |s.slots| && Owns(s.tasks[i])
    requires Bound(s, i, at, fate, destiny)
    ensures var t := Apply(s, step); |t.tasks| == |s.tasks| && |t.slots| == |s.slots| && Bound(t, i, at, fate, destiny)
  {
    if step == Act(i) {
      OwnStep(s, i);
    } else {
      OthersLeaveIt(s, step, i);
    }
  }

  /**
   Whatever the others do between an owner's accesses, the owner's plan for the slot and for
   itself does not change while it holds the slot, and when it lets go both are exactly as
   planned.
   */
  lemma {:induction false} OwnerFate(s: State, run: seq<Step>, i: nat, t: State)
    requires Inv(s) && i < |s.tasks| && Owns(s.tasks[i])
    requires After(s, run) == Some(t) && HoldsThrough(s, run, i)
    ensures |t.slots| == |s.slots| && |t.tasks| == |s.tasks| && Index(s.tasks[i], |s.slots|) < |s.slots|
    ensures var at := Index(s.tasks[i], |s.slots|);
      Bound(t, i, at, Fate(s.slots[at], s.tasks[i]), Destiny(s.slots[at], s.tasks[i], at))
    decreases |run|
  {
    RingSize(s, run);
    assert TaskOk(s.tasks[i], s.slots);
    if run != [] {
      var n := |run| - 1;
      var at := Index(s.tasks[i], |s.slots|);
      var before := After(s, run[..n]).value;
      OwnerFate(s, run[..n], i, before);
      RunInv(s, run[..n]);
      StepKeepsBound(before, run[n], i, at, Fate(s.slots[at], s.tasks[i]), Destiny(s.slots[at], s.tasks[i], at));
    }
  }

  // ---------------------------------------------------------------- completions

  lemma FirstAccess(s: State, i: nat)
    requires i < |s.tasks| && s.tasks[i].Completing? && Enabled(s, Act(i))
    ensures var at := s.tasks[i].id % |s.slots|;
      var t := Apply(s, Act(i));
      |t.tasks| == |s.tasks| && |t.slots| == |s.slots| &&
      if s.slots[at].phase.Waiting?
      then t.tasks[i] == Comparing(s.tasks[i].id, Complete(s.tasks[i].reply)) &&
           t.slots[at].id == s.slots[at].id && t.slots[at].response == s.slots[at].response
      else t.tasks[i] == Idle
  {
  }

  /** The completion has put its reply in place and is about to wake the waiter. */
  predicate PublishedAt(s: State, i: nat, id: U32, value: nat) {
    |s.slots| > 0 && i < |s.tasks| && s.tasks[i] == Ringing(id % |s.slots|, ThenIdle) &&
    Core(s.slots[id % |s.slots|]) == Left(Ready, id, Some(Reply(id, value)))
  }

  /**
   From its first access until it lets go of the slot, and whatever the others do in between:
   a completion publishes its reply under its id exactly when the slot was waiting under that
   full id at the first access.
   */
  lemma CompletionIff(s: State, i: nat, value: nat, run: seq<Step>, t: State)
    requires Inv(s) && i < |s.tasks| && s.tasks[i].Completing? && s.tasks[i].reply == Some(value) && Enabled(s, Act(i))
    requires After(Apply(s, Act(i)), run) == Some(t) && HoldsThrough(Apply(s, Act(i)), run, i)
    requires i < |t.tasks| && !Owns(t.tasks[i])
    ensures var slot := s.slots[s.tasks[i].id % |s.slots|];
      PublishedAt(t, i, s.tasks[i].id, value) <==> slot.phase.Waiting? && slot.id == s.tasks[i].id
  {
    var id := s.tasks[i].id;
    var at := id % |s.slots|;
    var first := Apply(s, Act(i));
    StepKeepsInv(s, Act(i));
    FirstAccess(s, i);
    if s.slots[at].phase.Waiting? {
      OwnerFate(first, run, i, t);
    } else if run != [] {
      NeverHeld(first, run, i);
    }
  }

  lemma {:induction false} NeverHeld(s: State, run: seq<Step>, i: nat)
    requires run != [] && HoldsThrough(s, run, i) && i < |s.tasks|
    ensures Owns(s.tasks[i])
    decreases |run|
  {
    if |run| > 1 { NeverHeld(s, run[..|run| - 1], i); }
  }

  // ---------------------------------------------------------------- waiters

  /** The access by which a poll seizes a ready slot, or a timeout a waiting one. */
  lemma SeizingAccess(s: State, i: nat)
    requires i < |s.tasks| && Enabled(s, Act(i)) && (s.tasks[i].Polling? || s.tasks[i].Expiring?)
    requires s.slots[s.tasks[i].id % |s.slots|].phase == (if s.tasks[i].Polling? then Ready else Waiting)
    ensures var at := s.tasks[i].id % |s.slots|;
      var t := Apply(s, Act(i));
      |t.tasks| == |s.tasks| && |t.slots| == |s.slots| &&
      t.tasks[i] == Comparing(s.tasks[i].id, if s.tasks[i].Polling? then Take else Expire) &&
      t.slots[at].id == s.slots[at].id && t.slots[at].response == s.slots[at].response
  {
  }

  /** From the comparison of ids until the slot is let go. */
  lemma ComparerEnds(s: State, i: nat, id: U32, job: Job, run: seq<Step>, t: State)
    requires Inv(s) && i < |s.tasks| && s.tasks[i] == Comparing(id, job)
    requires After(s, run) == Some(t) && HoldsThrough(s, run, i)
    requires i < |t.tasks| && !Owns(t.tasks[i])
    ensures |t.slots| == |s.slots| > 0
    ensures var at := id % |s.slots|;
      var slot := s.slots[at];
      if slot.id == id
      then t.tasks[i] == Satisfied(id, job, slot.response, at) && Core(t.slots[at]) == CarriedOut(slot, id, job)
      else t.tasks[i] == SentAway(id, job, at) && Core(t.slots[at]) == PutBack(slot, job)
  {
    OwnerFate(s, run, i, t);
  }

  lemma ReadyHoldsReply(s: State, at: nat)
    requires Inv(s) && at < |s.slots| && s.slots[at].phase.Ready?
    ensures s.slots[at].response.Some?
  {
    assert SlotOk(s.slots[at], Total(s.tasks, Owning(at), |s.slots|), Total(s.tasks, Filling(at), |s.slots|));
  }

  /**
   A poll that finds its slot ready, whatever the others do until it lets go of the slot: it
   ends with exactly the reply that lay there and leaves the slot empty if the slot has its
   full id; otherwise it puts the slot back as it was and ends without a reply.
   */
  lemma TakeIff(s: State, i: nat, run: seq<Step>, t: State)
    requires Inv(s) && i < |s.tasks| && s.tasks[i].Polling? && Enabled(s, Act(i))
    requires s.slots[s.tasks[i].id % |s.slots|].phase.Ready?
    requires After(Apply(s, Act(i)), run) == Some(t) && HoldsThrough(Apply(s, Act(i)), run, i)
    requires i < |t.tasks| && !Owns(t.tasks[i])
    ensures |t.slots| == |s.slots|
    ensures var id, at := s.tasks[i].id, s.tasks[i].id % |s.slots|;
      var slot := s.slots[at];
      slot.response.Some? &&
      if slot.id == id
      then t.tasks[i] == Ended(id, Got(slot.response.value)) && Core(t.slots[at]) == Left(Empty, id, None)
      else t.tasks[i] == Ringing(at, ThenEnded(id, Dropped)) && Core(t.slots[at]) == Core(slot)
  {
    ReadyHoldsReply(s, s.tasks[i].id % |s.slots|);
    StepKeepsInv(s, Act(i));
    SeizingAccess(s, i);
    ComparerEnds(Apply(s, Act(i)), i, s.tasks[i].id, Take, run, t);
  }

  /**
   A timeout that finds its slot still waiting ends the wait as timed out and empties the slot
   if the slot has its full id; otherwise it puts the slot back and tries one last poll.
   */
  lemma ExpiryIff(s: State, i: nat, run: seq<Step>, t: State)
    requires Inv(s) && i < |s.tasks| && s.tasks[i].Expiring? && Enabled(s, Act(i))
    requires s.slots[s.tasks[i].id % |s.slots|].phase.Waiting?
    requires After(Apply(s, Act(i)), run) == Some(t) && HoldsThrough(Apply(s, Act(i)), run, i)
    requires i < |t.tasks| && !Owns(t.tasks[i])
    ensures |t.slots| == |s.slots|
    ensures var id, at := s.tasks[i].id, s.tasks[i].id % |s.slots|;
      var slot := s.slots[at];
      if slot.id == id
      then t.tasks[i] == Ended(id, TimedOut) && Core(t.slots[at]) == Left(Empty, id, None)
      else t.tasks[i] == Polling(id, false, Final, false) && Core(t.slots[at]) == Core(slot)
  {
    StepKeepsInv(s, Act(i));
    SeizingAccess(s, i);
    ComparerEnds(Apply(s, Act(i)), i, s.tasks[i].id, Expire, run, t);
  }

  /**
   What a wait reports is what its last access saw: that its slot is gone only if the slot is
   empty or has another id, and a timeout only if the slot is not empty.
   */
  lemma ReportMatchesSlot(s: State, i: nat)
    requires Inv(s) && i < |s.tasks| && Enabled(s, Act(i)) && !s.tasks[i].Fetching? && !s.tasks[i].Ringing?
    requires Apply(s, Act(i)).tasks[i].Ended?
    ensures Index(s.tasks[i], |s.slots|) < |s.slots|
    ensures var slot, ended := s.slots[Index(s.tasks[i], |s.slots|)], Apply(s, Act(i)).tasks[i];
      && (ended.outcome.Dropped? ==> slot.phase.Empty? || slot.id != ended.id)
      && (ended.outcome.TimedOut? ==> !slot.phase.Empty?)
  {
    var ring := |s.slots|;
    var at := Index(s.tasks[i], ring);
    assert TaskOk(s.tasks[i], s.slots);
    assert SlotOk(s.slots[at], Total(s.tasks, Owning(at), ring), Total(s.tasks, Filling(at), ring));
    TaskMoves(s.tasks, i, Idle, Owning(at), ring);
  }

  /** Accesses until a poll, or the verdict on a timeout, is over at the latest. */
  function PollRank(t: Task): nat {
    match t
    case Expiring(_) => 8
    case Polling(_, _, pass, _) => if pass.Final? then 7 else if pass.First? then 5 else 2
    case LastLook(_) => 6
    case Looking(_, _, pass, _) => if pass.Second? then 1 else 4
    case Enrolling(_, _) => 3
    case _ => 0
  }

  lemma TurnLowersRank(slot: Slot, t: Task, me: nat, at: nat)
    requires 0 < PollRank(t)
    ensures PollRank(TurnOf(slot, t, me, at).task) < PollRank(t)
  {
  }

  /**
   A poll never spins: with each of its own accesses it comes closer to being parked, ended or
   in hold of its slot, and nothing the others do sets it back.
   */
  lemma PollBounded(s: State, step: Step, i: nat)
    requires Enabled(s, step) && i < |s.tasks| && 0 < PollRank(s.tasks[i])
    ensures i < |Apply(s, step).tasks|
    ensures step.task == i ==> PollRank(Apply(s, step).tasks[i]) < PollRank(s.tasks[i])
    ensures step.task != i ==> PollRank(Apply(s, step).tasks[i]) == PollRank(s.tasks[i])
  {
    if step == Act(i) {
      var at := Index(s.tasks[i], |s.slots|);
      TurnLowersRank(s.slots[at], s.tasks[i], i, at);
    }
  }

  // ---------------------------------------------------------------- guard drops and teardown

  /** A guard drop that has not seized its slot yet, or the teardown of one slot. */
  predicate Insists(t: Task) { t.Cancelling? || t.Seizing? || t.Sweeping? || t.Clearing? || t.Dumping? || t.Emptying? }

  /** It gives up only on an empty slot: until then it retries, clears the slot, or seizes it to compare ids. */
  lemma GivesUpOnEmpty(s: State, i: nat)
    requires i < |s.tasks| && Enabled(s, Act(i)) && Insists(s.tasks[i])
    ensures var t := Apply(s, Act(i));
      var at := Index(s.tasks[i], |s.slots|);
      i < |t.tasks| &&
      (Insists(t.tasks[i]) || t.slots[at].phase.Empty? ||
       (t.tasks[i].Comparing? && t.tasks[i].id == s.tasks[i].id && t.tasks[i].job.Cancel?))
  {
  }

  /** The slot holds nothing for the request `id`, or with no id, nothing at all. */
  predicate Cleared(slot: Slot, id: Option<U32>) { slot.phase.Empty? || (id.Some? && slot.id != id.value) }

  /** On the way to clearing slot `at`: a guard drop of request `id`, or a teardown. */
  predicate Clears(t: Task, at: nat, id: Option<U32>, ring: nat)
    requires ring > 0
  {
    if id.None?
    then (t.Sweeping? || t.Clearing? || t.Dumping? || t.Emptying?) && t.at == at
    else
      (t.Cancelling? || t.Seizing? || ((t.Comparing? || t.Acting? || t.Closing?) && t.job.Cancel?)) &&
      t.id == id.value && t.id % ring == at
  }

  lemma TurnClears(slot: Slot, t: Task, me: nat, at: nat, id: Option<U32>, ring: nat)
    requires ring > 0 && Clears(t, at, id, ring)
    ensures var turn := TurnOf(slot, t, me, at);
      Clears(turn.task, at, id, ring) || Cleared(slot, id) || Cleared(turn.slot, id)
  {
  }

  lemma StepClears(s: State, step: Step, i: nat, at: nat, id: Option<U32>)
    requires Enabled(s, step) && i < |s.tasks| && at < |s.slots| && Clears(s.tasks[i], at, id, |s.slots|)
    ensures var t := Apply(s, step);
      |t.tasks| == |s.tasks| && |t.slots| == |s.slots| &&
      (Clears(t.tasks[i], at, id, |s.slots|) || Cleared(s.slots[at], id) || Cleared(t.slots[at], id))
  {
    if step == Act(i) { TurnClears(s.slots[at], s.tasks[i], i, at, id, |s.slots|); }
  }

  /** At some point of the run slot `at` was cleared. */
  ghost predicate WasCleared(s: State, run: seq<Step>, at: nat, id: Option<U32>)
    decreases |run|
  {
    (After(s, run).Some? && at < |After(s, run).value.slots| && Cleared(After(s, run).value.slots[at], id)) ||
    (run != [] && WasCleared(s, run[..|run| - 1], at, id))
  }

  lemma {:induction false} ClearsOrCleared(s: State, run: seq<Step>, t: State, i: nat, at: nat, id: Option<U32>)
    requires i < |s.tasks| && at < |s.slots| && Clears(s.tasks[i], at, id, |s.slots|) && After(s, run) == Some(t)
    ensures |t.tasks| == |s.tasks| && |t.slots| == |s.slots|
    ensures Clears(t.tasks[i], at, id, |s.slots|) || WasCleared(s, run, at, id)
    decreases |run|
  {
    RingSize(s, run);
    if run != [] {
      var n := |run| - 1;
      var before := After(s, run[..n]).value;
      ClearsOrCleared(s, run[..n], before, i, at, id);
      if Clears(before.tasks[i], at, id, |s.slots|) { StepClears(before, run[n], i, at, id); }
    }
  }

  /**
   A guard drop is over only after its slot was seen empty or under another id, and a teardown
   of a slot only after the slot was seen empty, whatever happened in between.
   */
  lemma ClearedBeforeDone(s: State, i: nat, choice: Choice, run: seq<Step>, t: State)
    requires |s.slots| > 0 && Enabled(s, Choose(i, choice)) && (choice.CancelSlot? || choice.DropGuard?)
    requires After(Apply(s, Choose(i, choice)), run) == Some(t)
    ensures i < |t.tasks|
    ensures t.tasks[i].Idle? ==>
      if choice.CancelSlot? then WasCleared(Apply(s, Choose(i, choice)), run, choice.at, None)
      else WasCleared(Apply(s, Choose(i, choice)), run, s.tasks[i].id % |s.slots|, Some(s.tasks[i].id))
  {
    var first := Apply(s, Choose(i, choice));
    if choice.CancelSlot? {
      ClearsOrCleared(first, run, t, i, choice.at, None);
    } else {
      ClearsOrCleared(first, run, t, i, s.tasks[i].id % |s.slots|, Some(s.tasks[i].id));
    }
  }

  // ---------------------------------------------------------------- a completion that misses

  /** A caller holding a slot whose id is not its own. */
  predicate Stale(slot: Slot, t: Task) { (t.Comparing? || t.Restoring?) && t.id != slot.id }

  /**
   When a completion finds the slot under its own id being written, exactly one caller holds
   the slot, and its plan tells whether a request waits: the slot will be waiting under that id
   again, so the completion missed it, exactly when the holder is a stale caller that seized it
   waiting or the request's own allocation about to open it. Otherwise the slot ends with a
   reply, empty, or renamed.
   */
  lemma MissedIff(s: State, i: nat) returns (j: nat)
    requires Inv(s) && i < |s.tasks| && s.tasks[i].Completing?
    requires var slot := s.slots[s.tasks[i].id % |s.slots|]; slot.phase.Writing? && slot.id == s.tasks[i].id
    ensures var at := s.tasks[i].id % |s.slots|;
      j < |s.tasks| && Owns(s.tasks[j]) && Index(s.tasks[j], |s.slots|) == at &&
      (forall k | 0 <= k < |s.tasks| && Owns(s.tasks[k]) && Index(s.tasks[k], |s.slots|) == at :: k == j) &&
      (Fate(s.slots[at], s.tasks[j]).phase.Waiting? && Fate(s.slots[at], s.tasks[j]).id == s.tasks[i].id <==>
       (Stale(s.slots[at], s.tasks[j]) && !FromReady(s.tasks[j].job)) ||
       s.tasks[j].Opening? || s.tasks[j] == Installing(s.tasks[i].id))
  {
    var ring := |s.slots|;
    var at := s.tasks[i].id % ring;
    assert SlotOk(s.slots[at], Total(s.tasks, Owning(at), ring), Total(s.tasks, Filling(at), ring));
    j := SomeOwner(s.tasks, at, ring);
    assert TaskOk(s.tasks[j], s.slots);
    forall k | 0 <= k < |s.tasks| && Owns(s.tasks[k]) && Index(s.tasks[k], ring) == at ensures k == j {
      OnlyOwner(s.tasks, k, j, at, ring);
    }
  }

  lemma {:induction false} SomeOwner(tasks: seq<Task>, at: nat, ring: nat) returns (j: nat)
    requires ring > 0 && Total(tasks, Owning(at), ring) > 0
    ensures j < |tasks| && Owns(tasks[j]) && Index(tasks[j], ring) == at
    decreases |tasks|
  {
    j := |tasks| - 1;
    if Weight(tasks[j], Owning(at), ring) == 0 { j := SomeOwner(tasks[..j], at, ring); }
  }
}
