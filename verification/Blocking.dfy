/** The blocking queue in front of a backend node, as a transition system with any
    number of senders, blocking handles and releasers
    (src/proxy/blocking.rs, src/common/biatomic.rs). */
module Blocking {
  type Cmd = nat

  type Tid = nat

  /** What a command was told when its migration state was looked up. */
  datatype Hint = NotBlocking | InMigration(term: nat) | MustBlock

  /** Where a thread is. `stampedAt` and `readAt` are the number of blocking episodes
      begun or ended when the command got its hint and when `send` read the state. */
  datatype Local =
    | Done
    | Stamped(cmd: Cmd, hint: Hint, stampedAt: nat)
    | Counted(cmd: Cmd, hint: Hint, stampedAt: nat)
    | Decided(cmd: Cmd, hint: Hint, stampedAt: nat, blocking: bool, term: nat, readAt: nat)
    | Entering(cmd: Cmd, hint: Hint, stampedAt: nat, readAt: nat)
    | Leaving
    | Queueing(cmd: Cmd)
    | Rechecking
    | Releasing
    | Forwarding(index: nat)
    | Starting
    | StartLoaded(seenCount: nat, seenTerm: nat)
    | Holding
    | DropLoaded(seenCount: nat, seenTerm: nat)

  /** The shared cells: the packed blocking count and term, the running counter and the
      queue; and as history: the commands inside the inner sender, the changes of the
      packed cell, whether blocking was observed to be done since it began, all commands
      ever queued, how many were popped and which were passed on. */
  datatype State = State(
    count: nat, term: nat, running: int, queue: seq<Cmd>, threads: map<Tid, Local>,
    inner: nat, changes: nat, sealed: bool, enqueued: seq<Cmd>, popped: nat, sent: set<nat>)

  function At(s: State, t: Tid): Local {
    if t in s.threads then s.threads[t] else Done
  }

  function Put(s: State, t: Tid, l: Local): State {
    s.(threads := s.threads[t := l])
  }

  // ----- the steps -----

  datatype Step =
    | Stamp(t: Tid, cmd: Cmd, migrating: bool)
    | Count(t: Tid)
    | Read(t: Tid)
    | Enter(t: Tid)
    | Retry(t: Tid)
    | Accept(t: Tid)
    | Refuse(t: Tid)
    | Leave(t: Tid)
    | Finish
    | Unlock(t: Tid)
    | Push(t: Tid)
    | Recheck(t: Tid)
    | Receive(t: Tid)
    | Forward(t: Tid)
    | StopBlocking(t: Tid)
    | NewHandle(t: Tid)
    | LoadStart(t: Tid)
    | CasStart(t: Tid)
    | LoadDrop(t: Tid)
    | CasDrop(t: Tid)
    | Observe

  /** The hint lets the command through in a state read as not blocking. */
  predicate Passes(hint: Hint, term: nat) {
    hint.NotBlocking? || (hint.InMigration? && term <= hint.term)
  }

  predicate Enabled(s: State, step: Step) {
    match step
    case Stamp(t, _, _) => At(s, t).Done?
    case Count(t) => At(s, t).Stamped?
    case Read(t) => At(s, t).Counted?
    case Enter(t) => At(s, t).Decided? && !At(s, t).blocking && Passes(At(s, t).hint, At(s, t).term)
    case Retry(t) => At(s, t).Decided? && !At(s, t).blocking && !Passes(At(s, t).hint, At(s, t).term)
    case Accept(t) => At(s, t).Entering?
    case Refuse(t) => At(s, t).Entering?
    case Leave(t) => At(s, t).Leaving?
    case Finish => s.inner > 0
    case Unlock(t) => At(s, t).Decided? && At(s, t).blocking
    case Push(t) => At(s, t).Queueing?
    case Recheck(t) => At(s, t).Rechecking?
    case Receive(t) => At(s, t).Releasing?
    case Forward(t) => At(s, t).Forwarding?
    case StopBlocking(t) => At(s, t).Done?
    case NewHandle(t) => At(s, t).Done?
    case LoadStart(t) => At(s, t).Starting?
    case CasStart(t) => At(s, t).StartLoaded?
    case LoadDrop(t) => At(s, t).Holding?
    case CasDrop(t) => At(s, t).DropLoaded?
    case Observe => true
  }

  /** The hint given to a command of a key in (or not in) migration. */
  function HintNow(s: State, migrating: bool): Hint {
    if !migrating then NotBlocking else if s.count > 0 then MustBlock else InMigration(s.term)
  }

  /** Compare-and-swap of the packed cell; a lost race goes back to the load. */
  function Cas(s: State, t: Tid): State
    requires At(s, t).StartLoaded? || At(s, t).DropLoaded?
  {
    var l := At(s, t);
    if (s.count, s.term) != (l.seenCount, l.seenTerm) then Put(s, t, if l.StartLoaded? then Starting else Holding)
    else if l.StartLoaded? then Put(s.(count := s.count + 1, term := s.term + 1, changes := s.changes + 1), t, Holding)
    else if s.count == 0 then s
    else Put(s.(count := s.count - 1, term := s.term + 1, changes := s.changes + 1, sealed := s.sealed && s.count > 1),
             t, if s.count == 1 then Releasing else Done)
  }

  function Apply(s: State, step: Step): State
    requires Enabled(s, step)
  {
    match step
    case Stamp(t, cmd, migrating) => Put(s, t, Stamped(cmd, HintNow(s, migrating), s.changes))
    case Count(t) => var l := At(s, t); Put(s.(running := s.running + 1), t, Counted(l.cmd, l.hint, l.stampedAt))
    case Read(t) => var l := At(s, t); Put(s, t, Decided(l.cmd, l.hint, l.stampedAt, s.count > 0, s.term, s.changes))
    case Enter(t) =>
      var l := At(s, t);
      Put(s.(running := s.running + 1), t, Entering(l.cmd, l.hint, l.stampedAt, l.readAt))
    case Retry(t) => Put(s.(running := s.running - 1), t, Done)
    case Accept(t) => Put(s.(inner := s.inner + 1), t, Leaving)
    case Refuse(t) => Put(s.(running := s.running - 1), t, Leaving)
    case Leave(t) => Put(s.(running := s.running - 1), t, Done)
    case Finish => s.(inner := s.inner - 1, running := s.running - 1)
    case Unlock(t) => Put(s.(running := s.running - 1), t, Queueing(At(s, t).cmd))
    case Push(t) => var c := At(s, t).cmd; Put(s.(queue := s.queue + [c], enqueued := s.enqueued + [c]), t, Rechecking)
    case Recheck(t) => Put(s, t, if s.count > 0 then Done else Releasing)
    case Receive(t) =>
      if s.queue == [] then Put(s, t, Done)
      else Put(s.(queue := s.queue[1..], popped := s.popped + 1), t, Forwarding(s.popped))
    case Forward(t) => Put(s.(sent := s.sent + {At(s, t).index}), t, Releasing)
    case StopBlocking(t) => Put(s, t, Releasing)
    case NewHandle(t) => Put(s, t, Starting)
    case LoadStart(t) => Put(s, t, StartLoaded(s.count, s.term))
    case CasStart(t) => Cas(s, t)
    case LoadDrop(t) => Put(s, t, DropLoaded(s.count, s.term))
    case CasDrop(t) => Cas(s, t)
    case Observe => if s.running == 0 && s.count > 0 then s.(sealed := true) else s
  }

  predicate Initial(s: State) {
    && s.count == s.term == s.inner == s.changes == s.popped == 0 && s.running == 0
    && s.queue == s.enqueued == [] && s.threads == map[] && !s.sealed && s.sent == {}
  }

  // ----- counters are what the threads hold -----

  datatype Weight = OfCounter | OfHandle

  /** How often a thread holds the running counter, or the blocking count. */
  function Weigh(w: Weight, l: Local): nat {
    match w
    case OfCounter => if l.Counted? || l.Decided? || l.Leaving? then 1 else if l.Entering? then 2 else 0
    case OfHandle => if l.Holding? || l.DropLoaded? then 1 else 0
  }

  ghost function Sum(keys: set<Tid>, threads: map<Tid, Local>, w: Weight): nat
    requires keys <= threads.Keys
  {
    if keys == {} then 0
    else
      var k :| k in keys;
      Weigh(w, threads[k]) + Sum(keys - {k}, threads, w)
  }

  lemma {:induction false} SumRemove(keys: set<Tid>, threads: map<Tid, Local>, w: Weight, t: Tid)
    requires keys <= threads.Keys && t in keys
    ensures Sum(keys, threads, w) == Weigh(w, threads[t]) + Sum(keys - {t}, threads, w)
  {
    var k :| k in keys && Sum(keys, threads, w) == Weigh(w, threads[k]) + Sum(keys - {k}, threads, w);
    if t != k {
      SumRemove(keys - {k}, threads, w, t);
      SumRemove(keys - {t}, threads, w, k);
      assert keys - {k} - {t} == keys - {t} - {k};
    }
  }

  lemma {:induction false} SumAgree(keys: set<Tid>, a: map<Tid, Local>, b: map<Tid, Local>, w: Weight)
    requires keys <= a.Keys && keys <= b.Keys && forall k :: k in keys ==> a[k] == b[k]
    ensures Sum(keys, a, w) == Sum(keys, b, w)
  {
    if keys != {} {
      var k :| k in keys;
      SumRemove(keys, a, w, k);
      SumRemove(keys, b, w, k);
      SumAgree(keys - {k}, a, b, w);
    }
  }

  ghost function Held(s: State, w: Weight): nat {
    Sum(s.threads.Keys, s.threads, w)
  }

  /** Moving one thread changes the sums by that thread's weight. */
  lemma HeldPut(s: State, t: Tid, l: Local, w: Weight)
    ensures Held(Put(s, t, l), w) + Weigh(w, At(s, t)) == Held(s, w) + Weigh(w, l)
  {
    var threads' := s.threads[t := l];
    SumRemove(threads'.Keys, threads', w, t);
    assert threads'.Keys - {t} == s.threads.Keys - {t};
    SumAgree(s.threads.Keys - {t}, s.threads, threads', w);
    if t in s.threads {
      SumRemove(s.threads.Keys, s.threads, w, t);
    } else {
      assert s.threads.Keys - {t} == s.threads.Keys;
    }
  }

  ghost predicate CountsHeld(s: State) {
    s.running == Held(s, OfCounter) + s.inner && s.count == Held(s, OfHandle)
  }

  lemma HandleCounted(s: State, t: Tid)
    requires CountsHeld(s)
    ensures Weigh(OfHandle, At(s, t)) <= s.count
  {
    HeldPut(s, t, Done, OfHandle);
  }

  /** What a step of thread `t` does to the counters is what it does to its own hold. */
  lemma StepWeights(s: State, step: Step)
    requires Enabled(s, step) && !step.Finish? && !step.Observe?
    requires Weigh(OfHandle, At(s, step.t)) <= s.count
    ensures var s' := Apply(s, step);
            var l, l' := At(s, step.t), At(s', step.t);
            && s'.threads == s.threads[step.t := l']
            && s'.running - s'.inner - Weigh(OfCounter, l') == s.running - s.inner - Weigh(OfCounter, l)
            && s'.count - Weigh(OfHandle, l') == s.count - Weigh(OfHandle, l)
  {
  }

  /** The running counter counts exactly the holders, the blocking count exactly the
      live handles; so dropping a handle never takes the count below zero. */
  lemma CountsStep(s: State, step: Step)
    requires CountsHeld(s) && Enabled(s, step)
    ensures CountsHeld(Apply(s, step))
    ensures step.CasDrop? ==> s.count > 0
  {
    var s' := Apply(s, step);
    if step.Finish? || step.Observe? {
      assert s'.threads == s.threads;
    } else {
      HandleCounted(s, step.t);
      StepWeights(s, step);
      hide Apply, Weigh, Sum;
      HeldPut(s, step.t, At(s', step.t), OfCounter);
      HeldPut(s, step.t, At(s', step.t), OfHandle);
    }
  }

  // ----- blocking keeps commands out -----

  /** In the inner sender's doorway: decided to enter, or about to. */
  predicate Inside(l: Local) {
    l.Entering? || (l.Decided? && !l.blocking)
  }

  ghost predicate KeptOut(s: State) {
    s.sealed ==> s.count > 0 && s.inner == 0 && forall t :: t in s.threads ==> !Inside(s.threads[t])
  }

  lemma NobodyHolds(s: State, t: Tid)
    requires CountsHeld(s) && s.running == 0 && t in s.threads
    ensures s.inner == 0 && !Inside(s.threads[t])
  {
    HeldPut(s, t, Done, OfCounter);
  }

  lemma KeptOutStep(s: State, step: Step)
    requires CountsHeld(s) && KeptOut(s) && Enabled(s, step)
    ensures KeptOut(Apply(s, step))
  {
    if step.Observe? {
      if s.running == 0 {
        forall t | t in s.threads ensures s.inner == 0 && !Inside(s.threads[t]) {
          NobodyHolds(s, t);
        }
        assert s.inner == 0 by {
          assert s.running == Held(s, OfCounter) + s.inner;
        }
      }
    } else if !step.Finish? {
      assert At(s, step.t).Decided? || At(s, step.t).Entering? ==> step.t in s.threads;
      HandleCounted(s, step.t);
    }
  }

  // ----- stamps and terms -----

  predicate StampOk(hint: Hint, stampedAt: nat) {
    hint.InMigration? ==> hint.term == stampedAt
  }

  predicate TermOk(l: Local, changes: nat) {
    match l
    case Stamped(_, hint, stampedAt) => stampedAt <= changes && StampOk(hint, stampedAt)
    case Counted(_, hint, stampedAt) => stampedAt <= changes && StampOk(hint, stampedAt)
    case Decided(_, hint, stampedAt, _, term, readAt) =>
      stampedAt <= readAt <= changes && term == readAt && StampOk(hint, stampedAt)
    case Entering(_, hint, stampedAt, readAt) =>
      stampedAt <= readAt <= changes && !hint.MustBlock? && (hint.InMigration? ==> stampedAt == readAt)
    case _ => true
  }

  ghost predicate TermsOk(s: State) {
    s.term == s.changes && forall t :: t in s.threads ==> TermOk(s.threads[t], s.changes)
  }

  /** Only one thread moves, and the number of changes never goes down. */
  lemma OneMoves(s: State, step: Step)
    requires Enabled(s, step)
    ensures var s' := Apply(s, step);
            && s.changes <= s'.changes && s'.term - s.term == s'.changes - s.changes
            && (if step.Finish? || step.Observe? then s'.threads == s.threads
                else s'.threads == s.threads[step.t := At(s', step.t)] || s' == s)
  {
  }

  lemma OwnTerm(s: State, step: Step)
    requires Enabled(s, step) && !step.Finish? && !step.Observe? && s.term == s.changes
    requires TermOk(At(s, step.t), s.changes)
    ensures TermOk(At(Apply(s, step), step.t), Apply(s, step).changes)
  {
  }

  lemma TermsStep(s: State, step: Step)
    requires TermsOk(s) && Enabled(s, step)
    ensures TermsOk(Apply(s, step))
  {
    OneMoves(s, step);
    if !step.Finish? && !step.Observe? {
      assert TermOk(At(s, step.t), s.changes);
      OwnTerm(s, step);
    }
    hide Apply, Enabled;
  }

  // ----- no command is left behind -----

  /** Due to look at the queue again, or emptying it. */
  predicate Responsible(l: Local) {
    l.Rechecking? || l.Releasing? || l.Forwarding?
  }

  ghost predicate NotStranded(s: State) {
    s.count == 0 && s.queue != [] ==> exists t :: t in s.threads && Responsible(s.threads[t])
  }

  lemma NotStrandedStep(s: State, step: Step)
    requires CountsHeld(s) && NotStranded(s) && Enabled(s, step)
    ensures NotStranded(Apply(s, step))
  {
    var s' := Apply(s, step);
    if s'.count == 0 && s'.queue != [] {
      if step.Finish? || step.Observe? {
        assert s'.threads == s.threads;
      } else {
        HandleCounted(s, step.t);
        if !Responsible(At(s', step.t)) {
          OthersResponsible(s, step);
        }
      }
    }
  }

  /** A step after which its own thread is not responsible changes nothing that
      matters: the queue was waiting before, and someone else was responsible. */
  lemma OthersResponsible(s: State, step: Step)
    requires NotStranded(s) && Enabled(s, step) && !step.Finish? && !step.Observe?
    requires Weigh(OfHandle, At(s, step.t)) <= s.count
    requires var s' := Apply(s, step); s'.count == 0 && s'.queue != [] && !Responsible(At(s', step.t))
    ensures exists t :: t in Apply(s, step).threads && Responsible(Apply(s, step).threads[t])
  {
    var s' := Apply(s, step);
    assert s.count == 0 && s.queue == s'.queue && !Responsible(At(s, step.t));
    var t :| t in s.threads && Responsible(s.threads[t]);
    assert t != step.t && s'.threads[t] == s.threads[t];
  }

  // ----- each queued command is passed on once -----

  predicate Carries(l: Local, i: nat) {
    l.Forwarding? && l.index == i
  }

  ghost predicate PassedOn(s: State) {
    && s.popped <= |s.enqueued| && s.queue == s.enqueued[s.popped..]
    && (forall i :: i in s.sent ==> i < s.popped)
    && (forall t :: t in s.threads && s.threads[t].Forwarding? ==>
          s.threads[t].index < s.popped && s.threads[t].index !in s.sent)
    && (forall t, u :: t in s.threads && u in s.threads && t != u &&
                       s.threads[t].Forwarding? && s.threads[u].Forwarding? ==>
          s.threads[t].index != s.threads[u].index)
    && (forall i: nat :: i < s.popped && i !in s.sent ==> exists t :: t in s.threads && Carries(s.threads[t], i))
  }

  /** Steps that touch neither the queue nor a popped command. */
  lemma PassedOnFrame(s: State, s': State, t: Tid)
    requires PassedOn(s)
    requires s'.threads == s.threads || s'.threads == s.threads[t := At(s', t)]
    requires !At(s, t).Forwarding? && !At(s', t).Forwarding?
    requires (s'.queue, s'.enqueued, s'.popped, s'.sent) == (s.queue, s.enqueued, s.popped, s.sent)
    ensures PassedOn(s')
  {
    forall i: nat | i < s'.popped && i !in s'.sent ensures exists u :: u in s'.threads && Carries(s'.threads[u], i) {
      var u :| u in s.threads && Carries(s.threads[u], i);
      assert s'.threads[u] == s.threads[u];
    }
  }

  lemma PassedOnReceive(s: State, t: Tid)
    requires PassedOn(s) && At(s, t).Releasing? && s.queue != []
    ensures PassedOn(Apply(s, Receive(t)))
  {
    var s' := Apply(s, Receive(t));
    forall i: nat | i < s'.popped && i !in s'.sent ensures exists u :: u in s'.threads && Carries(s'.threads[u], i) {
      if i < s.popped {
        var u :| u in s.threads && Carries(s.threads[u], i);
        assert s'.threads[u] == s.threads[u];
      } else {
        assert Carries(s'.threads[t], i);
      }
    }
  }

  lemma PassedOnForward(s: State, t: Tid)
    requires PassedOn(s) && At(s, t).Forwarding?
    ensures PassedOn(Apply(s, Forward(t)))
  {
    var s' := Apply(s, Forward(t));
    forall i: nat | i < s'.popped && i !in s'.sent ensures exists u :: u in s'.threads && Carries(s'.threads[u], i) {
      var u :| u in s.threads && Carries(s.threads[u], i);
      assert s'.threads[u] == s.threads[u];
    }
  }

  lemma PassedOnPush(s: State, t: Tid)
    requires PassedOn(s) && At(s, t).Queueing?
    ensures PassedOn(Apply(s, Push(t)))
  {
    var c := At(s, t).cmd;
    var s1 := s.(queue := s.queue + [c], enqueued := s.enqueued + [c]);
    assert PassedOn(s1);
    PassedOnFrame(s1, Apply(s, Push(t)), t);
  }

  lemma OtherSteps(s: State, step: Step)
    requires Enabled(s, step) && !step.Push? && !step.Forward? && !(step.Receive? && s.queue != [])
    ensures var s' := Apply(s, step);
            && (s'.queue, s'.enqueued, s'.popped, s'.sent) == (s.queue, s.enqueued, s.popped, s.sent)
            && (!step.Finish? && !step.Observe? ==> !At(s, step.t).Forwarding? && !At(s', step.t).Forwarding?)
  {
  }

  lemma PassedOnStep(s: State, step: Step)
    requires PassedOn(s) && Enabled(s, step)
    ensures PassedOn(Apply(s, step))
  {
    if step.Push? {
      PassedOnPush(s, step.t);
    } else if step.Forward? {
      PassedOnForward(s, step.t);
    } else if step.Receive? && s.queue != [] {
      PassedOnReceive(s, step.t);
    } else {
      OneMoves(s, step);
      OtherSteps(s, step);
      if step.Finish? || step.Observe? {
        UnchangedPasses(s, Apply(s, step));
      } else {
        PassedOnFrame(s, Apply(s, step), step.t);
      }
    }
  }

  lemma UnchangedPasses(s: State, s': State)
    requires PassedOn(s)
    requires (s'.queue, s'.enqueued, s'.popped, s'.sent, s'.threads) ==
             (s.queue, s.enqueued, s.popped, s.sent, s.threads)
    ensures PassedOn(s')
  {
    assert forall i: nat :: i < s'.popped && i !in s'.sent ==> exists t :: t in s.threads && Carries(s.threads[t], i);
  }

  // ----- every reachable state -----

  ghost predicate Inv(s: State) {
    CountsHeld(s) && KeptOut(s) && TermsOk(s) && NotStranded(s) && PassedOn(s)
  }

  lemma InvInitial(s: State)
    requires Initial(s)
    ensures Inv(s)
  {
  }

  lemma InvStep(s: State, step: Step)
    requires Inv(s) && Enabled(s, step)
    ensures Inv(Apply(s, step))
  {
    hide CountsHeld, KeptOut, TermsOk, NotStranded, PassedOn, Enabled, Apply;
    CountsStep(s, step);
    KeptOutStep(s, step);
    TermsStep(s, step);
    NotStrandedStep(s, step);
    PassedOnStep(s, step);
  }

  ghost predicate Run(states: seq<State>, steps: seq<Step>) {
    && |states| == |steps| + 1 && Initial(states[0])
    && forall k :: 0 <= k < |steps| ==> Enabled(states[k], steps[k]) && states[k + 1] == Apply(states[k], steps[k])
  }

  lemma {:induction false} RunInv(states: seq<State>, steps: seq<Step>, k: nat)
    requires Run(states, steps) && k <= |steps|
    ensures Inv(states[k])
  {
    hide Inv, Enabled, Apply, Initial;
    if k == 0 {
      InvInitial(states[0]);
    } else {
      RunInv(states, steps, k - 1);
      InvStep(states[k - 1], steps[k - 1]);
    }
  }

  // ----- theorem: blocking excludes commands -----

  lemma SealedStep(s: State, step: Step)
    requires Enabled(s, step)
    ensures s.sealed && Apply(s, step).count > 0 ==> Apply(s, step).sealed
    ensures step.Observe? && s.running == 0 && s.count > 0 ==> Apply(s, step).sealed
  {
  }

  lemma {:induction false} StaysSealed(states: seq<State>, steps: seq<Step>, j: nat, k: nat)
    requires Run(states, steps) && j < k <= |steps|
    requires steps[j].Observe? && states[j].running == 0 && states[j].count > 0
    requires forall i :: j <= i <= k ==> states[i].count > 0
    ensures states[k].sealed
  {
    hide Enabled, Apply, Initial;
    SealedStep(states[k - 1], steps[k - 1]);
    if j < k - 1 {
      StaysSealed(states, steps, j, k - 1);
    }
  }

  /** Once blocking has started and was observed to be done, no command is in the inner
      sender or past the decision to enter it, in every interleaving, until the blocking
      count is back at zero. */
  lemma BlockingExcludes(states: seq<State>, steps: seq<Step>, j: nat, k: nat)
    requires Run(states, steps) && j < k <= |steps|
    requires steps[j].Observe? && states[j].running == 0 && states[j].count > 0
    requires forall i :: j <= i <= k ==> states[i].count > 0
    ensures states[k].inner == 0 && forall t :: t in states[k].threads ==> !Inside(states[k].threads[t])
    ensures k < |steps| ==> !steps[k].Enter? && !steps[k].Accept?
  {
    StaysSealed(states, steps, j, k);
    RunInv(states, steps, k);
    if k < |steps| {
      assert Enabled(states[k], steps[k]);
    }
    hide Apply, Sum;
  }

  // ----- theorem: a stamp is good for one blocking term -----

  /** Thread `t` neither stamps nor, from `j` on, reads between steps `i` and `k`. */
  predicate SamePass(steps: seq<Step>, i: nat, j: nat, k: nat, t: Tid)
    requires k <= |steps|
  {
    && (forall m :: i < m < k ==> !(steps[m].Stamp? && steps[m].t == t))
    && (forall m :: j < m < k ==> !(steps[m].Read? && steps[m].t == t))
  }

  /** Step `i` stamped the command that thread `t` works on. */
  ghost predicate StampedBy(states: seq<State>, steps: seq<Step>, i: nat, t: Tid, l: Local)
    requires l.Stamped? || l.Counted? || l.Decided? || l.Entering?
  {
    && i < |steps| && i < |states| && steps[i].Stamp? && steps[i].t == t && steps[i].cmd == l.cmd
    && l.hint == HintNow(states[i], steps[i].migrating) && l.stampedAt == states[i].changes
  }

  /** Step `j` is where thread `t` read the blocking state. */
  ghost predicate ReadBy(states: seq<State>, steps: seq<Step>, j: nat, t: Tid, l: Local)
    requires l.Decided? || l.Entering?
  {
    && j < |steps| && j < |states| && steps[j] == Read(t) && l.readAt == states[j].changes
    && (l.Entering? ==> states[j].count == 0) && (l.Decided? ==> (l.blocking <==> states[j].count > 0))
  }

  ghost predicate Traced(states: seq<State>, steps: seq<Step>, k: nat, t: Tid, l: Local)
    requires k <= |steps|
  {
    && (l.Stamped? || l.Counted? ==>
          exists i :: 0 <= i < k && StampedBy(states, steps, i, t, l) && SamePass(steps, i, i, k, t))
    && (l.Decided? || l.Entering? ==>
          exists i, j :: 0 <= i < j < k && StampedBy(states, steps, i, t, l) && ReadBy(states, steps, j, t, l) &&
                         SamePass(steps, i, j, k, t))
  }

  /** What the moving thread remembers, it got from where it was. */
  lemma OwnTrace(s: State, step: Step)
    requires Enabled(s, step) && !step.Finish? && !step.Observe?
    ensures var l, l' := At(s, step.t), At(Apply(s, step), step.t);
            && (l'.Stamped? && l' != l ==>
                  step.Stamp? && l' == Stamped(step.cmd, HintNow(s, step.migrating), s.changes))
            && (l'.Counted? && l' != l ==> l == Stamped(l'.cmd, l'.hint, l'.stampedAt))
            && (l'.Decided? && l' != l ==>
                  step.Read? && l == Counted(l'.cmd, l'.hint, l'.stampedAt)
                  && l'.readAt == s.changes && (l'.blocking <==> s.count > 0))
            && (l'.Entering? && l' != l ==>
                  l.Decided? && !l.blocking && l'.cmd == l.cmd && l'.hint == l.hint
                  && l'.stampedAt == l.stampedAt && l'.readAt == l.readAt)
            && (l'.Decided? && l' == l ==> s == Apply(s, step))
  {
  }

  /** A thread with a stamped command takes no stamp, and one that has read does not read. */
  lemma NoNewPass(s: State, step: Step, t: Tid)
    requires Enabled(s, step)
    ensures !At(s, t).Done? ==> !(step.Stamp? && step.t == t)
    ensures !At(s, t).Counted? ==> !(step.Read? && step.t == t)
    ensures At(s, t).Counted? && At(Apply(s, step), t) == At(s, t) ==> !(step.Read? && step.t == t)
  {
  }

  lemma TracedStep(states: seq<State>, steps: seq<Step>, k: nat, t: Tid)
    requires Run(states, steps) && k < |steps| && Traced(states, steps, k, t, At(states[k], t))
    ensures Traced(states, steps, k + 1, t, At(states[k + 1], t))
  {
    var s, s', step := states[k], states[k + 1], steps[k];
    var l, l' := At(s, t), At(s', t);
    assert Enabled(s, step) && s' == Apply(s, step);
    OneMoves(s, step);
    NoNewPass(s, step, t);
    if l' == l {
      TracedLonger(states, steps, k, t, l);
    } else {
      assert !step.Finish? && !step.Observe? && step.t == t;
      OwnTrace(s, step);
      hide Apply, Enabled, Run, Initial;
      TracedMove(states, steps, k, t, l, l');
    }
  }

  lemma TracedMove(states: seq<State>, steps: seq<Step>, k: nat, t: Tid, l: Local, l': Local)
    requires k < |steps| && k < |states| && Traced(states, steps, k, t, l)
    requires !l.Done? ==> !(steps[k].Stamp? && steps[k].t == t)
    requires !l.Counted? ==> !(steps[k].Read? && steps[k].t == t)
    requires l'.Stamped? ==> StampedBy(states, steps, k, t, l')
    requires l'.Counted? ==> l == Stamped(l'.cmd, l'.hint, l'.stampedAt)
    requires l'.Decided? ==> l == Counted(l'.cmd, l'.hint, l'.stampedAt) && ReadBy(states, steps, k, t, l')
    requires l'.Entering? ==>
               l.Decided? && !l.blocking && l'.cmd == l.cmd && l'.hint == l.hint &&
               l'.stampedAt == l.stampedAt && l'.readAt == l.readAt
    ensures Traced(states, steps, k + 1, t, l')
  {
    hide HintNow;
    if l'.Stamped? {
      assert SamePass(steps, k, k, k + 1, t);
    } else if l'.Counted? {
      var i :| 0 <= i < k && StampedBy(states, steps, i, t, l) && SamePass(steps, i, i, k, t);
      assert StampedBy(states, steps, i, t, l') && SamePass(steps, i, i, k + 1, t);
    } else if l'.Decided? {
      var i :| 0 <= i < k && StampedBy(states, steps, i, t, l) && SamePass(steps, i, i, k, t);
      assert StampedBy(states, steps, i, t, l') && SamePass(steps, i, k, k + 1, t);
    } else if l'.Entering? {
      var i, j :| 0 <= i < j < k && StampedBy(states, steps, i, t, l) && ReadBy(states, steps, j, t, l) &&
                  SamePass(steps, i, j, k, t);
      assert StampedBy(states, steps, i, t, l') && ReadBy(states, steps, j, t, l') && SamePass(steps, i, j, k + 1, t);
    }
  }

  lemma TracedLonger(states: seq<State>, steps: seq<Step>, k: nat, t: Tid, l: Local)
    requires k < |steps| && Traced(states, steps, k, t, l)
    requires !l.Done? ==> !(steps[k].Stamp? && steps[k].t == t) && !(steps[k].Read? && steps[k].t == t)
    ensures Traced(states, steps, k + 1, t, l)
  {
    hide StampedBy, ReadBy;
    if l.Stamped? || l.Counted? {
      var i :| 0 <= i < k && StampedBy(states, steps, i, t, l) && SamePass(steps, i, i, k, t);
      assert SamePass(steps, i, i, k + 1, t);
    }
    if l.Decided? || l.Entering? {
      var i, j :| 0 <= i < j < k && StampedBy(states, steps, i, t, l) && ReadBy(states, steps, j, t, l) &&
                  SamePass(steps, i, j, k, t);
      assert SamePass(steps, i, j, k + 1, t);
    }
  }

  lemma {:induction false} RunTraced(states: seq<State>, steps: seq<Step>, k: nat, t: Tid)
    requires Run(states, steps) && k <= |steps|
    ensures Traced(states, steps, k, t, At(states[k], t))
  {
    if k > 0 {
      hide Enabled, Apply, Traced;
      RunTraced(states, steps, k - 1, t);
      TracedStep(states, steps, k - 1, t);
    }
  }

  lemma CellStep(s: State, step: Step)
    requires Enabled(s, step)
    ensures s.changes <= Apply(s, step).changes
    ensures s.changes == Apply(s, step).changes ==>
              Apply(s, step).count == s.count && Apply(s, step).term == s.term
  {
  }

  /** With no change of the packed cell in between, it held the same pair throughout. */
  lemma {:induction false} CellConstant(states: seq<State>, steps: seq<Step>, i: nat, j: nat, m: nat)
    requires Run(states, steps) && i <= m <= j <= |steps|
    ensures states[i].changes <= states[m].changes <= states[j].changes
    ensures states[i].changes == states[j].changes ==>
              states[m].count == states[i].count && states[m].term == states[i].term
    decreases j - i
  {
    hide Apply, Enabled, Initial;
    if i < m {
      CellStep(states[i], steps[i]);
      CellConstant(states, steps, i + 1, j, m);
    } else if m < j {
      CellStep(states[j - 1], steps[j - 1]);
      CellConstant(states, steps, i, j - 1, m);
    }
  }

  /** A command stamped during a migration enters the inner sender only if no blocking
      episode began or ended between its stamp and the state read in `send`, both of this
      very pass: the thread has not stamped or read again since. */
  lemma EntersInItsTerm(states: seq<State>, steps: seq<Step>, k: nat, t: Tid)
    requires Run(states, steps) && k < |steps| && steps[k] == Accept(t)
    requires At(states[k], t).Entering? && At(states[k], t).hint.InMigration?
    ensures exists i, j ::
              && 0 <= i < j < k && steps[i].Stamp? && steps[i].t == t && steps[j] == Read(t)
              && steps[i].cmd == At(states[k], t).cmd && SamePass(steps, i, j, k, t)
              && forall m :: i <= m <= j ==> states[m].count == 0 && states[m].term == states[i].term
  {
    hide Apply, Enabled, Initial;
    var l := At(states[k], t);
    RunTraced(states, steps, k, t);
    RunInv(states, steps, k);
    assert TermOk(l, states[k].changes);
    var i, j :| 0 <= i < j < k && StampedBy(states, steps, i, t, l) && ReadBy(states, steps, j, t, l) &&
                SamePass(steps, i, j, k, t);
    assert states[i].changes == states[j].changes && states[j].count == 0;
    CellConstant(states, steps, i, j, j);
    forall m | i <= m <= j ensures states[m].count == 0 && states[m].term == states[i].term {
      CellConstant(states, steps, i, j, m);
    }
  }

  /** What a pass decides, from the states at its stamp and at its read: queue the command if
      blocking was read; let it in if not and if it is outside any migration, or no episode
      was on at the stamp and none began or ended since; send it back otherwise. */
  ghost predicate PassDecides(states: seq<State>, steps: seq<Step>, i: nat, j: nat, k: nat, t: Tid)
    requires i < j < k <= |steps| && |states| == |steps| + 1 && steps[i].Stamp?
  {
    var free := states[j].count == 0;
    var same := states[i].count == 0 && states[i].changes == states[j].changes;
    && (Enabled(states[k], Unlock(t)) <==> !free)
    && (Enabled(states[k], Enter(t)) <==> free && (!steps[i].migrating || same))
    && (Enabled(states[k], Retry(t)) <==> free && steps[i].migrating && !same)
  }

  lemma DecidedEnables(s: State, t: Tid)
    requires At(s, t).Decided?
    ensures var l := At(s, t);
            && (Enabled(s, Unlock(t)) <==> l.blocking)
            && (Enabled(s, Enter(t)) <==> !l.blocking && Passes(l.hint, l.term))
            && (Enabled(s, Retry(t)) <==> !l.blocking && !Passes(l.hint, l.term))
  {
  }

  /** A thread that has read the state goes on in exactly one way. */
  lemma DecidesExactly(states: seq<State>, steps: seq<Step>, k: nat, t: Tid)
    requires Run(states, steps) && k <= |steps| && At(states[k], t).Decided?
    ensures exists i, j ::
              && 0 <= i < j < k && steps[i].Stamp? && steps[i].t == t && steps[j] == Read(t)
              && steps[i].cmd == At(states[k], t).cmd && SamePass(steps, i, j, k, t)
              && PassDecides(states, steps, i, j, k, t)
  {
    hide Apply, Initial, Enabled, SamePass;
    var l := At(states[k], t);
    RunTraced(states, steps, k, t);
    RunInv(states, steps, k);
    assert TermOk(l, states[k].changes);
    var i, j :| 0 <= i < j < k && StampedBy(states, steps, i, t, l) && ReadBy(states, steps, j, t, l) &&
                SamePass(steps, i, j, k, t);
    DecidedEnables(states[k], t);
    RunInv(states, steps, i);
    assert states[i].term == states[i].changes;
  }

  // ----- theorem: nothing is stranded, nothing is lost or repeated -----

  /** An unblocked queue nobody looks after is empty, and every command ever queued has
      been passed on. */
  lemma QuiescentIsEmpty(states: seq<State>, steps: seq<Step>, k: nat)
    requires Run(states, steps) && k <= |steps| && states[k].count == 0
    requires forall t :: t in states[k].threads ==> !Responsible(states[k].threads[t])
    ensures states[k].queue == []
    ensures forall i :: 0 <= i < |states[k].enqueued| <==> i in states[k].sent
  {
    RunInv(states, steps, k);
    var s := states[k];
    assert s.queue == [] && s.popped == |s.enqueued|;
  }

  /** A queued command is passed on at most once. */
  lemma PassedOnOnce(states: seq<State>, steps: seq<Step>, k: nat)
    requires Run(states, steps) && k < |steps| && steps[k].Forward?
    ensures At(states[k], steps[k].t).Forwarding?
    ensures At(states[k], steps[k].t).index < |states[k].enqueued|
    ensures At(states[k], steps[k].t).index !in states[k].sent
  {
    RunInv(states, steps, k);
    assert Enabled(states[k], steps[k]);
  }

  // ----- the packed cell is swapped as a whole -----

  /** A swap goes through exactly if the cell still holds the pair that was loaded. */
  lemma SwapsExactly(s: State, t: Tid)
    requires At(s, t).StartLoaded? || (At(s, t).DropLoaded? && s.count > 0)
    ensures var l, s' := At(s, t), Cas(s, t);
            && (s.count == l.seenCount && s.term == l.seenTerm ==>
                  && s'.count == (if l.StartLoaded? then s.count + 1 else s.count - 1) && s'.term == s.term + 1
                  && (l.StartLoaded? ==> At(s', t).Holding?)
                  && (l.DropLoaded? ==> At(s', t).Done? || At(s', t).Releasing?))
            && (s.count != l.seenCount || s.term != l.seenTerm ==>
                  && (s'.count, s'.term, s'.changes, s'.sealed) == (s.count, s.term, s.changes, s.sealed)
                  && At(s', t) == if l.StartLoaded? then Starting else Holding)
  {
  }

  /** Left alone, a handle starts and ends blocking. */
  lemma HandleWorks(s: State, t: Tid)
    requires At(s, t).Starting?
    ensures var s1 := Apply(s, LoadStart(t));
            var s2 := Apply(s1, CasStart(t));
            var s3 := Apply(s2, LoadDrop(t));
            var s4 := Apply(s3, CasDrop(t));
            s2.count == s.count + 1 && At(s2, t).Holding? && s4.count == s.count && s4.term == s.term + 2
  {
  }

  /** Waiting for the commands inside ends exactly when the running counter is zero; until
      then a command inside can finish. */
  lemma WaitEnds(s: State)
    requires s.count > 0 && !s.sealed
    ensures s.inner > 0 ==> Enabled(s, Finish) && Apply(s, Finish).inner == s.inner - 1
    ensures Enabled(s, Observe) && (Apply(s, Observe).sealed <==> s.running == 0)
  {
  }

  // ----- who releases the queue -----

  /** A thread starts to release the queue when it finds no blocking after queueing its
      command, when it ends the last blocking episode, or when blocking is stopped. */
  lemma ReleasesExactly(s: State, step: Step, t: Tid)
    requires Enabled(s, step) && !At(s, t).Releasing? && !At(s, t).Forwarding?
    ensures var s' := Apply(s, step);
            At(s', t).Releasing? <==>
            || step == StopBlocking(t)
            || (step == Recheck(t) && s.count == 0)
            || (step == CasDrop(t) && s.count == 1 && s'.count == 0)
  {
  }

  // ----- nobody is stuck -----

  /** A step is taken only by a thread that has come to it. */
  lemma StepsInOrder(s: State, step: Step)
    requires Enabled(s, step) && !step.Finish? && !step.Observe?
    ensures Initial(s) ==> At(s, step.t).Done?
    ensures step.Stamp? || step.StopBlocking? || step.NewHandle? ==> At(s, step.t).Done?
    ensures step.Count? ==> At(s, step.t).Stamped?
    ensures step.Read? ==> At(s, step.t).Counted?
    ensures step.Enter? || step.Retry? || step.Unlock? ==> At(s, step.t).Decided?
    ensures step.Accept? || step.Refuse? ==> At(s, step.t).Entering?
    ensures step.Leave? ==> At(s, step.t).Leaving?
    ensures step.Push? ==> At(s, step.t).Queueing?
    ensures step.Recheck? ==> At(s, step.t).Rechecking?
    ensures step.Receive? ==> At(s, step.t).Releasing?
    ensures step.Forward? ==> At(s, step.t).Forwarding?
    ensures step.LoadStart? ==> At(s, step.t).Starting?
    ensures step.CasStart? ==> At(s, step.t).StartLoaded?
    ensures step.LoadDrop? ==> At(s, step.t).Holding?
    ensures step.CasDrop? ==> At(s, step.t).DropLoaded?
  {
  }

  /** Every thread that is not done has a step to take. */
  lemma ThreadMoves(s: State, t: Tid) returns (step: Step)
    requires !At(s, t).Done?
    ensures !step.Finish? && !step.Observe? && step.t == t && Enabled(s, step)
  {
    match At(s, t)
    case Stamped(_, _, _) => step := Count(t);
    case Counted(_, _, _) => step := Read(t);
    case Decided(_, hint, _, blocking, term, _) =>
      step := if blocking then Unlock(t) else if Passes(hint, term) then Enter(t) else Retry(t);
    case Entering(_, _, _, _) => step := Accept(t);
    case Leaving => step := Leave(t);
    case Queueing(_) => step := Push(t);
    case Rechecking => step := Recheck(t);
    case Releasing => step := Receive(t);
    case Forwarding(_) => step := Forward(t);
    case Starting => step := LoadStart(t);
    case StartLoaded(_, _) => step := CasStart(t);
    case Holding => step := LoadDrop(t);
    case DropLoaded(_, _) => step := CasDrop(t);
  }

  /** A thread that releases the queue passes on all it finds and is done. */
  ghost predicate Drained(s: State, t: Tid, s': State) {
    && At(s', t).Done? && s'.queue == [] && s'.enqueued == s.enqueued
    && (forall i :: s.popped <= i < s.popped + |s.queue| ==> i in s'.sent) && s.sent <= s'.sent
  }

  ghost predicate Leads(s: State, steps: seq<Step>, s': State)
    decreases |steps|
  {
    if steps == [] then s' == s else Enabled(s, steps[0]) && Leads(Apply(s, steps[0]), steps[1..], s')
  }

  lemma LeadsBefore(s: State, step: Step, steps: seq<Step>, s': State)
    requires Enabled(s, step) && Leads(Apply(s, step), steps, s')
    ensures Leads(s, [step] + steps, s')
  {
    assert ([step] + steps)[1..] == steps;
  }

  lemma LeadsOne(s: State, step: Step)
    requires Enabled(s, step)
    ensures Leads(s, [step], Apply(s, step))
  {
    assert [step][1..] == [];
  }

  lemma {:induction false} QueueDrains(s: State, t: Tid) returns (steps: seq<Step>, s': State)
    requires At(s, t).Releasing?
    ensures Leads(s, steps, s') && Drained(s, t, s')
    decreases |s.queue|
  {
    var s1 := Apply(s, Receive(t));
    if s.queue == [] {
      steps, s' := [Receive(t)], s1;
      LeadsOne(s, Receive(t));
    } else {
      var s2 := Apply(s1, Forward(t));
      assert s2.sent == s.sent + {s.popped} && s2.popped == s.popped + 1 && |s2.queue| == |s.queue| - 1;
      assert s2.enqueued == s.enqueued && At(s2, t).Releasing? && Enabled(s, Receive(t)) && Enabled(s1, Forward(t));
      hide Apply, Enabled, Leads;
      steps, s' := QueueDrains(s2, t);
      LeadsBefore(s1, Forward(t), steps, s');
      LeadsBefore(s, Receive(t), [Forward(t)] + steps, s');
      steps := [Receive(t)] + ([Forward(t)] + steps);
    }
  }

  // ----- the packed cell -----

  function Combine(n1: bv32, n2: bv32): bv64 {
    ((n1 as bv64) << 32) + (n2 as bv64)
  }

  function Split(n: bv64): (bv32, bv32) {
    var mask2: bv64 := 0xffff_ffff;
    var mask1 := mask2 << 32;
    (((n & mask1) >> 32) as bv32, (n & mask2) as bv32)
  }

  /** Packing and splitting are inverse, so one 64-bit compare-and-swap is a
      compare-and-swap of both numbers. */
  lemma PackedPair(n1: bv32, n2: bv32, n: bv64)
    ensures Split(Combine(n1, n2)) == (n1, n2)
    ensures Combine(Split(n).0, Split(n).1) == n
  {
  }
}
