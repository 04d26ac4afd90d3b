/** Moving the keys of a slot range from the source to the destination node: one scanner
    and any number of on-demand movers, each doing DUMP, RESTORE and DEL, with lock
    conflicts, lost connections and retries (src/migration/scan_migration.rs). */
module Transfer {
  type Key = nat

  type Tid = nat

  /** What does not change during a run: the source's keys at the switch, the keys inside
      the migrating ranges, and the scan cursor at which each key is found. */
  datatype Setup = Setup(src0: map<Key, string>, inside: set<Key>, pos: map<Key, nat>, cursors: nat)

  /** A mover: `retry` is set for the scanner when it could not lock all keys it saw. */
  datatype Mover =
    | Idle
    | Dumping(left: set<Key>, entries: map<Key, string>, retry: bool)
    | Sending(entries: map<Key, string>, answered: set<Key>, retry: bool)
    | Deleting(keys: set<Key>, retry: bool)
    | Finished(ok: bool, retry: bool)

  /** The two nodes, the movers (mover 0 is the scanner) and its cursor; and as history
      the keys the destination accepted or already held, those this migration deleted
      at the source, and those that expired there. */
  datatype State = State(
    src: map<Key, string>, dst: map<Key, string>, movers: map<Tid, Mover>, cursor: nat, done: bool,
    arrived: set<Key>, deleted: set<Key>, expired: set<Key>)

  const SCANNER: Tid := 0

  function At(s: State, t: Tid): Mover {
    if t in s.movers then s.movers[t] else Idle
  }

  function Put(s: State, t: Tid, m: Mover): State {
    s.(movers := s.movers[t := m])
  }

  datatype Step =
    | Scan(seen: set<Key>, locked: set<Key>)
    | Sync(t: Tid, keys: set<Key>)
    | DumpKey(t: Tid, key: Key)
    | Dumped(t: Tid)
    | RestoreKey(t: Tid, key: Key)
    | AttemptFails(t: Tid)
    | AllAnswered(t: Tid)
    | Delete(t: Tid, replied: bool)
    | GiveUp(t: Tid)
    | NextCursor
    | SyncDone(t: Tid)
    | Expire(key: Key)
    | Write(key: Key, value: string)
    | Remove(key: Key)

  predicate Wf(u: Setup) {
    u.cursors > 0 && forall k :: k in u.src0 ==> k in u.pos && u.pos[k] < u.cursors
  }

  /** SCAN returns every key resident at the cursor, and maybe others. */
  predicate Complete(u: Setup, s: State, seen: set<Key>) {
    forall k :: k in s.src && k in u.pos && u.pos[k] == s.cursor ==> k in seen
  }

  predicate Enabled(u: Setup, s: State, step: Step) {
    match step
    case Scan(seen, locked) => At(s, SCANNER).Idle? && !s.done && Complete(u, s, seen) && locked <= seen * u.inside
    case Sync(t, keys) => t != SCANNER && At(s, t).Idle? && keys <= u.inside
    case DumpKey(t, key) => At(s, t).Dumping? && key in At(s, t).left
    case Dumped(t) => At(s, t).Dumping? && At(s, t).left == {}
    case RestoreKey(t, key) => At(s, t).Sending? && key in At(s, t).entries && key !in At(s, t).answered
    case AttemptFails(t) => At(s, t).Sending?
    case AllAnswered(t) => At(s, t).Sending? && At(s, t).answered == At(s, t).entries.Keys
    case Delete(t, _) => At(s, t).Deleting?
    case GiveUp(t) => At(s, t).Dumping? || At(s, t).Deleting?
    case NextCursor => At(s, SCANNER).Finished?
    case SyncDone(t) => t != SCANNER && At(s, t).Finished?
    case Expire(key) => key in s.src
    case Write(_, _) => true
    case Remove(_) => true
  }

  function Apply(u: Setup, s: State, step: Step): State
    requires Enabled(u, s, step)
  {
    match step
    case Scan(seen, locked) => Put(s, SCANNER, Dumping(locked, map[], locked != seen * u.inside))
    case Sync(t, keys) => Put(s, t, Dumping(keys, map[], false))
    case DumpKey(t, key) =>
      var m := At(s, t);
      Put(s, t, Dumping(m.left - {key}, if key in s.src then m.entries[key := s.src[key]] else m.entries, m.retry))
    case Dumped(t) => Put(s, t, Sending(At(s, t).entries, {}, At(s, t).retry))
    case RestoreKey(t, key) =>
      var m := At(s, t);
      Put(s.(dst := if key in s.dst then s.dst else s.dst[key := m.entries[key]], arrived := s.arrived + {key}),
          t, Sending(m.entries, m.answered + {key}, m.retry))
    case AttemptFails(t) => Put(s, t, Sending(At(s, t).entries, {}, At(s, t).retry))
    case AllAnswered(t) => Put(s, t, Deleting(At(s, t).entries.Keys, At(s, t).retry))
    case Delete(t, replied) =>
      var keys := At(s, t).keys;
      Put(s.(src := s.src - keys, deleted := s.deleted + (s.src.Keys * keys)), t, Finished(replied, At(s, t).retry))
    case GiveUp(t) => Put(s, t, Finished(false, At(s, t).retry))
    case NextCursor =>
      var m := At(s, SCANNER);
      var s1 := Put(s, SCANNER, Idle);
      if !m.ok || m.retry then s1
      else if s.cursor + 1 < u.cursors then s1.(cursor := s.cursor + 1)
      else s1.(cursor := 0, done := true)
    case SyncDone(t) => Put(s, t, Idle)
    case Expire(key) => s.(src := s.src - {key}, expired := s.expired + {key})
    case Write(key, value) => s.(dst := s.dst[key := value])
    case Remove(key) => s.(dst := s.dst - {key})
  }

  predicate Initial(u: Setup, s: State) {
    && s.src == u.src0 && s.movers == map[] && s.cursor == 0 && !s.done
    && s.arrived == s.deleted == s.expired == {}
  }

  // ----- nothing is deleted before it arrived -----

  ghost predicate MoverOk(u: Setup, s: State, m: Mover) {
    match m
    case Dumping(_, entries, _) => FromSource(u, entries)
    case Sending(entries, answered, _) => FromSource(u, entries) && answered <= s.arrived
    case Deleting(keys, _) => keys <= s.arrived
    case _ => true
  }

  /** Dumped values are the source's own. */
  predicate FromSource(u: Setup, entries: map<Key, string>) {
    forall k :: k in entries ==> k in u.src0 && u.src0[k] == entries[k]
  }

  ghost predicate Safe(u: Setup, s: State) {
    && FromSource(u, s.src)
    && (forall t :: t in s.movers ==> MoverOk(u, s, s.movers[t]))
    && s.deleted <= s.arrived
    && (forall k :: k in u.src0 ==> k in s.src || k in s.deleted || k in s.expired)
  }

  function Who(step: Step): Tid {
    match step
    case Scan(_, _) => SCANNER
    case NextCursor => SCANNER
    case Expire(_) => SCANNER
    case Write(_, _) => SCANNER
    case Remove(_) => SCANNER
    case _ => step.t
  }

  /** The source only loses keys, and those are accounted for; arrivals only grow. */
  lemma SourceShrinks(u: Setup, s: State, step: Step)
    requires Enabled(u, s, step)
    ensures var s' := Apply(u, s, step);
            && s'.src.Keys <= s.src.Keys && (forall k :: k in s'.src ==> s'.src[k] == s.src[k])
            && s.arrived <= s'.arrived && s.deleted <= s'.deleted && s.expired <= s'.expired
            && (forall k :: k in s.src && k !in s'.src ==> k in s'.deleted || k in s'.expired)
  {
  }

  lemma OneMoves(u: Setup, s: State, step: Step)
    requires Enabled(u, s, step)
    ensures var s' := Apply(u, s, step);
            s'.movers == s.movers || s'.movers == s.movers[Who(step) := At(s', Who(step))]
  {
  }

  lemma OwnMover(u: Setup, s: State, step: Step)
    requires FromSource(u, s.src) && MoverOk(u, s, At(s, Who(step))) && Enabled(u, s, step) && s.deleted <= s.arrived
    ensures MoverOk(u, Apply(u, s, step), At(Apply(u, s, step), Who(step)))
    ensures Apply(u, s, step).deleted <= Apply(u, s, step).arrived
  {
  }

  lemma SafeStep(u: Setup, s: State, step: Step)
    requires Safe(u, s) && Enabled(u, s, step)
    ensures Safe(u, Apply(u, s, step))
  {
    assert MoverOk(u, s, At(s, Who(step)));
    SourceShrinks(u, s, step);
    OneMoves(u, s, step);
    OwnMover(u, s, step);
    hide Apply, Enabled, Who;
  }

  // ----- a finished scan leaves nothing behind -----

  /** Keys still to be moved at the scanner's cursor. */
  predicate Here(u: Setup, s: State, k: Key) {
    k in s.src && k in u.inside && k in u.pos && u.pos[k] == s.cursor
  }

  ghost predicate Swept(u: Setup, s: State) {
    var m := At(s, SCANNER);
    && s.cursor < u.cursors
    && (forall k :: k in s.src && k in u.inside && k in u.pos ==> !s.done && s.cursor <= u.pos[k])
    && (m.Dumping? && !m.retry ==> forall k :: Here(u, s, k) ==> k in m.left || k in m.entries)
    && (m.Sending? && !m.retry ==> forall k :: Here(u, s, k) ==> k in m.entries)
    && (m.Deleting? && !m.retry ==> forall k :: Here(u, s, k) ==> k in m.keys)
    && (m.Finished? && m.ok && !m.retry ==> forall k :: !Here(u, s, k))
  }

  /** Steps of others only take keys away from the source. */
  lemma SweptFrame(u: Setup, s: State, s': State)
    requires Swept(u, s) && At(s', SCANNER) == At(s, SCANNER) && (s'.cursor, s'.done) == (s.cursor, s.done)
    requires s'.src.Keys <= s.src.Keys
    ensures Swept(u, s')
  {
    assert forall k :: Here(u, s', k) ==> Here(u, s, k);
  }

  lemma OthersStep(u: Setup, s: State, step: Step)
    requires Enabled(u, s, step) && !step.Scan? && !step.NextCursor?
    requires Who(step) != SCANNER || step.Expire? || step.Write? || step.Remove?
    ensures var s' := Apply(u, s, step);
            At(s', SCANNER) == At(s, SCANNER) && (s'.cursor, s'.done) == (s.cursor, s.done)
  {
  }

  lemma ScannerStep(u: Setup, s: State, step: Step)
    requires Swept(u, s) && Enabled(u, s, step) && Who(step) == SCANNER
    requires !step.NextCursor? && !step.Expire? && !step.Write? && !step.Remove?
    ensures Swept(u, Apply(u, s, step))
  {
  }

  lemma CursorStep(u: Setup, s: State)
    requires Wf(u) && FromSource(u, s.src) && Swept(u, s) && Enabled(u, s, NextCursor)
    ensures Swept(u, Apply(u, s, NextCursor))
  {
    forall k | k in s.src && k in u.inside && k in u.pos ensures u.pos[k] < u.cursors {
    }
    assert forall k :: k in s.src && k in u.inside && k in u.pos ==> Here(u, s, k) || s.cursor < u.pos[k];
  }

  lemma SweptStep(u: Setup, s: State, step: Step)
    requires Wf(u) && FromSource(u, s.src) && Swept(u, s) && Enabled(u, s, step)
    ensures Swept(u, Apply(u, s, step))
  {
    hide Swept, FromSource, Wf, Apply, Enabled;
    if step.NextCursor? {
      CursorStep(u, s);
    } else if Who(step) == SCANNER && !step.Expire? && !step.Write? && !step.Remove? {
      ScannerStep(u, s, step);
    } else {
      OthersStep(u, s, step);
      SourceShrinks(u, s, step);
      SweptFrame(u, s, Apply(u, s, step));
    }
  }

  // ----- every run -----

  ghost predicate Run(u: Setup, states: seq<State>, steps: seq<Step>) {
    && Wf(u) && |states| == |steps| + 1 && Initial(u, states[0])
    && forall k :: 0 <= k < |steps| ==>
         Enabled(u, states[k], steps[k]) && states[k + 1] == Apply(u, states[k], steps[k])
  }

  lemma SourceOnly(u: Setup, s: State)
    requires Safe(u, s)
    ensures FromSource(u, s.src)
  {
  }

  lemma {:induction false} RunInv(u: Setup, states: seq<State>, steps: seq<Step>, k: nat)
    requires Run(u, states, steps) && k <= |steps|
    ensures Safe(u, states[k]) && Swept(u, states[k])
  {
    if k > 0 {
      hide Safe, Swept, Enabled, Apply, Initial, Wf;
      RunInv(u, states, steps, k - 1);
      SourceOnly(u, states[k - 1]);
      SafeStep(u, states[k - 1], steps[k - 1]);
      SweptStep(u, states[k - 1], steps[k - 1]);
    }
  }

  /** In every run, keys deleted at the source were accepted by the destination or held
      by it before; a value restored is the source's value. */
  lemma NoKeyLost(u: Setup, states: seq<State>, steps: seq<Step>, k: nat)
    requires Run(u, states, steps) && k <= |steps|
    ensures states[k].deleted <= states[k].arrived
    ensures k < |steps| && steps[k].RestoreKey? && steps[k].key !in states[k].dst ==>
              && steps[k].key in u.src0 && steps[k].key in states[k + 1].dst
              && states[k + 1].dst[steps[k].key] == u.src0[steps[k].key]
  {
    RunInv(u, states, steps, k);
    if k < |steps| && steps[k].RestoreKey? {
      assert Enabled(u, states[k], steps[k]);
      assert MoverOk(u, states[k], At(states[k], steps[k].t));
    }
  }

  // ----- what the destination holds -----

  /** Clients do not touch the key between steps `a` and `b`. */
  predicate Untouched(steps: seq<Step>, a: nat, b: nat, key: Key)
    requires a <= b <= |steps|
  {
    forall i :: a <= i < b ==> !(steps[i].Write? && steps[i].key == key) && !(steps[i].Remove? && steps[i].key == key)
  }

  /** An untouched key of the destination keeps its value; a new one has the source's value
      and has arrived; an arriving one is held. */
  lemma DestinationStep(u: Setup, s: State, step: Step, key: Key)
    requires Safe(u, s) && Enabled(u, s, step)
    requires !(step.Write? && step.key == key) && !(step.Remove? && step.key == key)
    ensures var s' := Apply(u, s, step);
            && (key in s.dst ==> key in s'.dst && s'.dst[key] == s.dst[key])
            && (key in s'.arrived && key !in s.arrived ==> key in s'.dst)
            && (key in s'.dst && key !in s.dst ==> key in u.src0 && s'.dst[key] == u.src0[key])
  {
    if step.RestoreKey? {
      assert MoverOk(u, s, At(s, step.t));
    }
  }

  /** The value is the destination's own if it had one, the source's otherwise. */
  predicate Merged(u: Setup, dst0: map<Key, string>, key: Key, value: string) {
    if key in dst0 then value == dst0[key] else key in u.src0 && value == u.src0[key]
  }

  lemma {:induction false} HeldSince(u: Setup, states: seq<State>, steps: seq<Step>, a: nat, k: nat, key: Key)
    requires Run(u, states, steps) && a <= k <= |steps| && Untouched(steps, a, k, key)
    ensures key in states[k].dst ==> Merged(u, states[a].dst, key, states[k].dst[key])
    ensures key in states[a].dst || (key in states[k].arrived && key !in states[a].arrived) ==> key in states[k].dst
  {
    if a < k {
      hide Safe, Swept, Enabled, Apply, Initial, Wf;
      HeldSince(u, states, steps, a, k - 1, key);
      RunInv(u, states, steps, k - 1);
      DestinationStep(u, states[k - 1], steps[k - 1], key);
    }
  }

  /** In every run, a key that arrived or that this migration deleted at the source is held by the destination
      unless a client touched it: with the destination's own value if it had one before the
      switch, with the source's value otherwise. */
  lemma ArrivedIsHeld(u: Setup, states: seq<State>, steps: seq<Step>, k: nat, key: Key)
    requires Run(u, states, steps) && k <= |steps| && Untouched(steps, 0, k, key)
    requires key in states[k].deleted || key in states[k].arrived
    ensures key in states[k].dst && Merged(u, states[0].dst, key, states[k].dst[key])
  {
    RunInv(u, states, steps, k);
    HeldSince(u, states, steps, 0, k, key);
  }

  /** A client's write is never overwritten by the migration. */
  lemma ClientWins(u: Setup, states: seq<State>, steps: seq<Step>, j: nat, k: nat)
    requires Run(u, states, steps) && j < k <= |steps| && steps[j].Write? && Untouched(steps, j + 1, k, steps[j].key)
    ensures steps[j].key in states[k].dst && states[k].dst[steps[j].key] == steps[j].value
  {
    assert states[j + 1] == Apply(u, states[j], steps[j]);
    HeldSince(u, states, steps, j + 1, k, steps[j].key);
  }

  // ----- when a removal lasts -----

  /** Movers only dump keys of the migrating ranges. */
  ghost predicate Within(u: Setup, s: State) {
    forall t :: t in s.movers && s.movers[t].Dumping? ==> s.movers[t].left <= u.inside
  }

  predicate Carries(m: Mover, key: Key) {
    (m.Dumping? || m.Sending?) && key in m.entries
  }

  /** The key is nowhere: not at the destination, not to be had from the source, and no
      mover has its value. */
  ghost predicate Gone(u: Setup, s: State, key: Key) {
    && key !in s.dst && !(key in s.src && key in u.inside)
    && forall t :: t in s.movers ==> !Carries(s.movers[t], key)
  }

  lemma OwnWithin(u: Setup, s: State, step: Step)
    requires Within(u, s) && Enabled(u, s, step)
    ensures var m := At(Apply(u, s, step), Who(step)); m.Dumping? ==> m.left <= u.inside
  {
  }

  lemma WithinStep(u: Setup, s: State, step: Step)
    requires Within(u, s) && Enabled(u, s, step)
    ensures Within(u, Apply(u, s, step))
  {
    OwnWithin(u, s, step);
    OneMoves(u, s, step);
    hide Apply, Enabled, Who;
  }

  lemma OwnGone(u: Setup, s: State, step: Step, key: Key)
    requires Within(u, s) && Gone(u, s, key) && Enabled(u, s, step) && !(step.Write? && step.key == key)
    ensures key !in Apply(u, s, step).dst
    ensures !Carries(At(Apply(u, s, step), Who(step)), key)
  {
  }

  lemma GoneStep(u: Setup, s: State, step: Step, key: Key)
    requires Within(u, s) && Gone(u, s, key) && Enabled(u, s, step) && !(step.Write? && step.key == key)
    ensures Gone(u, Apply(u, s, step), key)
  {
    OwnGone(u, s, step, key);
    OneMoves(u, s, step);
    SourceShrinks(u, s, step);
    hide Apply, Enabled, Who, Carries;
  }

  /** Any further steps from `states[0]`. */
  ghost predicate Further(u: Setup, states: seq<State>, steps: seq<Step>) {
    && |states| == |steps| + 1
    && forall k :: 0 <= k < |steps| ==>
         Enabled(u, states[k], steps[k]) && states[k + 1] == Apply(u, states[k], steps[k])
  }

  predicate Unwritten(steps: seq<Step>, key: Key) {
    forall i :: 0 <= i < |steps| ==> !(steps[i].Write? && steps[i].key == key)
  }

  lemma {:induction false} StaysGone(u: Setup, states: seq<State>, steps: seq<Step>, k: nat, key: Key)
    requires Further(u, states, steps) && Unwritten(steps, key) && k <= |steps|
    requires Within(u, states[0]) && Gone(u, states[0], key)
    ensures Within(u, states[k]) && Gone(u, states[k], key)
  {
    if k > 0 {
      hide Within, Gone, Enabled, Apply;
      StaysGone(u, states, steps, k - 1, key);
      WithinStep(u, states[k - 1], steps[k - 1]);
      GoneStep(u, states[k - 1], steps[k - 1], key);
    }
  }

  /** One more step in front. */
  lemma FurtherBefore(u: Setup, s: State, step: Step, states: seq<State>, steps: seq<Step>)
    requires Enabled(u, s, step) && Further(u, states, steps) && states[0] == Apply(u, s, step)
    ensures Further(u, [s] + states, [step] + steps)
  {
    hide Enabled, Apply;
    var states', steps' := [s] + states, [step] + steps;
    forall k | 0 <= k < |steps'|
      ensures Enabled(u, states'[k], steps'[k]) && states'[k + 1] == Apply(u, states'[k], steps'[k])
    {
      if k > 0 {
        assert Enabled(u, states[k - 1], steps[k - 1]);
      }
    }
  }

  /** The key can come back to the destination without a client. */
  ghost predicate Returns(u: Setup, s: State, key: Key) {
    exists states, steps :: Further(u, states, steps) && Comes(s, states, steps, key)
  }

  predicate Comes(s: State, states: seq<State>, steps: seq<Step>, key: Key) {
    |states| == |steps| + 1 && states[0] == s && Unwritten(steps, key) && key in states[|steps|].dst
  }

  lemma ReturnsBefore(u: Setup, s: State, step: Step, key: Key)
    requires Enabled(u, s, step) && !step.Write? && Returns(u, Apply(u, s, step), key)
    ensures Returns(u, s, key)
  {
    hide Enabled, Apply, Further;
    var states, steps :| Further(u, states, steps) && Comes(Apply(u, s, step), states, steps, key);
    FurtherBefore(u, s, step, states, steps);
    assert Comes(s, [s] + states, [step] + steps, key);
  }

  lemma ReturnsNow(u: Setup, s: State, key: Key)
    requires key in s.dst
    ensures Returns(u, s, key)
  {
    assert Further(u, [s], []) && Comes(s, [s], [], key);
  }

  /** A mover that has the value and loses its connection sends it again. */
  lemma SendsAgain(u: Setup, s: State, t: Tid, key: Key)
    requires At(s, t).Sending? && key in At(s, t).entries
    ensures Returns(u, s, key)
  {
    var s1 := Apply(u, s, AttemptFails(t));
    var s2 := Apply(u, s1, RestoreKey(t, key));
    hide Returns;
    ReturnsNow(u, s2, key);
    ReturnsBefore(u, s1, RestoreKey(t, key), key);
    ReturnsBefore(u, s, AttemptFails(t), key);
  }

  lemma {:induction false} DumpsOn(u: Setup, s: State, t: Tid, key: Key)
    requires At(s, t).Dumping? && key in At(s, t).entries
    ensures Returns(u, s, key)
    decreases |At(s, t).left|
  {
    hide Returns;
    if At(s, t).left == {} {
      SendsAgain(u, Apply(u, s, Dumped(t)), t, key);
      ReturnsBefore(u, s, Dumped(t), key);
    } else {
      var k :| k in At(s, t).left;
      DumpsOn(u, Apply(u, s, DumpKey(t, k)), t, key);
      ReturnsBefore(u, s, DumpKey(t, k), key);
    }
  }

  lemma {:induction false} FreeTid(taken: set<Tid>) returns (t: Tid)
    ensures t != SCANNER && forall x :: x in taken ==> x < t
  {
    if taken == {} {
      t := 1;
    } else {
      var x :| x in taken;
      var y := FreeTid(taken - {x});
      t := if x < y then y else x + 1;
      assert forall z :: z in taken && z != x ==> z in taken - {x};
    }
  }

  lemma Fetched(u: Setup, s: State, key: Key)
    requires key in s.src && key in u.inside
    ensures Returns(u, s, key)
  {
    var t := FreeTid(s.movers.Keys);
    assert t !in s.movers;
    var s1 := Apply(u, s, Sync(t, {key}));
    var s2 := Apply(u, s1, DumpKey(t, key));
    hide Returns;
    DumpsOn(u, s2, t, key);
    ReturnsBefore(u, s1, DumpKey(t, key), key);
    ReturnsBefore(u, s, Sync(t, {key}), key);
  }

  lemma {:induction false} RunWithin(u: Setup, states: seq<State>, steps: seq<Step>, k: nat)
    requires Run(u, states, steps) && k <= |steps|
    ensures Within(u, states[k])
  {
    if k > 0 {
      hide Within, Enabled, Apply, Initial, Wf;
      RunWithin(u, states, steps, k - 1);
      WithinStep(u, states[k - 1], steps[k - 1]);
    }
  }

  /** In every run, a key the destination does not hold stays away until a client writes
      it, whatever happens, if and only if it is nowhere else either. */
  lemma RemovalLasts(u: Setup, states: seq<State>, steps: seq<Step>, k: nat, key: Key)
    requires Run(u, states, steps) && k <= |steps| && key !in states[k].dst
    ensures Returns(u, states[k], key) <==> !Gone(u, states[k], key)
  {
    RunWithin(u, states, steps, k);
    var s := states[k];
    hide Run, Within, Further;
    if Gone(u, s, key) {
      forall more, next | Further(u, more, next) ensures !Comes(s, more, next, key) {
        if Comes(s, more, next, key) {
          StaysGone(u, more, next, |next|, key);
        }
      }
    } else if key in s.src && key in u.inside {
      Fetched(u, s, key);
    } else {
      var t :| t in s.movers && Carries(s.movers[t], key);
      if s.movers[t].Sending? {
        SendsAgain(u, s, t, key);
      } else {
        DumpsOn(u, s, t, key);
      }
    }
  }

  /** A removal right after the key was synchronized lasts, unless another mover has the
      key's value. */
  lemma SyncedRemovalLasts(u: Setup, s: State, t: Tid, key: Key, replied: bool)
    requires At(s, t).Deleting? && (key in At(s, t).keys || key !in s.src)
    requires forall x :: x in s.movers && x != t ==> !Carries(s.movers[x], key)
    ensures Gone(u, Apply(u, Apply(u, s, Delete(t, replied)), Remove(key)), key)
  {
  }

  // ----- a removal that does not last -----

  const ONE_KEY := Setup(map[7 := "v"], {7}, map[7 := 0], 1)

  const RETRIED := [Sync(1, {7}), DumpKey(1, 7), Dumped(1), RestoreKey(1, 7), Remove(7), AttemptFails(1),
                    RestoreKey(1, 7)]

  /** The states between these steps; the mover's value reaches the destination twice. */
  function Retried(): (states: seq<State>)
    ensures |states| == |RETRIED| + 1
  {
    var start := State(map[7 := "v"], map[], map[], 0, false, {}, {}, {});
    var sent := start.(movers := map[1 := Sending(map[7 := "v"], {7}, false)], arrived := {7});
    [ start,
      start.(movers := map[1 := Dumping({7}, map[], false)]),
      start.(movers := map[1 := Dumping({}, map[7 := "v"], false)]),
      start.(movers := map[1 := Sending(map[7 := "v"], {}, false)]),
      sent.(dst := map[7 := "v"]),
      sent,
      sent.(movers := map[1 := Sending(map[7 := "v"], {}, false)]),
      sent.(dst := map[7 := "v"]) ]
  }

  ghost predicate Leads(k: nat)
    requires k < |RETRIED|
  {
    Enabled(ONE_KEY, Retried()[k], RETRIED[k]) && Retried()[k + 1] == Apply(ONE_KEY, Retried()[k], RETRIED[k])
  }

  lemma RetriedDump()
    ensures Leads(0) && Leads(1) && Leads(2)
  {
    assert {7} - {7} == {} && map[][7 := "v"] == map[7 := "v"];
  }

  lemma RetriedSend()
    ensures Leads(3) && Leads(4)
  {
    assert {} + {7} == {7} && map[][7 := "v"] == map[7 := "v"];
  }

  lemma RetriedAgain()
    ensures Leads(5) && Leads(6)
  {
    assert {7} + {7} == {7} && {} + {7} == {7} && map[][7 := "v"] == map[7 := "v"];
  }

  lemma RetriedEnds()
    ensures Wf(ONE_KEY) && Initial(ONE_KEY, Retried()[0])
    ensures RETRIED[4] == Remove(7) && 7 !in Retried()[5].dst && 7 in Retried()[7].dst
  {
  }

  /** Without waiting for the mover: it restores a key, a client removes it, the mover loses
      its connection before all its replies are in and sends again, and the key is back. */
  lemma RemovalUndone()
    ensures Run(ONE_KEY, Retried(), RETRIED)
    ensures RETRIED[4] == Remove(7) && 7 !in Retried()[5].dst && 7 in Retried()[7].dst
  {
    hide Wf, Initial, Retried, Enabled, Apply;
    RetriedEnds();
    RetriedDump();
    RetriedSend();
    RetriedAgain();
    forall k | 0 <= k < |RETRIED| ensures Leads(k) {
      assert k == 0 || k == 1 || k == 2 || k == 3 || k == 4 || k == 5 || k == 6;
    }
  }

  /** A finished scan leaves no key of the range at the source: each one expired there, was
      touched by a client, or is at the destination with its value. */
  lemma ScanLeavesNothing(u: Setup, states: seq<State>, steps: seq<Step>, k: nat)
    requires Run(u, states, steps) && k <= |steps| && states[k].done
    ensures forall key :: key in u.inside ==> key !in states[k].src
    ensures forall key :: key in u.src0 && key in u.inside ==> key in states[k].arrived || key in states[k].expired
    ensures forall key ::
              key in u.src0 && key in u.inside && key !in states[k].expired && Untouched(steps, 0, k, key) ==>
                key in states[k].dst && Merged(u, states[0].dst, key, states[k].dst[key])
  {
    RunInv(u, states, steps, k);
    forall key | key in u.src0 && key in u.inside && key !in states[k].expired && Untouched(steps, 0, k, key)
      ensures key in states[k].dst && Merged(u, states[0].dst, key, states[k].dst[key])
    {
      ArrivedIsHeld(u, states, steps, k, key);
    }
  }

  // ----- a scan gets to its end -----

  /** A step of the scanner in which nothing fails: all keys seen are locked, the
      connection holds and every reply arrives. */
  predicate Smooth(u: Setup, s: State, step: Step) {
    && Enabled(u, s, step)
    && match step
       case Scan(seen, locked) => locked == seen * u.inside
       case DumpKey(t, _) => t == SCANNER
       case Dumped(t) => t == SCANNER
       case RestoreKey(t, _) => t == SCANNER
       case AllAnswered(t) => t == SCANNER
       case Delete(t, replied) => t == SCANNER && replied
       case NextCursor => true
       case _ => false
  }

  /** The scanner's round has not failed so far. */
  predicate Clean(m: Mover) {
    match m
    case Idle => true
    case Dumping(_, _, retry) => !retry
    case Sending(entries, answered, retry) => !retry && answered <= entries.Keys
    case Deleting(_, retry) => !retry
    case Finished(ok, retry) => ok && !retry
  }

  function Phase(m: Mover): nat {
    match m
    case Idle => 4
    case Dumping(_, _, _) => 3
    case Sending(_, _, _) => 2
    case Deleting(_, _) => 1
    case Finished(_, _) => 0
  }

  function Todo(m: Mover): nat {
    match m
    case Dumping(left, _, _) => |left|
    case Sending(entries, answered, _) => |entries.Keys - answered|
    case _ => 0
  }

  /** Scan cursors still to come. */
  function Ahead(u: Setup, s: State): nat {
    if s.done || s.cursor >= u.cursors then 0 else u.cursors - s.cursor
  }

  predicate Sooner(u: Setup, s: State, s': State) {
    var m, m' := At(s, SCANNER), At(s', SCANNER);
    || Ahead(u, s') < Ahead(u, s)
    || (Ahead(u, s') == Ahead(u, s) && Phase(m') < Phase(m))
    || (Ahead(u, s') == Ahead(u, s) && Phase(m') == Phase(m) && Todo(m') < Todo(m))
  }

  lemma FewerLeft(a: set<Key>, k: Key)
    requires k in a
    ensures |a - {k}| < |a|
  {
  }

  lemma SmoothKey(u: Setup, s: State, step: Step)
    requires Clean(At(s, SCANNER)) && Smooth(u, s, step) && (step.DumpKey? || step.RestoreKey?)
    ensures var s', m := Apply(u, s, step), At(s, SCANNER);
            var m' := At(s', SCANNER);
            && Clean(m') && Phase(m') == Phase(m) && Todo(m') < Todo(m)
            && (s'.cursor, s'.done) == (s.cursor, s.done)
  {
    var m := At(s, SCANNER);
    if step.DumpKey? {
      FewerLeft(m.left, step.key);
    } else {
      assert m.entries.Keys - (m.answered + {step.key}) == m.entries.Keys - m.answered - {step.key};
      FewerLeft(m.entries.Keys - m.answered, step.key);
    }
  }

  lemma SmoothPhase(u: Setup, s: State, step: Step)
    requires Clean(At(s, SCANNER)) && Smooth(u, s, step) && !step.DumpKey? && !step.RestoreKey? && !step.NextCursor?
    ensures var s', m := Apply(u, s, step), At(s, SCANNER);
            var m' := At(s', SCANNER);
            Clean(m') && Phase(m') < Phase(m) && (s'.cursor, s'.done) == (s.cursor, s.done)
  {
  }

  lemma SmoothCursor(u: Setup, s: State)
    requires Clean(At(s, SCANNER)) && s.cursor < u.cursors && !s.done && Smooth(u, s, NextCursor)
    ensures var s' := Apply(u, s, NextCursor);
            Clean(At(s', SCANNER)) && s'.cursor < u.cursors && Ahead(u, s') < Ahead(u, s)
  {
  }

  /** Every smooth step brings the scanner nearer to its end and leaves it clean. */
  lemma SmoothStep(u: Setup, s: State, step: Step)
    requires Clean(At(s, SCANNER)) && s.cursor < u.cursors && !s.done && Smooth(u, s, step)
    ensures Enabled(u, s, step)
    ensures var s' := Apply(u, s, step);
            Clean(At(s', SCANNER)) && s'.cursor < u.cursors && Sooner(u, s, s')
  {
    SmoothEnabled(u, s, step);
    hide Enabled, Apply, Smooth, Clean, Phase, Todo;
    if step.DumpKey? || step.RestoreKey? {
      SmoothKey(u, s, step);
    } else if step.NextCursor? {
      SmoothCursor(u, s);
    } else {
      SmoothPhase(u, s, step);
    }
  }

  /** Until it is done, a clean scanner has a smooth step, even if a scan returns no more
      than the keys at its cursor. */
  lemma SmoothNext(u: Setup, s: State) returns (step: Step)
    requires Clean(At(s, SCANNER)) && !s.done
    ensures Smooth(u, s, step)
  {
    match At(s, SCANNER)
    case Idle =>
      var seen := set k | k in s.src && k in u.pos && u.pos[k] == s.cursor;
      step := Scan(seen, seen * u.inside);
    case Dumping(left, _, _) =>
      if left == {} {
        step := Dumped(SCANNER);
      } else {
        var k :| k in left;
        step := DumpKey(SCANNER, k);
      }
    case Sending(entries, answered, _) =>
      if k :| k in entries && k !in answered {
        step := RestoreKey(SCANNER, k);
      } else {
        assert answered == entries.Keys;
        step := AllAnswered(SCANNER);
      }
    case Deleting(_, _) => step := Delete(SCANNER, true);
    case Finished(_, _) => step := NextCursor;
  }

  ghost predicate Finishes(u: Setup, s: State) {
    exists states, steps :: Further(u, states, steps) && EndsDone(u, s, states, steps)
  }

  ghost predicate EndsDone(u: Setup, s: State, states: seq<State>, steps: seq<Step>) {
    && |states| == |steps| + 1 && states[0] == s && states[|steps|].done
    && forall k :: 0 <= k < |steps| ==> Smooth(u, states[k], steps[k])
  }

  lemma FinishesBefore(u: Setup, s: State, step: Step)
    requires Smooth(u, s, step) && Finishes(u, Apply(u, s, step))
    ensures Finishes(u, s)
  {
    assert Enabled(u, s, step);
    hide Enabled, Apply, Further, Smooth;
    var states, steps :| Further(u, states, steps) && EndsDone(u, Apply(u, s, step), states, steps);
    FurtherBefore(u, s, step, states, steps);
    var states', steps' := [s] + states, [step] + steps;
    forall k | 0 <= k < |steps'| ensures Smooth(u, states'[k], steps'[k]) {
      if k > 0 {
        assert Smooth(u, states[k - 1], steps[k - 1]);
      }
    }
    assert EndsDone(u, s, states', steps');
  }

  lemma FinishesNow(u: Setup, s: State)
    requires s.done
    ensures Finishes(u, s)
  {
    assert Further(u, [s], []) && EndsDone(u, s, [s], []);
  }

  lemma {:induction false} CleanFinishes(u: Setup, s: State)
    requires Clean(At(s, SCANNER)) && s.cursor < u.cursors
    ensures Finishes(u, s)
    decreases Ahead(u, s), Phase(At(s, SCANNER)), Todo(At(s, SCANNER))
  {
    hide Finishes, Smooth, Apply;
    if s.done {
      FinishesNow(u, s);
    } else {
      var step := SmoothNext(u, s);
      SmoothStep(u, s, step);
      CleanFinishes(u, Apply(u, s, step));
      FinishesBefore(u, s, step);
    }
  }

  lemma SmoothEnabled(u: Setup, s: State, step: Step)
    requires Smooth(u, s, step)
    ensures Enabled(u, s, step)
  {
  }

  /** From every reachable state in which the scanner is between two rounds, scanner steps
      without failure lead to the end of the scan; steps of others neither help nor hinder. */
  lemma ScanFinishes(u: Setup, states: seq<State>, steps: seq<Step>, k: nat)
    requires Run(u, states, steps) && k <= |steps| && At(states[k], SCANNER).Idle?
    ensures Finishes(u, states[k])
  {
    RunInv(u, states, steps, k);
    hide Run, Safe, Finishes;
    CleanFinishes(u, states[k]);
  }

  /** Every mover that is not idle has a step to take. */
  lemma MoverMoves(u: Setup, s: State, t: Tid) returns (step: Step)
    requires !At(s, t).Idle?
    ensures Who(step) == t && Enabled(u, s, step)
  {
    match At(s, t)
    case Dumping(left, _, _) =>
      if k :| k in left {
        step := DumpKey(t, k);
      } else {
        step := Dumped(t);
      }
    case Sending(entries, answered, _) =>
      if answered == entries.Keys {
        step := AllAnswered(t);
      } else {
        step := AttemptFails(t);
      }
    case Deleting(_, _) => step := Delete(t, true);
    case Finished(_, _) => step := if t == SCANNER then NextCursor else SyncDone(t);
  }

  /** A step is taken only by a mover that has come to it; movers start idle and are idle
      again after a round. */
  lemma StepsInOrder(u: Setup, s: State, step: Step)
    requires Enabled(u, s, step)
    ensures step.Scan? || step.Sync? ==> At(s, Who(step)).Idle?
    ensures step.DumpKey? || step.Dumped? ==> At(s, Who(step)).Dumping?
    ensures step.RestoreKey? || step.AttemptFails? || step.AllAnswered? ==> At(s, Who(step)).Sending?
    ensures step.Delete? ==> At(s, Who(step)).Deleting?
    ensures step.NextCursor? || step.SyncDone? ==> At(s, Who(step)).Finished?
    ensures step.Scan? || step.NextCursor? ==> !s.done || At(s, SCANNER).Finished?
    ensures step.NextCursor? || step.SyncDone? ==> At(Apply(u, s, step), Who(step)).Idle?
    ensures Initial(u, s) ==> At(s, Who(step)).Idle?
  {
  }

  /** Every command to a node may fail; clients may write and remove at any time, with effect
      at once; keys expire only where they are. */
  lemma OutsideSteps(u: Setup, s: State, key: Key, value: string, t: Tid)
    ensures Enabled(u, s, AttemptFails(t)) <==> At(s, t).Sending?
    ensures Enabled(u, s, GiveUp(t)) <==> At(s, t).Dumping? || At(s, t).Deleting?
    ensures Enabled(u, s, Write(key, value)) && Enabled(u, s, Remove(key))
    ensures Apply(u, s, Write(key, value)) == s.(dst := s.dst[key := value])
    ensures Apply(u, s, Remove(key)) == s.(dst := s.dst - {key})
    ensures Enabled(u, s, Expire(key)) <==> key in s.src
    ensures key in s.src ==> Apply(u, s, Expire(key)).src == s.src - {key}
  {
  }
}
