/**
The pinned staging of suffix_hybrid/async_spec.py. The host enqueues copies through two parity slots
and goes on; the device performs what is queued, in order, whenever it likes. A step may raise at any
point. The only host wait is on the event that the previous step recorded last.
*/
module AsyncSlots {
  import opened Wrappers

  /** snap[slot] takes a copy from the device, pack[slot] feeds one to it. */
  datatype Buffer = Snap(slot: nat) | Pack(slot: nat)

  datatype Op = Copy(buffer: Buffer) | Record(event: nat) | Compute

  /** Where the host is in `_step`; inside the try block, `at` counts its statements. */
  datatype Pc =
    | Idle
    | Wait(s: nat)            // about to synchronize the last event
    | Absorb(s: nat)          // about to read the previous step's snapshot
    | Try(s: nat, at: nat)    // 0, 1: snapshot copies; 2: pending; 3: lookup; 4: fill pack; 5: copy pack; 6: resolve
    | Finally(s: nat, raised: bool)

  /** `log` is everything ever enqueued, of which the device has performed the first `done`; an event
      has happened once the device has passed its ticket. */
  datatype State = State(pc: Pc, step: nat, log: seq<Op>, done: nat, ticket: map<nat, nat>, last: Option<nat>, pending: Option<nat>)

  datatype Action =
    | Begin          // enter _step
    | Next           // the host's next statement
    | Raise          // the host's next statement raises instead
    | Perform        // the device performs one queued operation

  function Init(): State { State(Idle, 0, [], 0, map[], None, None) }

  predicate Happened(s: State, event: nat) { event in s.ticket && s.ticket[event] <= s.done }

  predicate Enabled(s: State, a: Action) {
    match a
    case Begin => s.pc.Idle?
    case Next => !s.pc.Idle? && (s.pc.Wait? && s.last.Some? ==> Happened(s, s.last.value))
    case Raise => !s.pc.Finally?
    case Perform => s.done < |s.log|
  }

  function Enqueue(s: State, op: Op): State { s.(log := s.log + [op]) }

  /** The statements of _lookup_and_resolve that touch buffers or the stream. */
  function Statement(s: State, slot: nat, at: nat): State {
    match at
    case 0 => Enqueue(s, Copy(Snap(slot))).(pc := Try(slot, 1))
    case 1 => Enqueue(s, Copy(Snap(slot))).(pc := Try(slot, 2))
    case 2 => s.(pending := Some(slot), pc := Try(slot, 3))
    case 3 => s.(pc := Try(slot, 4))
    case 4 => s.(pc := Try(slot, 5))
    case 5 => Enqueue(s, Copy(Pack(slot))).(pc := Try(slot, 6))
    case _ => Enqueue(s, Compute).(pc := Finally(slot, false))
  }

  function Step(s: State, a: Action): State {
    match a
    case Begin => s.(pc := Wait(s.step % 2), step := s.step + 1)
    case Perform => s.(done := s.done + 1)
    case Raise =>
      // outside the try block nothing is recorded; _degrade drops the snapshot
      if s.pc.Try? then s.(pc := Finally(s.pc.s, true)) else s.(pc := Idle, pending := None)
    case Next =>
      match s.pc
      case Wait(slot) => s.(pc := Absorb(slot))
      case Absorb(slot) => s.(pending := None, pc := Try(slot, 0))
      case Try(slot, at) => Statement(s, slot, at)
      case Finally(slot, raised) =>
        var t := Enqueue(s, Record(slot));
        t.(ticket := s.ticket[slot := |t.log|], last := Some(slot), pc := Idle, pending := if raised then None else s.pending)
      case Idle => s
  }

  ghost function After(acts: seq<Action>): State {
    if acts == [] then Init() else Step(After(acts[..|acts| - 1]), acts[|acts| - 1])
  }

  ghost predicate Run(acts: seq<Action>) {
    acts == [] || (Run(acts[..|acts| - 1]) && Enabled(After(acts[..|acts| - 1]), acts[|acts| - 1]))
  }

  /** The buffer that the host's next statement reads or writes. */
  function Touches(s: State): Option<Buffer> {
    match s.pc
    case Absorb(_) => if s.pending.Some? then Some(Snap(s.pending.value)) else None
    case Try(slot, at) => if at == 4 then Some(Pack(slot)) else None
    case _ => None
  }

  /** A copy through the buffer is queued and not performed. */
  predicate Queued(s: State, b: Buffer) { exists i :: s.done <= i < |s.log| && s.log[i] == Copy(b) }

  /** Between steps every queued copy precedes the record of the last event; in a step, once it has
      waited, only its own copies are queued. */
  ghost predicate Inv(s: State) {
    && s.done <= |s.log|
    && (s.last.Some? ==> s.last.value in s.ticket && s.ticket[s.last.value] <= |s.log|)
    && match s.pc
       case Idle => Covered(s)
       case Wait(_) => Covered(s)
       case Absorb(_) => forall i :: s.done <= i < |s.log| ==> !s.log[i].Copy?
       case Try(slot, at) => Own(s, slot, at >= 6)
       case Finally(slot, _) => Own(s, slot, true)
  }

  ghost predicate Covered(s: State) {
    forall i :: s.done <= i < |s.log| && s.log[i].Copy? ==> s.last.Some? && s.last.value in s.ticket && i < s.ticket[s.last.value]
  }

  ghost predicate Own(s: State, slot: nat, packed: bool) {
    forall i :: s.done <= i < |s.log| && s.log[i].Copy? ==> s.log[i].buffer == Snap(slot) || (packed && s.log[i].buffer == Pack(slot))
  }

  lemma StepKeeps(s: State, a: Action)
    requires Inv(s) && Enabled(s, a)
    ensures Inv(Step(s, a))
  {}

  lemma {:induction false} RunInv(acts: seq<Action>)
    requires Run(acts)
    ensures Inv(After(acts))
  {
    if acts != [] {
      RunInv(acts[..|acts| - 1]);
      StepKeeps(After(acts[..|acts| - 1]), acts[|acts| - 1]);
    }
  }

  /** In every run, steps that raise included, the host never reads or writes a pinned buffer while a
      copy through it is queued. */
  lemma NoRace(acts: seq<Action>)
    requires Run(acts) && Touches(After(acts)).Some?
    ensures !Queued(After(acts), Touches(After(acts)).value)
  {
    RunInv(acts);
  }

  /** The wait that buys this is never for the running step: its event was recorded by an earlier one,
      and nothing else is queued for the host to wait for once it has happened. */
  lemma WaitCovers(acts: seq<Action>)
    requires Run(acts) && After(acts).pc.Wait? && After(acts).last.Some? && Happened(After(acts), After(acts).last.value)
    ensures forall b :: !Queued(After(acts), b)
  {
    RunInv(acts);
  }

  // ---- what the snapshot holds --------------------------------------------

  /** The log entry of the newest snapshot copy through a slot, -1 if there is none. */
  function NewestSnap(log: seq<Op>, slot: nat): int {
    if log == [] then -1
    else if log[|log| - 1] == Copy(Snap(slot)) then |log| - 1 else NewestSnap(log[..|log| - 1], slot)
  }

  lemma {:induction false} NewestIs(log: seq<Op>, slot: nat)
    ensures -1 <= NewestSnap(log, slot) < |log|
    ensures NewestSnap(log, slot) >= 0 ==> log[NewestSnap(log, slot)] == Copy(Snap(slot))
  {
    if log != [] { NewestIs(log[..|log| - 1], slot); }
  }

  /** When a step reads the snapshot of a slot, the newest copy into it has been performed: it reads
      the totals that the step which left it pending asked for, not older ones. */
  lemma SnapshotArrived(acts: seq<Action>)
    requires Run(acts) && After(acts).pc.Absorb? && After(acts).pending.Some?
    ensures NewestSnap(After(acts).log, After(acts).pending.value) < After(acts).done
  {
    var s := After(acts);
    RunInv(acts);
    NewestIs(s.log, s.pending.value);
  }
}
