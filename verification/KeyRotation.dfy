/** Durable node-key rotation: the key blobs in NVS, the copy a running MicroLink has
    of them, and the manager's loop that asks for a rotation, over any number of
    registrations, failures and reboots. `nvs_commit` is the atomic point. */
module KeyRotation {
  import opened Basics

  const KEY_SIZE: nat := 32

  type Blob = seq<bv8>

  type Key = b: Blob | |b| == KEY_SIZE witness seq(KEY_SIZE, _ => 0)

  datatype Nvs = Nvs(private: Option<Blob>, public: Option<Blob>, oldPublic: Option<Blob>)

  const ERASED := Nvs(None, None, None)

  /** What a running MicroLink has loaded. */
  datatype Ram = Ram(node: Blob, oldKey: Option<Blob>)

  datatype Fault = NoFault | OpenFails | OldReadFails | PublicReadFails | SetFails | CommitFails

  datatype Err = EspOk | EspFail | InvalidState | InvalidSize

  /** `nvs_get_blob` into a 32-byte buffer: a longer blob is an error, a shorter one
      is read with its own length. */
  predicate Readable(blob: Option<Blob>) {
    blob.Some? && |blob.value| <= KEY_SIZE
  }

  /** `microlink_rotate_node_key`. */
  function Rotate(nvs: Nvs, private: Key, public: Key, fault: Fault): (Nvs, Err) {
    if fault.OpenFails? || fault.OldReadFails? then (nvs, EspFail)
    else if nvs.oldPublic.Some? then
      (nvs,
        if !Readable(nvs.oldPublic) then EspFail else if |nvs.oldPublic.value| == KEY_SIZE then InvalidState else EspOk)
    else if fault.PublicReadFails? || !Readable(nvs.public) then (nvs, EspFail)
    else if |nvs.public.value| != KEY_SIZE then (nvs, InvalidSize)
    else if fault.SetFails? || fault.CommitFails? then (nvs, EspFail)
    else (Nvs(Some(private), Some(public), nvs.public), EspOk)
  }

  /** The key part of `microlink_init`: a fresh pair if there is none yet. */
  function Loaded(nvs: Nvs, public: Key): Ram {
    Ram(if Readable(nvs.private) && Readable(nvs.public) then nvs.public.value else public,
      if Readable(nvs.oldPublic) && |nvs.oldPublic.value| == KEY_SIZE then nvs.oldPublic else None)
  }

  function Saved(nvs: Nvs, private: Key, public: Key): Nvs {
    if Readable(nvs.private) then nvs else nvs.(private := Some(private), public := Some(public))
  }

  datatype Seen = Booted | SawConnected | TriedRotation

  /** `replaced` is the public key that the last committed rotation replaced, until a
      registration or a factory reset cleared it; `commits` counts rotations. */
  datatype World = World(
    nvs: Nvs, ram: Option<Ram>, attempts: nat, lastError: nat,
    replaced: Option<Blob>, commits: nat, log: seq<Seen>)

  const FACTORY := World(ERASED, None, 0, 0, None, 0, [])

  datatype Step =
    | Boot(bootPrivate: Key, bootPublic: Key)
    | PowerLoss
    | ObserveConnected
    | ObserveExpired(private: Key, public: Key, fault: Fault, created: bool)
    | RegisterOk(eraseFault: Fault)
    | FactoryReset(ok: bool)

  predicate Enabled(w: World, step: Step) {
    match step
    case Boot(_, _) => w.ram.None?
    case PowerLoss => true
    case ObserveConnected => w.ram.Some?
    case ObserveExpired(_, _, _, _) => w.ram.Some?
    case RegisterOk(_) => w.ram.Some?
    case FactoryReset(_) => w.ram.None?
  }

  /** The manager's loop finds NODE_KEY_EXPIRED: one attempt, with the engine stopped. */
  function Expired(w: World, private: Key, public: Key, fault: Fault, created: bool): World {
    if w.attempts != 0 then w.(lastError := 4)
    else
      var (nvs, err) := Rotate(w.nvs, private, public, fault);
      var tried := w.(attempts := 1, log := w.log + [TriedRotation], nvs := nvs,
        replaced := if nvs != w.nvs then w.nvs.public else w.replaced,
        commits := if nvs != w.nvs then w.commits + 1 else w.commits);
      if err.EspOk? && created then tried.(ram := Some(Loaded(nvs, public)))
      else tried.(ram := None, lastError := 4)
  }

  /** `ml_registration_complete`: the copy in RAM is forgotten even if NVS keeps it. */
  function Completed(w: World, fault: Fault): World
    requires w.ram.Some?
  {
    if w.ram.value.oldKey.None? then w
    else
      var forgotten := w.(ram := Some(w.ram.value.(oldKey := None)));
      if fault.NoFault? then forgotten.(nvs := w.nvs.(oldPublic := None), replaced := None) else forgotten
  }

  function Apply(w: World, step: Step): World
    requires Enabled(w, step)
  {
    match step
    case Boot(private, public) =>
      World(Saved(w.nvs, private, public), Some(Loaded(Saved(w.nvs, private, public), public)), 0, 0,
        w.replaced, w.commits, w.log + [Booted])
    case PowerLoss => w.(ram := None)
    case ObserveConnected => w.(attempts := 0, log := w.log + [SawConnected])
    case ObserveExpired(private, public, fault, created) => Expired(w, private, public, fault, created)
    case RegisterOk(fault) => Completed(w, fault)
    case FactoryReset(ok) => if ok then w.(nvs := ERASED, replaced := None) else w
  }

  function Exec(w: World, steps: seq<Step>): World
    decreases |steps|
  {
    if steps == [] then w
    else Exec(if Enabled(w, steps[0]) then Apply(w, steps[0]) else w, steps[1..])
  }

  // ---------------------------------------------------------------- invariants

  predicate KeySized(blob: Option<Blob>) {
    blob.Some? ==> |blob.value| == KEY_SIZE
  }

  ghost predicate NvsInv(nvs: Nvs) {
    && KeySized(nvs.private) && KeySized(nvs.public) && KeySized(nvs.oldPublic)
    && (nvs.private.Some? <==> nvs.public.Some?)
    && (nvs.oldPublic.Some? ==> nvs.public.Some?)
  }

  /** No attempt directly follows another without a boot or a connection between. */
  predicate Spaced(log: seq<Seen>) {
    forall i | 0 < i < |log| && log[i].TriedRotation? :: !log[i - 1].TriedRotation?
  }

  ghost predicate Inv(w: World) {
    && NvsInv(w.nvs)
    && w.nvs.oldPublic == w.replaced
    && (w.ram.Some? ==>
        && w.nvs.public == Some(w.ram.value.node)
        && (w.ram.value.oldKey.Some? ==> w.ram.value.oldKey == w.nvs.oldPublic))
    && Spaced(w.log)
    && (w.attempts == 0 ==> w.log == [] || !w.log[|w.log| - 1].TriedRotation?)
  }

  lemma {:induction false} StepKeepsInv(w: World, step: Step)
    requires Inv(w) && Enabled(w, step)
    ensures Inv(Apply(w, step))
  {
  }

  lemma {:induction false} RunKeepsInv(w: World, steps: seq<Step>)
    requires Inv(w)
    ensures Inv(Exec(w, steps))
    decreases |steps|
  {
    if steps != [] {
      if Enabled(w, steps[0]) {
        StepKeepsInv(w, steps[0]);
        RunKeepsInv(Apply(w, steps[0]), steps[1..]);
      } else {
        RunKeepsInv(w, steps[1..]);
      }
    }
  }

  // -------------------------------------------------------------- main results

  /** In every run from the factory state: every stored blob has 32 bytes, the stored
      OldNodeKey is the key the last rotation replaced, and a running node announces
      that key or none. */
  lemma OldKeyIsTheReplacedKey(steps: seq<Step>)
    ensures var w := Exec(FACTORY, steps);
      && KeySized(w.nvs.private) && KeySized(w.nvs.public) && KeySized(w.nvs.oldPublic)
      && w.nvs.oldPublic == w.replaced
      && (w.ram.Some? ==> w.nvs.public == Some(w.ram.value.node))
      && (w.ram.Some? && w.ram.value.oldKey.Some? ==> w.ram.value.oldKey == w.replaced)
  {
    RunKeepsInv(FACTORY, steps);
  }

  /** A step that may clear the stored old key. */
  predicate Clears(step: Step) {
    step == RegisterOk(NoFault) || step == FactoryReset(true)
  }

  /** Until a successful registration or factory reset clears it, the stored old key
      stays what it is through any failures and reboots, and no second rotation
      commits; the node key in NVS stays too. */
  lemma {:induction false} OldKeyIsKept(w: World, steps: seq<Step>)
    requires Inv(w) && w.nvs.oldPublic.Some?
    requires forall step | step in steps :: !Clears(step)
    ensures var t := Exec(w, steps);
      t.nvs.oldPublic == w.nvs.oldPublic && t.commits == w.commits && t.nvs.public == w.nvs.public
    decreases |steps|
  {
    if steps != [] {
      if Enabled(w, steps[0]) {
        StepKeepsInv(w, steps[0]);
        assert !Clears(steps[0]);
        OldKeyIsKept(Apply(w, steps[0]), steps[1..]);
      } else {
        OldKeyIsKept(w, steps[1..]);
      }
    }
  }

  /** After a rotation, a power loss and a boot the node still announces the key that
      the rotation replaced. */
  lemma RotationSurvivesReboot(w: World, private: Key, public: Key, bootPrivate: Key, bootPublic: Key)
    requires Inv(w) && w.nvs.oldPublic.None? && w.nvs.public.Some?
    ensures var (nvs, err) := Rotate(w.nvs, private, public, NoFault);
      var t := Apply(w.(nvs := nvs, ram := None), Boot(bootPrivate, bootPublic));
      err.EspOk? && t.ram == Some(Ram(public, w.nvs.public))
  {
  }

  /** The manager tries at most one rotation between two boots or observed
      connections: between any two attempts the log holds one of them. */
  lemma OneAttemptPerConnection(steps: seq<Step>, i: nat, j: nat)
    ensures var log := Exec(FACTORY, steps).log;
      i < j < |log| && log[i].TriedRotation? && log[j].TriedRotation? ==>
        exists k :: i < k < j && (log[k].SawConnected? || log[k].Booted?)
  {
    RunKeepsInv(FACTORY, steps);
    var log := Exec(FACTORY, steps).log;
    if i < j < |log| && log[i].TriedRotation? && log[j].TriedRotation? {
      assert !log[j - 1].TriedRotation?;
      assert i < j - 1;
    }
  }

  class KeyStore {
    var private: Option<Blob>
    var public: Option<Blob>
    var oldPublic: Option<Blob>

    function View(): Nvs
      reads this
    {
      Nvs(private, public, oldPublic)
    }

    constructor ()
      ensures View() == ERASED
    {
      private, public, oldPublic := None, None, None;
    }

    /** The writes are staged and take effect together at the commit. A stored old key
        shorter than 32 bytes makes the call succeed without a rotation. */
    method RotateNodeKey(newPrivate: Key, newPublic: Key, fault: Fault) returns (err: Err)
      modifies this
      ensures (View(), err) == Rotate(old(View()), newPrivate, newPublic, fault)
      ensures View() == old(View()) || View() == Nvs(Some(newPrivate), Some(newPublic), old(public))
      ensures View() != old(View()) <==>
        fault.NoFault? && old(oldPublic).None? && old(public).Some? && |old(public).value| == KEY_SIZE
      ensures old(NvsInv(View())) ==> NvsInv(View()) && (err.EspOk? <==> View() != old(View()))
    {
      if fault.OpenFails? || fault.OldReadFails? {
        return EspFail;
      }
      if oldPublic.Some? {
        if |oldPublic.value| > KEY_SIZE {
          return EspFail;
        }
        return if |oldPublic.value| == KEY_SIZE then InvalidState else EspOk;
      }
      if fault.PublicReadFails? || public.None? || |public.value| > KEY_SIZE {
        return EspFail;
      }
      if |public.value| != KEY_SIZE {
        return InvalidSize;
      }
      var staged := Nvs(Some(newPrivate), Some(newPublic), public);
      if fault.SetFails? || fault.CommitFails? {
        return EspFail;
      }
      private, public, oldPublic := staged.private, staged.public, staged.oldPublic;
      err := EspOk;
    }
  }
}
