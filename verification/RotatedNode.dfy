/** A node whose key is rotated: the durable keys and the manager's loop, and the
    registrations of the engine that runs on them, through reboots and restarts. */
module RotatedNodes {
  import opened Basics
  import K = KeyRotation
  import R = Registration

  /** `accepted`: an answer has accepted the registration since the engine was made.
      `requests`: every registration the node has ever sent. */
  datatype Node = Node(keys: K.World, ml: Option<R.Ml>, accepted: bool, requests: seq<R.Request>)

  const FACTORY := Node(K.FACTORY, None, false, [])

  /** A step of the keys and the manager, with the auth key configured if it makes an
      engine; or a step of the engine's coordinator. */
  datatype Step =
    | Manage(manage: K.Step, configKey: Option<string>)
    | Coordinate(coordinate: R.Step, eraseFault: K.Fault)

  predicate Publishes(ml: Option<R.Ml>, public: R.Public) {
    ml.Some? && ml.value.public == public
  }

  predicate Enabled(n: Node, step: Step) {
    match step
    case Manage(manage, _) =>
      && K.Enabled(n.keys, manage) && !manage.RegisterOk?
      && (manage.ObserveConnected? ==> Publishes(n.ml, R.Connected))
      && (manage.ObserveExpired? ==> Publishes(n.ml, R.NodeKeyExpired))
    case Coordinate(coordinate, _) =>
      n.ml.Some? && n.keys.ram.Some? && R.Enabled(n.ml.value, coordinate)
  }

  predicate Restarts(keys: K.World, manage: K.Step) {
    manage.Boot? || (manage.ObserveExpired? && keys.attempts == 0)
  }

  /** The engine as `microlink_init` makes it of the stored keys. */
  function Engine(ram: Option<K.Ram>, configKey: Option<string>): Option<R.Ml> {
    if ram.None? then None else Some(R.Begin(ram.value.node, ram.value.oldKey, configKey).ml)
  }

  function Managed(n: Node, manage: K.Step, configKey: Option<string>): Node
    requires K.Enabled(n.keys, manage)
  {
    var keys := K.Apply(n.keys, manage);
    if Restarts(n.keys, manage) then n.(keys := keys, ml := Engine(keys.ram, configKey), accepted := false)
    else n.(keys := keys, ml := if keys.ram.None? then None else n.ml)
  }

  predicate Accepted(coordinate: R.Step) {
    coordinate.Ask? && R.Accepts(coordinate.response)
  }

  /** An accepting answer makes `ml_registration_complete` forget the old key. */
  function Coordinated(n: Node, coordinate: R.Step, eraseFault: K.Fault): Node
    requires n.ml.Some? && n.keys.ram.Some? && R.Enabled(n.ml.value, coordinate)
  {
    Node(
      if Accepted(coordinate) then K.Completed(n.keys, eraseFault) else n.keys,
      Some(R.Apply(n.ml.value, coordinate)),
      n.accepted || Accepted(coordinate),
      if coordinate.Ask? then n.requests + [R.RequestFields(n.ml.value)] else n.requests)
  }

  function Next(n: Node, step: Step): Node {
    if !Enabled(n, step) then n
    else
      match step
      case Manage(manage, configKey) => Managed(n, manage, configKey)
      case Coordinate(coordinate, eraseFault) => Coordinated(n, coordinate, eraseFault)
  }

  function Exec(n: Node, steps: seq<Step>): Node
    decreases |steps|
  {
    if steps == [] then n else Exec(Next(n, steps[0]), steps[1..])
  }

  // ---------------------------------------------------------------- invariant

  /** The engine runs on the stored keys, and remembers the replaced one until an
      answer accepts it. */
  predicate OnStoredKeys(ml: R.Ml, ram: K.Ram, nvs: K.Nvs, accepted: bool) {
    && ml.nodeKey == ram.node && ml.oldKey == ram.oldKey
    && ml.oldKey == if accepted then None else nvs.oldPublic
  }

  ghost predicate Inv(n: Node) {
    && K.Inv(n.keys)
    && (n.ml.Some? <==> n.keys.ram.Some?)
    && (n.ml.Some? ==>
        R.PublicInv(n.ml.value) && OnStoredKeys(n.ml.value, n.keys.ram.value, n.keys.nvs, n.accepted))
  }

  lemma {:induction false} ManageKeepsInv(n: Node, manage: K.Step, configKey: Option<string>)
    requires Inv(n) && Enabled(n, Manage(manage, configKey))
    ensures Inv(Managed(n, manage, configKey))
  {
    K.StepKeepsInv(n.keys, manage);
  }

  lemma {:induction false} CoordinateKeepsInv(n: Node, coordinate: R.Step, eraseFault: K.Fault)
    requires Inv(n) && Enabled(n, Coordinate(coordinate, eraseFault))
    ensures Inv(Coordinated(n, coordinate, eraseFault))
  {
    if Accepted(coordinate) {
      K.StepKeepsInv(n.keys, K.RegisterOk(eraseFault));
    }
    if coordinate.Ask? {
      R.AskMatchesReference(n.ml.value, coordinate.response);
    }
  }

  lemma {:induction false} StepKeepsInv(n: Node, step: Step)
    requires Inv(n)
    ensures Inv(Next(n, step))
  {
    if Enabled(n, step) {
      match step
      case Manage(manage, configKey) => ManageKeepsInv(n, manage, configKey);
      case Coordinate(coordinate, eraseFault) => CoordinateKeepsInv(n, coordinate, eraseFault);
    }
  }

  lemma {:induction false} RunKeepsInv(n: Node, steps: seq<Step>)
    requires Inv(n)
    ensures Inv(Exec(n, steps))
    decreases |steps|
  {
    if steps != [] {
      StepKeepsInv(n, steps[0]);
      RunKeepsInv(Next(n, steps[0]), steps[1..]);
    }
  }

  // -------------------------------------------------------------- main results

  /** In every reachable state, what the next registration would say: the stored node
      key, and as old key the one the last rotation replaced, if that is still stored
      and no answer has accepted it since the engine was made. */
  lemma RequestsCarryTheStoredKeys(steps: seq<Step>)
    ensures var n := Exec(FACTORY, steps);
      n.ml.Some? ==>
        var request := R.RequestFields(n.ml.value);
        && n.keys.nvs.public == Some(request.nodeKey)
        && request.oldNodeKey == (if n.accepted then None else n.keys.replaced)
        && (request.oldNodeKey.Some? ==> request.authKey.None?)
  {
    RunKeepsInv(FACTORY, steps);
  }

  /** Neither an accepting answer nor a factory reset. */
  predicate Unaccepted(step: Step) {
    match step
    case Manage(manage, _) => manage != K.FactoryReset(true)
    case Coordinate(coordinate, _) => !Accepted(coordinate)
  }

  /** The rotation to `node` that replaced `replaced` waits for an accepting answer. */
  ghost predicate Rotated(n: Node, replaced: K.Blob, node: K.Blob, commits: nat) {
    && Inv(n) && n.keys.nvs.oldPublic == Some(replaced) && n.keys.nvs.public == Some(node)
    && n.keys.commits == commits && (n.ml.Some? ==> !n.accepted)
  }

  predicate Announces(request: R.Request, replaced: K.Blob, node: K.Blob) {
    request.nodeKey == node && request.oldNodeKey == Some(replaced) && request.authKey.None?
  }

  lemma {:induction false} StepStaysRotated(n: Node, step: Step, replaced: K.Blob, node: K.Blob, commits: nat)
    requires Rotated(n, replaced, node, commits) && Unaccepted(step)
    ensures var t := Next(n, step);
      && Rotated(t, replaced, node, commits)
      && (t.requests == n.requests
          || (|t.requests| == |n.requests| + 1 && t.requests[..|n.requests|] == n.requests
              && Announces(t.requests[|n.requests|], replaced, node)))
  {
    StepKeepsInv(n, step);
  }

  lemma {:induction false} StaysAnnounced(n: Node, steps: seq<Step>, replaced: K.Blob, node: K.Blob, commits: nat)
    requires Rotated(n, replaced, node, commits)
    requires forall step | step in steps :: Unaccepted(step)
    ensures var t := Exec(n, steps);
      && Rotated(t, replaced, node, commits) && |n.requests| <= |t.requests|
      && forall k | |n.requests| <= k < |t.requests| :: Announces(t.requests[k], replaced, node)
    decreases |steps|
  {
    if steps != [] {
      var t := Next(n, steps[0]);
      StepStaysRotated(n, steps[0], replaced, node, commits);
      StaysAnnounced(t, steps[1..], replaced, node, commits);
      RequestsGrow(t, steps[1..]);
    }
  }

  lemma {:induction false} RequestsGrow(n: Node, steps: seq<Step>)
    ensures n.requests <= Exec(n, steps).requests
    decreases |steps|
  {
    if steps != [] {
      RequestsGrow(Next(n, steps[0]), steps[1..]);
    }
  }

  /** After a rotation that committed, in every later run, with any failures, restarts
      and reboots: until an answer accepts it (or a factory reset), every registration
      names the key that was replaced, carries no auth key and registers the new key;
      and no other rotation commits. */
  lemma RotationIsAnnouncedUntilAccepted(before: seq<Step>, rotation: Step, after: seq<Step>)
    requires forall step | step in after :: Unaccepted(step)
    ensures var n := Exec(FACTORY, before);
      var m := Next(n, rotation);
      var t := Exec(m, after);
      m.keys.commits != n.keys.commits ==>
        && n.keys.nvs.public.Some? && m.keys.nvs.public.Some? && t.keys.commits == m.keys.commits
        && |m.requests| <= |t.requests|
        && forall k | |m.requests| <= k < |t.requests| ::
             Announces(t.requests[k], n.keys.nvs.public.value, m.keys.nvs.public.value)
  {
    var n := Exec(FACTORY, before);
    RunKeepsInv(FACTORY, before);
    var m := Next(n, rotation);
    if m.keys.commits != n.keys.commits {
      CommitIsARotation(n, rotation);
      StaysAnnounced(m, after, n.keys.nvs.public.value, m.keys.nvs.public.value, m.keys.commits);
    }
  }

  lemma {:induction false} CommitIsARotation(n: Node, step: Step)
    requires Inv(n) && Next(n, step).keys.commits != n.keys.commits
    ensures var m := Next(n, step);
      && n.keys.nvs.public.Some? && m.keys.nvs.public.Some?
      && Rotated(m, n.keys.nvs.public.value, m.keys.nvs.public.value, m.keys.commits)
  {
    StepKeepsInv(n, step);
  }

  /** In every reachable state, for an accepting answer to a registration that named the
      replaced key: it ends that for good exactly when the stored key could be erased.
      Otherwise the engine of the next boot names it again. */
  lemma AcceptedKeyReturns(steps: seq<Step>, response: R.Response, eraseFault: K.Fault,
                           private: K.Key, public: K.Key, configKey: Option<string>)
    requires R.Accepts(response)
    ensures var n := Exec(FACTORY, steps);
      var t := Next(n, Coordinate(R.Ask(response), eraseFault));
      var u := Next(Next(t, Manage(K.PowerLoss, None)), Manage(K.Boot(private, public), configKey));
      n.ml.Some? && n.ml.value.coord.Register? && n.ml.value.oldKey.Some? ==>
        && t.ml.Some? && t.ml.value.oldKey.None? && u.ml.Some?
        && u.ml.value.oldKey == if eraseFault.NoFault? then None else n.ml.value.oldKey
  {
    var n := Exec(FACTORY, steps);
    RunKeepsInv(FACTORY, steps);
    if n.ml.Some? && n.ml.value.coord.Register? && n.ml.value.oldKey.Some? {
      AcceptedThenBooted(n, response, eraseFault, private, public, configKey);
    }
  }

  lemma AcceptedThenBooted(n: Node, response: R.Response, eraseFault: K.Fault, private: K.Key, public: K.Key,
                           configKey: Option<string>)
    requires Inv(n) && n.ml.Some? && n.ml.value.coord.Register? && n.ml.value.oldKey.Some? && R.Accepts(response)
    ensures var t := Next(n, Coordinate(R.Ask(response), eraseFault));
      var u := Next(Next(t, Manage(K.PowerLoss, None)), Manage(K.Boot(private, public), configKey));
      && t.ml.Some? && t.ml.value.oldKey.None? && u.ml.Some?
      && u.ml.value.oldKey == if eraseFault.NoFault? then None else n.ml.value.oldKey
  {
    var t := Next(n, Coordinate(R.Ask(response), eraseFault));
    StepKeepsInv(n, Coordinate(R.Ask(response), eraseFault));
    var off := Next(t, Manage(K.PowerLoss, None));
    StepKeepsInv(t, Manage(K.PowerLoss, None));
    assert off.keys.nvs == t.keys.nvs && off.keys.ram.None?;
    StepKeepsInv(off, Manage(K.Boot(private, public), configKey));
  }

  // ----------------------------------------------------------------- such a run

  lemma RunOne(n: Node, step: Step, rest: seq<Step>)
    ensures Exec(n, [step] + rest) == Exec(Next(n, step), rest)
  {
    assert ([step] + rest)[1..] == rest;
  }

  /** The key expires in a connected node and is rotated. */
  lemma ExpiryRotates(n: Node, private: K.Key, public: K.Key)
    requires Inv(n) && n.ml.Some? && n.ml.value.coord.Elsewhere? && !n.accepted
    requires n.keys.attempts == 0 && n.keys.nvs.oldPublic.None?
    ensures var expired := Coordinate(R.Other(R.Elsewhere, Some(R.NodeKeyExpired)), K.NoFault);
      var rotate := Manage(K.ObserveExpired(private, public, K.NoFault, true), None);
      var t := Next(Next(n, expired), rotate);
      Inv(t) && t.ml.Some? && t.ml.value.coord.Elsewhere? && t.ml.value.oldKey == n.keys.nvs.public && !t.accepted
  {
    var expired := Coordinate(R.Other(R.Elsewhere, Some(R.NodeKeyExpired)), K.NoFault);
    StepKeepsInv(n, expired);
    StepKeepsInv(Next(n, expired), Manage(K.ObserveExpired(private, public, K.NoFault, true), None));
  }

  lemma FirstBoot(private: K.Key, public: K.Key)
    ensures var n := Next(FACTORY, Manage(K.Boot(private, public), None));
      && Inv(n) && n.ml.Some? && n.ml.value.coord.Elsewhere? && !n.accepted
      && n.keys.attempts == 0 && n.keys.nvs.oldPublic.None? && n.keys.nvs.public == Some(public)
  {
    StepKeepsInv(FACTORY, Manage(K.Boot(private, public), None));
  }

  /** A node boots, its key expires and is rotated, and it is about to register. */
  function ToRegistration(private: K.Key, public: K.Key): seq<Step> {
    [Manage(K.Boot(private, public), None),
     Coordinate(R.Other(R.Elsewhere, Some(R.NodeKeyExpired)), K.NoFault),
     Manage(K.ObserveExpired(private, public, K.NoFault, true), None),
     Coordinate(R.Other(R.Register, None), K.NoFault)]
  }

  lemma RunFour(n: Node, steps: seq<Step>)
    requires |steps| == 4
    ensures Exec(n, steps) == Next(Next(Next(Next(n, steps[0]), steps[1]), steps[2]), steps[3])
  {
    assert steps == [steps[0]] + ([steps[1]] + ([steps[2]] + ([steps[3]] + [])));
    var b := Next(n, steps[0]);
    RunOne(n, steps[0], [steps[1]] + ([steps[2]] + ([steps[3]] + [])));
    RunOne(b, steps[1], [steps[2]] + ([steps[3]] + []));
    RunOne(Next(b, steps[1]), steps[2], [steps[3]] + []);
    RunOne(Next(Next(b, steps[1]), steps[2]), steps[3], []);
  }

  /** So there is a node about to register with a replaced key. */
  lemma ReplacedKeyIsUsed(private: K.Key, public: K.Key)
    ensures var n := Exec(FACTORY, ToRegistration(private, public));
      n.ml.Some? && n.ml.value.coord.Register? && n.ml.value.oldKey == Some(public)
  {
    var steps := ToRegistration(private, public);
    FirstBoot(private, public);
    ExpiryRotates(Next(FACTORY, steps[0]), private, public);
    RunFour(FACTORY, steps);
  }
}
