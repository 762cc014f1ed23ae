/** The registration loop that the patch gives MicroLink: `do_register`, the register,
    wait and reconnect states of `ml_coord_task`, and ml_register_codec.c. */
module Registration {
  import opened Basics

  const AUTH_URL_SIZE: nat := 512
  const CONTROL_ERROR_SIZE: nat := 192

  type Key = seq<bv8>

  datatype Public =
    | PublicIdle | WifiWait | Connecting | Registering | Connected | Reconnecting
    | Failed | NeedsAuth | NeedsApproval | NodeKeyExpired

  datatype Result = Fatal | Retry | Ok | AuthResult | ApprovalResult | ExpiredResult

  /** `Register` calls `do_register`; `Finish` is between that call and the state the
      task then publishes. `Elsewhere` stands for the states that the patch does not
      show. */
  datatype Coord = Elsewhere | Handshake | Register | Finish(result: Result) | WaitAuth | Reconnect

  datatype Response =
    | TransportError
    | Timeout
    | NotJson
    | Json(error: Option<string>, expired: bool, authUrl: Option<string>, authorized: Option<bool>)

  datatype Request = Request(nodeKey: Key, oldNodeKey: Option<Key>, authKey: Option<string>, followup: Option<string>)

  datatype Ml = Ml(
    nodeKey: Key, oldKey: Option<Key>, configKey: Option<string>,
    authUrl: string, approvalPending: bool, controlError: string,
    public: Public, coord: Coord)

  // ------------------------------------------------------- ml_register_codec.c

  function NonEmpty(value: Option<string>): Option<string> {
    if value.Some? && value.value != "" then value else None
  }

  /** `ml_register_request_fields_init`. A retained old key replaces the auth key. */
  function RequestFields(ml: Ml): Request {
    Request(ml.nodeKey, ml.oldKey, if ml.oldKey.Some? then None else NonEmpty(ml.configKey),
      NonEmpty(Some(ml.authUrl)))
  }

  /** `ml_register_classify_response`; the pending markers matter only to a timeout. */
  function Classify(response: Response, followupActive: bool, approvalPending: bool): Result {
    match response
    case TransportError => Retry
    case NotJson => Retry
    case Timeout =>
      if approvalPending then ApprovalResult else if followupActive then AuthResult else Retry
    case Json(error, expired, authUrl, authorized) =>
      if NonEmpty(error).Some? then Fatal
      else if expired then ExpiredResult
      else if NonEmpty(authUrl).Some? then AuthResult
      else if authorized == Some(false) then ApprovalResult
      else Ok
  }

  /** `strlcpy`. */
  function Copy(source: string, size: nat): string
    requires 0 < size
  {
    if |source| < size then source else source[..size - 1]
  }

  /** The fields `do_register` leaves behind. */
  function Registered(ml: Ml, response: Response): Ml {
    match Classify(response, ml.authUrl != "", ml.approvalPending)
    case Fatal =>
      if response.Json? && response.error.Some? then ml.(controlError := Copy(response.error.value, CONTROL_ERROR_SIZE))
      else ml
    case AuthResult =>
      if response.Json? && response.authUrl.Some? then
        ml.(authUrl := Copy(response.authUrl.value, AUTH_URL_SIZE), approvalPending := false)
      else ml
    case ApprovalResult => if response.Json? then ml.(approvalPending := true) else ml
    case Ok => ml.(authUrl := "", controlError := "", approvalPending := false, oldKey := None)
    case _ => ml
  }

  /** What the coordinator publishes after `do_register`. */
  function Finished(ml: Ml): Ml
    requires ml.coord.Finish?
  {
    match ml.coord.result
    case Fatal => ml.(public := Failed, coord := Elsewhere)
    case ExpiredResult => ml.(public := NodeKeyExpired, coord := Elsewhere)
    case AuthResult => ml.(public := NeedsAuth, coord := WaitAuth)
    case ApprovalResult => ml.(public := NeedsApproval, coord := WaitAuth)
    case Retry => ml.(coord := Reconnect)
    case Ok => ml.(public := Registering, coord := Elsewhere)
  }

  /** The state published while waiting to reconnect. */
  function Reconnected(ml: Ml): Public {
    if ml.approvalPending then NeedsApproval else if ml.authUrl != "" then NeedsAuth else Public.Reconnecting
  }

  datatype Step =
    | Shake(ok: bool)
    | Ask(response: Response)
    | Publish
    | EndWait(disconnect: bool)
    | Retreat
    | Other(next: Coord, public: Option<Public>)

  predicate Enabled(ml: Ml, step: Step) {
    match step
    case Shake(_) => ml.coord.Handshake?
    case Ask(_) => ml.coord.Register?
    case Publish => ml.coord.Finish?
    case EndWait(_) => ml.coord.WaitAuth?
    case Retreat => ml.coord.Reconnect?
    case Other(next, public) =>
      && ml.coord.Elsewhere? && !next.Finish? && !next.WaitAuth?
      && (public.Some? ==> !public.value.NeedsAuth? && !public.value.NeedsApproval?)
  }

  function Apply(ml: Ml, step: Step): Ml
    requires Enabled(ml, step)
  {
    match step
    case Shake(ok) =>
      ml.(public := if ml.authUrl == "" && !ml.approvalPending then Registering else ml.public,
        coord := if ok then Elsewhere else Reconnect)
    case Ask(response) =>
      Registered(ml, response).(coord := Finish(Classify(response, ml.authUrl != "", ml.approvalPending)))
    case Publish => Finished(ml)
    case EndWait(disconnect) =>
      if disconnect then ml.(public := PublicIdle, coord := Elsewhere) else ml.(coord := Elsewhere)
    case Retreat => ml.(public := Reconnected(ml), coord := Elsewhere)
    case Other(next, public) => ml.(coord := next, public := if public.Some? then public.value else ml.public)
  }

  /** A run of the coordinator with the exchanges it had: request and response, in order. */
  datatype Run = Run(ml: Ml, requests: seq<Request>, responses: seq<Response>)

  function Next(r: Run, step: Step): Run {
    if !Enabled(r.ml, step) then r
    else if step.Ask? then
      Run(Apply(r.ml, step), r.requests + [RequestFields(r.ml)], r.responses + [step.response])
    else r.(ml := Apply(r.ml, step))
  }

  function Exec(r: Run, steps: seq<Step>): Run
    decreases |steps|
  {
    if steps == [] then r else Exec(Next(r, steps[0]), steps[1..])
  }

  function Begin(nodeKey: Key, oldKey: Option<Key>, configKey: Option<string>): Run {
    Run(Ml(nodeKey, oldKey, configKey, "", false, "", PublicIdle, Elsewhere), [], [])
  }

  // ------------------------------------------------------- reference definition

  /** An answer that ends the registration. */
  predicate Accepts(response: Response) {
    && response.Json? && NonEmpty(response.error).None? && !response.expired
    && NonEmpty(response.authUrl).None? && response.authorized != Some(false)
  }

  /** An answer that asks the user to log in at a URL. */
  predicate AsksLogin(response: Response) {
    && response.Json? && NonEmpty(response.error).None? && !response.expired
    && NonEmpty(response.authUrl).Some?
  }

  predicate AsksApproval(response: Response) {
    && response.Json? && NonEmpty(response.error).None? && !response.expired
    && NonEmpty(response.authUrl).None? && response.authorized == Some(false)
  }

  /** The login URL still open after these answers: the newest one that no accepting
      answer followed. Timeouts, garbage, errors and approvals change nothing. */
  function OpenUrl(responses: seq<Response>): string {
    if responses == [] then ""
    else
      var last := responses[|responses| - 1];
      if Accepts(last) then ""
      else if AsksLogin(last) then Copy(last.authUrl.value, AUTH_URL_SIZE)
      else OpenUrl(responses[..|responses| - 1])
  }

  /** Whether an approval is still awaited. */
  predicate OpenApproval(responses: seq<Response>) {
    responses != [] &&
    var last := responses[|responses| - 1];
    if Accepts(last) || AsksLogin(last) then false
    else AsksApproval(last) || OpenApproval(responses[..|responses| - 1])
  }

  predicate AnyAccepts(responses: seq<Response>) {
    responses != [] && (Accepts(responses[|responses| - 1]) || AnyAccepts(responses[..|responses| - 1]))
  }

  lemma {:induction false} NoneAccepts(responses: seq<Response>)
    requires forall k | 0 <= k < |responses| :: !Accepts(responses[k])
    ensures !AnyAccepts(responses)
    decreases |responses|
  {
    if responses != [] {
      NoneAccepts(responses[..|responses| - 1]);
    }
  }

  // ---------------------------------------------------------------- invariants

  /** The published state never asks for what is not pending, except in the instant
      between `do_register` and its publication. */
  ghost predicate PublicInv(ml: Ml) {
    && (ml.public.NeedsAuth? ==> ml.authUrl != "" || ml.coord == Finish(Ok))
    && (ml.public.NeedsApproval? ==>
        ml.approvalPending || ml.coord == Finish(Ok) || ml.coord == Finish(AuthResult))
    && (ml.coord == Finish(AuthResult) ==> ml.authUrl != "")
    && (ml.coord == Finish(ApprovalResult) ==> ml.approvalPending)
    && (ml.coord == Finish(Ok) ==> ml.authUrl == "" && !ml.approvalPending && ml.oldKey.None?)
  }

  ghost predicate Inv(r: Run, begin: Run) {
    && PublicInv(r.ml)
    && |r.requests| == |r.responses|
    && r.ml.authUrl == OpenUrl(r.responses)
    && r.ml.approvalPending == OpenApproval(r.responses)
    && r.ml.nodeKey == begin.ml.nodeKey && r.ml.configKey == begin.ml.configKey
    && (r.ml.oldKey == (if AnyAccepts(r.responses) then None else begin.ml.oldKey))
    && (forall k | 0 <= k < |r.requests| :: r.requests[k].followup == NonEmpty(Some(OpenUrl(r.responses[..k]))))
    && (forall k | 0 <= k < |r.requests| :: r.requests[k].oldNodeKey.Some? ==>
          r.requests[k].oldNodeKey == begin.ml.oldKey && r.requests[k].authKey.None?)
  }

  lemma {:induction false} AskMatchesReference(ml: Ml, response: Response)
    requires PublicInv(ml) && ml.coord.Register?
    ensures var t := Apply(ml, Ask(response));
      && PublicInv(t)
      && t.authUrl == (if Accepts(response) then "" else if AsksLogin(response) then Copy(response.authUrl.value,
        AUTH_URL_SIZE) else ml.authUrl)
      && t.approvalPending == (if Accepts(response) || AsksLogin(response) then false
        else AsksApproval(response) || ml.approvalPending)
      && t.oldKey == (if Accepts(response) then None else ml.oldKey)
      && t.nodeKey == ml.nodeKey && t.configKey == ml.configKey
  {
  }

  lemma {:induction false} StepKeepsInv(r: Run, begin: Run, step: Step)
    requires Inv(r, begin)
    ensures Inv(Next(r, step), begin)
  {
    if Enabled(r.ml, step) && step.Ask? {
      AskKeepsInv(r, begin, step.response);
    }
  }

  lemma {:induction false} AskKeepsInv(r: Run, begin: Run, response: Response)
    requires Inv(r, begin) && r.ml.coord.Register?
    ensures Inv(Next(r, Ask(response)), begin)
  {
    var t := Next(r, Ask(response));
    AskMatchesReference(r.ml, response);
    assert t.responses[..|t.responses| - 1] == r.responses;
    forall k | 0 <= k < |t.requests|
      ensures t.requests[k].followup == NonEmpty(Some(OpenUrl(t.responses[..k])))
    {
      assert t.responses[..k] == r.responses[..k];
      if k == |r.requests| {
        assert r.responses[..k] == r.responses;
      }
    }
  }

  lemma {:induction false} RunKeepsInv(r: Run, begin: Run, steps: seq<Step>)
    requires Inv(r, begin)
    ensures Inv(Exec(r, steps), begin)
    decreases |steps|
  {
    if steps != [] {
      StepKeepsInv(r, begin, steps[0]);
      RunKeepsInv(Next(r, steps[0]), begin, steps[1..]);
    }
  }

  // -------------------------------------------------------------- main results

  /** Whenever the coordinator is not between `do_register` and its publication, a published
      NEEDS_AUTH comes with a URL and NEEDS_APPROVAL with a pending approval. */
  lemma PublishedStateIsPending(nodeKey: Key, oldKey: Option<Key>, configKey: Option<string>, steps: seq<Step>)
    ensures var ml := Exec(Begin(nodeKey, oldKey, configKey), steps).ml;
      && (ml.public.NeedsAuth? && !ml.coord.Finish? ==> ml.authUrl != "")
      && (ml.public.NeedsApproval? && !ml.coord.Finish? ==> ml.approvalPending)
  {
    var begin := Begin(nodeKey, oldKey, configKey);
    RunKeepsInv(begin, begin, steps);
  }

  /** Through timeouts, garbage, errors and reconnects the k-th request carries as
      Followup exactly the login URL that the answers before it left open. */
  lemma FollowupIsTheOpenUrl(nodeKey: Key, oldKey: Option<Key>, configKey: Option<string>, steps: seq<Step>, k: nat)
    ensures var r := Exec(Begin(nodeKey, oldKey, configKey), steps);
      && |r.requests| == |r.responses|
      && (k < |r.requests| ==> r.requests[k].followup == NonEmpty(Some(OpenUrl(r.responses[..k]))))
      && r.ml.authUrl == OpenUrl(r.responses) && r.ml.approvalPending == OpenApproval(r.responses)
  {
    var begin := Begin(nodeKey, oldKey, configKey);
    RunKeepsInv(begin, begin, steps);
  }

  /** The pending markers are cleared only by an accepting answer, except that a new
      login URL replaces the old one and withdraws a pending approval. */
  lemma {:induction false} OnlyOkClears(ml: Ml, step: Step)
    requires Enabled(ml, step)
    ensures var t := Apply(ml, step);
      && (t.authUrl != ml.authUrl ==>
          step.Ask? && (if t.authUrl == "" then Accepts(step.response) else AsksLogin(step.response)))
      && (ml.approvalPending && !t.approvalPending ==>
          step.Ask? && (Accepts(step.response) || (AsksLogin(step.response) && t.authUrl != "")))
      && (ml.oldKey.Some? && t.oldKey.None? ==> step.Ask? && Accepts(step.response))
  {
  }

  /** A rotated node registers with the key it replaced and without its spent auth
      key until an answer accepts it. */
  lemma RotationIsAnnounced(nodeKey: Key, oldKey: Key, configKey: Option<string>, steps: seq<Step>)
    ensures var r := Exec(Begin(nodeKey, Some(oldKey), configKey), steps);
      (forall k | 0 <= k < |r.responses| :: !Accepts(r.responses[k])) ==>
        r.ml.oldKey == Some(oldKey) && RequestFields(r.ml).oldNodeKey == Some(oldKey) &&
          RequestFields(r.ml).authKey.None?
  {
    var begin := Begin(nodeKey, Some(oldKey), configKey);
    RunKeepsInv(begin, begin, steps);
    var r := Exec(begin, steps);
    if forall k | 0 <= k < |r.responses| :: !Accepts(r.responses[k]) {
      NoneAccepts(r.responses);
    }
  }

  class Coordinator {
    const nodeKey: Key
    const configKey: Option<string>
    var oldKey: Option<Key>
    var authUrl: string
    var controlError: string
    var approvalPending: bool
    var public: Public
    var state: Coord

    function View(): Ml
      reads this
    {
      Ml(nodeKey, oldKey, configKey, authUrl, approvalPending, controlError, public, state)
    }

    constructor (nodeKey: Key, oldKey: Option<Key>, configKey: Option<string>)
      ensures View() == Begin(nodeKey, oldKey, configKey).ml
    {
      this.nodeKey, this.oldKey, this.configKey := nodeKey, oldKey, configKey;
      authUrl, controlError, approvalPending := "", "", false;
      public, state := PublicIdle, Elsewhere;
    }

    /** `do_register`, with the control plane's answer to its request. */
    method DoRegister(response: Response) returns (request: Request, result: Result)
      modifies this
      ensures request == RequestFields(old(View()))
      ensures result == Classify(response, old(authUrl) != "", old(approvalPending))
      ensures View() == Registered(old(View()), response)
    {
      request := RequestFields(View());
      result := Classify(response, authUrl != "", approvalPending);
      if !response.Json? {
        return;
      }
      match result {
        case Fatal =>
          if response.error.Some? {
            controlError := Copy(response.error.value, CONTROL_ERROR_SIZE);
          }
        case AuthResult =>
          authUrl := Copy(response.authUrl.value, AUTH_URL_SIZE);
          approvalPending := false;
        case ApprovalResult =>
          approvalPending := true;
        case Ok =>
          authUrl, controlError, approvalPending, oldKey := "", "", false, None;
        case ExpiredResult =>
        case Retry =>
      }
    }

    /** The COORD_REGISTER case: the call, and then what the coordinator makes of it. */
    method RegisterOnce(response: Response) returns (request: Request)
      requires PublicInv(View()) && state.Register?
      modifies this
      ensures request == RequestFields(old(View()))
      ensures View() == Finished(Apply(old(View()), Ask(response)))
      ensures PublicInv(View()) && !state.Finish?
    {
      AskMatchesReference(View(), response);
      var result;
      request, result := DoRegister(response);
      match result {
        case Fatal => public, state := Failed, Elsewhere;
        case ExpiredResult => public, state := NodeKeyExpired, Elsewhere;
        case AuthResult => public, state := NeedsAuth, WaitAuth;
        case ApprovalResult => public, state := NeedsApproval, WaitAuth;
        case Retry => state := Reconnect;
        case Ok => public, state := Registering, Elsewhere;
      }
    }

    /** The start of COORD_RECONNECTING. */
    method RetreatOnce()
      requires PublicInv(View()) && state.Reconnect?
      modifies this
      ensures View() == Apply(old(View()), Retreat) && PublicInv(View())
    {
      if approvalPending {
        public := NeedsApproval;
      } else if authUrl != "" {
        public := NeedsAuth;
      } else {
        public := Public.Reconnecting;
      }
      state := Elsewhere;
    }

    method ShakeOnce(ok: bool)
      requires PublicInv(View()) && state.Handshake?
      modifies this
      ensures View() == Apply(old(View()), Shake(ok)) && PublicInv(View())
    {
      if authUrl == "" && !approvalPending {
        public := Registering;
      }
      state := if ok then Elsewhere else Reconnect;
    }
  }
}
