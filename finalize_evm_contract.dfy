/** The finalize-EVM-contract script: it builds a `finalizeEvmContract`
    action from three storage-slot flags, signs it, shows a copy of the
    payload with the signature shortened, and then either stops (dry run)
    or posts the payload once and maps the answer to an exit status. */
module FinalizeEvmContract {
  import opened Common

  const FinalizeKind := "finalizeEvmContract"
  /** The default private key; it means "not configured". */
  const PlaceholderKey := "0xPRIVATE_KEY"
  /** How many characters of `r` and `s` the display copy keeps. */
  const DisplayPrefix := 20
  const Ellipsis := "..."
  const ExchangePath := "/exchange"
  const RequestTimeoutSeconds := 30

  // ---------------------------------------------------------------------
  // Action model
  // ---------------------------------------------------------------------

  /** The `input` field: `"firstStorageSlot"`, `"customStorageSlot"` or
      `{"create": {"nonce": n}}`. */
  datatype StorageSlotInput = FirstStorageSlot | CustomStorageSlot | Create(nonce: int)

  /** `{"type": kind, "token": token, "input": input}` */
  datatype Action = Action(kind: string, token: int, input: StorageSlotInput)

  /** The three configuration flags; nothing forbids setting several. */
  datatype SlotFlags = SlotFlags(useFirstStorageSlot: bool, useDeployNonce: bool, useCustomStorageSlot: bool)

  /** The storage-slot strategies, one per flag. */
  datatype Strategy = Custom | DeployNonce | First

  /** The strategies whose flag is set. */
  function Selected(flags: SlotFlags): set<Strategy>
  {
    (if flags.useCustomStorageSlot then {Custom} else {})
    + (if flags.useDeployNonce then {DeployNonce} else {})
    + (if flags.useFirstStorageSlot then {First} else {})
  }

  /** Priority of a strategy when several are selected: lower wins. */
  function Rank(s: Strategy): nat
  {
    match s
    case Custom => 0
    case DeployNonce => 1
    case First => 2
  }

  function StrategyOf(input: StorageSlotInput): Strategy
  {
    match input
    case CustomStorageSlot => Custom
    case Create(_) => DeployNonce
    case FirstStorageSlot => First
  }

  /** The if/elif chain that picks the storage slot. `None` stands for the
      exception raised when no flag is set. */
  function BuildAction(token: int, flags: SlotFlags, deployNonce: int): (r: Option<Action>)
    ensures r.None? <==> Selected(flags) == {}
    ensures r.Some? ==> r.value.kind == FinalizeKind && r.value.token == token
    ensures r.Some? ==> StrategyOf(r.value.input) in Selected(flags)
    ensures r.Some? ==> forall s :: s in Selected(flags) ==> Rank(StrategyOf(r.value.input)) <= Rank(s)
    ensures r.Some? && r.value.input.Create? ==> r.value.input.nonce == deployNonce
  {
    if flags.useCustomStorageSlot then
      Some(Action(FinalizeKind, token, CustomStorageSlot))
    else if flags.useDeployNonce then
      Some(Action(FinalizeKind, token, Create(deployNonce)))
    else if flags.useFirstStorageSlot then
      Some(Action(FinalizeKind, token, FirstStorageSlot))
    else
      None
  }

  /** The custom slot wins whatever the other two flags say. */
  lemma CustomSlotWins(token: int, flags: SlotFlags, deployNonce: int)
    requires flags.useCustomStorageSlot
    ensures BuildAction(token, flags, deployNonce) == Some(Action(FinalizeKind, token, CustomStorageSlot))
  {
  }

  /** Without the custom flag, the deploy nonce wins over the first slot;
      the first slot is used only when it alone is set. */
  lemma NonceThenFirstSlot(token: int, flags: SlotFlags, deployNonce: int)
    requires !flags.useCustomStorageSlot
    ensures flags.useDeployNonce ==>
      BuildAction(token, flags, deployNonce) == Some(Action(FinalizeKind, token, Create(deployNonce)))
    ensures !flags.useDeployNonce && flags.useFirstStorageSlot ==>
      BuildAction(token, flags, deployNonce) == Some(Action(FinalizeKind, token, FirstStorageSlot))
  {
  }

  // ---------------------------------------------------------------------
  // Signing and payload
  // ---------------------------------------------------------------------

  /** The key loaded by `Account.from_key`. */
  datatype Account = Account(address: string)

  /** `{"r": r, "s": s, "v": v}` as returned by the signer. */
  datatype Signature = Signature(r: string, s: string, v: int)

  /** The arguments of `sign_l1_action(account, action, active_pool, nonce, expires_after, is_mainnet)`. */
  datatype SignRequest = SignRequest(
    account: Account, action: Action, activePool: Option<string>,
    nonce: int, expiresAfter: Option<int>, isMainnet: bool)

  /** `{"action": ..., "nonce": ..., "signature": ..., "vaultAddress": ...}` */
  datatype Payload = Payload(action: Action, nonce: int, signature: Signature, vaultAddress: Option<string>)

  /** `s[:20] + "..."` when `s` is longer than 20 characters, else `s`. */
  function Shortened(s: string): (t: string)
    ensures |s| <= DisplayPrefix ==> t == s
    ensures |s| > DisplayPrefix ==> |t| == DisplayPrefix + |Ellipsis|
    ensures |s| > DisplayPrefix ==> t[..DisplayPrefix] == s[..DisplayPrefix] && t[DisplayPrefix..] == Ellipsis
  {
    if |s| > DisplayPrefix then s[..DisplayPrefix] + Ellipsis else s
  }

  /** The display copy of a payload: every key as in the payload, except
      that the signature's `r` and `s` are shortened. */
  function Display(payload: Payload): (display: Payload)
    ensures display.action == payload.action
    ensures display.nonce == payload.nonce
    ensures display.vaultAddress == payload.vaultAddress
    ensures display.signature.v == payload.signature.v
    ensures |payload.signature.r| <= DisplayPrefix ==> display.signature.r == payload.signature.r
    ensures |payload.signature.r| > DisplayPrefix ==> display.signature.r == payload.signature.r[..DisplayPrefix] + Ellipsis
    ensures |payload.signature.s| <= DisplayPrefix ==> display.signature.s == payload.signature.s
    ensures |payload.signature.s| > DisplayPrefix ==> display.signature.s == payload.signature.s[..DisplayPrefix] + Ellipsis
  {
    var sig := payload.signature;
    payload.(signature := Signature(Shortened(sig.r), Shortened(sig.s), sig.v))
  }

  /** `payload.copy()` followed by overwriting the copy's `"signature"` key.
      The payload itself is a value and is not touched. */
  method DisplayCopy(payload: Payload) returns (display: Payload)
    ensures display == Display(payload)
  {
    display := payload;
    var sig := payload.signature;
    display := display.(signature := Signature(Shortened(sig.r), Shortened(sig.s), sig.v));
  }

  // ---------------------------------------------------------------------
  // Submission and the exit status
  // ---------------------------------------------------------------------

  /** The arguments of `requests.post(url, json=payload, timeout=...)`. */
  datatype PostRequest = PostRequest(url: string, payload: Payload, timeoutSeconds: int)

  /** What happens inside the `try` around the request.
      `Response` is a body decoded after `raise_for_status` let it through;
      the other four are the exception kinds the handlers tell apart (a body
      that does not decode raises one of the last two). */
  datatype SendOutcome =
    | Response(body: Json)
    | TimeoutRaised
    | HttpErrorRaised
    | RequestExceptionRaised
    | OtherExceptionRaised

  /** How the script reads a send outcome. */
  datatype SendStatus =
    | Accepted       // a dict body with status "ok"
    | Rejected       // a dict body with status "err"
    | OtherStatus    // a dict body with any other or no status
    | NotADict       // a body that is not a JSON object
    | TimedOut
    | HttpFailed
    | RequestFailed
    | UnexpectedError

  function Classify(outcome: SendOutcome): (status: SendStatus)
    ensures status == Accepted <==> outcome.Response? && HasEntry(outcome.body, "status", JString("ok"))
    ensures status == Rejected <==> outcome.Response? && HasEntry(outcome.body, "status", JString("err"))
    ensures status == NotADict <==> outcome.Response? && !outcome.body.JObject?
    ensures outcome.Response? == (status in {Accepted, Rejected, OtherStatus, NotADict})
    ensures status == TimedOut <==> outcome == TimeoutRaised
    ensures status == HttpFailed <==> outcome == HttpErrorRaised
    ensures status == RequestFailed <==> outcome == RequestExceptionRaised
    ensures status == UnexpectedError <==> outcome == OtherExceptionRaised
  {
    match outcome
    case Response(body) =>
      if !body.JObject? then NotADict
      else if HasEntry(body, "status", JString("ok")) then Accepted
      else if HasEntry(body, "status", JString("err")) then Rejected
      else OtherStatus
    case TimeoutRaised => TimedOut
    case HttpErrorRaised => HttpFailed
    case RequestExceptionRaised => RequestFailed
    case OtherExceptionRaised => UnexpectedError
  }

  /** Every way one run of the script can end. */
  datatype FinalizeOutcome =
    | PlaceholderKeyConfigured
    | KeyNotLoaded
    | NoSlotSelected      // the uncaught "Must set one of ..." exception
    | SigningFailed
    | DryRun
    | Sent(status: SendStatus)

  /** The process exit status. `main` returns 0 or 1; when it raises
      (no slot selected) the interpreter exits with status 1. */
  function ExitStatus(o: FinalizeOutcome): (code: int)
    ensures code == 0 || code == 1
    ensures o == NoSlotSelected ==> code == 1
    ensures code == 0 <==> o == DryRun || (o.Sent? && o.status in {Accepted, OtherStatus, NotADict})
  {
    match o
    case DryRun => 0
    case Sent(Accepted) => 0
    case Sent(OtherStatus) => 0
    case Sent(NotADict) => 0
    case _ => 1
  }

  /** After a send, the exit status is 1 exactly for an exception or a dict
      body whose status is "err"; "ok", any other status and a body that
      is not a dict all give 0. */
  lemma ExitStatusOfSend(outcome: SendOutcome)
    ensures ExitStatus(Sent(Classify(outcome))) == 0 || ExitStatus(Sent(Classify(outcome))) == 1
    ensures ExitStatus(Sent(Classify(outcome))) == 1 <==>
      !outcome.Response? || HasEntry(outcome.body, "status", JString("err"))
  {
  }

  /** The configuration constants the script reads. */
  datatype FinalizeConfig = FinalizeConfig(
    token: int, privateKey: string, flags: SlotFlags, deployNonce: int,
    dryRun: bool, useMainnet: bool, mainnetUrl: string, testnetUrl: string)

  /** `API_URL`: the mainnet or the testnet base URL, as `USE_MAINNET` says. */
  function ApiUrl(cfg: FinalizeConfig): string
  {
    if cfg.useMainnet then cfg.mainnetUrl else cfg.testnetUrl
  }

  /** One run: how it ended, every call made to the signer and to the
      endpoint, and the display copy if one was made. */
  datatype FinalizeRun = FinalizeRun(
    outcome: FinalizeOutcome, signCalls: seq<SignRequest>, posts: seq<PostRequest>, display: Option<Payload>)

  /** `main`. `fromKey`, `sign` and `post` stand for `Account.from_key`,
      `sign_l1_action` and `requests.post` (`None` when they raise);
      `nonce` is what `get_timestamp_ms` returns. */
  method Finalize(
    cfg: FinalizeConfig, fromKey: string -> Option<Account>, nonce: int,
    sign: SignRequest -> Option<Signature>, post: PostRequest -> SendOutcome)
    returns (run: FinalizeRun)
    // configuration and signing failures stop the run before anything is sent
    ensures cfg.privateKey == PlaceholderKey <==> run.outcome == PlaceholderKeyConfigured
    ensures cfg.privateKey == PlaceholderKey ==> run.signCalls == [] && run.posts == []
    ensures run.outcome == KeyNotLoaded <==> cfg.privateKey != PlaceholderKey && fromKey(cfg.privateKey).None?
    ensures run.outcome == NoSlotSelected <==>
      cfg.privateKey != PlaceholderKey && fromKey(cfg.privateKey).Some? && Selected(cfg.flags) == {}
    ensures run.outcome == NoSlotSelected ==> run.signCalls == [] && run.posts == []
    ensures run.posts == [] && run.outcome != DryRun ==> ExitStatus(run.outcome) == 1
    // at most one signature and one request; the signer sees the built action and the nonce
    ensures |run.signCalls| <= 1 && |run.posts| <= |run.signCalls|
    ensures run.signCalls != [] ==>
      var action := BuildAction(cfg.token, cfg.flags, cfg.deployNonce);
      && action.Some? && fromKey(cfg.privateKey).Some?
      && run.signCalls[0] == SignRequest(fromKey(cfg.privateKey).value, action.value, None, nonce, None, cfg.useMainnet)
    ensures run.outcome == SigningFailed <==> run.signCalls != [] && sign(run.signCalls[0]).None?
    // the payload is the action, the same nonce, the returned signature and no vault
    ensures run.display.Some? <==> run.signCalls != [] && sign(run.signCalls[0]).Some?
    // the display copy shows the same payload a live run posts
    ensures run.display.Some? ==>
      run.display.value == Display(Payload(run.signCalls[0].action, nonce, sign(run.signCalls[0]).value, None))
    ensures run.posts != [] ==>
      && sign(run.signCalls[0]).Some?
      && run.posts[0] == PostRequest((if cfg.useMainnet then cfg.mainnetUrl else cfg.testnetUrl) + ExchangePath,
           Payload(run.signCalls[0].action, nonce, sign(run.signCalls[0]).value, None), RequestTimeoutSeconds)
    // dry run: nothing is posted and the status is 0
    ensures cfg.dryRun ==> run.posts == []
    ensures run.outcome == DryRun <==> cfg.dryRun && run.display.Some?
    ensures run.outcome == DryRun ==> ExitStatus(run.outcome) == 0
    // live run: exactly one post, and the outcome is its classification
    ensures run.posts != [] <==> !cfg.dryRun && run.display.Some?
    ensures run.outcome.Sent? <==> run.posts != []
    ensures run.posts != [] ==> run.outcome == Sent(Classify(post(run.posts[0])))
  {
    if cfg.privateKey == PlaceholderKey {
      return FinalizeRun(PlaceholderKeyConfigured, [], [], None);
    }
    var account := fromKey(cfg.privateKey);
    if account.None? {
      return FinalizeRun(KeyNotLoaded, [], [], None);
    }
    var action := BuildAction(cfg.token, cfg.flags, cfg.deployNonce);
    if action.None? {
      return FinalizeRun(NoSlotSelected, [], [], None);
    }
    var request := SignRequest(account.value, action.value, None, nonce, None, cfg.useMainnet);
    var signature := sign(request);
    if signature.None? {
      return FinalizeRun(SigningFailed, [request], [], None);
    }
    var payload := Payload(action.value, nonce, signature.value, None);
    var display := DisplayCopy(payload);
    if cfg.dryRun {
      return FinalizeRun(DryRun, [request], [], Some(display));
    }
    var postRequest := PostRequest((if cfg.useMainnet then cfg.mainnetUrl else cfg.testnetUrl) + ExchangePath, payload, RequestTimeoutSeconds);
    var status := Classify(post(postRequest));
    return FinalizeRun(Sent(status), [request], [postRequest], Some(display));
  }
}
