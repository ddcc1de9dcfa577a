/**
 * The wallet page: one mutable session record (`STATE`) driven by connect,
 * switch-network, prepare-message and sign-and-bind. The wallet provider,
 * `fetch`, the clock and `Math.random` are parameters of the methods; the
 * status chips and buttons are kept as abstract values and flags.
 */
module Wallet {
  import opened Wrappers
  import opened Text
  import opened Json
  import opened BindMessage

  // ----- pure helpers -----

  function Min(a: nat, b: nat): nat { if a < b then a else b }

  /** A string the code tests with `if (s)`: present and non-empty. */
  predicate Present(s: Option<string>) { s.Some? && s.value != "" }

  /** A numeric id the code tests with `if (id)`: present and non-zero. */
  predicate IdTruthy(id: Option<int>) { id.Some? && id.value != 0 }

  /** `short(addr)`: "—" for nothing, else the first six and last four characters around an ellipsis. */
  function Short(addr: Option<string>): (r: string)
    ensures !Present(addr) ==> r == "—"
    ensures Present(addr) ==>
      var a, head, tail := addr.value, Min(|addr.value|, 6), Min(|addr.value|, 4);
      && |r| == head + 1 + tail
      && r[..head] == a[..head]
      && r[head] == '…'
      && r[head + 1..] == a[|a| - tail..]
  {
    if !Present(addr) then "—"
    else
      var a := addr.value;
      a[..Min(|a|, 6)] + "…" + a[|a| - Min(|a|, 4)..]
  }

  /** For a full-length address the short form is eleven characters and never the "absent" marker. */
  lemma ShortOfLongAddress(a: string)
    requires |a| >= 10
    ensures |Short(Some(a))| == 11
    ensures Short(Some(a)) == a[..6] + "…" + a[|a| - 4..]
    ensures Short(Some(a)) != Short(None)
  {
    var r := Short(Some(a));
    assert r[..6] == a[..6] && r[6] == '…' && r[7..] == a[|a| - 4..];
    assert r == r[..6] + [r[6]] + r[7..];
  }

  /**
   * `getTgId()`: a truthy Telegram runtime user id wins; otherwise the
   * `tg_user_id` query parameter when it is present and non-empty (its
   * numeric value is given here); otherwise null.
   */
  function GetTgId(runtimeId: Option<int>, queryId: Option<int>): (r: Option<int>)
    ensures IdTruthy(runtimeId) ==> r == runtimeId
    ensures !IdTruthy(runtimeId) ==> r == queryId
    ensures r.None? <==> !IdTruthy(runtimeId) && queryId.None?
  {
    if IdTruthy(runtimeId) then runtimeId else queryId
  }

  /** The part of `/api/config` the session consults: its `chainId`, if the backend sent a number. */
  datatype Config = Config(chainId: Option<int>)

  function ConfigOf(body: JsValue): (c: Config)
    ensures c.chainId.Some? <==> Member(body, "chainId").JNumber?
    ensures Member(body, "chainId").JNumber? ==> c.chainId == Some(Member(body, "chainId").n)
  {
    match Member(body, "chainId")
    case JNumber(n) => Config(Some(n))
    case _ => Config(None)
  }

  /** `STATE.cfg?.chainId` when truthy, as a number. */
  function ExpectedChainId(cfg: Option<Config>): (r: Option<int>)
    ensures r.Some? <==> cfg.Some? && IdTruthy(cfg.value.chainId)
    ensures r.Some? ==> r == cfg.value.chainId
  {
    if cfg.Some? && IdTruthy(cfg.value.chainId) then cfg.value.chainId else None
  }

  /** The mismatch test after connecting: a chain id is configured and the wallet is elsewhere. */
  predicate OnWrongNetwork(cfg: Option<Config>, network: int) {
    ExpectedChainId(cfg).Some? && network != ExpectedChainId(cfg).value
  }

  /** `res && (res.ok === true || res.status === "ok")` */
  predicate BindConfirmed(res: JsValue)
    ensures BindConfirmed(res) <==>
      res.JObject? &&
      (("ok" in res.members && res.members["ok"] == JBool(true)) ||
       ("status" in res.members && res.members["status"] == JString("ok")))
  {
    Truthy(res) && (Member(res, "ok") == JBool(true) || Member(res, "status") == JString("ok"))
  }

  datatype Alert =
    | WalletMissing          // no injected wallet provider
    | ConnectWalletFirst     // no account (or no signer) yet
    | OpenViaTelegram        // no Telegram id when preparing; preparation goes on
    | TelegramIdMissing      // no Telegram id when binding
    | PrepareMessageFirst    // no message to sign

  datatype BindOutcome =
    | NotReady(alert: Alert)
    | SignatureRejected
    | Bound
    | Ambiguous
    | ApiFailed(error: ApiError)

  /** Sorts the reply to POST /api/bind into bound, a 2xx without the success marker, or an API error. */
  function ClassifyBindReply(reply: HttpReply): (r: BindOutcome)
    ensures r.Bound? || r.Ambiguous? || r.ApiFailed?
    ensures r.Bound? <==>
      reply.Response? && StatusOk(reply.status) && reply.body.Some? && BindConfirmed(reply.body.value)
    ensures r.Ambiguous? <==>
      reply.Response? && StatusOk(reply.status) && reply.body.Some? && !BindConfirmed(reply.body.value)
    ensures r.ApiFailed? <==> reply.NetworkFailure? || !StatusOk(reply.status) || reply.body.None?
  {
    match ApiCall(reply)
    case Ok(res) => if BindConfirmed(res) then Bound else Ambiguous
    case Err(e) => ApiFailed(e)
  }

  /** A 2xx reply `{ok: false}` is neither a binding nor a transport error. */
  lemma OkFalseIsAmbiguous()
    ensures ClassifyBindReply(Response(200, Some(JObject(map["ok" := JBool(false)])))) == Ambiguous
  {
    var body := JObject(map["ok" := JBool(false)]);
    assert Member(body, "ok") == JBool(false) && Member(body, "status") == JUndefined;
  }

  // ----- session -----

  /** The provider calls `connect` awaits, in order; a failure names the one that threw. */
  datatype ProviderStep = RequestAccounts | GetSigner | GetAddress | GetNetwork {
    function Rank(): nat {
      match this
      case RequestAccounts => 0
      case GetSigner => 1
      case GetAddress => 2
      case GetNetwork => 3
    }
  }

  /** Whether `step` completed, given where (if anywhere) the provider threw. */
  predicate Completed(step: ProviderStep, thrownAt: Option<ProviderStep>) {
    thrownAt.None? || step.Rank() < thrownAt.value.Rank()
  }

  datatype WalletChip = WalletIdle | NoWallet | Connected | NetworkMismatch | ConnectFailed | SwitchFailed

  datatype BindChip = BindIdle | ReadyToSign | Signing | SignDeclined | Sending | BindOk | NoOkInReply | ApiError

  /** The JSON body of POST /api/bind. */
  datatype BindRequest = BindRequest(tgUserId: int, address: string, message: string, signature: string)

  function ChipFor(outcome: BindOutcome): BindChip {
    match outcome
    case Bound => BindOk
    case Ambiguous => NoOkInReply
    case _ => ApiError
  }

  class Session {
    // `STATE`; a provider or signer object is represented by whether it is set
    var cfg: Option<Config>
    var provider: bool
    var signer: bool
    var account: Option<string>
    var chainId: Option<int>
    var message: Option<string>
    var tgId: Option<int>

    // the page's status chips and buttons (true = enabled)
    var walletChip: WalletChip
    var bindChip: BindChip
    var switchEnabled: bool
    var copyEnabled: bool
    var prepareEnabled: bool
    var signBindEnabled: bool

    /** What every handler keeps: a signer only after a provider, an account only after a signer, a message only after an account, and no falsy Telegram id. */
    ghost predicate Valid()
      reads this
    {
      && (signer ==> provider)
      && (account.Some? ==> signer)
      && (message.Some? ==> account.Some?)
      && (signBindEnabled ==> message.Some?)
      && tgId != Some(0)
    }

    /** Whether `signAndBind` gets past its three guards. */
    predicate ReadyToBind()
      reads this
    {
      signer && Present(account) && IdTruthy(tgId) && Present(message)
    }

    constructor ()
      ensures Valid()
      ensures cfg.None? && !provider && !signer && account.None? && chainId.None? && message.None? && tgId.None?
      ensures walletChip == WalletIdle && bindChip == BindIdle
      ensures !switchEnabled && !copyEnabled && !prepareEnabled && !signBindEnabled
    {
      cfg, provider, signer, account, chainId, message, tgId := None, false, false, None, None, None, None;
      walletChip, bindChip := WalletIdle, BindIdle;
      switchEnabled, copyEnabled, prepareEnabled, signBindEnabled := false, false, false, false;
    }

    /** `loadConfig`: a good reply replaces the config; a failed one keeps whatever was there. */
    method LoadConfig(reply: HttpReply)
      requires Valid()
      modifies this`cfg
      ensures Valid()
      ensures ApiCall(reply).Ok? ==> cfg == Some(ConfigOf(ApiCall(reply).value))
      ensures ApiCall(reply).Err? ==> cfg == old(cfg)
    {
      match ApiCall(reply)
      case Ok(body) => cfg := Some(ConfigOf(body));
      case Err(_) =>
    }

    /**
     * `connect`. The provider, signer and account are stored as soon as each
     * is obtained, so a failure while reading the network leaves the new
     * account beside the old chain id.
     */
    method Connect(hasWallet: bool, address: string, network: int, thrownAt: Option<ProviderStep>)
      returns (alert: Option<Alert>)
      requires Valid()
      modifies this
      ensures Valid()
      ensures cfg == old(cfg) && message == old(message) && tgId == old(tgId)
      ensures bindChip == old(bindChip) && signBindEnabled == old(signBindEnabled)
      // no provider: nothing but the chip changes
      ensures !hasWallet ==>
        && alert == Some(WalletMissing) && walletChip == NoWallet
        && provider == old(provider) && signer == old(signer)
        && account == old(account) && chainId == old(chainId)
        && switchEnabled == old(switchEnabled) && copyEnabled == old(copyEnabled)
        && prepareEnabled == old(prepareEnabled)
      // with a provider: each field is updated exactly when its call completed
      ensures hasWallet ==>
        && alert.None? && provider
        && signer == (old(signer) || Completed(GetSigner, thrownAt))
        && account == (if Completed(GetAddress, thrownAt) then Some(address) else old(account))
        && chainId == (if thrownAt.None? then Some(network) else old(chainId))
      ensures hasWallet && thrownAt.None? ==>
        && copyEnabled && prepareEnabled
        && switchEnabled == OnWrongNetwork(cfg, network)
        && walletChip == (if OnWrongNetwork(cfg, network) then NetworkMismatch else Connected)
      ensures hasWallet && thrownAt.Some? ==>
        && walletChip == ConnectFailed
        && switchEnabled == old(switchEnabled) && copyEnabled == old(copyEnabled)
        && prepareEnabled == old(prepareEnabled)
    {
      if !hasWallet {
        walletChip := NoWallet;
        return Some(WalletMissing);
      }
      alert := None;
      provider := true;
      if thrownAt == Some(RequestAccounts) || thrownAt == Some(GetSigner) {
        walletChip := ConnectFailed;
        return;
      }
      signer := true;
      if thrownAt == Some(GetAddress) {
        walletChip := ConnectFailed;
        return;
      }
      account := Some(address);
      if thrownAt == Some(GetNetwork) {
        walletChip := ConnectFailed;
        return;
      }
      chainId := Some(network);
      walletChip := Connected;
      copyEnabled, prepareEnabled := true, true;
      if OnWrongNetwork(cfg, network) {
        walletChip := NetworkMismatch;
        switchEnabled := true;
      } else {
        switchEnabled := false;
      }
    }

    /**
     * `switchNetwork`: ask the wallet for the configured chain, then re-read
     * the network instead of trusting the request. `switchAccepted` is false
     * when the request throws; `network` is None when re-reading throws.
     */
    method SwitchNetwork(switchAccepted: bool, network: Option<int>) returns (requested: Option<int>)
      requires Valid()
      modifies this`chainId, this`switchEnabled, this`walletChip
      ensures Valid()
      ensures requested == ExpectedChainId(cfg)
      ensures requested.None? ==>
        chainId == old(chainId) && switchEnabled == old(switchEnabled) && walletChip == old(walletChip)
      ensures requested.Some? && switchAccepted && provider && network.Some? ==>
        && chainId == network
        && switchEnabled == (network.value != requested.value)
        && walletChip == (if network.value == requested.value then Connected else old(walletChip))
      ensures requested.Some? && !(switchAccepted && provider && network.Some?) ==>
        chainId == old(chainId) && switchEnabled == old(switchEnabled) && walletChip == SwitchFailed
    {
      requested := ExpectedChainId(cfg);
      if requested.None? {
        return;
      }
      var target := requested.value;
      if !switchAccepted || !provider || network.None? {
        walletChip := SwitchFailed;
        return;
      }
      chainId := network;
      switchEnabled := network.value != target;
      if network.value == target {
        walletChip := Connected;
      }
    }

    /**
     * `prepareMessage`: always refreshes the Telegram id; with an account it
     * builds a fresh challenge even when the id is missing (the alert does
     * not stop it).
     */
    method PrepareMessage(runtimeId: Option<int>, queryId: Option<int>, now: string, nonce: string)
      returns (alert: Option<Alert>)
      requires Valid()
      modifies this`tgId, this`message, this`bindChip, this`signBindEnabled
      ensures Valid()
      ensures tgId == (if IdTruthy(GetTgId(runtimeId, queryId)) then GetTgId(runtimeId, queryId) else None)
      ensures !Present(account) ==>
        && alert == Some(ConnectWalletFirst)
        && message == old(message) && bindChip == old(bindChip) && signBindEnabled == old(signBindEnabled)
      ensures Present(account) ==>
        && alert == (if IdTruthy(GetTgId(runtimeId, queryId)) then None else Some(OpenViaTelegram))
        && message == Some(BuildBindMessage(GetTgId(runtimeId, queryId), account.value, chainId, now, nonce))
        && bindChip == ReadyToSign && signBindEnabled
      // the challenge carries the account and the session's chain id, readable back out
      ensures Present(account) && NoNewline(account.value) && NoNewline(now) && NoNewline(nonce) ==>
        DecodeBindMessage(message.value)
          == Ok(Challenge(GetTgId(runtimeId, queryId), account.value, chainId, now, nonce))
    {
      var id := GetTgId(runtimeId, queryId);
      tgId := if IdTruthy(id) then id else None;
      if !Present(account) {
        return Some(ConnectWalletFirst);
      }
      alert := if IdTruthy(id) then None else Some(OpenViaTelegram);
      var c := Challenge(id, account.value, chainId, now, nonce);
      if Wellformed(c) {
        BindMessageRoundTrip(c);
      }
      message := Some(BuildBindMessage(id, account.value, chainId, now, nonce));
      bindChip := ReadyToSign;
      signBindEnabled := true;
    }

    /**
     * `signAndBind`: three guards, then the signature, then the POST. `sign`
     * is the wallet's answer to a signing request (None: the user declined);
     * `reply` is what the POST brings back. Only the bind chip changes.
     */
    method SignAndBind(sign: string -> Option<string>, reply: HttpReply)
      returns (outcome: BindOutcome, posted: Option<BindRequest>, reloadBindings: bool)
      requires Valid()
      modifies this`bindChip
      ensures Valid()
      // guards, in the order the code checks them
      ensures !signer || !Present(account) ==> outcome == NotReady(ConnectWalletFirst)
      ensures signer && Present(account) && !IdTruthy(tgId) ==> outcome == NotReady(TelegramIdMissing)
      ensures signer && Present(account) && IdTruthy(tgId) && !Present(message) ==>
        outcome == NotReady(PrepareMessageFirst)
      ensures !ReadyToBind() ==> posted.None? && bindChip == old(bindChip)
      // a declined signature stops before the POST
      ensures ReadyToBind() && sign(message.value).None? ==>
        outcome == SignatureRejected && posted.None? && bindChip == SignDeclined
      // what is posted is exactly the signed message, with the session's account and id
      ensures posted.Some? <==> ReadyToBind() && sign(message.value).Some?
      ensures posted.Some? ==>
        && posted.value == BindRequest(tgId.value, account.value, message.value, sign(message.value).value)
        && outcome == ClassifyBindReply(reply)
        && bindChip == ChipFor(outcome)
      // the list of bindings is reloaded only on a confirmed binding
      ensures reloadBindings <==> outcome == Bound
    {
      posted, reloadBindings := None, false;
      if !signer || !Present(account) {
        return NotReady(ConnectWalletFirst), posted, reloadBindings;
      }
      if !IdTruthy(tgId) {
        return NotReady(TelegramIdMissing), posted, reloadBindings;
      }
      if !Present(message) {
        return NotReady(PrepareMessageFirst), posted, reloadBindings;
      }
      bindChip := Signing;
      var sig := sign(message.value);
      if sig.None? {
        bindChip := SignDeclined;
        return SignatureRejected, posted, reloadBindings;
      }
      bindChip := Sending;
      posted := Some(BindRequest(tgId.value, account.value, message.value, sig.value));
      outcome := ClassifyBindReply(reply);
      bindChip := ChipFor(outcome);
      reloadBindings := outcome == Bound;
    }
  }

  /**
   * The flow a user walks through, first half: config expects chain 1, the
   * wallet is on chain 5, and the switch lands on 1.
   */
  method ConnectAndSwitchScenario(address: string) returns (s: Session)
    ensures fresh(s)
    ensures s.Valid() && s.account == Some(address) && s.chainId == Some(1) && !s.switchEnabled
  {
    s := new Session();
    var cfgBody := JObject(map["chainId" := JNumber(1)]);
    assert Member(cfgBody, "chainId") == JNumber(1);
    s.LoadConfig(Response(200, Some(cfgBody)));
    assert ExpectedChainId(s.cfg) == Some(1);
    var alert := s.Connect(true, address, 5, None);
    assert s.switchEnabled && s.walletChip == NetworkMismatch;
    var requested := s.SwitchNetwork(true, Some(1));
    assert requested == Some(1);
  }

  /**
   * Second half: the challenge is prepared and signed, and the backend
   * answers 200 `{ok: false}`.
   */
  method PrepareAndBindScenario(address: string, now: string, nonce: string) returns (outcome: BindOutcome, reload: bool)
    requires address != "" && NoNewline(address) && NoNewline(now) && NoNewline(nonce)
    ensures outcome == Ambiguous && !reload
  {
    var s := ConnectAndSwitchScenario(address);
    assert GetTgId(Some(42), None) == Some(42);
    var alert := s.PrepareMessage(Some(42), None, now, nonce);
    assert alert.None? && s.tgId == Some(42);
    assert DecodeBindMessage(s.message.value) == Ok(Challenge(Some(42), address, Some(1), now, nonce));
    var reply := Response(200, Some(JObject(map["ok" := JBool(false)])));
    OkFalseIsAmbiguous();
    assert s.ReadyToBind();
    var posted;
    outcome, posted, reload := s.SignAndBind(m => Some("0xsig"), reply);
    assert posted == Some(BindRequest(42, address, s.message.value, "0xsig"));
    assert outcome == Ambiguous && !reload && s.bindChip == NoOkInReply;
  }
}
