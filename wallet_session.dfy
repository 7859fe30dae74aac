/**
 * The client-side wallet session of the `Wallet` component.
 *
 * The component's React state is the set of fields of a `Session` object; each
 * handler is a method that updates them step by step. What the component does to the
 * outside world is recorded in fields too: the toasts it shows, the save requests it
 * sends to `POST /api/wallet`, the keys it generates and the payments it submits.
 * Everything that comes from a library or the network (key derivation, random key
 * generation, balance and nonce reads, the server's reply, the outcome of sending and
 * confirming a transaction) is a parameter.
 *
 * The pure parts (the validation chain, the `isNaN(parseFloat(x))` test and the
 * classifier of failed transfers) are functions.
 */
module WalletSession {
  import opened Js
  import WalletRoute

  // ---------------------------------------------------------------------------
  // isNaN(parseFloat(s))
  // ---------------------------------------------------------------------------

  /** The characters `parseFloat` skips before the number: JavaScript's WhiteSpace and LineTerminator. */
  predicate IsWhiteSpace(c: char)
  {
    || c == '\t' || c == '\n' || c == '\U{000B}' || c == '\U{000C}' || c == '\r' || c == ' '
    || c == '\U{00A0}' || c == '\U{1680}' || ('\U{2000}' <= c <= '\U{200A}')
    || c == '\U{2028}' || c == '\U{2029}' || c == '\U{202F}' || c == '\U{205F}'
    || c == '\U{3000}' || c == '\U{FEFF}'
  }

  /** `s` without its leading white space. */
  function TrimStart(s: string): (r: string)
  {
    if s != [] && IsWhiteSpace(s[0]) then TrimStart(s[1..]) else s
  }

  /** What trimming removes is a run of white space in front, and what it leaves starts with none. */
  lemma {:induction false} TrimStartRemovesWhiteSpace(s: string)
    ensures |TrimStart(s)| <= |s| && TrimStart(s) == s[|s| - |TrimStart(s)|..]
    ensures TrimStart(s) == [] || !IsWhiteSpace(TrimStart(s)[0])
    ensures forall i :: 0 <= i < |s| - |TrimStart(s)| ==> IsWhiteSpace(s[i])
  {
    if s != [] && IsWhiteSpace(s[0]) {
      var t := s[1..];
      TrimStartRemovesWhiteSpace(t);
      var r := TrimStart(t);
      assert TrimStart(s) == r;
      assert t[|t| - |r|..] == s[|s| - |r|..];
      forall i | 0 <= i < |s| - |r|
        ensures IsWhiteSpace(s[i])
      {
        if i > 0 {
          assert s[i] == t[i - 1];
        }
      }
    }
  }

  /** `s` without one leading sign. */
  function WithoutSign(s: string): (r: string)
  {
    if s != [] && (s[0] == '+' || s[0] == '-') then s[1..] else s
  }

  /**
   * `parseFloat(s)` yields a number when, after white space and an optional sign,
   * `s` starts with `Infinity`, with a digit, or with `.` and a digit; whatever follows
   * that prefix is ignored.
   */
  predicate HasNumericPrefix(s: string)
  {
    var u := WithoutSign(TrimStart(s));
    StartsWith(u, "Infinity") || (u != [] && IsDigit(u[0])) || (|u| >= 2 && u[0] == '.' && IsDigit(u[1]))
  }

  /** `isNaN(parseFloat(s))` */
  predicate ParseFloatIsNaN(s: string)
  {
    !HasNumericPrefix(s)
  }

  /** Leading white space never changes the verdict. */
  lemma {:induction false} LeadingWhiteSpaceIgnored(ws: string, s: string)
    requires forall i :: 0 <= i < |ws| ==> IsWhiteSpace(ws[i])
    ensures TrimStart(ws + s) == TrimStart(s)
    ensures ParseFloatIsNaN(ws + s) == ParseFloatIsNaN(s)
  {
    if ws != [] {
      assert (ws + s)[1..] == ws[1..] + s;
      LeadingWhiteSpaceIgnored(ws[1..], s);
    } else {
      assert ws + s == s;
    }
  }

  /** Trailing text never changes the verdict once a number has started: "1abc" is accepted. */
  lemma {:induction false} TrailingTextIgnored(s: string, junk: string)
    requires !ParseFloatIsNaN(s)
    ensures !ParseFloatIsNaN(s + junk)
  {
    TrimStartAppend(s, junk);
    var u := WithoutSign(TrimStart(s));
    var v := WithoutSign(TrimStart(s + junk));
    assert v == u + junk;
    if StartsWith(u, "Infinity") {
      assert v[..|"Infinity"|] == u[..|"Infinity"|];
    }
  }

  lemma {:induction false} TrimStartAppend(s: string, junk: string)
    requires TrimStart(s) != []
    ensures TrimStart(s + junk) == TrimStart(s) + junk
  {
    if IsWhiteSpace(s[0]) {
      assert (s + junk)[1..] == s[1..] + junk;
      TrimStartAppend(s[1..], junk);
    }
  }

  /** The test accepts negative amounts, zero, `Infinity` and trailing junk. */
  lemma AcceptedAmounts()
    ensures !ParseFloatIsNaN("1abc")
    ensures !ParseFloatIsNaN("-5")
    ensures !ParseFloatIsNaN("0")
    ensures !ParseFloatIsNaN(" .5")
    ensures !ParseFloatIsNaN("-Infinity")
  {
    assert TrimStart("1abc") == "1abc";
    assert TrimStart("-5") == "-5";
    assert TrimStart("0") == "0";
    assert TrimStart(".5") == ".5";
    assert TrimStart(" .5") == ".5";
    assert TrimStart("-Infinity") == "-Infinity";
    assert WithoutSign("-Infinity") == "Infinity";
  }

  /** The test refuses text with no number in front of it. */
  lemma RefusedAmounts()
    ensures ParseFloatIsNaN("notanumber")
    ensures ParseFloatIsNaN(".")
    ensures ParseFloatIsNaN("  ")
    ensures ParseFloatIsNaN("+-1")
  {
    assert TrimStart("notanumber") == "notanumber";
    assert TrimStart(".") == ".";
    assert TrimStart(" ") == "";
    assert TrimStart("  ") == "";
    assert TrimStart("+-1") == "+-1";
    assert WithoutSign("+-1") == "-1";
  }

  // ---------------------------------------------------------------------------
  // The validation chain and the failure classifier
  // ---------------------------------------------------------------------------

  datatype ValidationError = NoRecipient | NoAmount | InvalidAmount

  /** The three checks of a transfer, in their fixed order; the first failing one decides. */
  function Validate(recipient: Option<string>, amount: Option<string>): (r: Option<ValidationError>)
    ensures r == Some(NoRecipient) <==> !Truthy(recipient)
    ensures r == Some(NoAmount) <==> Truthy(recipient) && !Truthy(amount)
    ensures r == Some(InvalidAmount) <==> Truthy(recipient) && Truthy(amount) && ParseFloatIsNaN(amount.value)
    ensures r == None <==> Truthy(recipient) && Truthy(amount) && HasNumericPrefix(amount.value)
  {
    if !Truthy(recipient) then Some(NoRecipient)
    else if !Truthy(amount) then Some(NoAmount)
    else if ParseFloatIsNaN(amount.value) then Some(InvalidAmount)
    else None
  }

  const EnsMarker := "network does not support ENS "
  const FundsMarker := "insufficient funds"

  datatype FailureReason = WrongAddress | NoFunds | TryLater

  /** The catch block: first match of two substring searches on the error's message. */
  function ClassifyFailure(message: string): (r: FailureReason)
    ensures r == WrongAddress <==> Includes(message, EnsMarker)
    ensures r == NoFunds <==> !Includes(message, EnsMarker) && Includes(message, FundsMarker)
    ensures r == TryLater <==> !Includes(message, EnsMarker) && !Includes(message, FundsMarker)
  {
    if Includes(message, EnsMarker) then WrongAddress
    else if Includes(message, FundsMarker) then NoFunds
    else TryLater
  }

  /** The classifier in terms of positions: the address message wins wherever the funds text occurs. */
  lemma ClassifyByOccurrence(message: string)
    ensures ClassifyFailure(message) == WrongAddress <==> exists i :: OccursAt(message, EnsMarker, i)
    ensures ClassifyFailure(message) == NoFunds <==>
      (forall i :: !OccursAt(message, EnsMarker, i)) && exists j :: OccursAt(message, FundsMarker, j)
  {
    IncludesIff(message, EnsMarker);
    IncludesIff(message, FundsMarker);
  }

  /** Any message that carries the funds text after a prefix is classified as missing funds, unless it names ENS. */
  lemma FundsMessageClassified(prefix: string, suffix: string)
    requires !Includes(prefix + FundsMarker + suffix, EnsMarker)
    ensures ClassifyFailure(prefix + FundsMarker + suffix) == NoFunds
  {
    var m := prefix + FundsMarker + suffix;
    assert m[|prefix|..|prefix| + |FundsMarker|] == FundsMarker;
    assert OccursAt(m, FundsMarker, |prefix|);
    IncludesIff(m, FundsMarker);
  }

  /** A toast: optional title, description, and whether it is shown as destructive. */
  datatype Toast = Toast(title: Option<string>, description: string, destructive: bool)

  function ValidationToast(e: ValidationError): (t: Toast)
  {
    match e
    case NoRecipient => Toast(None, "Please enter a recipient address", true)
    case NoAmount => Toast(None, "Please enter a transfer amount", true)
    case InvalidAmount => Toast(None, "Please enter a valid transfer amount", true)
  }

  /** The message for a failed transfer: one of three fixed texts, never the raw error. */
  function FailureToast(r: FailureReason): (t: Toast)
    ensures t.destructive
    ensures t.description in {"Please Enter Correct Wallet Address!",
                               "Your wallet doesn't have sufficient funds!",
                               "There was some error please try again later!"}
  {
    match r
    case WrongAddress => Toast(None, "Please Enter Correct Wallet Address!", true)
    case NoFunds => Toast(Some("Please enter correct Amount!"), "Your wallet doesn't have sufficient funds!", true)
    case TryLater => Toast(None, "There was some error please try again later!", true)
  }

  const SuccessToast := Toast(None, "Transaction successful!", false)

  // ---------------------------------------------------------------------------
  // The session
  // ---------------------------------------------------------------------------

  /** The `user` prop: the user row without its password. */
  datatype UserView = UserView(id: string, ethereumPrivKey: Option<string>, ethereumAddress: Option<string>)

  /** An `ethers.Wallet`: its key, the address derived from it, and whether a provider is attached. */
  datatype Signer = Signer(privateKey: string, address: string, connected: bool)

  /**
   * `new ethers.Wallet(privateKey).address`: the address derived from a key, or None
   * when the constructor throws on a malformed key.
   */
  type Derive = string -> Option<string>

  /** The body and header of one `POST /api/wallet` request. */
  datatype SaveRequest = SaveRequest(authorization: string, ethereumAddress: string, ethereumPrivKey: string)

  /** The server's answer to a save: ok, not ok with the message of its body, or no answer at all. */
  datatype SaveReply = Saved | Refused(message: string) | Unreachable

  /** A balance and nonce read: `formatEther(getBalance(a))` and `getTransactionCount(a)`, or a failed read. */
  datatype ChainRead = Read(formattedBalance: string, nonce: nat) | ReadFailed

  /** What happened after `sendTransaction`: confirmed (then the follow-up balance read), or an error's message. */
  datatype SubmitOutcome = Confirmed(refresh: ChainRead) | Failed(message: string)

  /**
   * `ethers.parseEther(amount)`: the message of the error it throws on an amount it
   * cannot convert to wei, or None when it accepts the amount.
   */
  type ParseEther = string -> Option<string>

  /** A payment handed to `sendTransaction`: recipient and amount as entered. */
  datatype Payment = Payment(to: string, amount: string)

  /** The guards shared by `fetchBalance` and `transfer`: a wallet, attached to a provider, with an address. */
  predicate CanQuery(w: Option<Signer>)
  {
    w.Some? && w.value.connected && w.value.address != ""
  }

  /** The wallet the restore path builds from a stored key, if the key is well formed. */
  function RestoredSigner(privKey: string, derive: Derive): (r: Option<Signer>)
  {
    match derive(privKey)
    case Some(address) => Some(Signer(privKey, address, false))
    case None => None
  }

  class Session {
    const user: UserView

    var wallet: Option<Signer>
    var balance: Option<string>
    var transactionCount: Option<string>
    var transferAmount: Option<string>
    var recepientAddress: Option<string>
    var transferDialogOpen: bool
    var isTransferring: bool
    var isQRReaderOpen: bool

    /** Toasts shown, oldest first. */
    var toasts: seq<Toast>
    /** Requests sent to `POST /api/wallet`, oldest first. */
    var saveRequests: seq<SaveRequest>
    /** How many random keys were generated. */
    var keysGenerated: nat
    /** Payments handed to `sendTransaction` (validated and accepted by `parseEther`), oldest first. */
    var submitted: seq<Payment>

    /** The state right after mounting: nothing loaded, nothing shown or sent. */
    constructor (u: UserView)
      ensures user == u && wallet == None && balance == None && transactionCount == None
      ensures transferAmount == None && recepientAddress == None
      ensures !transferDialogOpen && !isTransferring && !isQRReaderOpen
      ensures toasts == [] && saveRequests == [] && keysGenerated == 0 && submitted == []
    {
      user := u;
      wallet, balance, transactionCount := None, None, None;
      transferAmount, recepientAddress := None, None;
      transferDialogOpen, isTransferring, isQRReaderOpen := false, false, false;
      toasts, saveRequests, keysGenerated, submitted := [], [], 0, [];
    }

    /**
     * `saveWallet(w)`: one request carrying the wallet's address and key under the
     * user's id; a refusal only shows the server's message.
     */
    method SaveWallet(w: Signer, reply: SaveReply)
      modifies this`saveRequests, this`toasts
      ensures saveRequests == old(saveRequests) + [SaveRequest(user.id, w.address, w.privateKey)]
      ensures toasts == old(toasts) + (if reply.Refused? then [Toast(None, reply.message, true)] else [])
    {
      saveRequests := saveRequests + [SaveRequest(user.id, w.address, w.privateKey)];
      if reply.Refused? {
        toasts := toasts + [Toast(None, reply.message, true)];
      }
    }

    /**
     * `handleCreateWallet()`, run once on mount. A user holding both key fields gets
     * the wallet rebuilt from the stored key alone (the derived address is never
     * compared with the stored one), with no key generated and nothing sent. Otherwise
     * one key is generated, its wallet set, and one save request sent; a failed save is
     * only reported, and the wallet stays set. A key the wallet constructor rejects leaves the wallet as it was.
     */
    method LoadWallet(freshKey: string, derive: Derive, reply: SaveReply)
      modifies this`wallet, this`keysGenerated, this`saveRequests, this`toasts
      ensures WalletRoute.HoldsKeyPair(user.ethereumPrivKey, user.ethereumAddress) ==>
        && wallet == (var r := RestoredSigner(user.ethereumPrivKey.value, derive); if r.Some? then r else old(wallet))
        && keysGenerated == old(keysGenerated)
        && saveRequests == old(saveRequests)
        && toasts == old(toasts)
      ensures !WalletRoute.HoldsKeyPair(user.ethereumPrivKey, user.ethereumAddress) ==>
        && keysGenerated == old(keysGenerated) + 1
        && (derive(freshKey).None? ==>
              wallet == old(wallet) && saveRequests == old(saveRequests) && toasts == old(toasts))
        && (derive(freshKey).Some? ==>
              && wallet == Some(Signer(freshKey, derive(freshKey).value, false))
              && saveRequests == old(saveRequests) + [SaveRequest(user.id, derive(freshKey).value, freshKey)]
              && toasts == old(toasts) + (if reply.Refused? then [Toast(None, reply.message, true)] else []))
    {
      if Truthy(user.ethereumPrivKey) && Truthy(user.ethereumAddress) {
        var restored := RestoredSigner(user.ethereumPrivKey.value, derive);
        if restored.Some? {
          wallet := restored;
        }
        return;
      }
      keysGenerated := keysGenerated + 1;
      var address := derive(freshKey);
      if address.None? {
        return;
      }
      var w := Signer(freshKey, address.value, false);
      wallet := Some(w);
      SaveWallet(w, reply);
    }

    /**
     * `fetchBalance()`: no change without a connected wallet with an address, or when
     * a read fails; otherwise the balance becomes the formatted balance and the count
     * the decimal string of the nonce.
     */
    method FetchBalance(read: ChainRead)
      modifies this`balance, this`transactionCount
      ensures CanQuery(wallet) && read.Read? ==>
        balance == Some(read.formattedBalance) && transactionCount == Some(NatToString(read.nonce))
      ensures !(CanQuery(wallet) && read.Read?) ==>
        balance == old(balance) && transactionCount == old(transactionCount)
    {
      if wallet.None? { return; }
      if !wallet.value.connected { return; }
      if wallet.value.address == "" { return; }
      if read.ReadFailed? { return; }
      balance := Some(read.formattedBalance);
      transactionCount := Some(NatToString(read.nonce));
    }

    /**
     * The effect run when the wallet changes: an unattached wallet is attached to the
     * provider (the balance read in the same run still sees the unattached wallet and
     * does nothing); an attached one has its balance read.
     */
    method AttachProvider(read: ChainRead)
      modifies this`wallet, this`balance, this`transactionCount
      ensures wallet.None? <==> old(wallet).None?
      ensures old(wallet).Some? && !old(wallet).value.connected ==>
        wallet == Some(old(wallet).value.(connected := true))
        && balance == old(balance) && transactionCount == old(transactionCount)
      ensures (old(wallet).None? || old(wallet).value.connected) ==> wallet == old(wallet)
      ensures CanQuery(old(wallet)) && read.Read? ==>
        balance == Some(read.formattedBalance) && transactionCount == Some(NatToString(read.nonce))
      ensures !(CanQuery(old(wallet)) && read.Read?) ==>
        balance == old(balance) && transactionCount == old(transactionCount)
    {
      if wallet.None? { return; }
      if !wallet.value.connected {
        wallet := Some(wallet.value.(connected := true));
        return;
      }
      FetchBalance(read);
    }

    /**
     * The part of `transfer()` before the first `await`: the silent guards, the
     * validation chain, then `isTransferring` set and the amount handed to
     * `parseEther`. An amount `parseEther` rejects throws inside the `try`, so nothing
     * is sent: the catch block classifies the thrown message and the flag is reset.
     * Otherwise the payment is handed to `sendTransaction`. Only the disabled button
     * keeps a second call out while one is in flight, hence the precondition.
     */
    method StartTransfer(parseEther: ParseEther) returns (started: bool)
      requires !isTransferring
      modifies this`toasts, this`isTransferring, this`submitted
      ensures started == isTransferring
      ensures !CanQuery(wallet) ==> !started && toasts == old(toasts) && submitted == old(submitted)
      ensures CanQuery(wallet) && Validate(recepientAddress, transferAmount).Some? ==>
        && !started
        && toasts == old(toasts) + [ValidationToast(Validate(recepientAddress, transferAmount).value)]
        && submitted == old(submitted)
      ensures CanQuery(wallet) && Validate(recepientAddress, transferAmount).None?
              && parseEther(transferAmount.value).Some? ==>
        && !started
        && toasts == old(toasts) + [FailureToast(ClassifyFailure(parseEther(transferAmount.value).value))]
        && submitted == old(submitted)
      ensures CanQuery(wallet) && Validate(recepientAddress, transferAmount).None?
              && parseEther(transferAmount.value).None? ==>
        && started
        && toasts == old(toasts)
        && submitted == old(submitted) + [Payment(recepientAddress.value, transferAmount.value)]
    {
      if wallet.None? { return false; }
      if !wallet.value.connected { return false; }
      if wallet.value.address == "" { return false; }
      if !Truthy(recepientAddress) {
        toasts := toasts + [ValidationToast(NoRecipient)];
        return false;
      }
      if !Truthy(transferAmount) {
        toasts := toasts + [ValidationToast(NoAmount)];
        return false;
      }
      if ParseFloatIsNaN(transferAmount.value) {
        toasts := toasts + [ValidationToast(InvalidAmount)];
        return false;
      }
      isTransferring := true;
      var thrown := parseEther(transferAmount.value);
      if thrown.Some? {
        toasts := toasts + [FailureToast(ClassifyFailure(thrown.value))];
        isTransferring := false;
        return false;
      }
      submitted := submitted + [Payment(recepientAddress.value, transferAmount.value)];
      started := true;
    }

    /**
     * The part of `transfer()` after the transaction settles. On confirmation the
     * balance is refreshed, both inputs are cleared, the dialog closes and success is
     * reported; on an error the message is classified and the inputs stay as entered.
     * `isTransferring` is false afterwards on both paths.
     */
    method CompleteTransfer(outcome: SubmitOutcome)
      requires isTransferring && CanQuery(wallet)
      modifies this`toasts, this`isTransferring, this`balance, this`transactionCount
      modifies this`recepientAddress, this`transferAmount, this`transferDialogOpen
      ensures !isTransferring
      ensures outcome.Confirmed? ==>
        && recepientAddress == None && transferAmount == None && !transferDialogOpen
        && toasts == old(toasts) + [SuccessToast]
        && (outcome.refresh.Read? ==>
              balance == Some(outcome.refresh.formattedBalance)
              && transactionCount == Some(NatToString(outcome.refresh.nonce)))
        && (outcome.refresh.ReadFailed? ==>
              balance == old(balance) && transactionCount == old(transactionCount))
      ensures outcome.Failed? ==>
        && toasts == old(toasts) + [FailureToast(ClassifyFailure(outcome.message))]
        && recepientAddress == old(recepientAddress) && transferAmount == old(transferAmount)
        && transferDialogOpen == old(transferDialogOpen)
        && balance == old(balance) && transactionCount == old(transactionCount)
    {
      match outcome {
        case Confirmed(refresh) =>
          FetchBalance(refresh);
          recepientAddress := None;
          transferAmount := None;
          transferDialogOpen := false;
          toasts := toasts + [SuccessToast];
        case Failed(message) =>
          var reason := ClassifyFailure(message);
          toasts := toasts + [FailureToast(reason)];
      }
      isTransferring := false;
    }

    /**
     * `transfer()` as one call: at most one payment is submitted, exactly one toast is
     * shown unless a silent guard returns, and `isTransferring` is false on every exit.
     * Only a confirmed payment clears the inputs and closes the dialog.
     */
    method Transfer(parseEther: ParseEther, outcome: SubmitOutcome)
      requires !isTransferring
      modifies this`toasts, this`isTransferring, this`balance, this`transactionCount
      modifies this`recepientAddress, this`transferAmount, this`transferDialogOpen, this`submitted
      ensures !isTransferring
      ensures !CanQuery(wallet) ==>
        && toasts == old(toasts) && submitted == old(submitted)
        && recepientAddress == old(recepientAddress) && transferAmount == old(transferAmount)
        && transferDialogOpen == old(transferDialogOpen)
        && balance == old(balance) && transactionCount == old(transactionCount)
      ensures CanQuery(wallet) ==> |toasts| == |old(toasts)| + 1
      ensures CanQuery(wallet) && Validate(old(recepientAddress), old(transferAmount)).Some? ==>
        && toasts == old(toasts) + [ValidationToast(Validate(old(recepientAddress), old(transferAmount)).value)]
        && submitted == old(submitted)
        && recepientAddress == old(recepientAddress) && transferAmount == old(transferAmount)
        && transferDialogOpen == old(transferDialogOpen)
        && balance == old(balance) && transactionCount == old(transactionCount)
      ensures CanQuery(wallet) && Validate(old(recepientAddress), old(transferAmount)).None?
              && parseEther(old(transferAmount).value).Some? ==>
        && toasts == old(toasts) + [FailureToast(ClassifyFailure(parseEther(old(transferAmount).value).value))]
        && submitted == old(submitted)
        && recepientAddress == old(recepientAddress) && transferAmount == old(transferAmount)
        && transferDialogOpen == old(transferDialogOpen)
        && balance == old(balance) && transactionCount == old(transactionCount)
      ensures CanQuery(wallet) && Validate(old(recepientAddress), old(transferAmount)).None?
              && parseEther(old(transferAmount).value).None? ==>
        && submitted == old(submitted) + [Payment(old(recepientAddress).value, old(transferAmount).value)]
        && (outcome.Confirmed? ==>
              && toasts == old(toasts) + [SuccessToast]
              && recepientAddress == None && transferAmount == None && !transferDialogOpen
              && (outcome.refresh.Read? ==>
                    balance == Some(outcome.refresh.formattedBalance)
                    && transactionCount == Some(NatToString(outcome.refresh.nonce)))
              && (outcome.refresh.ReadFailed? ==>
                    balance == old(balance) && transactionCount == old(transactionCount)))
        && (outcome.Failed? ==>
              && toasts == old(toasts) + [FailureToast(ClassifyFailure(outcome.message))]
              && recepientAddress == old(recepientAddress) && transferAmount == old(transferAmount)
              && transferDialogOpen == old(transferDialogOpen)
              && balance == old(balance) && transactionCount == old(transactionCount))
    {
      var started := StartTransfer(parseEther);
      if started {
        CompleteTransfer(outcome);
      }
    }

    /** The QR reader's scan handler: a non-empty text becomes the recipient and reopens the transfer dialog. */
    method ScanRecipient(text: Option<string>)
      modifies this`recepientAddress, this`isQRReaderOpen, this`transferDialogOpen
      ensures Truthy(text) ==> recepientAddress == text && !isQRReaderOpen && transferDialogOpen
      ensures !Truthy(text) ==>
        recepientAddress == old(recepientAddress) && isQRReaderOpen == old(isQRReaderOpen)
        && transferDialogOpen == old(transferDialogOpen)
    {
      if Truthy(text) {
        recepientAddress := text;
        isQRReaderOpen := false;
        transferDialogOpen := true;
      }
    }
  }

  // ---------------------------------------------------------------------------
  // Loader and provisioning handler together
  // ---------------------------------------------------------------------------

  /** The handler's view of a save request: both body fields are strings. */
  function AsRouteRequest(s: SaveRequest): (r: WalletRoute.Request)
  {
    WalletRoute.Request(WalletRoute.Parsed(WalletRoute.Body(WalletRoute.Text(s.ethereumPrivKey), WalletRoute.Text(s.ethereumAddress))), s.authorization)
  }

  /** The `user` prop a later session receives for a row. */
  function ViewOf(u: WalletRoute.UserRecord): (v: UserView)
  {
    UserView(u.id, u.ethereumPrivKey, u.ethereumAddress)
  }

  /**
   * A save the handler accepts, of a non-empty key and address, makes every later
   * session of that user take the restore path with the same key: no second key is
   * generated.
   */
  lemma SavedKeyRestoredLater(users: map<WalletRoute.UserId, WalletRoute.UserRecord>, s: SaveRequest)
    requires s.authorization in users && !WalletRoute.Provisioned(users[s.authorization])
    requires s.ethereumPrivKey != "" && s.ethereumAddress != ""
    ensures var o := WalletRoute.Provision(users, AsRouteRequest(s), WalletRoute.NoFaults);
      var later := ViewOf(o.users[s.authorization]);
      && o.response.status == 200
      && WalletRoute.HoldsKeyPair(later.ethereumPrivKey, later.ethereumAddress)
      && later.ethereumPrivKey == Some(s.ethereumPrivKey)
  {
  }

  /** Restore-over-create, stated on a freshly mounted session: loading a provisioned user sends nothing. */
  method LoadProvisionedUser(u: UserView, freshKey: string, derive: Derive, reply: SaveReply)
    returns (generated: nat, sent: seq<SaveRequest>)
    requires WalletRoute.HoldsKeyPair(u.ethereumPrivKey, u.ethereumAddress)
    ensures generated == 0 && sent == []
  {
    var s := new Session(u);
    s.LoadWallet(freshKey, derive, reply);
    generated, sent := s.keysGenerated, s.saveRequests;
  }

  /** Create path on a freshly mounted session: exactly one key and exactly one save carrying it. */
  method LoadNewUser(u: UserView, freshKey: string, derive: Derive, reply: SaveReply)
    returns (generated: nat, sent: seq<SaveRequest>, w: Option<Signer>)
    requires !WalletRoute.HoldsKeyPair(u.ethereumPrivKey, u.ethereumAddress)
    requires derive(freshKey).Some?
    ensures generated == 1
    ensures sent == [SaveRequest(u.id, derive(freshKey).value, freshKey)]
    ensures w == Some(Signer(freshKey, derive(freshKey).value, false))
  {
    var s := new Session(u);
    s.LoadWallet(freshKey, derive, reply);
    generated, sent, w := s.keysGenerated, s.saveRequests, s.wallet;
  }
}
