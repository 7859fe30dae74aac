/**
 * The transaction-history dialog: classification of one transfer relative to the
 * wallet's address, the icon shown for it, when opening the dialog fetches, what the
 * list shows, and the refresh button.
 */
module TransactionsList {
  import opened Js

  datatype TransactionType = SelfTransfer | Received | Sent | Unknown

  /** One item of `alchemy_getAssetTransfers` as the list uses it. */
  datatype Transfer = Transfer(hash: string, from: string, to: string, value: string, uniqueId: string)

  /** The fetched history: two separately fetched directions, and whether a fetch completed. */
  datatype Transactions = Transactions(fetched: bool, inComingTransfers: seq<Transfer>, outGoingTransfers: seq<Transfer>)

  /** `checkTransactionType(to, from, currentAddress)`: case-insensitive address comparison. */
  function CheckTransactionType(to: string, from: string, current: Option<string>): (r: TransactionType)
  {
    if !Truthy(current) then Unknown
    else
      var t, f, c := ToLower(to), ToLower(from), ToLower(current.value);
      if t == c && f == c then SelfTransfer
      else if t == c then Received
      else if f == c then Sent
      else Unknown
  }

  /** The full decision table of the classifier. */
  lemma ClassificationTable(to: string, from: string, current: Option<string>)
    ensures !Truthy(current) ==> CheckTransactionType(to, from, current) == Unknown
    ensures Truthy(current) ==>
      var toMe, fromMe := ToLower(to) == ToLower(current.value), ToLower(from) == ToLower(current.value);
      && (CheckTransactionType(to, from, current) == SelfTransfer <==> toMe && fromMe)
      && (CheckTransactionType(to, from, current) == Received <==> toMe && !fromMe)
      && (CheckTransactionType(to, from, current) == Sent <==> !toMe && fromMe)
      && (CheckTransactionType(to, from, current) == Unknown <==> !toMe && !fromMe)
  {
  }

  /** Changing the letter case of any of the three addresses does not change the classification. */
  lemma ClassificationIgnoresCase(to: string, from: string, current: string, to': string, from': string, current': string)
    requires CaseVariant(to, to') && CaseVariant(from, from') && CaseVariant(current, current')
    ensures CheckTransactionType(to, from, Some(current)) == CheckTransactionType(to', from', Some(current'))
  {
    CaseVariantSameLower(to, to');
    CaseVariantSameLower(from, from');
    CaseVariantSameLower(current, current');
  }

  /** A transfer from the wallet's address to itself is Self, whatever letter case each side uses. */
  lemma SelfTransferDetected(address: string)
    requires address != ""
    ensures CheckTransactionType(address, ToUpper(address), Some(address)) == SelfTransfer
  {
    CaseVariantSameLower(address, ToUpper(address));
  }

  datatype Icon = ArrowTopRight | ArrowBottomLeft

  /** `TransactionIcon(type)`: an arrow only for Sent and Received. */
  function TransactionIcon(t: TransactionType): (r: Option<Icon>)
    ensures r == Some(ArrowTopRight) <==> t == Sent
    ensures r == Some(ArrowBottomLeft) <==> t == Received
    ensures r == None <==> t == SelfTransfer || t == Unknown
  {
    match t
    case Sent => Some(ArrowTopRight)
    case Received => Some(ArrowBottomLeft)
    case _ => None
  }

  /** The effect run when the dialog's open flag changes: fetch only if nothing was fetched yet. */
  function FetchOnOpen(txs: Transactions, dialogOpen: bool): (fetch: bool)
  {
    !txs.fetched && dialogOpen
  }

  /** One card of the list: the transfer, its classification and its icon. */
  datatype Card = Card(transfer: Transfer, kind: TransactionType, icon: Option<Icon>)

  /** What the dialog body shows: two skeleton cards while loading, else the cards. */
  datatype Listing = Skeletons(count: nat) | Cards(cards: seq<Card>)

  function CardFor(t: Transfer, address: Option<string>): (c: Card)
    ensures c.transfer == t && c.icon == TransactionIcon(c.kind)
    ensures c.kind == CheckTransactionType(t.to, t.from, address)
  {
    var kind := CheckTransactionType(t.to, t.from, address);
    Card(t, kind, TransactionIcon(kind))
  }

  function CardsFor(ts: seq<Transfer>, address: Option<string>): (r: seq<Card>)
    ensures |r| == |ts|
    ensures forall i :: 0 <= i < |ts| ==> r[i] == CardFor(ts[i], address)
  {
    if ts == [] then [] else [CardFor(ts[0], address)] + CardsFor(ts[1..], address)
  }

  /** The dialog body: incoming transfers in order, then outgoing ones in order. */
  function DisplayedList(txs: Transactions, loading: bool, address: Option<string>): (r: Listing)
    ensures loading ==> r == Skeletons(2)
    ensures !loading ==> (
      && r.Cards?
      && |r.cards| == |txs.inComingTransfers| + |txs.outGoingTransfers|
      && (forall i :: 0 <= i < |txs.inComingTransfers| ==>
            r.cards[i].transfer == txs.inComingTransfers[i])
      && (forall j :: 0 <= j < |txs.outGoingTransfers| ==>
            r.cards[|txs.inComingTransfers| + j].transfer == txs.outGoingTransfers[j]))
  {
    if loading then Skeletons(2)
    else Cards(CardsFor(txs.inComingTransfers, address) + CardsFor(txs.outGoingTransfers, address))
  }

  function Shown(cards: seq<Card>): (r: seq<Transfer>)
  {
    if cards == [] then [] else [cards[0].transfer] + Shown(cards[1..])
  }

  /** Shown transfers of the cards built for a sequence are that sequence. */
  lemma {:induction false} ShownCards(ts: seq<Transfer>, address: Option<string>)
    ensures Shown(CardsFor(ts, address)) == ts
  {
    if ts != [] {
      ShownCards(ts[1..], address);
      assert CardsFor(ts, address)[1..] == CardsFor(ts[1..], address);
    }
  }

  lemma {:induction false} ShownAppend(a: seq<Card>, b: seq<Card>)
    ensures Shown(a + b) == Shown(a) + Shown(b)
  {
    if a != [] {
      ShownAppend(a[1..], b);
      assert (a + b)[0] == a[0];
      assert (a + b)[1..] == a[1..] + b;
    } else {
      assert a + b == b;
    }
  }

  /**
   * No deduplication: every transfer is shown as many times as it occurs in the two
   * lists together, so a self-transfer present in both is shown twice.
   */
  lemma NoDeduplication(txs: Transactions, address: Option<string>, t: Transfer)
    ensures var r := DisplayedList(txs, false, address);
      multiset(Shown(r.cards))[t] == multiset(txs.inComingTransfers)[t] + multiset(txs.outGoingTransfers)[t]
    ensures var r := DisplayedList(txs, false, address);
      t in txs.inComingTransfers && t in txs.outGoingTransfers ==> multiset(Shown(r.cards))[t] >= 2
  {
    ShownAppend(CardsFor(txs.inComingTransfers, address), CardsFor(txs.outGoingTransfers, address));
    ShownCards(txs.inComingTransfers, address);
    ShownCards(txs.outGoingTransfers, address);
  }

  datatype RefreshButton = RefreshButton(disabled: bool, caption: string)

  /** A click on the Refresh button fetches only when the button is there and enabled. */
  predicate RefreshFetches(txs: Transactions, loading: bool)
  {
    var b := RefreshControl(txs, loading);
    b.Some? && !b.value.disabled
  }

  /** The footer: a Refresh button once a fetch completed, disabled while loading. */
  function RefreshControl(txs: Transactions, loading: bool): (r: Option<RefreshButton>)
  {
    if txs.fetched then Some(RefreshButton(loading, if loading then "Refreshing" else "Refresh")) else None
  }

  /**
   * Opening the dialog fetches only while nothing has been fetched; closing it never
   * fetches. The effect ignores `loading`, so reopening the dialog while the first fetch
   * is still running starts another one.
   */
  lemma OpeningFetchesUntilFetched(txs: Transactions, loading: bool)
    ensures !FetchOnOpen(txs, false)
    ensures FetchOnOpen(txs, true) <==> !txs.fetched
    ensures !txs.fetched ==> FetchOnOpen(txs, true) && RefreshControl(txs, loading).None?
  {
  }

  /**
   * The two ways a fetch starts never overlap: while the dialog is open, exactly one of
   * "opening fetches" and "a Refresh button is shown" holds. A click fetches only on an
   * enabled button, which exists exactly after a fetch completed and while none runs,
   * and then reads "Refresh".
   */
  lemma RefreshOnlyAfterFetch(txs: Transactions, loading: bool)
    ensures FetchOnOpen(txs, true) <==> RefreshControl(txs, loading).None?
    ensures RefreshFetches(txs, loading) <==> txs.fetched && !loading
    ensures RefreshFetches(txs, loading) ==> RefreshControl(txs, loading) == Some(RefreshButton(false, "Refresh"))
    ensures txs.fetched && loading ==> RefreshControl(txs, loading) == Some(RefreshButton(true, "Refreshing"))
  {
  }
}
