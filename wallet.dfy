/** The wallet panel of an agent: the balance header, the profit and loss
    line built from the balance snapshot, the token list that joins holdings
    with token metadata, and the faucet with its shared busy flag.
    `fmt` stands for the locale amount formatter, `formatUSD` for the
    project's currency formatter. */
module Wallet {
  import opened Common

  /** One entry of the snapshot's `tokens`: the symbol comes first. */
  datatype Holding = Holding(symbol: string, rawAmount: real)

  /** The balance snapshot the collaborator returns. `tokenValues` is meant
      to run parallel to `tokens`; nothing enforces it. */
  datatype BalanceSnapshot = BalanceSnapshot(
    balance: real,
    equity: real,
    performance: real,
    tokens: seq<Holding>,
    tokenValues: seq<real>,
    tokenInfo: Option<seq<TokenAvailable>>)

  // ----- Profit and loss -----

  /** Profit and loss, absent without a snapshot or when the balance or the
      equity is zero. */
  function PnlValue(snap: Option<BalanceSnapshot>): (r: Option<real>)
    ensures r.None? <==> snap.None? || snap.value.balance == 0.0 || snap.value.equity == 0.0
    ensures r.Some? ==> r.value + snap.value.equity == snap.value.balance
  {
    if snap.None? || snap.value.balance == 0.0 || snap.value.equity == 0.0 then None
    else Some(snap.value.balance - snap.value.equity)
  }

  /** A snapshot whose profit and loss is shown: it exists, balance and
      equity are non-zero, and they differ. */
  predicate ShowsPnl(snap: Option<BalanceSnapshot>) {
    snap.Some? && snap.value.balance != 0.0 && snap.value.equity != 0.0
    && snap.value.balance != snap.value.equity
  }

  /** The profit and loss text. Nothing is shown for an absent or zero value;
      a profit reads `+$amount (+percent%)`, a loss `-$magnitude (percent%)`. */
  function PnlText(snap: Option<BalanceSnapshot>, fmt: real -> string): (r: Option<string>)
    ensures r.Some? <==> ShowsPnl(snap)
    ensures ShowsPnl(snap) && snap.value.balance > snap.value.equity ==>
              r == Some("+$" + fmt(snap.value.balance - snap.value.equity)
                        + " (+" + fmt(snap.value.performance * 100.0) + "%)")
    ensures ShowsPnl(snap) && snap.value.balance < snap.value.equity ==>
              r == Some("-$" + fmt(snap.value.equity - snap.value.balance)
                        + " (" + fmt(snap.value.performance * 100.0) + "%)")
  {
    var pnl := PnlValue(snap);
    if pnl.None? || pnl.value == 0.0 || snap.None? then None
    else
      var value := pnl.value;
      var percent := snap.value.performance * 100.0;
      if value == 0.0 then Some("$" + fmt(value))
      else if value > 0.0 then Some("+$" + fmt(value) + " (+" + fmt(percent) + "%)")
      else Some("-$" + fmt(Abs(value)) + " (" + fmt(percent) + "%)")
  }

  function Abs(x: real): real {
    if x < 0.0 then -x else x
  }

  /** The colour of the profit and loss line: none when nothing is shown,
      green for a profit and red otherwise. */
  function PnlTone(snap: Option<BalanceSnapshot>): (r: Option<Tone>)
    ensures r != Some(Gray)
    ensures r == Some(Green) <==> ShowsPnl(snap) && snap.value.balance > snap.value.equity
    ensures r == Some(Red) <==> ShowsPnl(snap) && snap.value.balance < snap.value.equity
  {
    var pnl := PnlValue(snap);
    if pnl.None? || pnl.value == 0.0 || snap.None? then None
    else if pnl.value > 0.0 then Some(Green) else Some(Red)
  }

  /** Text and colour are shown together, and a shown text never comes from
      a zero value: it always starts with a sign and a dollar. */
  lemma TextAndToneTogether(snap: Option<BalanceSnapshot>, fmt: real -> string)
    ensures PnlText(snap, fmt).Some? <==> PnlTone(snap).Some?
    ensures PnlText(snap, fmt).Some? ==>
              var text := PnlText(snap, fmt).value;
              |text| >= 2 && (text[..2] == "+$" || text[..2] == "-$")
              && (text[..2] == "+$" <==> PnlTone(snap) == Some(Green))
  {
    if ShowsPnl(snap) {
      var text := PnlText(snap, fmt).value;
      assert text[0] == (if snap.value.balance > snap.value.equity then '+' else '-');
    }
  }

  /** The colour class of a shown line: green exactly when the balance
      exceeds the equity, red exactly when it is below, never gray. */
  lemma WalletColorClass(snap: Option<BalanceSnapshot>)
    ensures PnlTone(snap).Some? ==>
              var cls := PnlTone(snap).value.ClassName();
              cls != "text-gray-500"
              && (cls == "text-green-600" <==> snap.value.balance > snap.value.equity)
              && (cls == "text-red-500" <==> snap.value.balance < snap.value.equity)
  {
  }

  /** The balance header: the formatted balance when it is non-zero, "$0.00"
      otherwise. */
  function BalanceHeader(snap: Option<BalanceSnapshot>, formatUSD: real -> string): (r: string)
    ensures snap.Some? && snap.value.balance != 0.0 ==> r == formatUSD(snap.value.balance)
    ensures snap.None? || snap.value.balance == 0.0 ==> r == "$0.00"
  {
    if snap.Some? && snap.value.balance != 0.0 then formatUSD(snap.value.balance) else "$0.00"
  }

  /** Without a snapshot, or with a zero balance, the header falls back to
      "$0.00" and there is neither a profit and loss text nor a colour. */
  lemma ZeroHeaderHasNoPnl(snap: Option<BalanceSnapshot>, formatUSD: real -> string, fmt: real -> string)
    requires snap.None? || snap.value.balance == 0.0
    ensures BalanceHeader(snap, formatUSD) == "$0.00"
    ensures PnlText(snap, fmt).None? && PnlTone(snap).None?
  {
  }

  /** The converse holds only up to the formatter: a "$0.00" header shown
      next to a profit and loss line comes from a non-zero balance that the
      currency formatter itself renders as "$0.00" (a balance of a fraction
      of a cent, say). */
  lemma ZeroHeaderWithPnl(snap: Option<BalanceSnapshot>, formatUSD: real -> string, fmt: real -> string)
    requires BalanceHeader(snap, formatUSD) == "$0.00" && PnlText(snap, fmt).Some?
    ensures snap.Some? && snap.value.balance != 0.0 && formatUSD(snap.value.balance) == "$0.00"
  {
  }

  // ----- Token list -----

  /** ASCII lower case of one character. */
  function LowerChar(c: char): char {
    if 'A' <= c <= 'Z' then (c as int + 32) as char else c
  }

  /** Lower case of a symbol. */
  function Lower(s: string): (r: string)
    ensures |r| == |s|
    ensures forall i :: 0 <= i < |s| ==> r[i] == LowerChar(s[i])
  {
    seq(|s|, i requires 0 <= i < |s| => LowerChar(s[i]))
  }

  /** Two symbols that agree up to case. */
  predicate SameSymbol(a: string, b: string) {
    Lower(a) == Lower(b)
  }

  /** The metadata lookup of one holding: the first entry whose symbol
      matches case-insensitively, if any. */
  function FindInfo(infos: seq<TokenAvailable>, symbol: string): (r: Option<TokenAvailable>)
    ensures r.None? <==> forall i :: 0 <= i < |infos| ==> !SameSymbol(infos[i].symbol, symbol)
    ensures r.Some? ==> exists i :: 0 <= i < |infos| && infos[i] == r.value
                                 && SameSymbol(infos[i].symbol, symbol)
                                 && forall j :: 0 <= j < i ==> !SameSymbol(infos[j].symbol, symbol)
    decreases |infos|
  {
    if infos == [] then None
    else if SameSymbol(infos[0].symbol, symbol) then Some(infos[0])
    else
      var rest := FindInfo(infos[1..], symbol);
      assert rest.Some? ==> (exists i :: 0 <= i < |infos[1..]| && infos[1..][i] == rest.value
                               && SameSymbol(infos[1..][i].symbol, symbol)
                               && forall j :: 0 <= j < i ==> !SameSymbol(infos[1..][j].symbol, symbol));
      assert rest.Some? ==> (exists i :: 1 <= i < |infos| && infos[i] == rest.value
                               && SameSymbol(infos[i].symbol, symbol)
                               && forall j :: 0 <= j < i ==> !SameSymbol(infos[j].symbol, symbol));
      rest
  }

  /** The lookup does not depend on the case of the holding's symbol. */
  lemma {:induction false} FindInfoIgnoresCase(infos: seq<TokenAvailable>, a: string, b: string)
    requires SameSymbol(a, b)
    ensures FindInfo(infos, a) == FindInfo(infos, b)
    decreases |infos|
  {
    if infos != [] {
      FindInfoIgnoresCase(infos[1..], a, b);
    }
  }

  /** What the list hands to one token card. */
  datatype TokenCardProps = TokenCardProps(
    agentId: nat,
    token: Holding,
    tokenInfo: TokenAvailable,
    balanceUsd: Option<real>,
    isFaucetLoading: bool)

  /** The token list: a placeholder, or the cards in order. */
  datatype TokenListView = TokenNotFound | Cards(cards: seq<TokenCardProps>)

  /** The metadata matched to holding `i` (none when the snapshot has no
      `tokenInfo` at all). */
  function InfoAt(snap: BalanceSnapshot, i: nat): Option<TokenAvailable>
    requires i < |snap.tokens|
  {
    match snap.tokenInfo
    case None => None
    case Some(infos) => FindInfo(infos, snap.tokens[i].symbol)
  }

  /** The USD value at the same index (`undefined` past the end). */
  function ValueAt(snap: BalanceSnapshot, i: nat): Option<real> {
    if i < |snap.tokenValues| then Some(snap.tokenValues[i]) else None
  }

  /** The card for holding `i` when it has metadata. */
  function CardAt(agentId: nat, snap: BalanceSnapshot, busy: bool, i: nat): TokenCardProps
    requires i < |snap.tokens| && InfoAt(snap, i).Some?
  {
    TokenCardProps(agentId, snap.tokens[i], InfoAt(snap, i).value, ValueAt(snap, i), busy)
  }

  /** The cards of the first `n` holdings, skipping the ones without metadata:
      at most one per holding, each for one of those holdings, all for the
      same agent and with the same faucet flag. */
  function CardsBefore(agentId: nat, snap: BalanceSnapshot, busy: bool, n: nat): (r: seq<TokenCardProps>)
    requires n <= |snap.tokens|
    ensures |r| <= n
    ensures forall k :: 0 <= k < |r| ==>
              r[k].token in snap.tokens[..n] && r[k].agentId == agentId && r[k].isFaucetLoading == busy
    decreases n
  {
    if n == 0 then []
    else CardsBefore(agentId, snap, busy, n - 1)
         + (if InfoAt(snap, n - 1).Some? then [CardAt(agentId, snap, busy, n - 1)] else [])
  }

  /** The indices among the first `n` holdings that get a card: exactly those
      with metadata, in increasing order. */
  function KeptIndices(snap: BalanceSnapshot, n: nat): (r: seq<nat>)
    requires n <= |snap.tokens|
    ensures forall k :: 0 <= k < |r| ==> r[k] < n && InfoAt(snap, r[k]).Some?
    ensures forall k, l :: 0 <= k < l < |r| ==> r[k] < r[l]
    ensures forall i :: 0 <= i < n && InfoAt(snap, i).Some? ==> i in r
    decreases n
  {
    if n == 0 then []
    else KeptIndices(snap, n - 1) + (if InfoAt(snap, n - 1).Some? then [n - 1] else [])
  }

  /** Card `k` is the card of the `k`-th kept holding. */
  lemma {:induction false} CardsFollowKeptIndices(agentId: nat, snap: BalanceSnapshot, busy: bool, n: nat)
    requires n <= |snap.tokens|
    ensures var cards := CardsBefore(agentId, snap, busy, n);
            var kept := KeptIndices(snap, n);
            |cards| == |kept| && forall k :: 0 <= k < |kept| ==> cards[k] == CardAt(agentId, snap, busy, kept[k])
    decreases n
  {
    if n > 0 {
      CardsFollowKeptIndices(agentId, snap, busy, n - 1);
    }
  }

  /** The token list of a snapshot. Without a snapshot, or with no holdings,
      it is the "Token not found" placeholder; otherwise the holdings are
      walked by index, each paired with the value at its index and its first
      matching metadata, and holdings without metadata are dropped. Every
      card gets the same faucet flag. */
  function TokenList(agentId: nat, snap: Option<BalanceSnapshot>, busy: bool): (r: TokenListView)
    ensures r.TokenNotFound? <==> snap.None? || |snap.value.tokens| == 0
    ensures r.Cards? ==>
              var kept := KeptIndices(snap.value, |snap.value.tokens|);
              |r.cards| == |kept|
              && forall k :: 0 <= k < |kept| ==> r.cards[k] == CardAt(agentId, snap.value, busy, kept[k])
  {
    if snap.None? || |snap.value.tokens| == 0 then TokenNotFound
    else
      CardsFollowKeptIndices(agentId, snap.value, busy, |snap.value.tokens|);
      Cards(CardsBefore(agentId, snap.value, busy, |snap.value.tokens|))
  }

  /** In terms of the holdings: the cards pair `tokens[i]` with
      `tokenValues[i]` and the first case-insensitive metadata match, in
      index order, a holding has a card exactly when it has a match, and all
      cards share one faucet flag. */
  lemma TokenListJoin(agentId: nat, snap: BalanceSnapshot, busy: bool)
    requires |snap.tokens| > 0
    ensures var view := TokenList(agentId, Some(snap), busy);
            var kept := KeptIndices(snap, |snap.tokens|);
            view.Cards? && |view.cards| == |kept| && |kept| <= |snap.tokens|
            && (forall k, l :: 0 <= k < l < |kept| ==> kept[k] < kept[l])
            && (forall i :: 0 <= i < |snap.tokens| ==> (i in kept <==> InfoAt(snap, i).Some?))
            && forall k :: 0 <= k < |kept| ==>
                 var card := view.cards[k];
                 card.token == snap.tokens[kept[k]]
                 && card.balanceUsd == ValueAt(snap, kept[k])
                 && Some(card.tokenInfo) == InfoAt(snap, kept[k])
                 && card.agentId == agentId && card.isFaucetLoading == busy
  {
  }

  // ----- Faucet -----

  /** A faucet call that has been issued and not yet settled. */
  datatype FaucetRequest = FaucetRequest(agentId: nat, token: TokenAvailable)

  /** The wallet panel's state: the one faucet flag every token card is
      given, the faucet calls in flight, and how many times the balance
      query has been asked to refetch. */
  class WalletView {
    var isFaucetLoading: bool
    var inFlight: seq<FaucetRequest>
    var refetches: nat

    constructor ()
      ensures !isFaucetLoading && inFlight == [] && refetches == 0
    {
      isFaucetLoading, inFlight, refetches := false, [], 0;
    }

    /** The token list as rendered with the current flag: every card shows
        the panel's one faucet flag. */
    function List(agentId: nat, snap: Option<BalanceSnapshot>): (r: TokenListView)
      reads this
      ensures r.TokenNotFound? <==> snap.None? || |snap.value.tokens| == 0
      ensures r.Cards? ==> forall k :: 0 <= k < |r.cards| ==> r.cards[k].isFaucetLoading == isFaucetLoading
    {
      TokenList(agentId, snap, isFaucetLoading)
    }

    /** `handleFaucet` up to the await: the flag goes up and the faucet call
        for this token is issued. */
    method HandleFaucet(agentId: nat, token: TokenAvailable) returns (loading: string)
      modifies this
      ensures isFaucetLoading
      ensures inFlight == old(inFlight) + [FaucetRequest(agentId, token)]
      ensures refetches == old(refetches)
      ensures loading == "Fauceting token..."
    {
      isFaucetLoading := true;
      inFlight := inFlight + [FaucetRequest(agentId, token)];
      loading := "Fauceting token...";
    }

    /** The faucet call `k` settles: a success asks for a refetch and names
        the token, a failure does not, and the shared flag comes down either
        way. The failure text comes from the collaborator and is not modelled. */
    method SettleFaucet(k: nat, succeeded: bool) returns (success: Option<string>)
      requires k < |inFlight|
      modifies this
      ensures !isFaucetLoading
      ensures inFlight == old(inFlight[..k] + inFlight[k + 1..])
      ensures refetches == old(refetches) + (if succeeded then 1 else 0)
      ensures success == if succeeded then Some(old(inFlight[k]).token.symbol + " fauceted successfully") else None
    {
      var request := inFlight[k];
      if succeeded {
        refetches := refetches + 1;
        success := Some(request.token.symbol + " fauceted successfully");
      } else {
        success := None;
      }
      inFlight := inFlight[..k] + inFlight[k + 1..];
      isFaucetLoading := false;
    }
  }

  // ----- Scenarios -----

  /** A profit: balance 1000 over equity 800 with performance 0.25. */
  lemma ProfitScenario(fmt: real -> string)
    ensures var snap := Some(BalanceSnapshot(1000.0, 800.0, 0.25, [], [], None));
            PnlValue(snap) == Some(200.0)
            && PnlText(snap, fmt) == Some("+$" + fmt(200.0) + " (+" + fmt(25.0) + "%)")
            && PnlTone(snap) == Some(Green)
  {
  }

  /** A loss: balance 500 under equity 600 with performance -0.1667; the
      amount is shown by its magnitude after the minus sign. */
  lemma LossScenario(fmt: real -> string)
    ensures var snap := Some(BalanceSnapshot(500.0, 600.0, -0.1667, [], [], None));
            PnlValue(snap) == Some(-100.0)
            && PnlText(snap, fmt) == Some("-$" + fmt(100.0) + " (" + fmt(-16.67) + "%)")
            && PnlTone(snap) == Some(Red)
  {
  }

  /** A holding without metadata is dropped and the matched one keeps its
      value, whatever the case of its symbol. */
  lemma UnmatchedHoldingScenario(agentId: nat, busy: bool)
    ensures var eth := TokenAvailable("ETH", "0xeth", "");
            var snap := BalanceSnapshot(0.0, 0.0, 0.0, [Holding("eth", 1.5), Holding("XYZ", 10.0)],
                                        [3000.0, 5.0], Some([eth]));
            TokenList(agentId, Some(snap), busy)
              == Cards([TokenCardProps(agentId, Holding("eth", 1.5), eth, Some(3000.0), busy)])
  {
    var eth := TokenAvailable("ETH", "0xeth", "");
    var snap := BalanceSnapshot(0.0, 0.0, 0.0, [Holding("eth", 1.5), Holding("XYZ", 10.0)],
                                [3000.0, 5.0], Some([eth]));
    assert SameSymbol("ETH", "eth") by {
      assert Lower("ETH") == "eth";
      assert Lower("eth") == "eth";
    }
    assert !SameSymbol("ETH", "XYZ") by {
      assert Lower("ETH")[0] == 'e';
      assert Lower("XYZ")[0] == 'x';
    }
    assert InfoAt(snap, 0) == Some(eth);
    assert InfoAt(snap, 1) == None;
    assert CardsBefore(agentId, snap, busy, 1) == [CardAt(agentId, snap, busy, 0)];
    assert CardsBefore(agentId, snap, busy, 2) == CardsBefore(agentId, snap, busy, 1);
  }
}
