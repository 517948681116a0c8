/** The agent settings form: the token multi-select over the chain's catalog,
    the catalog fetch with its loading flag, and the free-text fields
    (strategy, take-profit, stop-loss, interval value and unit, end date). */
module Settings {
  import opened Common

  /** A chosen token (`IToken`), as the selection handler builds it. */
  datatype ChosenToken = ChosenToken(tokenSymbol: string, tokenAddress: string)

  /** The projection applied to every kept catalog entry. */
  function Project(t: TokenAvailable): ChosenToken {
    ChosenToken(t.symbol, t.address)
  }

  /** The whole catalog, projected entry by entry. */
  function Projected(catalog: seq<TokenAvailable>): (r: seq<ChosenToken>)
    ensures |r| == |catalog|
    ensures forall i :: 0 <= i < |catalog| ==> r[i] == Project(catalog[i])
  {
    seq(|catalog|, i requires 0 <= i < |catalog| => Project(catalog[i]))
  }

  /** The set of addresses the catalog offers. */
  function Addresses(catalog: seq<TokenAvailable>): set<string> {
    set t | t in catalog :: t.address
  }

  /** The selection handler: keep the catalog entries whose address is among
      the selected keys, in catalog order, and project each one. */
  function ChooseTokens(catalog: seq<TokenAvailable>, keys: set<string>): (r: seq<ChosenToken>)
    ensures |r| <= |catalog|
    ensures forall k :: 0 <= k < |r| ==> r[k].tokenAddress in keys
    decreases |catalog|
  {
    if catalog == [] then []
    else (if catalog[0].address in keys then [Project(catalog[0])] else [])
         + ChooseTokens(catalog[1..], keys)
  }

  /** The `selectedKeys` handed back to the multi-select: the chosen addresses. */
  function SelectedKeys(chosen: seq<ChosenToken>): (r: seq<string>)
    ensures |r| == |chosen|
    ensures forall i :: 0 <= i < |chosen| ==> r[i] == chosen[i].tokenAddress
  {
    seq(|chosen|, i requires 0 <= i < |chosen| => chosen[i].tokenAddress)
  }

  /** The lookup `renderValue` does for one selected key: the first catalog
      entry with exactly that address, if any. */
  function FindByAddress(catalog: seq<TokenAvailable>, key: string): (r: Option<TokenAvailable>)
    ensures r.None? <==> forall i :: 0 <= i < |catalog| ==> catalog[i].address != key
    ensures r.Some? ==> exists i :: 0 <= i < |catalog| && catalog[i] == r.value && catalog[i].address == key
                                 && forall j :: 0 <= j < i ==> catalog[j].address != key
    decreases |catalog|
  {
    if catalog == [] then None
    else if catalog[0].address == key then Some(catalog[0])
    else
      var rest := FindByAddress(catalog[1..], key);
      assert rest.Some? ==> (exists i :: 0 <= i < |catalog[1..]| && catalog[1..][i] == rest.value
                               && catalog[1..][i].address == key
                               && forall j :: 0 <= j < i ==> catalog[1..][j].address != key);
      assert rest.Some? ==> (exists i :: 1 <= i < |catalog| && catalog[i] == rest.value
                               && catalog[i].address == key
                               && forall j :: 0 <= j < i ==> catalog[j].address != key);
      rest
  }

  /** What `renderValue` shows for the selected items: the catalog entry of
      each key, or nothing for a key the catalog does not (or no longer) hold. */
  function RenderValue(catalog: seq<TokenAvailable>, keys: seq<string>): (r: seq<Option<TokenAvailable>>)
    ensures |r| == |keys|
    ensures forall i :: 0 <= i < |keys| ==> r[i] == FindByAddress(catalog, keys[i])
  {
    seq(|keys|, i requires 0 <= i < |keys| => FindByAddress(catalog, keys[i]))
  }

  /** Addresses are the unique key of a chain's catalog. */
  predicate UniqueAddresses(catalog: seq<TokenAvailable>) {
    forall i, j :: 0 <= i < j < |catalog| ==> catalog[i].address != catalog[j].address
  }

  /** A token is chosen exactly when it is the projection of a catalog entry
      whose address was selected. */
  lemma {:induction false} ChooseTokensMembership(catalog: seq<TokenAvailable>, keys: set<string>, c: ChosenToken)
    ensures c in ChooseTokens(catalog, keys) <==>
      exists i :: 0 <= i < |catalog| && catalog[i].address in keys && c == Project(catalog[i])
    decreases |catalog|
  {
    if catalog != [] {
      ChooseTokensMembership(catalog[1..], keys, c);
      var head := if catalog[0].address in keys then [Project(catalog[0])] else [];
      assert ChooseTokens(catalog, keys) == head + ChooseTokens(catalog[1..], keys);
      if c in ChooseTokens(catalog[1..], keys) {
        var i :| 0 <= i < |catalog[1..]| && catalog[1..][i].address in keys && c == Project(catalog[1..][i]);
        assert catalog[i + 1] == catalog[1..][i];
      }
      if exists i :: 0 <= i < |catalog| && catalog[i].address in keys && c == Project(catalog[i]) {
        var i :| 0 <= i < |catalog| && catalog[i].address in keys && c == Project(catalog[i]);
        if i > 0 {
          assert catalog[1..][i - 1] == catalog[i];
        }
      }
    }
  }

  /** The indices among the first `n` catalog entries whose address was
      selected: exactly those, each once, in increasing order. */
  function ChosenIndices(catalog: seq<TokenAvailable>, keys: set<string>, n: nat): (r: seq<nat>)
    requires n <= |catalog|
    ensures forall k :: 0 <= k < |r| ==> r[k] < n && catalog[r[k]].address in keys
    ensures forall k, l :: 0 <= k < l < |r| ==> r[k] < r[l]
    ensures forall i :: 0 <= i < n && catalog[i].address in keys ==> i in r
    decreases n
  {
    if n == 0 then []
    else ChosenIndices(catalog, keys, n - 1) + (if catalog[n - 1].address in keys then [n - 1] else [])
  }

  /** The selection handler distributes over concatenated catalogs. */
  lemma {:induction false} ChooseTokensAppend(a: seq<TokenAvailable>, b: seq<TokenAvailable>, keys: set<string>)
    ensures ChooseTokens(a + b, keys) == ChooseTokens(a, keys) + ChooseTokens(b, keys)
    decreases |a|
  {
    if a == [] {
      assert a + b == b;
    } else {
      ChooseTokensAppend(a[1..], b, keys);
      assert (a + b)[0] == a[0] && (a + b)[1..] == a[1..] + b;
    }
  }

  /** On the first `n` catalog entries, chosen token `k` is the projection of
      the `k`-th selected index. */
  lemma {:induction false} ChoosePrefixFollowsChosenIndices(catalog: seq<TokenAvailable>, keys: set<string>, n: nat)
    requires n <= |catalog|
    ensures var chosen := ChooseTokens(catalog[..n], keys);
            var indices := ChosenIndices(catalog, keys, n);
            |chosen| == |indices| && forall k :: 0 <= k < |indices| ==> chosen[k] == Project(catalog[indices[k]])
    decreases n
  {
    if n > 0 {
      ChoosePrefixFollowsChosenIndices(catalog, keys, n - 1);
      var last := [catalog[n - 1]];
      assert catalog[..n] == catalog[..n - 1] + last;
      ChooseTokensAppend(catalog[..n - 1], last, keys);
      assert last[1..] == [];
    }
  }

  /** Chosen token `k` is the projection of the `k`-th catalog entry whose
      address was selected: every such entry is chosen once per occurrence
      in the catalog, in catalog order, and no other is. */
  lemma ChooseTokensFollowChosenIndices(catalog: seq<TokenAvailable>, keys: set<string>)
    ensures var chosen := ChooseTokens(catalog, keys);
            var indices := ChosenIndices(catalog, keys, |catalog|);
            |chosen| == |indices|
            && (forall k, l :: 0 <= k < l < |indices| ==> indices[k] < indices[l])
            && (forall i :: 0 <= i < |catalog| ==> (i in indices <==> catalog[i].address in keys))
            && forall k :: 0 <= k < |indices| ==> chosen[k] == Project(catalog[indices[k]])
  {
    ChoosePrefixFollowsChosenIndices(catalog, keys, |catalog|);
    assert catalog[..|catalog|] == catalog;
  }

  /** The chosen tokens keep catalog order: they are a subsequence of the
      projected catalog, so there are never more of them than catalog entries. */
  lemma {:induction false} ChooseTokensInCatalogOrder(catalog: seq<TokenAvailable>, keys: set<string>)
    ensures IsSubsequence(ChooseTokens(catalog, keys), Projected(catalog))
    ensures |ChooseTokens(catalog, keys)| <= |catalog|
    decreases |catalog|
  {
    var r := ChooseTokens(catalog, keys);
    if catalog != [] {
      ChooseTokensInCatalogOrder(catalog[1..], keys);
      assert Projected(catalog)[1..] == Projected(catalog[1..]);
      if catalog[0].address in keys {
        assert r[0] == Projected(catalog)[0] && r[1..] == ChooseTokens(catalog[1..], keys);
      } else {
        assert r == ChooseTokens(catalog[1..], keys);
      }
    }
    SubsequenceBounds(r, Projected(catalog));
  }

  /** No selection chooses nothing. */
  lemma {:induction false} EmptySelectionChoosesNothing(catalog: seq<TokenAvailable>)
    ensures ChooseTokens(catalog, {}) == []
    decreases |catalog|
  {
    if catalog != [] {
      EmptySelectionChoosesNothing(catalog[1..]);
    }
  }

  /** Restricting the keys to any superset of the catalog's addresses changes nothing. */
  lemma {:induction false} RestrictKeys(catalog: seq<TokenAvailable>, keys: set<string>, known: set<string>)
    requires Addresses(catalog) <= known
    ensures ChooseTokens(catalog, keys) == ChooseTokens(catalog, keys * known)
    decreases |catalog|
  {
    if catalog != [] {
      assert catalog[0] in catalog;
      assert Addresses(catalog[1..]) <= Addresses(catalog) by {
        forall t | t in catalog[1..] ensures t in catalog { }
      }
      RestrictKeys(catalog[1..], keys, known);
    }
  }

  /** Selected keys that match no catalog address contribute nothing. */
  lemma UnmatchedKeysContributeNothing(catalog: seq<TokenAvailable>, keys: set<string>)
    ensures ChooseTokens(catalog, keys) == ChooseTokens(catalog, keys * Addresses(catalog))
  {
    RestrictKeys(catalog, keys, Addresses(catalog));
  }

  /** The keys shown after a selection are exactly the selected keys that the
      catalog holds. */
  lemma {:induction false} SelectedKeysAreChosenAddresses(catalog: seq<TokenAvailable>, keys: set<string>)
    ensures (set k | k in SelectedKeys(ChooseTokens(catalog, keys))) == keys * Addresses(catalog)
  {
    var r := ChooseTokens(catalog, keys);
    var shown := SelectedKeys(r);
    forall k | k in shown ensures k in keys * Addresses(catalog) {
      var n :| 0 <= n < |shown| && shown[n] == k;
      assert r[n] in r;
      ChooseTokensMembership(catalog, keys, r[n]);
      var i :| 0 <= i < |catalog| && catalog[i].address in keys && r[n] == Project(catalog[i]);
      assert catalog[i] in catalog;
    }
    forall k | k in keys * Addresses(catalog) ensures k in shown {
      var t :| t in catalog && t.address == k;
      var i :| 0 <= i < |catalog| && catalog[i] == t;
      ChooseTokensMembership(catalog, keys, Project(t));
      var n :| 0 <= n < |r| && r[n] == Project(t);
      assert shown[n] == k;
    }
  }

  /** Round trip: feeding the shown keys back to the selection handler
      chooses the same tokens again. */
  lemma SelectionRoundTrip(catalog: seq<TokenAvailable>, keys: set<string>)
    ensures var shown := set k | k in SelectedKeys(ChooseTokens(catalog, keys));
            ChooseTokens(catalog, shown) == ChooseTokens(catalog, keys)
  {
    SelectedKeysAreChosenAddresses(catalog, keys);
    UnmatchedKeysContributeNothing(catalog, keys);
    var shown := keys * Addresses(catalog);
    UnmatchedKeysContributeNothing(catalog, shown);
    assert shown * Addresses(catalog) == shown;
  }

  /** With unique addresses, `renderValue` finds for every chosen token the
      catalog entry it was projected from, so it shows the chosen symbol. */
  lemma RenderValueShowsChosenTokens(catalog: seq<TokenAvailable>, keys: set<string>)
    requires UniqueAddresses(catalog)
    ensures var chosen := ChooseTokens(catalog, keys);
            var shown := RenderValue(catalog, SelectedKeys(chosen));
            forall n :: 0 <= n < |chosen| ==>
              shown[n].Some? && Project(shown[n].value) == chosen[n]
  {
    var chosen := ChooseTokens(catalog, keys);
    forall n | 0 <= n < |chosen|
      ensures FindByAddress(catalog, chosen[n].tokenAddress).Some?
      ensures Project(FindByAddress(catalog, chosen[n].tokenAddress).value) == chosen[n]
    {
      assert chosen[n] in chosen;
      ChooseTokensMembership(catalog, keys, chosen[n]);
      var i :| 0 <= i < |catalog| && catalog[i].address in keys && chosen[n] == Project(catalog[i]);
      var found := FindByAddress(catalog, chosen[n].tokenAddress);
      assert found.Some?;
      var j :| 0 <= j < |catalog| && catalog[j] == found.value && catalog[j].address == chosen[n].tokenAddress;
      assert i == j;
    }
  }

  /** The `intervalSet` pair: both parts are the raw text of their inputs. */
  datatype IntervalSet = IntervalSet(interval: string, intervalUnit: string)

  /** Everything the form holds, as one value. */
  datatype FormState = FormState(
    chooseTokens: seq<ChosenToken>,
    tokenList: seq<TokenAvailable>,
    isLoadingTokens: bool,
    strategy: string,
    takeProfit: string,
    stopLoss: string,
    intervalSet: IntervalSet,
    endDate: Option<int>)

  /** The interval input's default: one hour. */
  const DefaultInterval := IntervalSet("1", "hour")

  /** The settings form's component state. The end date is an absolute
      instant; the clock reading it starts from is a constructor argument. */
  class SettingsForm {
    var chooseTokens: seq<ChosenToken>
    var tokenList: seq<TokenAvailable>
    var isLoadingTokens: bool
    var strategy: string
    var takeProfit: string
    var stopLoss: string
    var intervalSet: IntervalSet
    var endDate: Option<int>

    function State(): FormState
      reads this
    {
      FormState(chooseTokens, tokenList, isLoadingTokens, strategy, takeProfit, stopLoss, intervalSet, endDate)
    }

    /** The keys the multi-select shows as selected. */
    function Shown(): (r: seq<string>)
      reads this
      ensures |r| == |chooseTokens|
    {
      SelectedKeys(chooseTokens)
    }

    constructor (now: int)
      ensures State() == FormState([], [], false, "", "", "", DefaultInterval, Some(now))
    {
      chooseTokens, tokenList, isLoadingTokens := [], [], false;
      strategy, takeProfit, stopLoss := "", "", "";
      intervalSet := DefaultInterval;
      endDate := Some(now);
    }

    /** The part of `fetchTokens` before the await: without a chain id
        nothing happens; otherwise the loading flag goes up. */
    method StartFetch(chainId: Option<string>) returns (started: bool)
      modifies this
      ensures started <==> chainId.Some? && chainId.value != ""
      ensures State() == if started then old(State()).(isLoadingTokens := true) else old(State())
    {
      if chainId.None? || chainId.value == "" {
        return false;
      }
      isLoadingTokens := true;
      started := true;
    }

    /** The part of `fetchTokens` after the await: a response replaces the
        catalog, a failure keeps it, and the flag comes down either way. */
    method SettleFetch(outcome: Outcome<seq<TokenAvailable>>)
      requires isLoadingTokens
      modifies this
      ensures State() == old(State()).(
        tokenList := if outcome.Resolved? then outcome.value else old(tokenList),
        isLoadingTokens := false)
    {
      if outcome.Resolved? {
        tokenList := outcome.value;
      }
      isLoadingTokens := false;
    }

    /** `onSelectionChange`: the chosen tokens become the projection of the
        current catalog on the selected keys. */
    method SelectionChange(keys: set<string>)
      modifies this
      ensures State() == old(State()).(chooseTokens := ChooseTokens(old(tokenList), keys))
      ensures |chooseTokens| <= |tokenList|
      ensures (set k | k in Shown()) == keys * Addresses(tokenList)
    {
      chooseTokens := ChooseTokens(tokenList, keys);
      ChooseTokensInCatalogOrder(tokenList, keys);
      SelectedKeysAreChosenAddresses(tokenList, keys);
    }

    /** The strategy text is kept verbatim. */
    method SetStrategy(value: string)
      modifies this
      ensures State() == old(State()).(strategy := value)
    {
      strategy := value;
    }

    /** The take-profit text is kept verbatim, unparsed. */
    method SetTakeProfit(value: string)
      modifies this
      ensures State() == old(State()).(takeProfit := value)
    {
      takeProfit := value;
    }

    /** The stop-loss text is kept verbatim, unparsed. */
    method SetStopLoss(value: string)
      modifies this
      ensures State() == old(State()).(stopLoss := value)
    {
      stopLoss := value;
    }

    /** Editing the interval value keeps the unit. */
    method SetInterval(value: string)
      modifies this
      ensures State() == old(State()).(intervalSet := IntervalSet(value, old(intervalSet.intervalUnit)))
    {
      intervalSet := intervalSet.(interval := value);
    }

    /** Choosing a unit keeps the interval value. */
    method SetIntervalUnit(unit: string)
      modifies this
      ensures State() == old(State()).(intervalSet := IntervalSet(old(intervalSet.interval), unit))
    {
      intervalSet := intervalSet.(intervalUnit := unit);
    }

    /** The date picker's value, which may be cleared. */
    method SetEndDate(value: Option<int>)
      modifies this
      ensures State() == old(State()).(endDate := value)
    {
      endDate := value;
    }
  }
}
