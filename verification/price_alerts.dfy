/**
 * The percent-change toasts: every time the cached coins change, each coin with a
 * non-zero live price is compared with the price seen for it last time, and a move
 * of at least 0.5 % raises one notice. The remembered prices live in a mutable map
 * that outlives the runs, so the notifier is a class.
 */
module PriceAlerts {
  import opened Wrappers

  /** One entry of `Object.entries(coins)`: the coin id and its live USD price, if any. */
  datatype CoinPrice = CoinPrice(coinId: string, usd: Option<real>)

  datatype Direction = Increased | Decreased

  /** A toast: which coin moved, which way, and by how many percent. */
  datatype Notice = Notice(coinId: string, direction: Direction, percent: real)

  function Abs(x: real): real {
    if x < 0.0 then -x else x
  }

  /** A missing or zero price is falsy and the coin is skipped. */
  predicate HasPrice(c: CoinPrice) {
    c.usd.Some? && c.usd.value != 0.0
  }

  /** The previous prices the notifier starts from. */
  function InitialPrevious(): map<string, real> {
    map["bitcoin" := 0.0, "ethereum" := 0.0, "cardano" := 0.0]
  }

  /** The relative move of `current` from `prev` as a percentage; `prev` is positive. */
  function ChangePercent(prev: real, current: real): (pct: real)
    requires prev > 0.0
    ensures pct > 0.0 <==> current > prev
    ensures Abs(pct) * prev == 100.0 * Abs(current - prev)
  {
    (current - prev) / prev * 100.0
  }

  /** For a positive `prev`, a move of at least 0.5 % is a move of at least `prev / 200`. */
  lemma HalfPercentThreshold(pct: real, prev: real, move: real)
    requires prev > 0.0 && pct * prev == 100.0 * move
    ensures pct >= 0.5 <==> 200.0 * move >= prev
  {
  }

  /**
   * The notice for one coin given its remembered price: none unless the remembered
   * price is positive and the move is at least half a percent.
   */
  function ChangeNotice(coinId: string, prev: Option<real>, current: real): (r: Option<Notice>)
    ensures r.Some? <==> prev.Some? && prev.value > 0.0 && 200.0 * Abs(current - prev.value) >= prev.value
    ensures r.Some? ==> r.value.coinId == coinId
    ensures r.Some? ==> (r.value.direction == Increased <==> current > prev.value)
    ensures r.Some? ==> r.value.percent * prev.value == 100.0 * Abs(current - prev.value)
  {
    if prev.Some? && prev.value > 0.0 then
      var change := ChangePercent(prev.value, current);
      HalfPercentThreshold(Abs(change), prev.value, Abs(current - prev.value));
      if Abs(change) >= 0.5 then
        Some(Notice(coinId, if change > 0.0 then Increased else Decreased, Abs(change)))
      else
        None
    else
      None
  }

  /** The remembered prices after a run over `coins`. */
  function Remembered(prev: map<string, real>, coins: seq<CoinPrice>): (r: map<string, real>)
    ensures prev.Keys <= r.Keys
  {
    if coins == [] then prev
    else
      var last := coins[|coins| - 1];
      var before := Remembered(prev, coins[..|coins| - 1]);
      if HasPrice(last) then before[last.coinId := last.usd.value] else before
  }

  /** The notices raised by a run over `coins`, in the order the coins are visited. */
  function Notices(prev: map<string, real>, coins: seq<CoinPrice>): (r: seq<Notice>)
    ensures |r| <= |coins|
  {
    if coins == [] then []
    else
      var last := coins[|coins| - 1];
      var init := coins[..|coins| - 1];
      var n := if HasPrice(last)
               then ChangeNotice(last.coinId, Lookup(Remembered(prev, init), last.coinId), last.usd.value)
               else None;
      Notices(prev, init) + (if n.Some? then [n.value] else [])
  }

  /** The coins remembered after a run: the ones remembered before, and every coin the run priced. */
  lemma {:induction false} RememberedKeys(prev: map<string, real>, coins: seq<CoinPrice>)
    ensures Remembered(prev, coins).Keys ==
      prev.Keys + set k | 0 <= k < |coins| && HasPrice(coins[k]) :: coins[k].coinId
  {
    if coins != [] {
      var n := |coins| - 1;
      RememberedKeys(prev, coins[..n]);
      assert forall k :: 0 <= k < n ==> coins[..n][k] == coins[k];
    }
  }

  /** A coin with no priced entry in the run keeps its remembered price, or stays absent. */
  lemma {:induction false} RememberedUntouched(prev: map<string, real>, coins: seq<CoinPrice>, id: string)
    requires forall k :: 0 <= k < |coins| && coins[k].coinId == id ==> !HasPrice(coins[k])
    ensures Lookup(Remembered(prev, coins), id) == Lookup(prev, id)
  {
    if coins != [] {
      var n := |coins| - 1;
      RememberedUntouched(prev, coins[..n], id);
    }
  }

  /**
   * After a run, a coin's remembered price is the price of its last entry with a
   * price, whether or not that entry raised a notice.
   */
  lemma {:induction false} RememberedIsLatest(prev: map<string, real>, coins: seq<CoinPrice>, k: nat)
    requires k < |coins| && HasPrice(coins[k])
    requires forall j :: k < j < |coins| && coins[j].coinId == coins[k].coinId ==> !HasPrice(coins[j])
    ensures Lookup(Remembered(prev, coins), coins[k].coinId) == coins[k].usd
  {
    var n := |coins| - 1;
    if k < n {
      RememberedIsLatest(prev, coins[..n], k);
    }
  }

  /** Every notice is about a coin of the run that had a price. */
  lemma {:induction false} NoticesFromCoins(prev: map<string, real>, coins: seq<CoinPrice>)
    ensures |Notices(prev, coins)| <= |coins|
    ensures forall m :: m in Notices(prev, coins) ==>
      exists k :: 0 <= k < |coins| && coins[k].coinId == m.coinId && HasPrice(coins[k])
  {
    if coins != [] {
      var n := |coins| - 1;
      var init := coins[..n];
      NoticesFromCoins(prev, init);
      forall m | m in Notices(prev, init)
        ensures exists k :: 0 <= k < |coins| && coins[k].coinId == m.coinId && HasPrice(coins[k])
      {
        var k :| 0 <= k < |init| && init[k].coinId == m.coinId && HasPrice(init[k]);
        assert coins[k] == init[k];
      }
    }
  }

  /** Coin ids that appear at most once in a run (the keys of one object). */
  predicate DistinctIds(coins: seq<CoinPrice>) {
    forall i, j :: 0 <= i < j < |coins| ==> coins[i].coinId != coins[j].coinId
  }

  /** With distinct coin ids, a run raises at most one notice per coin. */
  lemma {:induction false} AtMostOneNoticePerCoin(prev: map<string, real>, coins: seq<CoinPrice>)
    requires DistinctIds(coins)
    ensures forall i, j :: 0 <= i < j < |Notices(prev, coins)| ==>
      Notices(prev, coins)[i].coinId != Notices(prev, coins)[j].coinId
  {
    if coins != [] {
      var n := |coins| - 1;
      var init := coins[..n];
      var last := coins[n];
      assert DistinctIds(init) by {
        forall i, j | 0 <= i < j < |init| ensures init[i].coinId != init[j].coinId {
          assert init[i] == coins[i] && init[j] == coins[j];
        }
      }
      AtMostOneNoticePerCoin(prev, init);
      NoticesFromCoins(prev, init);
      var older := Notices(prev, init);
      forall m | m in older ensures m.coinId != last.coinId {
        var k :| 0 <= k < |init| && init[k].coinId == m.coinId && HasPrice(init[k]);
        assert coins[k] == init[k];
      }
    }
  }

  /**
   * With distinct coin ids, a priced coin raises exactly the notice that comparing
   * its price with the remembered price before the run gives, and no other.
   */
  lemma {:induction false} NoticeRaisedIff(prev: map<string, real>, coins: seq<CoinPrice>, k: nat, m: Notice)
    requires DistinctIds(coins) && k < |coins| && HasPrice(coins[k])
    ensures ChangeNotice(coins[k].coinId, Lookup(prev, coins[k].coinId), coins[k].usd.value) == Some(m)
      <==> m in Notices(prev, coins) && m.coinId == coins[k].coinId
  {
    var n := |coins| - 1;
    var init := coins[..n];
    var last := coins[n];
    assert DistinctIds(init) by {
      forall i, j | 0 <= i < j < |init| ensures init[i].coinId != init[j].coinId {
        assert init[i] == coins[i] && init[j] == coins[j];
      }
    }
    if k < n {
      assert init[k] == coins[k];
      NoticeRaisedIff(prev, init, k, m);
    } else {
      assert forall j :: 0 <= j < |init| ==> init[j].coinId != last.coinId by {
        forall j | 0 <= j < |init| ensures init[j].coinId != last.coinId {
          assert init[j] == coins[j];
        }
      }
      RememberedUntouched(prev, init, last.coinId);
      NoticesFromCoins(prev, init);
    }
  }

  /**
   * The first run from the initial map raises nothing when each coin appears once:
   * every coin's remembered price is then 0 or absent.
   */
  lemma {:induction false} FirstRunIsSilent(coins: seq<CoinPrice>)
    requires DistinctIds(coins)
    ensures Notices(InitialPrevious(), coins) == []
  {
    if coins != [] {
      var n := |coins| - 1;
      var init := coins[..n];
      var last := coins[n];
      assert DistinctIds(init) by {
        forall i, j | 0 <= i < j < |init| ensures init[i].coinId != init[j].coinId {
          assert init[i] == coins[i] && init[j] == coins[j];
        }
      }
      FirstRunIsSilent(init);
      assert forall k :: 0 <= k < |init| ==> init[k].coinId != last.coinId by {
        forall k | 0 <= k < |init| ensures init[k].coinId != last.coinId {
          assert init[k] == coins[k];
        }
      }
      RememberedUntouched(InitialPrevious(), init, last.coinId);
    }
  }

  /** The component's `previousPrices` ref. */
  class PriceChangeNotifier {
    var previousPrices: map<string, real>

    constructor()
      ensures previousPrices == InitialPrevious()
    {
      previousPrices := InitialPrevious();
    }

    /** The effect: visit the coins in order, raising notices and remembering prices. */
    method OnCoinsChanged(coins: seq<CoinPrice>) returns (notices: seq<Notice>)
      modifies this
      ensures notices == Notices(old(previousPrices), coins)
      ensures previousPrices == Remembered(old(previousPrices), coins)
    {
      notices := [];
      var i := 0;
      while i < |coins|
        invariant 0 <= i <= |coins|
        invariant previousPrices == Remembered(old(previousPrices), coins[..i])
        invariant notices == Notices(old(previousPrices), coins[..i])
      {
        var c := coins[i];
        assert coins[..i + 1][..i] == coins[..i];
        if HasPrice(c) {
          var current := c.usd.value;
          var prevPrice := Lookup(previousPrices, c.coinId);
          if prevPrice.Some? && prevPrice.value > 0.0 {
            var changePercent := ChangePercent(prevPrice.value, current);
            if Abs(changePercent) >= 0.5 {
              var direction := if changePercent > 0.0 then Increased else Decreased;
              notices := notices + [Notice(c.coinId, direction, Abs(changePercent))];
            }
          }
          previousPrices := previousPrices[c.coinId := current];
        }
        i := i + 1;
      }
      assert coins[..i] == coins;
    }
  }
}
