/**
 * The price-threshold alerts of the crypto details page: creating an alert from the
 * price field, the effect that checks every untriggered alert against the selected
 * coin's live price, the newest-first notification list, removal by id, and the
 * scale chosen when a volume is displayed.
 *
 * The page keeps `alerts` and `notifications` as component state that the handlers
 * replace; `AlertPanel` holds that state. Ids and timestamps come from the clock and
 * are passed in.
 */
module CryptoPage {
  import opened Wrappers
  import opened CryptoSlice

  /** The value of the alert-type selector: 'above' or 'below'. */
  datatype AlertKind = Above | Below

  datatype PriceAlert = PriceAlert(
    id: int, coin: string, price: real, kind: AlertKind, triggered: bool, createdAt: int)

  /** A fired alert as displayed: the coin's name, the alert's type and price, and the live price. */
  datatype Notification = Notification(
    id: int, coinName: string, kind: AlertKind, threshold: real, currentPrice: real, timestamp: int)

  /** The threshold test; both boundaries are inclusive. */
  predicate Crossed(kind: AlertKind, current: real, threshold: real): (crossed: bool)
    ensures current == threshold ==> crossed
    ensures crossed && current != threshold ==> (kind == Above <==> current > threshold)
  {
    match kind
    case Above => current >= threshold
    case Below => current <= threshold
  }

  /** An alert fires when it has not fired before and its threshold is crossed. */
  predicate Fires(a: PriceAlert, current: real): (fires: bool)
    ensures fires ==> !a.triggered
    ensures !a.triggered && current == a.price ==> fires
  {
    !a.triggered && Crossed(a.kind, current, a.price)
  }

  /** The alerts with every alert carrying `id` marked as triggered, the rest as they were. */
  function MarkTriggered(alerts: seq<PriceAlert>, id: int): (r: seq<PriceAlert>)
    ensures |r| == |alerts|
    ensures forall j :: 0 <= j < |r| ==>
      r[j].triggered == (alerts[j].triggered || alerts[j].id == id)
      && r[j] == alerts[j].(triggered := r[j].triggered)
  {
    if alerts == [] then []
    else
      var a := alerts[0];
      [if a.id == id then a.(triggered := true) else a] + MarkTriggered(alerts[1..], id)
  }

  /** Some alert among `checked` fires at `current` and carries `id`. */
  predicate FiredWithId(checked: seq<PriceAlert>, current: real, id: int) {
    exists k :: 0 <= k < |checked| && Fires(checked[k], current) && checked[k].id == id
  }

  /** `alerts` after the effect has visited the snapshot alerts `checked`, in order. */
  function MarkFired(alerts: seq<PriceAlert>, checked: seq<PriceAlert>, current: real)
    : (r: seq<PriceAlert>)
    ensures |r| == |alerts|
  {
    if checked == [] then alerts
    else
      var last := checked[|checked| - 1];
      var before := MarkFired(alerts, checked[..|checked| - 1], current);
      if Fires(last, current) then MarkTriggered(before, last.id) else before
  }

  /**
   * After the effect, an alert is triggered exactly when it was already, or an alert
   * with its id fired; nothing else about any alert changes, and none is added or lost.
   */
  lemma {:induction false} MarkFiredSpec(alerts: seq<PriceAlert>, checked: seq<PriceAlert>, current: real)
    ensures |MarkFired(alerts, checked, current)| == |alerts|
    ensures forall j :: 0 <= j < |alerts| ==>
      var r := MarkFired(alerts, checked, current)[j];
      r.triggered == (alerts[j].triggered || FiredWithId(checked, current, alerts[j].id))
      && r == alerts[j].(triggered := r.triggered)
  {
    if checked != [] {
      var init := checked[..|checked| - 1];
      var last := checked[|checked| - 1];
      MarkFiredSpec(alerts, init, current);
      forall j | 0 <= j < |alerts|
        ensures FiredWithId(checked, current, alerts[j].id) ==
          (FiredWithId(init, current, alerts[j].id) || (Fires(last, current) && last.id == alerts[j].id))
      {
        if FiredWithId(checked, current, alerts[j].id) {
          var k :| 0 <= k < |checked| && Fires(checked[k], current) && checked[k].id == alerts[j].id;
          if k < |init| {
            assert init[k] == checked[k];
          }
        }
        if FiredWithId(init, current, alerts[j].id) {
          var k :| 0 <= k < |init| && Fires(init[k], current) && init[k].id == alerts[j].id;
          assert checked[k] == init[k];
        }
      }
    }
  }

  /** Once an alert has been triggered, the effect keeps it triggered. */
  lemma TriggeredStaysTriggered(alerts: seq<PriceAlert>, checked: seq<PriceAlert>, current: real, j: nat)
    requires j < |alerts| && alerts[j].triggered
    ensures j < |MarkFired(alerts, checked, current)| && MarkFired(alerts, checked, current)[j].triggered
  {
  }

  /** Fire-once: after the effect has run over the alerts, none of them fires again at that price. */
  lemma NoRefire(alerts: seq<PriceAlert>, current: real)
    ensures forall j :: 0 <= j < |MarkFired(alerts, alerts, current)| ==>
      !Fires(MarkFired(alerts, alerts, current)[j], current)
  {
    MarkFiredSpec(alerts, alerts, current);
    forall j | 0 <= j < |alerts| && !alerts[j].triggered && Crossed(alerts[j].kind, current, alerts[j].price)
      ensures FiredWithId(alerts, current, alerts[j].id)
    {
      assert Fires(alerts[j], current);
    }
  }

  /** The notifications the effect adds for the snapshot alerts `checked`, newest first. */
  function NewNotifications(checked: seq<PriceAlert>, stamps: seq<int>, coinName: string, current: real)
    : (r: seq<Notification>)
    requires |stamps| == |checked|
    ensures |r| <= |checked|
    ensures forall n :: n in r ==> n.currentPrice == current && n.coinName == coinName
  {
    if checked == [] then []
    else
      var k := |checked| - 1;
      var last := checked[k];
      var older := NewNotifications(checked[..k], stamps[..k], coinName, current);
      if Fires(last, current) then
        [Notification(stamps[k], coinName, last.kind, last.price, current, stamps[k])] + older
      else
        older
  }

  /** Visiting one more alert of the snapshot: it fires, or nothing changes. */
  lemma CheckOneMore(snapshot: seq<PriceAlert>, stamps: seq<int>, coinName: string, current: real, i: nat)
    requires i < |snapshot| == |stamps|
    ensures var a := snapshot[i];
      var marked := MarkFired(snapshot, snapshot[..i], current);
      var notes := NewNotifications(snapshot[..i], stamps[..i], coinName, current);
      && MarkFired(snapshot, snapshot[..i + 1], current) ==
           (if Fires(a, current) then MarkTriggered(marked, a.id) else marked)
      && NewNotifications(snapshot[..i + 1], stamps[..i + 1], coinName, current) ==
           (if Fires(a, current)
            then [Notification(stamps[i], coinName, a.kind, a.price, current, stamps[i])] + notes
            else notes)
  {
    assert snapshot[..i + 1][..i] == snapshot[..i];
    assert stamps[..i + 1][..i] == stamps[..i];
  }

  /** One notification per firing alert: none at all when no alert fires. */
  lemma {:induction false} NotificationsOnlyWhenFired(
    checked: seq<PriceAlert>, stamps: seq<int>, coinName: string, current: real)
    requires |stamps| == |checked|
    ensures (forall k :: 0 <= k < |checked| ==> !Fires(checked[k], current)) <==>
      NewNotifications(checked, stamps, coinName, current) == []
  {
    if checked != [] {
      var k := |checked| - 1;
      NotificationsOnlyWhenFired(checked[..k], stamps[..k], coinName, current);
      assert forall i :: 0 <= i < k ==> checked[..k][i] == checked[i];
    }
  }

  /** A second run of the effect at the same price adds no notification. */
  lemma SecondCheckIsSilent(alerts: seq<PriceAlert>, stamps: seq<int>, coinName: string, current: real)
    requires |stamps| == |alerts|
    ensures |MarkFired(alerts, alerts, current)| == |alerts|
    ensures NewNotifications(MarkFired(alerts, alerts, current), stamps, coinName, current) == []
  {
    MarkFiredSpec(alerts, alerts, current);
    NoRefire(alerts, current);
    NotificationsOnlyWhenFired(MarkFired(alerts, alerts, current), stamps, coinName, current);
  }

  /** `removeAlert`: keep, in order, the alerts whose id differs. */
  function WithoutAlert(alerts: seq<PriceAlert>, id: int): (r: seq<PriceAlert>)
    ensures |r| <= |alerts|
    ensures forall a :: a in r <==> a in alerts && a.id != id
    ensures (forall a :: a in alerts ==> a.id != id) ==> r == alerts
  {
    if alerts == [] then []
    else if alerts[0].id == id then WithoutAlert(alerts[1..], id)
    else [alerts[0]] + WithoutAlert(alerts[1..], id)
  }

  /**
   * Removal distributes over concatenation. With the contract's membership clause
   * for one-alert lists, this fixes the result: the kept alerts, in their order
   * and with their multiplicity.
   */
  lemma {:induction false} WithoutAlertIsFilter(a: seq<PriceAlert>, b: seq<PriceAlert>, id: int)
    ensures WithoutAlert(a + b, id) == WithoutAlert(a, id) + WithoutAlert(b, id)
  {
    if a == [] {
      assert a + b == b;
    } else {
      assert (a + b)[0] == a[0] && (a + b)[1..] == a[1..] + b;
      WithoutAlertIsFilter(a[1..], b, id);
    }
  }

  /** `dismissNotification`: keep, in order, the notifications whose id differs. */
  function WithoutNotification(notes: seq<Notification>, id: int): (r: seq<Notification>)
    ensures |r| <= |notes|
    ensures forall n :: n in r <==> n in notes && n.id != id
    ensures (forall n :: n in notes ==> n.id != id) ==> r == notes
  {
    if notes == [] then []
    else if notes[0].id == id then WithoutNotification(notes[1..], id)
    else [notes[0]] + WithoutNotification(notes[1..], id)
  }

  /**
   * Dismissal distributes over concatenation, so the kept notifications stay
   * newest first, with their multiplicity.
   */
  lemma {:induction false} WithoutNotificationIsFilter(a: seq<Notification>, b: seq<Notification>, id: int)
    ensures WithoutNotification(a + b, id) == WithoutNotification(a, id) + WithoutNotification(b, id)
  {
    if a == [] {
      assert a + b == b;
    } else {
      assert (a + b)[0] == a[0] && (a + b)[1..] == a[1..] + b;
      WithoutNotificationIsFilter(a[1..], b, id);
    }
  }

  datatype VolumeUnit = Billions | Millions | Units

  function UnitSize(u: VolumeUnit): real {
    match u
    case Billions => 1000000000.0
    case Millions => 1000000.0
    case Units => 1.0
  }

  /** The branch `formatVolume` takes: the unit, and the number printed before it. */
  function ScaleVolume(volume: real): (r: (real, VolumeUnit))
    ensures r.1 == Billions <==> volume >= 1000000000.0
    ensures r.1 == Millions <==> 1000000.0 <= volume < 1000000000.0
    ensures r.1 == Units <==> volume < 1000000.0
    ensures r.0 * UnitSize(r.1) == volume
  {
    if volume >= 1000000000.0 then (volume / 1000000000.0, Billions)
    else if volume >= 1000000.0 then (volume / 1000000.0, Millions)
    else (volume, Units)
  }

  /** The page's alert state. */
  class AlertPanel {
    var selectedCoin: string
    var alerts: seq<PriceAlert>
    var notifications: seq<Notification>

    constructor()
      ensures selectedCoin == "bitcoin" && alerts == [] && notifications == []
    {
      selectedCoin := "bitcoin";
      alerts := [];
      notifications := [];
    }

    /** The coin selector. */
    method SelectCoin(coin: string)
      modifies this
      ensures selectedCoin == coin && alerts == old(alerts) && notifications == old(notifications)
    {
      selectedCoin := coin;
    }

    /**
     * `handleAddAlert`: `parsed` is the price field through `parseFloat` (NaN is None).
     * Only a positive price adds an alert, untriggered, at the end.
     */
    method AddAlert(parsed: Option<real>, kind: AlertKind, now: int)
      modifies this
      ensures parsed.Some? && parsed.value > 0.0 ==>
        alerts == old(alerts) + [PriceAlert(now, selectedCoin, parsed.value, kind, false, now)]
      ensures !(parsed.Some? && parsed.value > 0.0) ==> alerts == old(alerts)
      ensures selectedCoin == old(selectedCoin) && notifications == old(notifications)
    {
      if parsed.Some? && parsed.value > 0.0 {
        alerts := alerts + [PriceAlert(now, selectedCoin, parsed.value, kind, false, now)];
      }
    }

    /** `removeAlert`. */
    method RemoveAlert(id: int)
      modifies this
      ensures alerts == WithoutAlert(old(alerts), id)
      ensures selectedCoin == old(selectedCoin) && notifications == old(notifications)
    {
      alerts := WithoutAlert(alerts, id);
    }

    /** `dismissNotification`. */
    method DismissNotification(id: int)
      modifies this
      ensures notifications == WithoutNotification(old(notifications), id)
      ensures selectedCoin == old(selectedCoin) && alerts == old(alerts)
    {
      notifications := WithoutNotification(notifications, id);
    }

    /**
     * The alert-check effect. Without data for the selected coin nothing happens.
     * Otherwise every alert of the snapshot is tested against the selected coin's
     * price, whatever coin it was set on; each firing alert prepends one notification
     * (stamped `stamps[k]`) and marks every alert with its id as triggered.
     */
    method CheckAlerts(coins: map<string, CoinEntry>, stamps: seq<int>)
      requires |stamps| == |alerts|
      modifies this
      ensures selectedCoin == old(selectedCoin)
      ensures selectedCoin !in coins ==>
        alerts == old(alerts) && notifications == old(notifications)
      ensures selectedCoin in coins ==>
        var coin := coins[selectedCoin].data;
        && alerts == MarkFired(old(alerts), old(alerts), coin.priceUsd)
        && notifications == NewNotifications(old(alerts), stamps, coin.name, coin.priceUsd)
                            + old(notifications)
    {
      if selectedCoin !in coins {
        return;
      }
      var coin := coins[selectedCoin].data;
      var current := coin.priceUsd;
      // the queued `setAlerts` / `setNotifications` updates, applied once the loop is done
      var snapshot, marked, added := alerts, alerts, [];
      var i := 0;
      while i < |snapshot|
        modifies {}
        invariant 0 <= i <= |snapshot|
        invariant marked == MarkFired(snapshot, snapshot[..i], current)
        invariant added == NewNotifications(snapshot[..i], stamps[..i], coin.name, current)
      {
        var alert := snapshot[i];
        CheckOneMore(snapshot, stamps, coin.name, current, i);
        if Fires(alert, current) {
          var note := Notification(stamps[i], coin.name, alert.kind, alert.price, current, stamps[i]);
          added := [note] + added;
          marked := MarkTriggered(marked, alert.id);
        }
        i := i + 1;
      }
      assert snapshot[..i] == snapshot;
      assert stamps[..i] == stamps;
      alerts := marked;
      notifications := added + notifications;
    }
  }
}
