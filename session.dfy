/**
 * The per-session book-keeping at the bottom of app.py: the one-shot
 * "bot connected" announcement and the de-duplication of bullish alerts
 * through the set of coins already notified.  Every message delivery is an
 * input: the boolean the send would return.
 */
module Session {
  import opened Signals

  /** Both Telegram credentials are non-empty strings. */
  predicate HasCredentials(token: string, chatId: string)
  {
    |token| > 0 && |chatId| > 0
  }

  /** new_coins: the bullish results whose coin is not yet notified, in order. */
  function NewCoins(bullish: seq<Analysis>, notified: set<string>): seq<Analysis>
    decreases |bullish|
  {
    if |bullish| == 0 then []
    else
      (if bullish[0].coinId in notified then [] else [bullish[0]]) + NewCoins(bullish[1..], notified)
  }

  /** The ids of the coins whose alert went through; `sendOk[j]` is the outcome for `newCoins[j]`. */
  function Delivered(newCoins: seq<Analysis>, sendOk: seq<bool>): set<string>
    requires |newCoins| == |sendOk|
    decreases |newCoins|
  {
    if |newCoins| == 0 then {}
    else
      var n := |newCoins| - 1;
      Delivered(newCoins[..n], sendOk[..n]) + (if sendOk[n] then {newCoins[n].coinId} else {})
  }

  function Ids(coins: seq<Analysis>): seq<string>
  {
    seq(|coins|, j requires 0 <= j < |coins| => coins[j].coinId)
  }

  /** The session_state entries this script keeps between reruns. */
  class SessionState {
    var notifiedCoins: set<string>
    var botConnected: bool

    /** A fresh session: nothing notified, no connection announced. */
    constructor ()
      ensures notifiedCoins == {} && !botConnected
    {
      notifiedCoins := {};
      botConnected := false;
    }

    /**
     * The connection announcement: sent only with credentials and while no
     * announcement has succeeded; a success sets the flag for good.
     */
    method AnnounceConnection(token: string, chatId: string, sendOk: bool) returns (attempted: bool)
      modifies this
      ensures attempted == (HasCredentials(token, chatId) && !old(botConnected))
      ensures botConnected == (old(botConnected) || (attempted && sendOk))
      ensures notifiedCoins == old(notifiedCoins)
    {
      attempted := false;
      if |token| > 0 && |chatId| > 0 {
        if !botConnected {
          attempted := true;
          if sendOk {
            botConnected := true;
          }
        }
      }
    }

    /**
     * The alert pass: with credentials and at least one bullish result,
     * alert every coin not yet notified, in order, and record each coin
     * whose alert went through.  Returns the coins alerted.
     */
    method NotifyBullish(token: string, chatId: string, bullish: seq<Analysis>, sendOk: seq<bool>)
      returns (alerted: seq<string>)
      requires HasCredentials(token, chatId) && |bullish| > 0 ==>
        |sendOk| == |NewCoins(bullish, notifiedCoins)|
      modifies this
      ensures botConnected == old(botConnected)
      ensures HasCredentials(token, chatId) && |bullish| > 0 ==>
        alerted == Ids(NewCoins(bullish, old(notifiedCoins))) &&
        notifiedCoins == old(notifiedCoins) + Delivered(NewCoins(bullish, old(notifiedCoins)), sendOk)
      ensures !(HasCredentials(token, chatId) && |bullish| > 0) ==>
        alerted == [] && notifiedCoins == old(notifiedCoins)
    {
      alerted := [];
      if |token| > 0 && |chatId| > 0 && |bullish| > 0 {
        var newCoins := NewCoins(bullish, notifiedCoins);
        ghost var before := notifiedCoins;
        for j := 0 to |newCoins|
          invariant botConnected == old(botConnected)
          invariant alerted == Ids(newCoins[..j])
          invariant notifiedCoins == before + Delivered(newCoins[..j], sendOk[..j])
        {
          var coin := newCoins[j];
          alerted := alerted + [coin.coinId];
          var success := sendOk[j];
          if success {
            notifiedCoins := notifiedCoins + {coin.coinId};
          }
          assert newCoins[..j + 1][..j] == newCoins[..j] && sendOk[..j + 1][..j] == sendOk[..j];
        }
        assert newCoins[..|newCoins|] == newCoins && sendOk[..|newCoins|] == sendOk;
      }
    }
  }

  // ---------------------------------------------------------------------
  // Properties of the alert pass
  // ---------------------------------------------------------------------

  /** new_coins holds exactly the bullish results whose coin is not yet notified. */
  lemma {:induction false} NewCoinsAreUnnotified(bullish: seq<Analysis>, notified: set<string>)
    ensures forall a :: a in NewCoins(bullish, notified) <==> a in bullish && a.coinId !in notified
    decreases |bullish|
  {
    if |bullish| > 0 {
      NewCoinsAreUnnotified(bullish[1..], notified);
      assert forall a :: a in bullish <==> a == bullish[0] || a in bullish[1..];
    }
  }

  /** A coin is delivered exactly when one of its alerts reported success. */
  lemma {:induction false} DeliveredIffSucceeded(newCoins: seq<Analysis>, sendOk: seq<bool>)
    requires |newCoins| == |sendOk|
    ensures forall id :: id in Delivered(newCoins, sendOk) <==>
      exists j :: 0 <= j < |newCoins| && sendOk[j] && newCoins[j].coinId == id
    decreases |newCoins|
  {
    if |newCoins| > 0 {
      var n := |newCoins| - 1;
      DeliveredIffSucceeded(newCoins[..n], sendOk[..n]);
      forall id | id in Delivered(newCoins, sendOk)
        ensures exists j :: 0 <= j < |newCoins| && sendOk[j] && newCoins[j].coinId == id
      {
        if !(sendOk[n] && newCoins[n].coinId == id) {
          assert id in Delivered(newCoins[..n], sendOk[..n]);
          var j :| 0 <= j < n && sendOk[..n][j] && newCoins[..n][j].coinId == id;
          assert sendOk[j] && newCoins[j].coinId == id;
        }
      }
      forall id | exists j :: 0 <= j < |newCoins| && sendOk[j] && newCoins[j].coinId == id
        ensures id in Delivered(newCoins, sendOk)
      {
        var j :| 0 <= j < |newCoins| && sendOk[j] && newCoins[j].coinId == id;
        if j < n {
          assert sendOk[..n][j] && newCoins[..n][j].coinId == id;
        }
      }
    }
  }

  /**
   * One alert pass only adds to the notified set, and every coin it adds is
   * a new coin of this pass whose alert went through, so a bullish coin.
   */
  lemma NotifiedGrowsOnlyByDeliveredNewCoins(bullish: seq<Analysis>, notified: set<string>, sendOk: seq<bool>)
    requires |sendOk| == |NewCoins(bullish, notified)|
    ensures var newCoins := NewCoins(bullish, notified);
            var after := notified + Delivered(newCoins, sendOk);
            notified <= after &&
            forall id :: id in after && id !in notified ==>
              (exists k :: 0 <= k < |newCoins| && sendOk[k] && newCoins[k].coinId == id) &&
              (exists j :: 0 <= j < |bullish| && bullish[j].coinId == id)
  {
    var newCoins := NewCoins(bullish, notified);
    NewCoinsAreUnnotified(bullish, notified);
    DeliveredIffSucceeded(newCoins, sendOk);
    forall id | id in Delivered(newCoins, sendOk) && id !in notified
      ensures exists k :: 0 <= k < |newCoins| && sendOk[k] && newCoins[k].coinId == id
      ensures exists j :: 0 <= j < |bullish| && bullish[j].coinId == id
    {
      var k :| 0 <= k < |newCoins| && sendOk[k] && newCoins[k].coinId == id;
      assert newCoins[k] in bullish;
      var j :| 0 <= j < |bullish| && bullish[j] == newCoins[k];
    }
  }

  /**
   * A second pass over the same bullish results alerts exactly the coins
   * whose first alert failed; when every first alert went through it alerts
   * nothing.
   */
  lemma RerunAlertsOnlyFailures(bullish: seq<Analysis>, notified: set<string>, sendOk: seq<bool>)
    requires |sendOk| == |NewCoins(bullish, notified)|
    ensures var first := NewCoins(bullish, notified);
            var after := notified + Delivered(first, sendOk);
            forall a :: a in NewCoins(bullish, after) <==> a in first && a.coinId !in Delivered(first, sendOk)
    ensures (forall j :: 0 <= j < |sendOk| ==> sendOk[j]) ==>
      NewCoins(bullish, notified + Delivered(NewCoins(bullish, notified), sendOk)) == []
  {
    var first := NewCoins(bullish, notified);
    var delivered := Delivered(first, sendOk);
    var after := notified + delivered;
    NewCoinsAreUnnotified(bullish, notified);
    NewCoinsAreUnnotified(bullish, after);
    if forall j :: 0 <= j < |sendOk| ==> sendOk[j] {
      DeliveredIffSucceeded(first, sendOk);
      forall i | 0 <= i < |bullish| ensures bullish[i].coinId in after {
        if bullish[i].coinId !in notified {
          assert bullish[i] in first;
          var j :| 0 <= j < |first| && first[j] == bullish[i];
        }
      }
      NewCoinsEmptyWhenAllNotified(bullish, after);
    }
  }

  /** With every bullish coin already notified, new_coins is empty. */
  lemma {:induction false} NewCoinsEmptyWhenAllNotified(bullish: seq<Analysis>, notified: set<string>)
    requires forall j :: 0 <= j < |bullish| ==> bullish[j].coinId in notified
    ensures NewCoins(bullish, notified) == []
    decreases |bullish|
  {
    if |bullish| > 0 {
      NewCoinsEmptyWhenAllNotified(bullish[1..], notified);
    }
  }

  /**
   * Two reruns of the script in one session with the same bullish coin:
   * with credentials, the first pass alerts it and the second, after a
   * successful delivery, alerts nothing.
   */
  method TwoPassesAlertOnce(token: string, chatId: string, coin: Analysis)
    returns (first: seq<string>, second: seq<string>)
    requires HasCredentials(token, chatId)
    ensures first == [coin.coinId] && second == []
  {
    var session := new SessionState();
    assert NewCoins([coin], {}) == [coin];
    first := session.NotifyBullish(token, chatId, [coin], [true]);
    assert Delivered([coin], [true]) == {coin.coinId};
    assert NewCoins([coin], {coin.coinId}) == [];
    second := session.NotifyBullish(token, chatId, [coin], []);
  }

  /**
   * Two reruns announcing the connection: the first is attempted; the
   * second is attempted again exactly when the first delivery failed.
   */
  method ConnectionAnnouncedOnce(token: string, chatId: string, firstOk: bool, secondOk: bool)
    returns (firstAttempt: bool, secondAttempt: bool, connected: bool)
    requires HasCredentials(token, chatId)
    ensures firstAttempt
    ensures secondAttempt <==> !firstOk
    ensures connected <==> firstOk || secondOk
  {
    var session := new SessionState();
    firstAttempt := session.AnnounceConnection(token, chatId, firstOk);
    secondAttempt := session.AnnounceConnection(token, chatId, secondOk);
    connected := session.botConnected;
  }
}
