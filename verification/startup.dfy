/** The `ready` handler: after a restart, put the bot's reactions back on
    the tracked message. */
module Startup {
  import opened State
  import opened Retry

  /** Outcomes of the platform calls the handler makes: the channel fetch,
      each message-fetch attempt, and the i-th `react` call. */
  datatype StartupOutcomes = StartupOutcomes(
    channelOk: bool,
    attempt: nat -> FetchOutcome,
    reactOk: nat -> bool)

  /** How the reconciliation pass ended. `reacted` lists the emojis the bot
      reacted with, in call order; `complete` is false when a `react` call
      threw and ended the pass early. */
  datatype StartupReport =
    | NoTrackedMessage
    | ChannelUnavailable
    | FetchGaveUp(error: string, attempts: nat, waits: nat)
    | MessageMissing
    | Reacted(reacted: seq<string>, complete: bool)

  /** The reaction loop from position `i` on: react with each emoji in turn;
      the first call that throws ends the loop. Returns the new reactions and
      the position of the first emoji not applied. */
  function ReactEach(applied: map<Id, set<string>>, messageId: Id, emojis: seq<string>,
                     reactOk: nat -> bool, i: nat): (r: (map<Id, set<string>>, nat))
    requires i <= |emojis|
    ensures i <= r.1 <= |emojis|
    ensures forall j :: i <= j < r.1 ==> reactOk(j)
    ensures r.1 < |emojis| ==> !reactOk(r.1)
    ensures AppliedOn(r.0, messageId) == AppliedOn(applied, messageId) + Elems(emojis[i..r.1])
    ensures forall m :: m != messageId ==> AppliedOn(r.0, m) == AppliedOn(applied, m)
    decreases |emojis| - i
  {
    if i == |emojis| || !reactOk(i) then
      (applied, i)
    else
      var r := ReactEach(React(applied, messageId, emojis[i]), messageId, emojis, reactOk, i + 1);
      assert Elems(emojis[i..r.1]) == {emojis[i]} + Elems(emojis[i + 1..r.1]) by {
        assert emojis[i..r.1] == [emojis[i]] + emojis[i + 1..r.1];
      }
      r
  }

  /** The emojis bound to `messageId`, in store order. */
  function BoundEmojis(s: Store, messageId: Id): seq<string>
  {
    Emojis(BindingsFor(s.bindings, messageId))
  }

  /** The `ready` handler after the schema sync. */
  function Reconcile(w: World, o: StartupOutcomes): (r: (World, StartupReport))
    // only the bot's reactions can change
    ensures r.0.store == w.store && r.0.guild == w.guild && r.0.outbox == w.outbox
    // with no tracked row, nothing happens at all
    ensures |w.store.tracked| == 0 <==> r.1 == NoTrackedMessage
    ensures |w.store.tracked| == 0 ==> r.0 == w
    // reactions on any message but the first tracked one are never touched
    ensures forall m :: (|w.store.tracked| == 0 || m != w.store.tracked[0].messageId) ==>
              AppliedOn(r.0.applied, m) == AppliedOn(w.applied, m)
    // the pass reaches the reaction loop exactly when the channel and the message resolve
    ensures r.1.Reacted? <==>
              && |w.store.tracked| > 0
              && o.channelOk
              && FetchMessageWithRetry(o.attempt).Fetched?
              && FetchMessageWithRetry(o.attempt).present
    ensures r.1.FetchGaveUp? ==>
              && r.1.attempts == MaxAttempts
              && r.1.waits == DefaultRetries
              && forall j :: 0 <= j < MaxAttempts ==> o.attempt(j).Rejected?
    ensures r.1.ChannelUnavailable? <==> |w.store.tracked| > 0 && !o.channelOk
    ensures r.1.MessageMissing? ==> 
              && FetchMessageWithRetry(o.attempt).Fetched?
              && !FetchMessageWithRetry(o.attempt).present
    ensures !r.1.Reacted? ==> r.0 == w
    // the loop reacts with the bound emojis in store order, one call per row
    ensures r.1.Reacted? ==>
              var t := w.store.tracked[0];
              var bound := BoundEmojis(w.store, t.messageId);
              && r.1.reacted <= bound
              && (r.1.complete <==> r.1.reacted == bound)
              && (r.1.complete <==> forall j :: 0 <= j < |bound| ==> o.reactOk(j))
              && (forall j :: 0 <= j < |r.1.reacted| ==> o.reactOk(j))
              && (|r.1.reacted| < |bound| ==> !o.reactOk(|r.1.reacted|))
              && AppliedOn(r.0.applied, t.messageId) == AppliedOn(w.applied, t.messageId) + Elems(r.1.reacted)
  {
    match FirstTracked(w.store)
    case None => (w, NoTrackedMessage)
    case Some(t) =>
      if !o.channelOk then (w, ChannelUnavailable)
      else match FetchMessageWithRetry(o.attempt)
        case Exhausted(e, n, waits) => (w, FetchGaveUp(e, n, waits))
        case Fetched(present, _, _) =>
          if !present then (w, MessageMissing)
          else
            var bound := BoundEmojis(w.store, t.messageId);
            var (applied, done) := ReactEach(w.applied, t.messageId, bound, o.reactOk, 0);
            (w.(applied := applied), Reacted(bound[..done], done == |bound|))
  }
}
