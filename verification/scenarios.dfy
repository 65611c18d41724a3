/** Properties that connect several handlers: what one handler writes to
    the store is what the others read back. */
module Scenarios {
  import opened State
  import opened Retry
  import opened Startup
  import opened Commands
  import opened Reactions

  /** No row of the store is bound to `(messageId, emoji)`. */
  predicate Unbound(s: Store, messageId: Id, emoji: string)
  {
    FindBinding(s.bindings, messageId, emoji).None?
  }

  /** A binding added with `!addRoleReaction` for a fresh emoji is the one
      live reactions resolve to: reacting grants exactly its role, and
      taking the reaction away revokes exactly that role. */
  lemma AddedBindingDrivesReactions(w: World, channelId: Id, content: string, o: AddOutcomes,
                                    userId: Id, grantOk: bool, revokeOk: bool)
    requires |w.store.tracked| > 0
    requires RowAccepted(ParseAddArgs(content), o.persistOk)
    requires Unbound(w.store, w.store.tracked[0].messageId, ParseAddArgs(content).emoji.value)
    requires ParseAddArgs(content).roleId.value in w.guild.roleCache
    requires userId in w.guild.members
    ensures var w1 := AddRoleReaction(w, channelId, content, o).0;
            var args := ParseAddArgs(content);
            var ev := ReactionEvent(w.store.tracked[0].messageId, args.emoji.value, userId, false);
            var w2 := OnReactionAdd(w1, ev, grantOk);
            && w2.guild.members[userId] ==
                 (if grantOk then w.guild.members[userId] + {args.roleId.value} else w.guild.members[userId])
            && OnReactionRemove(w2, ev, revokeOk).guild.members[userId] ==
                 (if revokeOk then w2.guild.members[userId] - {args.roleId.value} else w2.guild.members[userId])
  {
    var args := ParseAddArgs(content);
    var m := w.store.tracked[0].messageId;
    var row := BindingRow(m, args.emoji.value, args.roleId.value);
    var w1 := AddRoleReaction(w, channelId, content, o).0;
    FindBindingAppend(w.store.bindings, row, m, args.emoji.value);
    assert FindBinding(w1.store.bindings, m, args.emoji.value) == Some(row);
  }

  /** A second binding for an emoji that is already bound is stored but never
      used: reactions keep resolving to the earlier row. */
  lemma DuplicateBindingIsShadowed(w: World, channelId: Id, content: string, o: AddOutcomes)
    requires |w.store.tracked| > 0
    requires RowAccepted(ParseAddArgs(content), o.persistOk)
    requires !Unbound(w.store, w.store.tracked[0].messageId, ParseAddArgs(content).emoji.value)
    ensures var w1 := AddRoleReaction(w, channelId, content, o).0;
            var m := w.store.tracked[0].messageId;
            var e := ParseAddArgs(content).emoji.value;
            && |w1.store.bindings| == |w.store.bindings| + 1
            && FindBinding(w1.store.bindings, m, e) == FindBinding(w.store.bindings, m, e)
  {
    var args := ParseAddArgs(content);
    var m := w.store.tracked[0].messageId;
    FindBindingAppend(w.store.bindings, BindingRow(m, args.emoji.value, args.roleId.value), m, args.emoji.value);
  }

  /** Posting again never changes which message the add command and the
      startup pass treat as the tracked one: the new row goes after it. */
  lemma RepostKeepsFirstTracked(w: World, channelId: Id, choices: seq<RoleChoice>, o: PostOutcomes)
    requires |w.store.tracked| > 0
    ensures FirstTracked(PostChoices(w, channelId, choices, o).0.store) == FirstTracked(w.store)
  {
  }

  /** The rows of freshly bound choices are exactly the rows the startup pass
      selects for that message when no older row names it. */
  lemma {:induction false} BindingsForRows(messageId: Id, choices: seq<RoleChoice>)
    ensures BindingsFor(Rows(messageId, choices), messageId) == Rows(messageId, choices)
    decreases |choices|
  {
    if |choices| > 0 {
      var rows := Rows(messageId, choices);
      assert rows[1..] == Rows(messageId, choices[1..]);
      BindingsForRows(messageId, choices[1..]);
    }
  }

  /** After a successful post into a store with no tracked message and no
      row naming the new message, a startup pass that reaches the message
      reacts with exactly the posted choices' emojis, in their listed order
      (for `!postReactionMessage`, the three fixed ones). */
  lemma StartupAfterPostReactsWithChoices(w: World, channelId: Id, choices: seq<RoleChoice>,
                                          po: PostOutcomes, so: StartupOutcomes)
    requires |w.store.tracked| == 0 && Unused(w.store.bindings, po.newMessageId)
    requires PostChoices(w, channelId, choices, po).1.Posted?
    requires so.channelOk
    requires FetchMessageWithRetry(so.attempt).Fetched? && FetchMessageWithRetry(so.attempt).present
    requires forall j :: 0 <= j < |choices| ==> so.reactOk(j)
    ensures Reconcile(PostChoices(w, channelId, choices, po).0, so).1 == Reacted(ChoiceEmojis(choices), true)
  {
    var w1 := PostChoices(w, channelId, choices, po).0;
    var m := po.newMessageId;
    assert w1.store.tracked == [TrackedRow(m, channelId)];
    assert choices[..|choices|] == choices;
    assert w1.store.bindings == w.store.bindings + Rows(m, choices);
    BindingsForAppend(w.store.bindings, Rows(m, choices), m);
    BindingsForUnused(w.store.bindings, m);
    BindingsForRows(m, choices);
    assert BoundEmojis(w1.store, m) == ChoiceEmojis(choices);
  }

  /** Looking up a freshly posted choice finds the row the post wrote for it. */
  lemma FindPostedChoice(rows: seq<BindingRow>, messageId: Id, choices: seq<RoleChoice>, k: nat)
    requires Unused(rows, messageId)
    requires DistinctEmojis(choices)
    requires k < |choices|
    ensures FindBinding(rows + Rows(messageId, choices), messageId, choices[k].emoji) ==
              Some(BindingRow(messageId, choices[k].emoji, choices[k].roleId))
  {
    var all := rows + Rows(messageId, choices);
    var e := choices[k].emoji;
    assert Binds(all[|rows| + k], messageId, e);
    var found := FindBindingIndex(all, messageId, e).value;
    assert found == |rows| + k;
  }

  /** After a successful `!postReactionMessage`, reacting with one of the
      fixed emojis on the new message grants that emoji's fixed role. */
  lemma PostedChoiceGrantsRole(w: World, channelId: Id, po: PostOutcomes, k: nat, userId: Id)
    requires Unused(w.store.bindings, po.newMessageId)
    requires PostReactionMessage(w, channelId, po).1.Posted?
    requires k < 3
    requires DefaultChoices[k].roleId in w.guild.roleCache
    requires userId in w.guild.members
    ensures var w1 := PostReactionMessage(w, channelId, po).0;
            var ev := ReactionEvent(po.newMessageId, DefaultChoices[k].emoji, userId, false);
            OnReactionAdd(w1, ev, true).guild.members[userId] ==
              w.guild.members[userId] + {DefaultChoices[k].roleId}
  {
    DefaultChoicesDistinct();
    assert DefaultChoices[..|DefaultChoices|] == DefaultChoices;
    FindPostedChoice(w.store.bindings, po.newMessageId, DefaultChoices, k);
  }

  /** Running the startup pass again after a complete pass changes nothing
      further in the set of the bot's reactions. */
  lemma ReconcileIdempotent(w: World, o1: StartupOutcomes, o2: StartupOutcomes)
    requires Reconcile(w, o1).1.Reacted? && Reconcile(w, o1).1.complete
    ensures var w1 := Reconcile(w, o1).0;
            forall m :: AppliedOn(Reconcile(w1, o2).0.applied, m) == AppliedOn(w1.applied, m)
  {
  }
}
