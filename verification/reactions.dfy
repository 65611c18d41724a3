/** The `messageReactionAdd` and `messageReactionRemove` handlers: a member
    reacting on a bound message gains the bound role, and loses it again
    when the reaction is taken away. */
module Reactions {
  import opened State

  /** A live reaction event: who reacted, on which message, with which emoji. */
  datatype ReactionEvent = ReactionEvent(messageId: Id, emoji: string, userId: Id, userIsBot: bool)

  /** The role an event is about and the guards the handlers check before
      touching a member: not a bot, a bound row, the role cached, the member
      cached. `None` when any guard stops the handler. */
  function Target(w: World, ev: ReactionEvent): (r: Option<Id>)
    ensures r.Some? <==>
              && !ev.userIsBot
              && FindBinding(w.store.bindings, ev.messageId, ev.emoji).Some?
              && FindBinding(w.store.bindings, ev.messageId, ev.emoji).value.roleId in w.guild.roleCache
              && ev.userId in w.guild.members
    ensures r.Some? ==> r.value == FindBinding(w.store.bindings, ev.messageId, ev.emoji).value.roleId
  {
    if ev.userIsBot then None
    else match FindBinding(w.store.bindings, ev.messageId, ev.emoji)
      case None => None
      case Some(b) =>
        if b.roleId !in w.guild.roleCache then None
        else if ev.userId !in w.guild.members then None
        else Some(b.roleId)
  }

  /** Replace one member's roles. */
  function SetRoles(w: World, userId: Id, roles: set<Id>): World
  {
    w.(guild := w.guild.(members := w.guild.members[userId := roles]))
  }

  /** Only the acting member's roles may change; the store, the bot's
      reactions, the replies, the role cache and the set of cached members
      stay as they were. */
  ghost predicate OnlyMemberChanges(w: World, r: World, userId: Id)
  {
    && r.store == w.store && r.applied == w.applied && r.outbox == w.outbox
    && r.guild.roleCache == w.guild.roleCache
    && r.guild.members.Keys == w.guild.members.Keys
    && forall u :: u in w.guild.members && u != userId ==> r.guild.members[u] == w.guild.members[u]
  }

  /** `messageReactionAdd`. `grantOk` is the outcome of `member.roles.add`; a
      failure is logged and swallowed. */
  function OnReactionAdd(w: World, ev: ReactionEvent, grantOk: bool): (r: World)
    ensures OnlyMemberChanges(w, r, ev.userId)
    // the guards: a bot actor, no binding, an uncached role or member leave everything as it was
    ensures ev.userIsBot ==> r == w
    ensures var b := FindBinding(w.store.bindings, ev.messageId, ev.emoji);
            (b.None? || b.value.roleId !in w.guild.roleCache) ==> r == w
    ensures ev.userId !in w.guild.members ==> r == w
    ensures !grantOk ==> r == w
    // otherwise the member gains exactly the role of the first matching row
    ensures var b := FindBinding(w.store.bindings, ev.messageId, ev.emoji);
            (!ev.userIsBot && grantOk && ev.userId in w.guild.members && b.Some? && b.value.roleId in w.guild.roleCache) ==>
              r.guild.members[ev.userId] == w.guild.members[ev.userId] + {b.value.roleId}
  {
    match Target(w, ev)
    case None => w
    case Some(role) =>
      if grantOk then SetRoles(w, ev.userId, w.guild.members[ev.userId] + {role}) else w
  }

  /** `messageReactionRemove`. `revokeOk` is the outcome of
      `member.roles.remove`; a failure is logged and swallowed. */
  function OnReactionRemove(w: World, ev: ReactionEvent, revokeOk: bool): (r: World)
    ensures OnlyMemberChanges(w, r, ev.userId)
    ensures ev.userIsBot ==> r == w
    ensures var b := FindBinding(w.store.bindings, ev.messageId, ev.emoji);
            (b.None? || b.value.roleId !in w.guild.roleCache) ==> r == w
    ensures ev.userId !in w.guild.members ==> r == w
    ensures !revokeOk ==> r == w
    ensures var b := FindBinding(w.store.bindings, ev.messageId, ev.emoji);
            (!ev.userIsBot && revokeOk && ev.userId in w.guild.members && b.Some? && b.value.roleId in w.guild.roleCache) ==>
              r.guild.members[ev.userId] == w.guild.members[ev.userId] - {b.value.roleId}
  {
    match Target(w, ev)
    case None => w
    case Some(role) =>
      if revokeOk then SetRoles(w, ev.userId, w.guild.members[ev.userId] - {role}) else w
  }

  /** Adding and then removing the same reaction gives a member who lacked
      the bound role their original roles back. */
  lemma AddThenRemoveRestores(w: World, ev: ReactionEvent)
    requires ev.userId in w.guild.members
    requires Target(w, ev).Some? ==> Target(w, ev).value !in w.guild.members[ev.userId]
    ensures OnReactionRemove(OnReactionAdd(w, ev, true), ev, true) == w
  {
  }
}
