/** The state the reaction-role bot acts on: the two persisted tables, the
    guild's cached roles and members, the reactions the bot has put on
    messages, and the replies it has sent to channels.

    Every transition of the bot is a pure function from one `World` to the
    next; the outcome of each call into the chat platform or the store is
    passed in by the caller.
 */
module State {

  /** Platform identifiers (messages, channels, roles, users) are strings. */
  type Id = string

  datatype Option<+T> = None | Some(value: T)

  /** A row of the ReactionMessage table. */
  datatype TrackedRow = TrackedRow(messageId: Id, channelId: Id)

  /** A row of the RoleReaction table: reacting with `emoji` on message
      `messageId` confers role `roleId`. */
  datatype BindingRow = BindingRow(messageId: Id, emoji: string, roleId: Id)

  /** Both tables, each in insertion order. */
  datatype Store = Store(tracked: seq<TrackedRow>, bindings: seq<BindingRow>)

  /** The guild state a reaction handler can see without a network call:
      the role cache and, for every cached member, that member's roles. */
  datatype Guild = Guild(roleCache: set<Id>, members: map<Id, set<Id>>)

  /** What the bot says in a channel. */
  datatype Notice =
    | ReactionPrompt                       // the posted reaction message itself
    | PostFailed                           // generic failure of the post command
    | NoReactionMessage                    // empty-state answer of the add command
    | RoleReactionAdded(emoji: string, roleId: Id)
    | AddFailed                            // generic failure of the add command

  datatype Reply = Reply(channelId: Id, notice: Notice)

  /** `applied[m]` is the set of emojis the bot has reacted with on message `m`. */
  datatype World = World(store: Store, guild: Guild, applied: map<Id, set<string>>, outbox: seq<Reply>)

  /** `findOne()` without a condition: the first tracked row, if any. */
  function FirstTracked(s: Store): (r: Option<TrackedRow>)
    ensures r.None? <==> |s.tracked| == 0
    ensures r.Some? ==> r.value == s.tracked[0]
  {
    if |s.tracked| == 0 then None else Some(s.tracked[0])
  }

  predicate Binds(b: BindingRow, messageId: Id, emoji: string)
  {
    b.messageId == messageId && b.emoji == emoji
  }

  /** Position of the first row bound to `(messageId, emoji)`. */
  function FindBindingIndex(rows: seq<BindingRow>, messageId: Id, emoji: string): (r: Option<nat>)
    ensures r.None? <==> forall i :: 0 <= i < |rows| ==> !Binds(rows[i], messageId, emoji)
    ensures r.Some? ==> r.value < |rows| && Binds(rows[r.value], messageId, emoji)
    ensures r.Some? ==> forall j :: 0 <= j < r.value ==> !Binds(rows[j], messageId, emoji)
  {
    if |rows| == 0 then None
    else if Binds(rows[0], messageId, emoji) then Some(0)
    else match FindBindingIndex(rows[1..], messageId, emoji)
      case None => None
      case Some(i) => Some(i + 1)
  }

  /** `findOne({ where: { messageId, emoji } })`: the first matching row. */
  function FindBinding(rows: seq<BindingRow>, messageId: Id, emoji: string): (r: Option<BindingRow>)
    ensures r.None? <==> forall i :: 0 <= i < |rows| ==> !Binds(rows[i], messageId, emoji)
    ensures r.Some? ==> exists i :: 0 <= i < |rows| && rows[i] == r.value && Binds(r.value, messageId, emoji)
                                    && forall j :: 0 <= j < i ==> !Binds(rows[j], messageId, emoji)
  {
    match FindBindingIndex(rows, messageId, emoji)
    case None => None
    case Some(i) => Some(rows[i])
  }

  /** A row appended after a matching row never changes what the lookup finds;
      a lookup that found nothing finds the appended row if it matches. */
  lemma {:induction false} FindBindingAppend(rows: seq<BindingRow>, row: BindingRow, messageId: Id, emoji: string)
    ensures FindBinding(rows, messageId, emoji).Some? ==>
              FindBinding(rows + [row], messageId, emoji) == FindBinding(rows, messageId, emoji)
    ensures FindBinding(rows, messageId, emoji).None? ==>
              FindBinding(rows + [row], messageId, emoji) ==
                (if Binds(row, messageId, emoji) then Some(row) else None)
  {
    var rows' := rows + [row];
    match FindBindingIndex(rows, messageId, emoji)
    case Some(i) =>
      assert rows'[i] == rows[i];
      var k := FindBindingIndex(rows', messageId, emoji).value;
      assert k == i;
    case None =>
      if Binds(row, messageId, emoji) {
        assert rows'[|rows|] == row;
        var k := FindBindingIndex(rows', messageId, emoji).value;
        assert k == |rows|;
      } else {
        forall i | 0 <= i < |rows'|
          ensures !Binds(rows'[i], messageId, emoji)
        {
          if i < |rows| { assert rows'[i] == rows[i]; }
        }
      }
  }

  /** `findAll({ where: { messageId } })`: the rows of one message, in store order. */
  function BindingsFor(rows: seq<BindingRow>, messageId: Id): (r: seq<BindingRow>)
    ensures forall b :: b in r <==> b in rows && b.messageId == messageId
    ensures |r| <= |rows|
  {
    if |rows| == 0 then []
    else if rows[0].messageId == messageId then [rows[0]] + BindingsFor(rows[1..], messageId)
    else BindingsFor(rows[1..], messageId)
  }

  /** Filtering by message distributes over concatenation, so it keeps the
      store order of the rows it selects. */
  lemma {:induction false} BindingsForAppend(a: seq<BindingRow>, b: seq<BindingRow>, messageId: Id)
    ensures BindingsFor(a + b, messageId) == BindingsFor(a, messageId) + BindingsFor(b, messageId)
    decreases |a|
  {
    if |a| == 0 {
      assert a + b == b;
    } else {
      assert (a + b)[1..] == a[1..] + b;
      BindingsForAppend(a[1..], b, messageId);
    }
  }

  /** No row names message `messageId`. */
  predicate Unused(rows: seq<BindingRow>, messageId: Id)
  {
    forall i :: 0 <= i < |rows| ==> rows[i].messageId != messageId
  }

  /** A message no row names has no rows. */
  lemma {:induction false} BindingsForUnused(rows: seq<BindingRow>, messageId: Id)
    requires Unused(rows, messageId)
    ensures BindingsFor(rows, messageId) == []
    decreases |rows|
  {
    if |rows| > 0 {
      BindingsForUnused(rows[1..], messageId);
    }
  }

  /** The emoji column of a sequence of rows. */
  function Emojis(rows: seq<BindingRow>): (r: seq<string>)
    ensures |r| == |rows|
    ensures forall i :: 0 <= i < |rows| ==> r[i] == rows[i].emoji
  {
    seq(|rows|, i requires 0 <= i < |rows| => rows[i].emoji)
  }

  function AppliedOn(applied: map<Id, set<string>>, messageId: Id): set<string>
  {
    if messageId in applied then applied[messageId] else {}
  }

  /** `message.react(emoji)` succeeded: the bot's reactions on that message
      gain `emoji`, and those on every other message stay as they were. */
  function React(applied: map<Id, set<string>>, messageId: Id, emoji: string): (r: map<Id, set<string>>)
    ensures AppliedOn(r, messageId) == AppliedOn(applied, messageId) + {emoji}
    ensures forall m :: m != messageId ==> AppliedOn(r, m) == AppliedOn(applied, m)
  {
    applied[messageId := AppliedOn(applied, messageId) + {emoji}]
  }

  /** Elements of a sequence, as a set. */
  function Elems<T>(s: seq<T>): set<T>
  {
    set x | x in s
  }

  function Say(w: World, channelId: Id, n: Notice): World
  {
    w.(outbox := w.outbox + [Reply(channelId, n)])
  }
}
