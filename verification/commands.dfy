/** The `messageCreate` handler: the `!postReactionMessage` and
    `!addRoleReaction` chat commands. */
module Commands {
  import opened State
  import opened Text

  const PostCommand: string := "!postReactionMessage"
  const AddCommand: string := "!addRoleReaction"

  /** An emoji offered on the posted message and the role it confers. */
  datatype RoleChoice = RoleChoice(emoji: string, roleId: Id)

  /** Choices offered on one message must be told apart by their emoji. */
  predicate DistinctEmojis(choices: seq<RoleChoice>)
  {
    forall i, j :: 0 <= i < j < |choices| ==> choices[i].emoji != choices[j].emoji
  }

  /** The three hard-wired choices, in the order they are applied. The emoji
      literals copy the source's literals character for character (UTF-8
      emoji bytes read back as Windows-1252); they are treated as opaque
      names. */
  const DefaultChoices: seq<RoleChoice> := [
    RoleChoice("\U{F0}\U{178}\U{152}\U{17E}", "1248651801960513536"),
    RoleChoice("\U{F0}\U{178}\U{A0}", "1248651723703324893"),
    RoleChoice("\U{F0}\U{178}\U{2018}\U{B4}", "1248651987868717208")
  ]

  /** The three choices are told apart by emoji and by role. */
  lemma DefaultChoicesDistinct()
    ensures |DefaultChoices| == 3
    ensures DistinctEmojis(DefaultChoices)
    ensures forall i, j :: 0 <= i < j < 3 ==> DefaultChoices[i].roleId != DefaultChoices[j].roleId
  {
  }

  function ChoiceEmojis(choices: seq<RoleChoice>): (r: seq<string>)
    ensures |r| == |choices|
    ensures forall i :: 0 <= i < |r| ==> r[i] == choices[i].emoji
  {
    seq(|choices|, i requires 0 <= i < |choices| => choices[i].emoji)
  }

  /** The RoleReaction rows that bind `choices` to message `messageId`. */
  function Rows(messageId: Id, choices: seq<RoleChoice>): (r: seq<BindingRow>)
    ensures |r| == |choices|
    ensures forall i :: 0 <= i < |r| ==> r[i] == BindingRow(messageId, choices[i].emoji, choices[i].roleId)
  {
    seq(|choices|, i requires 0 <= i < |choices| => BindingRow(messageId, choices[i].emoji, choices[i].roleId))
  }

  // ---------------------------------------------------------------------
  // !postReactionMessage

  /** Outcomes of the calls the post command makes: sending the message
      (and the id the platform gives it), persisting the tracked row, and
      the i-th `react` and i-th binding `create`. */
  datatype PostOutcomes = PostOutcomes(
    sendOk: bool,
    newMessageId: Id,
    trackOk: bool,
    reactOk: nat -> bool,
    persistOk: nat -> bool)

  /** Where the post command stopped; `step` counts choices from 0. */
  datatype PostReport =
    | Posted
    | SendFailed
    | TrackFailed
    | ReactFailed(step: nat)
    | PersistFailed(step: nat)

  /** How many choices were both reacted and persisted before the stop. */
  function BoundCount(rep: PostReport, n: nat): nat
  {
    match rep
    case ReactFailed(k) => k
    case PersistFailed(k) => k
    case _ => n
  }

  /** How many `react` calls succeeded before the stop. */
  function ReactedCount(rep: PostReport, n: nat): nat
  {
    match rep
    case ReactFailed(k) => k
    case PersistFailed(k) => k + 1
    case _ => n
  }

  /** The loop over the choices from position `i` on: react, then persist the
      row; the first step that throws ends the loop and nothing done before
      it is undone. */
  function BindEach(w: World, messageId: Id, choices: seq<RoleChoice>,
                    reactOk: nat -> bool, persistOk: nat -> bool, i: nat): (r: (World, PostReport))
    requires i <= |choices|
    ensures r.1.Posted? || r.1.ReactFailed? || r.1.PersistFailed?
    ensures r.0.guild == w.guild && r.0.outbox == w.outbox && r.0.store.tracked == w.store.tracked
    ensures r.1.Posted? ==> forall j :: i <= j < |choices| ==> reactOk(j) && persistOk(j)
    ensures r.1.ReactFailed? ==>
              && i <= r.1.step < |choices|
              && (forall j :: i <= j < r.1.step ==> reactOk(j) && persistOk(j))
              && !reactOk(r.1.step)
    ensures r.1.PersistFailed? ==>
              && i <= r.1.step < |choices|
              && (forall j :: i <= j < r.1.step ==> reactOk(j) && persistOk(j))
              && reactOk(r.1.step) && !persistOk(r.1.step)
    decreases |choices| - i
  {
    if i == |choices| then
      (w, Posted)
    else if !reactOk(i) then
      (w, ReactFailed(i))
    else
      var c := choices[i];
      var w1 := w.(applied := React(w.applied, messageId, c.emoji));
      if !persistOk(i) then
        (w1, PersistFailed(i))
      else
        var row := BindingRow(messageId, c.emoji, c.roleId);
        var w2 := w1.(store := w1.store.(bindings := w1.store.bindings + [row]));
        BindEach(w2, messageId, choices, reactOk, persistOk, i + 1)
  }

  /** The loop's rows: the row of every choice both reacted and persisted
      before the stop is appended, in order, and nothing else is written. */
  lemma {:induction false} BindEachRows(w: World, messageId: Id, choices: seq<RoleChoice>,
                                        reactOk: nat -> bool, persistOk: nat -> bool, i: nat)
    requires i <= |choices|
    ensures var r := BindEach(w, messageId, choices, reactOk, persistOk, i);
            r.0.store.bindings == w.store.bindings + Rows(messageId, choices[i..BoundCount(r.1, |choices|)])
    decreases |choices| - i
  {
    var r := BindEach(w, messageId, choices, reactOk, persistOk, i);
    if i == |choices| || !reactOk(i) {
      assert r.0 == w && BoundCount(r.1, |choices|) == i;
      assert Rows(messageId, choices[i..i]) == [];
    } else {
      var c := choices[i];
      var w1 := w.(applied := React(w.applied, messageId, c.emoji));
      if !persistOk(i) {
        assert r == (w1, PersistFailed(i));
        assert Rows(messageId, choices[i..i]) == [];
      } else {
        var row := BindingRow(messageId, c.emoji, c.roleId);
        var w2 := w1.(store := w1.store.(bindings := w1.store.bindings + [row]));
        assert r == BindEach(w2, messageId, choices, reactOk, persistOk, i + 1);
        BindEachRows(w2, messageId, choices, reactOk, persistOk, i + 1);
        RowsCons(messageId, choices, i, BoundCount(r.1, |choices|));
      }
    }
  }

  /** The loop's reactions: the emojis of the choices whose `react` call
      succeeded land on the posted message, and no other message changes. */
  lemma {:induction false} BindEachReactions(w: World, messageId: Id, choices: seq<RoleChoice>,
                                             reactOk: nat -> bool, persistOk: nat -> bool, i: nat)
    requires i <= |choices|
    ensures var r := BindEach(w, messageId, choices, reactOk, persistOk, i);
            && AppliedOn(r.0.applied, messageId) ==
                 AppliedOn(w.applied, messageId) + Elems(ChoiceEmojis(choices[i..ReactedCount(r.1, |choices|)]))
            && forall m :: m != messageId ==> AppliedOn(r.0.applied, m) == AppliedOn(w.applied, m)
    decreases |choices| - i
  {
    var r := BindEach(w, messageId, choices, reactOk, persistOk, i);
    if i == |choices| || !reactOk(i) {
      assert r.0 == w && ReactedCount(r.1, |choices|) == i;
      assert Elems(ChoiceEmojis(choices[i..i])) == {};
    } else {
      var c := choices[i];
      var w1 := w.(applied := React(w.applied, messageId, c.emoji));
      if !persistOk(i) {
        assert r == (w1, PersistFailed(i));
        assert ChoiceEmojis(choices[i..i + 1]) == [c.emoji];
      } else {
        var row := BindingRow(messageId, c.emoji, c.roleId);
        var w2 := w1.(store := w1.store.(bindings := w1.store.bindings + [row]));
        assert r == BindEach(w2, messageId, choices, reactOk, persistOk, i + 1);
        BindEachReactions(w2, messageId, choices, reactOk, persistOk, i + 1);
        EmojisCons(choices, i, ReactedCount(r.1, |choices|));
      }
    }
  }

  lemma RowsCons(messageId: Id, choices: seq<RoleChoice>, i: nat, b: nat)
    requires i < b <= |choices|
    ensures Rows(messageId, choices[i..b]) ==
              [BindingRow(messageId, choices[i].emoji, choices[i].roleId)] + Rows(messageId, choices[i + 1..b])
  {
  }

  lemma EmojisCons(choices: seq<RoleChoice>, i: nat, e: nat)
    requires i < e <= |choices|
    ensures Elems(ChoiceEmojis(choices[i..e])) == {choices[i].emoji} + Elems(ChoiceEmojis(choices[i + 1..e]))
  {
  }

  /** The post command offering `choices`, sent in channel `channelId`:
      send the message, persist it as tracked, then react and persist each
      choice in turn. */
  function PostChoices(w: World, channelId: Id, choices: seq<RoleChoice>, o: PostOutcomes): (r: (World, PostReport))
    ensures r.0.guild == w.guild
    ensures forall m :: m != o.newMessageId ==> AppliedOn(r.0.applied, m) == AppliedOn(w.applied, m)
    // success: one tracked row, then the three bindings in order, all on the new message
    ensures r.1.Posted? <==>
              && o.sendOk && o.trackOk
              && forall j :: 0 <= j < |choices| ==> o.reactOk(j) && o.persistOk(j)
    // the send or the tracked row failed: the store and reactions stay as they were
    ensures r.1.SendFailed? <==> !o.sendOk
    ensures r.1.SendFailed? ==> r.0 == Say(w, channelId, PostFailed)
    ensures r.1.TrackFailed? <==> o.sendOk && !o.trackOk
    ensures r.1.TrackFailed? ==>
              r.0 == w.(outbox := w.outbox + [Reply(channelId, ReactionPrompt), Reply(channelId, PostFailed)])
    ensures r.1.ReactFailed? ==>
              && r.1.step < |choices|
              && (forall j :: 0 <= j < r.1.step ==> o.reactOk(j) && o.persistOk(j))
              && !o.reactOk(r.1.step)
    ensures r.1.PersistFailed? ==>
              && r.1.step < |choices|
              && (forall j :: 0 <= j < r.1.step ==> o.reactOk(j) && o.persistOk(j))
              && o.reactOk(r.1.step) && !o.persistOk(r.1.step)
    // once the tracked row is stored, every finished step stays done; a failed step adds one notice
    ensures o.sendOk && o.trackOk ==>
              && r.0.store.tracked == w.store.tracked + [TrackedRow(o.newMessageId, channelId)]
              && r.0.store.bindings == w.store.bindings + Rows(o.newMessageId, choices[..BoundCount(r.1, |choices|)])
              && AppliedOn(r.0.applied, o.newMessageId) ==
                   AppliedOn(w.applied, o.newMessageId) + Elems(ChoiceEmojis(choices[..ReactedCount(r.1, |choices|)]))
              && r.0.outbox == w.outbox + [Reply(channelId, ReactionPrompt)] +
                                 (if r.1.Posted? then [] else [Reply(channelId, PostFailed)])
  {
    if !o.sendOk then
      (Say(w, channelId, PostFailed), SendFailed)
    else
      var w1 := Say(w, channelId, ReactionPrompt);
      if !o.trackOk then
        (Say(w1, channelId, PostFailed), TrackFailed)
      else
        var w2 := w1.(store := w1.store.(tracked := w1.store.tracked + [TrackedRow(o.newMessageId, channelId)]));
        var (w3, rep) := BindEach(w2, o.newMessageId, choices, o.reactOk, o.persistOk, 0);
        BindEachRows(w2, o.newMessageId, choices, o.reactOk, o.persistOk, 0);
        BindEachReactions(w2, o.newMessageId, choices, o.reactOk, o.persistOk, 0);
        assert choices[0..BoundCount(rep, |choices|)] == choices[..BoundCount(rep, |choices|)];
        assert choices[0..ReactedCount(rep, |choices|)] == choices[..ReactedCount(rep, |choices|)];
        if rep.Posted? then (w3, Posted) else (Say(w3, channelId, PostFailed), rep)
  }

  /** `!postReactionMessage` sent in channel `channelId`: the post command
      with the three fixed choices. */
  function PostReactionMessage(w: World, channelId: Id, o: PostOutcomes): (r: (World, PostReport))
    ensures r.1.Posted? ==>
              && r.0.store.tracked == w.store.tracked + [TrackedRow(o.newMessageId, channelId)]
              && r.0.store.bindings == w.store.bindings + Rows(o.newMessageId, DefaultChoices)
              && r.0.outbox == w.outbox + [Reply(channelId, ReactionPrompt)]
              && AppliedOn(r.0.applied, o.newMessageId) ==
                   AppliedOn(w.applied, o.newMessageId) + Elems(ChoiceEmojis(DefaultChoices))
    ensures r.1.Posted? ==>
              && |r.0.store.tracked| == |w.store.tracked| + 1
              && r.0.store.tracked[|w.store.tracked|] == TrackedRow(o.newMessageId, channelId)
              && |r.0.store.bindings| == |w.store.bindings| + 3
              && forall i :: 0 <= i < 3 ==>
                   r.0.store.bindings[|w.store.bindings| + i] ==
                     BindingRow(o.newMessageId, DefaultChoices[i].emoji, DefaultChoices[i].roleId)
  {
    assert DefaultChoices[..|DefaultChoices|] == DefaultChoices;
    PostChoices(w, channelId, DefaultChoices, o)
  }

  // ---------------------------------------------------------------------
  // !addRoleReaction <emoji> <roleId>

  /** Destructuring `[command, emoji, roleId]` of the split text: a field
      that is not there is `undefined`. */
  function Field(fields: seq<string>, i: nat): Option<string>
  {
    if i < |fields| then Some(fields[i]) else None
  }

  datatype AddArgs = AddArgs(emoji: Option<string>, roleId: Option<string>)

  /** The second and third space-separated fields of the command text;
      anything after the third field is ignored. */
  function ParseAddArgs(content: string): (r: AddArgs)
    ensures r.emoji.None? <==> SpaceFree(content)
    ensures r.roleId.Some? ==> r.emoji.Some?
    ensures r.emoji.Some? ==> SpaceFree(r.emoji.value)
    ensures r.roleId.Some? ==> SpaceFree(r.roleId.value)
  {
    SplitOneFieldIff(content);
    var fields := Split(content);
    AddArgs(Field(fields, 1), Field(fields, 2))
  }

  /** On text made of space-free fields, the arguments are exactly the
      second and third of those fields. */
  lemma ParseAddArgsFields(fields: seq<string>)
    requires |fields| >= 1
    requires forall i :: 0 <= i < |fields| ==> SpaceFree(fields[i])
    ensures ParseAddArgs(Join(fields)) == AddArgs(Field(fields, 1), Field(fields, 2))
  {
    SplitJoin(fields);
  }

  /** `<word> <emoji> <roleId><tail>` yields `emoji` and `roleId` whatever
      follows, as long as the tail is empty or starts a new field. */
  lemma {:induction false} ParseAddArgsWellFormed(word: string, emoji: string, roleId: string, tail: string)
    requires SpaceFree(word) && SpaceFree(emoji) && SpaceFree(roleId)
    requires tail == [] || tail[0] == Space
    ensures ParseAddArgs(word + [Space] + emoji + [Space] + roleId + tail) == AddArgs(Some(emoji), Some(roleId))
  {
    var s := word + [Space] + emoji + [Space] + roleId + tail;
    if tail == [] {
      assert [word, emoji, roleId][1..] == [emoji, roleId];
      assert [emoji, roleId][1..] == [roleId];
      assert Join([emoji, roleId]) == emoji + [Space] + roleId;
      assert s == word + [Space] + emoji + [Space] + roleId;
      assert s == Join([word, emoji, roleId]);
      ParseAddArgsFields([word, emoji, roleId]);
    } else {
      var rest := Split(tail[1..]);
      assert tail == [Space] + Join(rest);
      var fields := [word, emoji, roleId] + rest;
      assert Join(fields) == word + [Space] + Join(fields[1..]);
      assert fields[1..] == [emoji, roleId] + rest;
      assert Join(fields[1..]) == emoji + [Space] + Join(fields[2..]);
      assert fields[2..] == [roleId] + rest;
      assert Join(fields[2..]) == roleId + [Space] + Join(rest);
      assert s == Join(fields);
      ParseAddArgsFields(fields);
    }
  }

  /** Outcomes of the calls the add command makes after its lookup: the row
      `create`, the channel fetch, the message fetch and the `react`. */
  datatype AddOutcomes = AddOutcomes(persistOk: bool, channelOk: bool, fetchOk: bool, reactOk: bool)

  datatype AddReport =
    | EmptyState            // no tracked row: "No reaction message found."
    | RowRejected           // the create threw; nothing was stored
    | MessageUnreachable    // the row is stored but the reaction could not be applied
    | BindingAdded

  /** The row `create` is refused when a field is `undefined` (the columns
      are declared non-null) or when the store fails. */
  predicate RowAccepted(args: AddArgs, persistOk: bool)
  {
    args.emoji.Some? && args.roleId.Some? && persistOk
  }

  /** `RoleReaction.create` for the row `(messageId, emoji, roleId)`: it
      appends exactly that one row, or, refused, leaves the table as it was. */
  function CreateBinding(rows: seq<BindingRow>, messageId: Id, args: AddArgs, persistOk: bool): (r: Option<seq<BindingRow>>)
    ensures r.Some? <==> args.emoji.Some? && args.roleId.Some? && persistOk
    ensures r.Some? ==> |r.value| == |rows| + 1 && r.value[..|rows|] == rows
    ensures r.Some? ==> r.value[|rows|] == BindingRow(messageId, args.emoji.value, args.roleId.value)
  {
    if RowAccepted(args, persistOk) then
      Some(rows + [BindingRow(messageId, args.emoji.value, args.roleId.value)])
    else
      None
  }

  /** `!addRoleReaction ...` sent in channel `channelId` with text `content`. */
  function AddRoleReaction(w: World, channelId: Id, content: string, o: AddOutcomes): (r: (World, AddReport))
    ensures r.0.guild == w.guild && r.0.store.tracked == w.store.tracked
    // empty state: a notice and no other effect
    ensures r.1.EmptyState? <==> |w.store.tracked| == 0
    ensures r.1.EmptyState? ==> r.0 == Say(w, channelId, NoReactionMessage)
    // the row is written before anything that can fail afterwards
    ensures r.1.RowRejected? <==> |w.store.tracked| > 0 && !RowAccepted(ParseAddArgs(content), o.persistOk)
    ensures r.1.RowRejected? ==> r.0 == Say(w, channelId, AddFailed)
    ensures r.1.MessageUnreachable? || r.1.BindingAdded? ==>
              var args := ParseAddArgs(content);
              && |w.store.tracked| > 0
              && RowAccepted(args, o.persistOk)
              && r.0.store.bindings ==
                   w.store.bindings + [BindingRow(w.store.tracked[0].messageId, args.emoji.value, args.roleId.value)]
    ensures r.1.MessageUnreachable? ==>
              && !(o.channelOk && o.fetchOk && o.reactOk)
              && r.0.applied == w.applied
              && r.0.outbox == w.outbox + [Reply(channelId, AddFailed)]
    ensures r.1.BindingAdded? ==>
              var args := ParseAddArgs(content);
              var m := w.store.tracked[0].messageId;
              && o.channelOk && o.fetchOk && o.reactOk
              && AppliedOn(r.0.applied, m) == AppliedOn(w.applied, m) + {args.emoji.value}
              && (forall m' :: m' != m ==> AppliedOn(r.0.applied, m') == AppliedOn(w.applied, m'))
              && r.0.outbox == w.outbox + [Reply(channelId, RoleReactionAdded(args.emoji.value, args.roleId.value))]
  {
    var args := ParseAddArgs(content);
    match FirstTracked(w.store)
    case None => (Say(w, channelId, NoReactionMessage), EmptyState)
    case Some(t) =>
      match CreateBinding(w.store.bindings, t.messageId, args, o.persistOk)
      case None => (Say(w, channelId, AddFailed), RowRejected)
      case Some(rows) =>
        var row := BindingRow(t.messageId, args.emoji.value, args.roleId.value);
        assert rows == w.store.bindings + [row];
        var w1 := w.(store := w.store.(bindings := rows));
        if !(o.channelOk && o.fetchOk && o.reactOk) then
          (Say(w1, channelId, AddFailed), MessageUnreachable)
        else
          var w2 := w1.(applied := React(w1.applied, t.messageId, row.emoji));
          (Say(w2, channelId, RoleReactionAdded(row.emoji, row.roleId)), BindingAdded)
  }

  /** The bare command word has no arguments, so with a tracked message the
      row is refused; the prefix match still selects the command. */
  lemma BareAddCommandIsRejected(w: World, channelId: Id, o: AddOutcomes)
    requires |w.store.tracked| > 0
    ensures IsAddCommand(AddCommand)
    ensures AddRoleReaction(w, channelId, AddCommand, o).1 == RowRejected
  {
    SplitWord(AddCommand);
  }

  // ---------------------------------------------------------------------
  // dispatch

  predicate IsPostCommand(content: string)
  {
    content == PostCommand
  }

  /** `content.startsWith('!addRoleReaction')`. */
  predicate IsAddCommand(content: string)
  {
    AddCommand <= content
  }

  /** No text selects both commands. */
  lemma CommandsExclusive(content: string)
    ensures !(IsPostCommand(content) && IsAddCommand(content))
  {
    assert PostCommand[1] == 'p' && AddCommand[1] == 'a';
  }

  /** A chat message with text `content` arrives in channel `channelId`. The
      two command checks run one after the other. */
  function OnMessageCreate(w: World, channelId: Id, content: string,
                           post: PostOutcomes, add: AddOutcomes): (r: World)
    ensures !IsPostCommand(content) && !IsAddCommand(content) ==> r == w
    ensures IsPostCommand(content) ==> r == PostReactionMessage(w, channelId, post).0
    ensures IsAddCommand(content) ==> r == AddRoleReaction(w, channelId, content, add).0
  {
    CommandsExclusive(content);
    var w1 := if IsPostCommand(content) then PostReactionMessage(w, channelId, post).0 else w;
    if IsAddCommand(content) then AddRoleReaction(w1, channelId, content, add).0 else w1
  }
}
