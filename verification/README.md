# Reaction-role bot, modelled in Dafny

This project models the reaction-role engine of a small chat bot. The bot
posts a message offering emoji reactions, and it stores which emoji on which
message confers which guild role. It then grants or revokes those roles as
members add or remove their reactions. After a restart it puts its own
reactions back on the tracked message.

Every handler of `index.js` is a pure function from one `World` to the next
(`state.dfy`):

- `Store`: the `ReactionMessage` table (`tracked`) and the `RoleReaction`
  table (`bindings`), each a sequence in insertion order.
- `Guild`: the cached role ids and, for each cached member, that member's
  roles.
- `applied`: for each message, the set of emojis the bot has reacted with.
- `outbox`: the replies sent to channels.

Every store write and every platform call except the channel replies takes
its outcome as an input: a flag, or an oracle `nat -> T` giving the outcome
of the i-th call of that kind. Store reads, the replies and the schema sync
are assumed to succeed (see "## Left out"). `Reconcile`, the post command and
the add command each return a report saying where they stopped; the message
dispatcher and the two reaction handlers return only the next `World`.

Modules:

- `State`: the data, the two store lookups and the `react` effect.
- `Text`: JavaScript's `split(' ')` and its inverse.
- `Retry`: the bounded retry of `fetchMessageWithRetry`.
- `Startup`: the `ready` reconciliation pass.
- `Commands`: the `messageCreate` handler, covering `!postReactionMessage`
  and `!addRoleReaction`.
- `Reactions`: the `messageReactionAdd` and `messageReactionRemove`
  handlers.
- `Scenarios`: properties that link several handlers.

Modelling assumptions:

- `findOne()` without a condition is the first tracked row, and
  `findOne({where})` is the first matching row, both in insertion order.
  `findAll({where})` (`index.js:74`) returns the matching rows in insertion
  order too. SQL promises no row order without an `order` clause, and the
  code gives none, so this is an assumption about the store. It is not a
  proved fact.
- One guild is modelled: `Guild` is a single role cache and a single member
  map. The code resolves the role and the member per event from the reacted
  message's own guild (`index.js:152`, `154`, `171`, `173`). `!addRoleReaction`
  is accepted from a channel of any guild and binds its row to the first
  tracked message. With several guilds, a row naming another guild's role
  would never grant or revoke anything, while in the model the role is granted
  whenever it is cached. `Target`, `OnReactionAdd`, `OnReactionRemove`,
  `AddedBindingDrivesReactions` and `PostedChoiceGrantsRole` rely on this
  single-guild view.
- The emoji literals of `index.js:95-97` are mis-encoded strings. They are
  kept character for character and treated as three distinct opaque names.
- The bot's reactions form a set per message. Whether the platform
  de-duplicates a repeated reaction is the platform's business. The
  idempotence stated here holds only in this set abstraction.
- `!addRoleReaction` with fewer than two arguments leaves a field
  `undefined`. The columns are declared non-null (`index.js:33-44`), so the
  store refuses the row and the command sends its generic error notice.

Behaviour of the code worth noting:

- `!postReactionMessage` is matched by equality, not by prefix.
- Each choice is reacted with before its row is persisted.
- Arguments after the third field of `!addRoleReaction` are ignored, not
  rejected.
- A second post appends a second tracked row instead of replacing the
  first. The first row stays "the" tracked message (`RepostKeepsFirstTracked`).

## Model

| member | source | states |
|---|---|---|
| State.FirstTracked | index.js:52-53 | the unconditioned lookup finds nothing exactly when no message is tracked, and otherwise the earliest tracked row |
| State.FindBindingIndex | index.js:149-150 | the lookup returns the position of a row bound to (message, emoji) with no matching row before it, and returns nothing exactly when no row matches |
| State.FindBinding | index.js:149-150 | the row found matches (message, emoji) and is the first such row in the store; nothing is found exactly when no row matches |
| State.FindBindingAppend | index.js:128-132 | appending a row never changes a lookup that already succeeded; a lookup that failed now finds the appended row exactly when it matches |
| State.BindingsFor | index.js:74 | a row is selected exactly when it is in the store and names the message |
| State.BindingsForAppend | index.js:74-75 | selecting by message distributes over concatenation, so the selected rows keep store order |
| State.React | index.js:76 | a successful react adds the emoji to that message's reactions and leaves every other message's reactions alone |
| Text.Split | index.js:121 | splitting on single spaces gives at least one field, no field contains a space, and joining the fields with spaces gives back the text |
| Text.SplitAfterWord | index.js:121 | a space-free word followed by a space is exactly the first field |
| Text.SplitOneFieldIff | index.js:121 | the text splits into one field exactly when it contains no space |
| Text.SplitJoin | index.js:121 | splitting undoes joining space-free fields, so split and join are inverse |
| Retry.FetchFrom | index.js:57-70 | the retry loop makes between 1 and retries+1 fetch calls with one wait between consecutive calls; every call before the last was rejected; it returns the first resolved call, or throws the last error once the budget is spent |
| Retry.FetchMessageWithRetry | index.js:57-72 | with the default budget of 3 retries, at most 4 fetch calls and at most 3 waits are made, with the same first-success and last-error guarantees |
| Retry.FetchSucceedsIff | index.js:57-69 | the fetch gives up exactly when all 4 calls reject; otherwise it stops at the earliest resolved call |
| Retry.ThreeFailuresThenSuccess | index.js:58-65 | three rejections followed by a resolution succeed on the fourth call after three waits |
| Retry.FourFailures | index.js:62-68 | four rejections throw the fourth error after exactly four calls and three waits |
| Startup.ReactEach | index.js:75-77 | the reaction loop applies the emojis one by one in order and stops at the first react call that throws; exactly the emojis before the stop are added, and only on that message |
| Startup.Reconcile | index.js:47-85 | with no tracked row nothing changes; otherwise only the first tracked message's reactions can change; the loop runs exactly when the channel and the message resolve; it reacts with a prefix of the bound emojis in store order, the whole list exactly when every react call succeeds; store, guild and outbox never change |
| Commands.DefaultChoicesDistinct | index.js:94-98 | the three fixed choices have pairwise distinct emojis and pairwise distinct roles |
| Commands.BindEach | index.js:105-112 | the choice loop reacts and then persists each choice; the first failing call stops it and is reported with its step, every earlier choice having succeeded in both calls; tracked rows, guild and outbox are untouched |
| Commands.BindEachRows | index.js:105-112 | the rows of exactly the choices fully done before the stop are appended, in choice order, with no rollback when a later call fails |
| Commands.BindEachReactions | index.js:105-112 | the reactions of every choice whose react call succeeded stay applied, a choice whose persist then failed included; no other message changes |
| Commands.PostChoices | index.js:88-116 | success happens exactly when every call succeeds and then adds one tracked row (new message, invoking channel) and one row per choice in order; a failed send or tracked-row write changes no table; a failure in the loop keeps the tracked row and the finished choices' rows and reactions, and adds one error notice |
| Commands.PostReactionMessage | index.js:88-112 | a successful post appends exactly one tracked row (new message, invoking channel) and exactly the three rows binding the new message to the fixed emoji/role pairs in the listed order, reacts with the three fixed emojis on it, and sends only the prompt |
| Commands.ParseAddArgs | index.js:121 | the emoji is missing exactly when the text has no space; a role id is present only with an emoji; both are space-free |
| Commands.ParseAddArgsFields | index.js:121 | on text made of space-free fields, the emoji is field 1 and the role is field 2 |
| Commands.ParseAddArgsWellFormed | index.js:119-121 | `<word> <emoji> <roleId>` followed by nothing or by further space-led text yields exactly that emoji and role |
| Commands.CreateBinding | index.js:128-132 | the create succeeds exactly when emoji and role id are both defined (the columns are non-null) and the store accepts the write, and then appends exactly one row (tracked message, emoji, role id) after the old rows |
| Commands.AddRoleReaction | index.js:119-142 | with no tracked row, the bot replies "No reaction message found." and both tables stay unchanged; a refused row changes nothing but adds the error notice; otherwise exactly one row (first tracked message, emoji, role) is stored before the fetch and the react, so a later failure leaves it stored and adds the error notice |
| Commands.BareAddCommandIsRejected | index.js:119-132 | when a message is tracked, the bare command word is selected by the prefix match but has no arguments, so its row is refused |
| Commands.CommandsExclusive | index.js:88-119 | no text selects both commands |
| Commands.OnMessageCreate | index.js:87-143 | text that matches neither command changes nothing; the exact post text runs the post command; text with the add prefix runs the add command |
| Reactions.Target | index.js:145-155 | a role is targeted exactly when the actor is not a bot, a row matches (message, emoji), its role is cached and the member is cached; the target is the role of the first matching row |
| Reactions.OnReactionAdd | index.js:145-162 | a bot actor, no matching row, an uncached role, an uncached member or a failed grant leave everything unchanged; otherwise the member's roles become old ∪ {role of the first matching row}; no other member and nothing outside the roles changes |
| Reactions.OnReactionRemove | index.js:164-181 | the same guards leave everything unchanged; otherwise the member's roles become old \ {role of the first matching row}; no other member changes |
| Reactions.AddThenRemoveRestores | index.js:145-181 | when both the grant and the revoke succeed, adding then removing a reaction gives a cached member who lacked the bound role exactly their original roles back |
| Scenarios.AddedBindingDrivesReactions | index.js:128-176 | after `!addRoleReaction` stores a row for an emoji not yet bound on the tracked message, and with that row's role and the member both cached, reacting grants exactly that row's role when the grant succeeds, and un-reacting revokes exactly it when the revoke succeeds; a failed call leaves the roles as they were |
| Scenarios.DuplicateBindingIsShadowed | index.js:128-150 | a second row for an already bound emoji is stored, but lookups keep returning the earlier row |
| Scenarios.RepostKeepsFirstTracked | index.js:100-123 | posting again never changes which tracked row the add command and the startup pass use |
| Scenarios.StartupAfterPostReactsWithChoices | index.js:52-112 | after a successful post into a store with no tracked row and no row naming the new message, a startup pass that reaches the message and whose every react call succeeds reacts with exactly the posted emojis, in order, and reports the pass complete |
| Scenarios.PostedChoiceGrantsRole | index.js:94-157 | after a successful post into a store with no row naming the new message, a cached member reacting with fixed emoji k on the new message gains fixed role k, provided that role is cached and the grant succeeds |
| Scenarios.ReconcileIdempotent | index.js:72-77 | after a complete startup pass, a second pass adds no reaction to any message |

## Left out

- Client construction, gateway intents, login and the token from the
  environment (`index.js:1-13`, `183`): library and process plumbing.
- Table definitions and `sequelize.sync()` (`index.js:15-45`, `49`): the
  tables are Dafny sequences. A failing schema sync is not modelled.
- Failing store reads (`findOne`, `findAll`): the model treats reads as
  always succeeding. Only writes (`create`) take an outcome.
- The one-second `setTimeout` pause and promise scheduling (`index.js:64`):
  waits are counted, not timed.
- Interleaving of concurrently running handlers: each handler is one atomic
  transition.
- Log output, and the body text of the posted prompt (`index.js:91`).
- A channel fetch at startup that resolves to nothing: the retry loop would
  then reject on every attempt. This is covered by the attempt oracle
  rejecting four times, not by a separate branch.
- The un-awaited channel replies (`index.js:115`, `125`, `137`): they are
  always appended to the outbox. A failure to deliver them is not modelled.
- How the platform updates its member cache after a role change: the
  model's member map is the cache, updated directly.
- Scenarios.ReconcileIdempotent: states idempotence only for the per-message set of
  reactions. The platform's own de-duplication of repeated reactions is not
  modelled.
- Reactions.OnReactionAdd: emoji identity is assumed, so the event's emoji
  is the same text as the stored token. That holds for Unicode emojis. For a
  custom emoji the command stores the token `<:name:id>`, while the event
  carries only `name` (`index.js:149`, `168`), so the lookup in the code never
  matches and no role is granted. The model does not distinguish the two
  kinds of emoji.
- Reactions.OnReactionRemove: the same emoji-identity assumption as for
  adding.
- The wording of the replies: each reply is a notice kind, not its text.
