# Ticket bot: a verified model of its ticket lifecycle

The bot in `tickets.js` runs a support-ticket workflow in a Discord guild. A
user picks a category from a menu, and the bot creates a private channel
`ticket-<userId>` whose topic records the opener and the category. Staff can
claim the ticket: the claim marker is appended to the topic, the permission
overwrites are rewritten, and the claim button is disabled. Staff can close
the ticket: a transcript of the channel is archived in a log channel and the
channel is deleted. A `ticket-transcript` button archives the transcript
without closing.

This project models that workflow in Dafny and proves what it does.

- `Wrappers`: the `Option` type.
- `Builtins`: the JavaScript built-ins the handlers rely on. These are
  `indexOf`, `includes`, `split` with a non-empty separator, `join`, `trim`
  (with ECMAScript's white-space set) and `reverse`.
- `Registry`: the `CATEGORY_NAMES` table, the fallback label `Ticket`, and
  the menu built from the table.
- `Topic`: the topic an open writes, the suffix a claim appends, the claim
  test, and the expression that reads the category back. Its two
  counterexample lemmas show why the round trip needs its conditions on the
  opener's tag.
- `Platform`: the chat platform's values (users, members, overwrites,
  buttons, messages, channels) and the history fetch. A history is stored
  oldest first; `fetch` returns it newest first.
- `Transcript`: the `filter`/`map`/`reverse`/`join` chain of
  `sendTranscript` and its `Sin mensajes.` placeholder.
- `Lifecycle`: the pure transitions on channel values. These are the new
  ticket, author recovery, the claim's overwrites, the search for the
  buttons to disable, and the claimed channel.
- `Tickets`: the guild's channel table as the class `Guild`. Its methods
  `Open`, `Claim`, `SendTranscript`, `ExportTranscript`, `Close` and `Handle`
  change the table step by step, in the order the handlers call the
  platform. Each method is proved equal to a step function on the old
  table. The lemmas prove the following about the step functions:
  - `OneTicketPerOwner` (no two channels share a ticket name) is preserved.
  - A claim happens at most once.
  - A close frees its owner to open a new ticket.
  - The archived transcript and category are what the open and the history
    determine.

Modelling choices:

- **Interactions.** An interaction is a `SelectMenu` or a `ButtonPress`.
  What the user sees is a `Reply`:
  - `Ignored`: an interaction no handler takes.
  - `Ephemeral`: a private reply.
  - `Public`: a message in the channel. The claim confirmation and the close
    notice are modelled as bot messages appended to the history.
  - `Unanswered`: the deferred reply is never filled in because the handler
    threw first.
- **Platform failures.** A failed `logChannel.send` and a failed
  `channel.delete` are boolean parameters.
- **Clock and fresh ids.** The clock (already rendered as text) and the id
  of a created channel are parameters.
- **Missing topic.** A missing topic is the empty topic. Both `topic || ''`
  and `topic?.split(...)` treat the two alike.
- **No category picked.** When the menu sends no value, `values[0]` is
  `undefined`. The lookup then uses the key `"undefined"` and falls back to
  `Ticket`.

In a few places the code does something other than what a reader of the
workflow would expect. The model follows the code:

- **Failed send on close.** A `send` to the log channel that fails throws out
  of `sendTranscript`. The timer callback then ends before
  `channel.delete()`, so the ticket stays (`FailedSendKeepsTicket`). One
  would expect the delete to be attempted whatever happened to the
  transcript, but it is not. When the log channel does
  not exist, nothing is sent and the channel is still deleted.
- **Summary user.** The transcript summary names the user who pressed the
  button, which for a close is the closer. It does not name the opener.
- **Unrecovered author.** When no author is recovered, `.filter(Boolean)`
  still keeps the fourth overwrite, whose `id` is then `undefined`. The
  filter reads as if it were meant to drop that entry, but it cannot drop an
  object.
- **Which buttons are disabled.** The claim disables the claim button on the
  newest of the last ten messages that has components. That message is the
  introduction only while no later message with components has been posted
  and the introduction is still among the last ten (`ClaimOfFreshTicket`).
- **Close notice in the transcript.** The close notice is a bot message. It
  is filtered out of the transcript, but it takes one of the hundred
  fetched slots (`CloseTranscript`).
- **Export.** The `ticket-transcript` handler has no staff check. It replies
  `Transcript enviado` even when there is no log channel.

## Model

| member | source | states |
|---|---|---|
| Builtins.IndexFrom | tickets.js:209 | `indexOf(sep, k)` returns the first index at or after `k` where `sep` occurs, or none when there is no such index. |
| Builtins.Contains | tickets.js:171 | `includes` holds exactly when the substring occurs at some index. |
| Builtins.Split | tickets.js:209 | `split` always yields at least one piece, so `[0]` is always defined. |
| Builtins.JoinSplit | tickets.js:209 | Joining the pieces of a split with the same separator gives back the string. |
| Builtins.SplitPiecesFree | tickets.js:209 | No piece of a split contains the separator. |
| Builtins.Trim | tickets.js:209 | `trim` yields a string whose ends are not white space, and the white space it removed surrounds that string in the input. |
| Builtins.TrimOfTrimmed | tickets.js:209 | Trimming a string that is already trimmed changes nothing. |
| Builtins.TrimDropsSpace | tickets.js:209 | One white-space character after a trimmed string is trimmed away. |
| Builtins.Reverse | tickets.js:76 | `reverse` keeps the length and puts element `i` at position `n-1-i`. |
| Builtins.ReverseAppend | tickets.js:76 | Reversing a concatenation concatenates the reversed parts in swapped order. |
| Builtins.ReverseReverse | tickets.js:76 | Reversing twice gives back the sequence. |
| Registry.CategoryName | tickets.js:107 | The label of a key is one of the registered labels or `Ticket`. |
| Registry.CategoryNameCases | tickets.js:21-27 | Each of the five keys maps to its own label, and every other key maps to `Ticket`. |
| Registry.MenuOptions | tickets.js:54-65 | Every option is a key of `CATEGORY_NAMES` titled with that key's label, every key of the table has an option, and no two options share a value. |
| Registry.KeysAreTheTable | tickets.js:21-27 | The five menu values are exactly the keys of `CATEGORY_NAMES`, each once, with the labels in the same order. |
| Registry.MenuMatchesRegistry | tickets.js:54-65 | Picking any menu option opens the ticket under that option's label, never under the fallback. |
| Topic.CategoryOf | tickets.js:209 | The category read from any topic is non-empty and trimmed. |
| Topic.ClaimTopicIsClaimed | tickets.js:171-175 | A claimed topic contains `Reclamado por`, so the claim check refuses every later claim. |
| Topic.CategoryOfTopic | tickets.js:209 | The category reads back from an open topic followed by nothing or by any further ` \|` field, provided the tag holds no `Categoría:` and the name is a safe label. |
| Topic.CategoryOfOpenTopic | tickets.js:123 | A freshly built topic reads back as its category. |
| Topic.CategoryOfClaimTopic | tickets.js:220 | A claimed topic still reads back as the category the open wrote. |
| Topic.CategoryOfUnmarked | tickets.js:209 | A topic without `Categoría: ` yields `Ticket`. |
| Topic.CategoryNamesAreSafe | tickets.js:21-27 | Every label the registry can hand out, the fallback included, is non-empty and trimmed, with no `\|` and no `Categoría:`. |
| Topic.FreshTopicUnclaimed | tickets.js:123 | A freshly opened ticket does not count as claimed, unless the opener's tag holds the claim marker. |
| Topic.HiddenTopicFirstMarker | tickets.js:123 | For the tag `Categoría:`, the first marker of the topic starts inside the tag. |
| Topic.HiddenSegmentIsEmpty | tickets.js:209 | For that topic, the segment after the misplaced marker is empty. |
| Topic.TagEndingInKeyHidesCategory | tickets.js:123 | A tag without `Categoría: ` (with the space) can still make the topic read back as `Ticket` instead of `Compras`, so the round trip needs the stronger condition on the tag. |
| Topic.TagWithClaimMarkerLooksClaimed | tickets.js:171 | A tag holding `Reclamado por` makes a fresh ticket look claimed. |
| Platform.Latest | tickets.js:72 | The fetch window is the last `min(n, limit)` messages of the history. |
| Platform.Recent | tickets.js:72 | `fetch({ limit })` returns that window newest first. |
| Transcript.Line | tickets.js:75 | Every transcript line starts with `[`. |
| Transcript.Humans | tickets.js:74 | The filter keeps no bot message and never more messages than it was given. |
| Transcript.HumansMembers | tickets.js:74 | The filter keeps exactly the messages whose author is not a bot. |
| Transcript.Lines | tickets.js:75 | There is one line per message, in the same order. |
| Transcript.FileText | tickets.js:81 | The file text is `Sin mensajes.` exactly when no non-bot message was fetched, and the rendered chain otherwise. |
| Transcript.HumansAppend | tickets.js:74 | The filter distributes over concatenation. |
| Transcript.HumansReverse | tickets.js:74-76 | Filtering commutes with reversing. |
| Transcript.LinesReverse | tickets.js:75-76 | Mapping lines commutes with reversing. |
| Transcript.TranscriptIsChronological | tickets.js:72-77 | The transcript has one line per non-bot message among the last hundred, oldest first. |
| Transcript.BotsNeverListed | tickets.js:74 | A bot's message never reaches the transcript. |
| Transcript.BotMessageIgnored | tickets.js:74 | Appending a bot message leaves the filtered list unchanged. |
| Transcript.LatestAppend | tickets.js:72 | One more message takes one slot of the fetch window. |
| Transcript.BotMessageTakesASlot | tickets.js:72-77 | A bot message posted last is left out of the transcript but still takes a slot, so the transcript covers only the 99 messages before it. |
| Lifecycle.NewTicket | tickets.js:119-138 | A new ticket is named `ticket-<userId>` and placed under the ticket category. |
| Lifecycle.FirstAuthorCandidate | tickets.js:177-181 | The `find` returns the first index whose overwrite allows viewing and whose subject is neither the staff role nor the guild, or none when no index qualifies. |
| Lifecycle.RecoverAuthor | tickets.js:177-181 | The recovered author is the id of the first qualifying overwrite, and nothing when none qualifies. |
| Lifecycle.RecoverOpener | tickets.js:177-181 | On the overwrites an open installs, the claim recovers the opener. |
| Lifecycle.DisableClaim | tickets.js:194-200 | The claim button in the row is disabled, and every other button is kept as it was. |
| Lifecycle.FirstWithComponents | tickets.js:192 | `find(m => m.components.length)` returns the first message with components, or none. |
| Lifecycle.ClaimTarget | tickets.js:192 | The message whose buttons are rewritten is the newest of the last ten messages that has components, or there is none. |
| Lifecycle.DisableClaimIn | tickets.js:192-201 | The edit changes no message other than the target. |
| Lifecycle.DisableClaimAt | tickets.js:193-201 | The target message keeps everything but its buttons. These become a single row as long as its old first row, in which exactly the `ticket-claim` buttons are disabled. Every other message is unchanged. |
| Lifecycle.ClaimedChannelIsClaimed | tickets.js:175 | A claimed channel's topic is claimed, and the channel keeps its name and parent. |
| Lifecycle.ClaimTargetsIntro | tickets.js:192 | When only the first message of a short history has buttons, that message is the target. |
| Lifecycle.DisableIntroRow | tickets.js:194-200 | On the introduction's row, `Reclamar` becomes disabled and `Cerrar` stays enabled. |
| Lifecycle.FreshHistoryDisabled | tickets.js:192-201 | On a history that starts with the introduction and has no later buttons, the edit changes only the introduction's row. |
| Lifecycle.ClaimOfFreshHistory | tickets.js:192-201 | On a fresh ticket's history, the claim rewrites the introduction's buttons, keeps every later message, and appends the notice. |
| Lifecycle.ClaimOfFreshTicket | tickets.js:167-205 | A claim of a fresh ticket does four things. The topic becomes claimed and still yields the category. The overwrites become exactly four: everyone denied viewing, staff read-only, the claimer and the opener with full rights. Only the claim button is disabled. The notice is appended. |
| Tickets.OpenOutcome | tickets.js:109-138 | If the user already has a ticket, the table is unchanged. Otherwise exactly one channel is added, with the ticket name, the topic `Ticket de <tag> \| Categoría: <label>`, the ticket category as parent, the three overwrites and the introduction message. |
| Tickets.OpenKeepsOneTicketPerOwner | tickets.js:109-115 | The duplicate check keeps at most one channel per ticket name. |
| Tickets.OpenLeavesATicket | tickets.js:109-138 | After an open the user has a ticket, whether the ticket was already there or has just been created. |
| Tickets.OpenedTicket | tickets.js:119-138 | The added ticket reads back its category, is unclaimed, and leaves every other channel unchanged. |
| Tickets.ClaimOutcome | tickets.js:167-190 | A claim by a non-staff member, or of a claimed ticket, changes nothing. Otherwise a claim changes only that channel: it appends the marker to the topic and installs exactly four overwrites. |
| Tickets.ClaimKeepsOneTicketPerOwner | tickets.js:167-205 | A claim keeps at most one channel per ticket name. |
| Tickets.SecondClaimRefused | tickets.js:170-175 | After a successful claim, every further claim leaves the table as it is. |
| Tickets.ArchiveKeepsNames | tickets.js:71-102 | Archiving changes no channel's name or topic and adds or removes no channel. |
| Tickets.ArchiveKeepsOneTicketPerOwner | tickets.js:71-102 | Archiving keeps at most one channel per ticket name. |
| Tickets.ArchivedEntry | tickets.js:84-98 | A delivered transcript becomes the log channel's newest message. Its summary names the user, the category, and the channel's name and id. Its file holds, oldest first, one line per non-bot message among the last hundred, or the placeholder. |
| Tickets.CloseKeepsOneTicketPerOwner | tickets.js:214-223 | A close keeps at most one channel per ticket name. |
| Tickets.CloseFreesOwner | tickets.js:219-223 | When the transcript is not lost and the delete succeeds, a close leaves the owner without a ticket. |
| Tickets.FailedSendKeepsTicket | tickets.js:221-222 | A failed send ends the close before the delete, so the ticket remains with the notice posted. |
| Tickets.CloseTranscript | tickets.js:217-221 | The transcript of a close covers the non-bot messages among the 99 before the notice. |
| Tickets.CloseFilesOpenedCategory | tickets.js:220-221 | A close, before or after a claim and whether or not the delete succeeds, files the transcript under the category picked at the open, with the closer as the summary's user. |
| Tickets.CloseLogsSummary | tickets.js:219-222 | After a close whose send succeeds, the log channel's newest message is the summary of that ticket: the closer, the topic's category, and the channel's name and id. The delete does not affect this. |
| Tickets.ExportKeepsOneTicketPerOwner | tickets.js:207-212 | An export keeps at most one channel per ticket name. |
| Tickets.OpenKeepsClaims | tickets.js:109-138 | An open leaves every existing channel, claimed or not, as it was. |
| Tickets.ClaimKeepsClaims | tickets.js:170-175 | A claim never clears a claim: it only turns an unclaimed channel into a claimed one. |
| Tickets.ArchiveKeepsClaims | tickets.js:71-102 | Archiving a transcript changes no topic, so every claimed channel stays claimed. |
| Tickets.ExportKeepsClaims | tickets.js:207-212 | An export keeps every claimed channel claimed. |
| Tickets.CloseKeepsClaims | tickets.js:214-223 | A claimed ticket that survives a close is still claimed. This covers a refused close, a failed send and a failed delete. |
| Tickets.ClaimedStaysRefused | tickets.js:170-173 | A ticket that was claimed at some point, after any steps that keep claims, is refused by every later claim with no change. |
| Tickets.Guild.Open | tickets.js:105-162 | Refuses, with the duplicate-ticket reply and no change, a user who has a ticket. Otherwise creates the ticket and replies with its mention. In both cases the user then has a ticket and the invariant is kept. |
| Tickets.Guild.Claim | tickets.js:167-205 | Refuses a non-staff member or a claimed ticket with the matching reply and no change. Otherwise claims the channel, which then counts as claimed, and replies publicly. |
| Tickets.Guild.SendTranscript | tickets.js:71-102 | Appends the log entry only when the log channel exists and the send succeeds, and reports which of the three outcomes happened. |
| Tickets.Guild.ExportTranscript | tickets.js:207-212 | Archives under the topic's category with no staff check. Replies `Transcript enviado` unless the send threw. |
| Tickets.Guild.Close | tickets.js:214-224 | Refuses a non-staff member with no change. Otherwise posts the notice, archives, and deletes the channel unless the send or the delete failed. |
| Tickets.Guild.Handle | tickets.js:104-226 | Routes the category menu to `Open` and the three buttons to their handlers. Every other interaction is ignored and leaves the table unchanged. No interaction clears the claim of a channel that still exists. |

## Left out

- Client construction, gateway intents, the ready log line and login (tickets.js:1-19, 29-31, 228): library plumbing with no ticket logic.
- The `!ticket` command and its embed (tickets.js:33-69), and all embed text and colours: only the menu's options are modelled, as `Registry.MenuOptions`.
- The 5-second `setTimeout` (tickets.js:219): a close runs the delayed callback to its end in the same step. Concurrency is not modelled. That covers two opens racing past the duplicate check, and two closes of one ticket.
- `fs.writeFileSync` / `fs.unlinkSync` and the temporary file (tickets.js:79-81, 101): file I/O. The file's text is modelled as the log entry's attachment. A failed send skips `unlinkSync`, so the model does not claim that the file is always removed.
- `createdAt.toLocaleString()` (tickets.js:75): each message carries its creation time as already-rendered text.
- `deferReply`/`editReply` sequencing: only the final reply is modelled.
- Failures of `channels.create`, `setTopic`, `permissionOverwrites.set` and `msg.edit`: these are assumed to succeed. Only the log send and the delete can fail in the model.
- How the platform treats an overwrite whose `id` is `undefined`: it is kept as `Overwrite(None, ...)`.
- The order of `permissionOverwrites.cache`: the model takes it to be the order in which the overwrites were set.
- Messages that users post are not an operation of the model. They are part of a channel's history as given. `Lifecycle.ClaimOfFreshTicket` and `Tickets.CloseFilesOpenedCategory` take their history as a parameter.
- Guild.Claim composes the topic, overwrite and history updates on a local channel value and stores it once. The source makes three separate platform calls, and nothing in the model runs between them.
- Registry.CategoryName: only the menu's own option values are modelled faithfully, and the platform delivers only those. In JavaScript, `CATEGORY_NAMES[key]` also finds the properties objects inherit. For `toString` it yields a function, which renders as its source text, and for `__proto__` it yields an object, which renders as `[object Object]`. The label is then neither a registered label nor `Ticket`. The model gives `Ticket` for every key outside the table.
- Registry.CategoryNameCases: "every other key maps to `Ticket`" holds for keys that are not inherited property names of a JavaScript object, for the reason just given.
- Tickets.OpenedTicket: requires the opener's tag to hold neither `Categoría:` nor `Reclamado por`. Without that, the category can fail to read back, as `Topic.TagEndingInKeyHidesCategory` shows, and a fresh ticket can look claimed, as `Topic.TagWithClaimMarkerLooksClaimed` shows.
- Lifecycle.ClaimOfFreshTicket: requires fewer than ten later messages, none with components. With more, the introduction leaves the claim's fetch window, and its buttons are not disabled.
- Tickets.Guild.Handle: requires a fresh id for a channel that may be created, and a button press to come from an existing channel. Interactions from outside the guild are not modelled.
